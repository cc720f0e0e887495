# gem yank, modelled in Dafny

`gem yank GEM -v VERSION [-p PLATFORM] [--undo] [--key KEY_NAME]` removes a
published version of a gem from the registry ("yank"), or restores it with
`--undo` ("unyank"). `Gem::Commands::YankCommand#execute` signs in, then reads
three things from its options and configuration:

- the version: the first `(operator, version)` pair of the `-v` requirement;
- the platform: `Gem.platforms[1].to_s`, read only when `:added_platform` is set;
- the API key: the default key, or the named key when `--key` is given.

With a version, the command sends one form request, DELETE `api/v1/gems/yank`
or PUT `api/v1/gems/unyank`, and says the response body. Without one, it says
the usage message and terminates.

The model has four modules:

- `Wrappers` (wrappers.dfy): `Option`, standing for Ruby's nil-or-value.
- `RubyHash` (ruby_hash.dfy): the insertion-ordered `Hash` that holds the form
  data. `Store` is `h[k] = v`: a new key goes at the end, an existing key is
  replaced where it stands.
- `YankCommand` (yank_command.dfy): the command. Its effects are a trace of
  events in order: `SignIn`, `Say(line)`, `Call(request)` and `Terminate`.
  `Execute`, `YankGem`, `UnyankGem` and `YankApiRequest` build that trace step
  by step, as the Ruby methods do. `Execute` reassigns the local API key and
  `YankApiRequest` inserts `platform` into the form hash only when there is one.
  Each method is proved equal to the specification function `Effects`, or to
  its own part of it.
- `YankProperties` (yank_properties.dfy): what the command promises, stated as
  lemmas about `Effects` over all options and environments.

The collaborators are inputs, grouped in `Environment`: the stored default API
key, the named API keys, `Gem.platforms` (already converted with `to_s`), the
gem name from `get_one_gem_name`, the host, the program name and the body of
the registry's response.

The platform is read from `Gem.platforms[1]`, not from `options`: the options
record carries only the presence of `:added_platform`. What fills
`Gem.platforms` and sets `:added_platform` (possibly the `-p` helper registered
by `add_platform_option` at line 27) is outside this file, so `Gem.platforms` is
an input. When it has no second entry, the value is `nil.to_s`, which is `""`.
Ruby treats `""` as true, so the `platform` field is still sent.

## Model

| member | source | states |
|---|---|---|
| `YankCommand.Usage` | lib/rubygems/commands/yank_command.rb:19-21 | the usage line is the program name, a space, then `GEM -v VERSION [-p PLATFORM] [--undo] [--key KEY_NAME]` |
| `YankCommand.UsageMessage` | lib/rubygems/commands/yank_command.rb:54 | the line said without a version is "A version argument is required: " followed by the usage line; `TraceShape` and `UsageMentionsInvocationPattern` state that it is the only line said on that path and that it holds the invocation pattern |
| `YankCommand.ApiKeyFor` | lib/rubygems/commands/yank_command.rb:44-45 | without `--key` the default API key; with it, a key exactly when the name is in the named keys, and then that key, never the default; `NamedKeyNeverFallsBack` and `DefaultKeyWithoutName` state the same of the request actually sent |
| `YankCommand.VersionFromRequirements` | lib/rubygems/commands/yank_command.rb:87-91 | a version exists exactly when the requirement is readable and has at least one pair; it is the first pair's version, with the operator dropped; an absent or malformed option gives nil instead of raising |
| `YankCommand.PlatformFromRequirements` | lib/rubygems/commands/yank_command.rb:93-94 | a platform is present exactly when `:added_platform` is set; it is the second entry of `Gem.platforms`, or `""` when there is none |
| `YankCommand.Effects` | lib/rubygems/commands/yank_command.rb:39-42 | every invocation begins with sign-in |
| `YankCommand.Execute` | lib/rubygems/commands/yank_command.rb:39-57 | signing in, extracting, reassigning the API key and dispatching on version and `undo` produce exactly the trace `Effects` specifies |
| `YankCommand.YankGem` | lib/rubygems/commands/yank_command.rb:59-62 | says "Yanking gem from HOST...", then sends DELETE `api/v1/gems/yank` with the given key and form, then says the response body |
| `YankCommand.UnyankGem` | lib/rubygems/commands/yank_command.rb:64-67 | says "Unyanking gem from HOST...", then sends PUT `api/v1/gems/unyank` with the given key and form, then says the response body |
| `YankCommand.YankApiRequest` | lib/rubygems/commands/yank_command.rb:71-85 | the hash built in place is exactly the field list `gem_name`, `version`, then `platform` when it is non-nil; the key is the raw `Authorization` value; the response body is said unchanged |
| `YankCommand.FormDataInsertionOrder` | lib/rubygems/commands/yank_command.rb:76-82 | the hash literal followed by the conditional `data['platform'] = platform` yields the three fields in that order, with each insertion appending |
| `RubyHash.Store` | lib/rubygems/commands/yank_command.rb:80 | `h[k] = v` appends a new key at the end, keeps an existing key in its position, makes `h[k]` return `v`, and leaves every other key's value unchanged |
| `YankProperties.TraceShape` | lib/rubygems/commands/yank_command.rb:47-56 | with no version the trace is sign-in, the usage message and termination, with no request; with a version it makes exactly one request, says exactly two lines, the "Yanking/Unyanking gem from HOST..." status line and then the response body, and does not terminate |
| `YankProperties.NoVersionNoRequest` | lib/rubygems/commands/yank_command.rb:40-56 | a request is made if and only if a version was extracted; sign-in comes first on both paths |
| `YankProperties.UsageMentionsInvocationPattern` | lib/rubygems/commands/yank_command.rb:19-21 | the "A version argument is required: " message contains the full invocation pattern |
| `YankProperties.FirstPairDecides` | lib/rubygems/commands/yank_command.rb:87-88 | the behaviour does not depend on the first pair's operator or on any later pairs; the `version` field is the first pair's version |
| `YankProperties.UndoSelectsEndpoint` | lib/rubygems/commands/yank_command.rb:47-52 | with a version, the single request is PUT `api/v1/gems/unyank` when `undo` is set and DELETE `api/v1/gems/yank` otherwise, carrying the selected key and the form fields |
| `YankProperties.UndoChangesOnlyEndpoint` | lib/rubygems/commands/yank_command.rb:48-67 | setting `undo` changes only the verb and the path; the key and the form are the same |
| `YankProperties.OnlyTwoEndpoints` | lib/rubygems/commands/yank_command.rb:59-67 | every request sent is DELETE `api/v1/gems/yank` or PUT `api/v1/gems/unyank`; no other verb and path pair occurs |
| `YankProperties.BothEndpointsReachable` | lib/rubygems/commands/yank_command.rb:47-52 | in every environment, some options reach each of the two endpoints |
| `YankProperties.FormShape` | lib/rubygems/commands/yank_command.rb:76-82 | the form starts with `gem_name` and then `version`; it has a `platform` key if and only if `:added_platform` is set; it has no other fields and no repeated key |
| `YankProperties.PlatformReadsOnlySecondEntry` | lib/rubygems/commands/yank_command.rb:93-94 | platform lists that agree on their second entry, or that both lack one, give the same behaviour; the first entry never matters |
| `YankProperties.NamedKeyNeverFallsBack` | lib/rubygems/commands/yank_command.rb:44-45 | with `--key`, the `Authorization` value is the named key, or nil when that name is missing; it never falls back to the default key |
| `YankProperties.DefaultKeyWithoutName` | lib/rubygems/commands/yank_command.rb:44 | without `--key`, the `Authorization` value is the default API key |
| `YankProperties.StatusThenBody` | lib/rubygems/commands/yank_command.rb:59-84 | on the request paths, the lines said are exactly "Yanking/Unyanking gem from HOST..." and then the response body, unchanged, whatever its content |
| `YankProperties.ExampleInvocations` | lib/rubygems/commands/yank_command.rb:39-85 | `foo -v '>= 1.2.3'` sends DELETE with `gem_name=foo&version=1.2.3` and no platform; with `--undo`, a platform flag and `Gem.platforms == [p0, p1]`, it sends PUT with `platform=p1` added |

## Left out

- `sign_in`, `Gem.configuration` and the credentials file are not modelled. Sign-in is recorded only as the first event, and it is assumed to succeed. A failed sign-in would abort the command inside the collaborator.
- `rubygems_api_request`, the HTTP transport and `host` are foreign calls whose bodies are not part of this model. The host and the response body are opaque inputs, so the body does not depend on the request. Transport failures are not modelled.
- The form encoding done by `set_form_data` (`application/x-www-form-urlencoded`) is left out. The body stays an ordered list of key/value pairs.
- `get_one_gem_name` is a collaborator that checks there is exactly one gem name on the command line. The gem name is an input, so the model drops the path where it raises: there the status line of lines 60 and 65 has already been said and no request follows.
- `initialize`, `add_option`, `add_version_option` and `add_platform_option` are option-parser scaffolding. Their result is taken as the `Options` record.
- `Gem::Requirement` and `Gem::Version` parsing are left out. A requirement is a list of `(operator, version)` string pairs, or `Malformed` when reading it raises.
- The contents of `Gem.platforms` are set outside this file and taken as an input list of strings.
- `terminate_interaction` is modelled only as a `Terminate` event after which no request is made. Its exit status is not modelled.
- `description` and `arguments` are constant help strings with no behaviour.
- `say` is modelled as a `Say` event. The UI stream it writes to is left out.
