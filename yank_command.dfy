/** `gem yank`: remove a published version of a gem from the registry, or
    restore it with `--undo`. The command signs in, reads the version, the
    platform and the API key out of its options and configuration, and sends
    one authenticated form request to the registry, or prints its usage and
    stops when no version was given.

    What the command does to the outside world (signing in, writing lines with
    `say`, handing a request to the transport, terminating the interaction) is
    recorded as a trace of events, in the order it happens. */
module YankCommand {
  import opened Wrappers
  import RubyHash

  /** The `-v VERSION` option as the option parser left it. */
  datatype VersionArg =
    | Absent                                      // `options[:version]` is nil
    | Malformed                                   // reading its requirement list raises
    | Requirement(pairs: seq<(string, string)>)   // its (operator, version) pairs, in order

  /** The options the command reads. `addedPlatform` is the presence of the
      `:added_platform` key; `undo` is `--undo`; `key` is `--key KEY_NAME`. */
  datatype Options = Options(
    version: VersionArg,
    addedPlatform: bool,
    undo: bool,
    key: Option<string>)

  /** What the command's collaborators answer: the stored default API key and
      the named API keys of the credentials file, `Gem.platforms` (each entry
      already turned into its string), the one gem name on the command line,
      the registry host, the program name shown in the usage line, and the body
      of the registry's response. */
  datatype Environment = Environment(
    defaultKey: string,
    apiKeys: map<string, string>,
    platforms: seq<string>,
    gemName: string,
    host: string,
    programName: string,
    responseBody: string)

  datatype HttpMethod = Get | Post | Put | Patch | Delete

  /** A request handed to the transport: verb, path relative to the host, the
      raw `Authorization` header value (nil when the named key is missing) and
      the form fields in the order they were inserted. */
  datatype Request = Request(
    verb: HttpMethod,
    path: string,
    authorization: Option<string>,
    form: RubyHash.Entries)

  datatype Event =
    | SignIn
    | Say(line: string)
    | Call(request: Request)
    | Terminate

  /** The two registry actions the command can take. */
  datatype Endpoint = Yank | Unyank {
    function Method(): HttpMethod {
      if Yank? then Delete else Put
    }
    function Path(): string {
      if Yank? then "api/v1/gems/yank" else "api/v1/gems/unyank"
    }
    function StatusLine(host: string): string {
      if Yank? then "Yanking gem from " + host + "..." else "Unyanking gem from " + host + "..."
    }
  }

  const InvocationPattern: string := "GEM -v VERSION [-p PLATFORM] [--undo] [--key KEY_NAME]"
  const MissingVersion: string := "A version argument is required: "

  /** The usage line: the program name, then the invocation pattern. */
  function Usage(programName: string): (u: string)
    ensures |u| == |programName| + 1 + |InvocationPattern|
    ensures u[..|programName|] == programName
    ensures u[|programName|] == ' '
    ensures u[|programName| + 1..] == InvocationPattern
  {
    programName + " " + InvocationPattern
  }

  /** What the command says when no version was given: the fixed complaint
      followed by the usage line. */
  function UsageMessage(programName: string): (m: string)
    ensures |m| == |MissingVersion| + |Usage(programName)|
    ensures m[..|MissingVersion|] == MissingVersion
    ensures m[|MissingVersion|..] == Usage(programName)
  {
    MissingVersion + Usage(programName)
  }

  /** The version of the first requirement pair, with its operator dropped;
      nil when the option is absent, its pair list is empty, or reading it
      raises. */
  function VersionFromRequirements(arg: VersionArg): (version: Option<string>)
    ensures version.Some? <==> arg.Requirement? && |arg.pairs| > 0
    ensures version.Some? ==> version.value == arg.pairs[0].1
  {
    match arg
    case Requirement(pairs) => if |pairs| > 0 then Some(pairs[0].1) else None
    case _ => None
  }

  /** The platform sent with the request: present exactly when the options
      hold `:added_platform`, and then the second entry of `Gem.platforms`, or
      the empty string (`nil.to_s`) when there is no second entry. */
  function PlatformFromRequirements(o: Options, platforms: seq<string>): (platform: Option<string>)
    ensures platform.Some? <==> o.addedPlatform
    ensures platform.Some? && |platforms| > 1 ==> platform.value == platforms[1]
    ensures platform.Some? && |platforms| <= 1 ==> platform.value == ""
  {
    if o.addedPlatform then Some(if |platforms| > 1 then platforms[1] else "") else None
  }

  /** Which API key authorizes the request: the default key, unless `--key`
      names one, and then that named key or nil, with no fallback. */
  function ApiKeyFor(o: Options, env: Environment): (key: Option<string>)
    ensures o.key.None? ==> key == Some(env.defaultKey)
    ensures o.key.Some? ==> (key.Some? <==> o.key.value in env.apiKeys)
    ensures o.key.Some? && key.Some? ==> key.value == env.apiKeys[o.key.value]
  {
    match o.key
    case None => Some(env.defaultKey)
    case Some(name) => if name in env.apiKeys then Some(env.apiKeys[name]) else None
  }

  /** The form fields the registry expects, in order. */
  function FormFields(name: string, version: string, platform: Option<string>): RubyHash.Entries
  {
    [("gem_name", name), ("version", version)]
      + (if platform.Some? then [("platform", platform.value)] else [])
  }

  /** What one `gem yank` invocation does, in order. */
  function Effects(o: Options, env: Environment): (trace: seq<Event>)
    ensures |trace| > 0 && trace[0] == SignIn
  {
    match VersionFromRequirements(o.version)
    case None =>
      [SignIn, Say(UsageMessage(env.programName)), Terminate]
    case Some(version) =>
      var endpoint := if o.undo then Unyank else Yank;
      var platform := PlatformFromRequirements(o, env.platforms);
      [ SignIn,
        Say(endpoint.StatusLine(env.host)),
        Call(Request(endpoint.Method(), endpoint.Path(), ApiKeyFor(o, env),
                     FormFields(env.gemName, version, platform))),
        Say(env.responseBody) ]
  }

  /** The requests a trace hands to the transport, in order. */
  function Requests(trace: seq<Event>): (rs: seq<Request>)
    ensures forall r :: r in rs <==> Call(r) in trace
  {
    if trace == [] then []
    else (if trace[0].Call? then [trace[0].request] else []) + Requests(trace[1..])
  }

  /** The lines a trace writes with `say`, in order. */
  function Said(trace: seq<Event>): (lines: seq<string>)
    ensures forall l :: l in lines <==> Say(l) in trace
  {
    if trace == [] then []
    else (if trace[0].Say? then [trace[0].line] else []) + Said(trace[1..])
  }

  /** Inserting `gem_name`, `version` and then, when there is one, `platform`
      into an empty hash yields exactly the three fields in that order: no
      key is written twice, so each insertion appends. */
  lemma FormDataInsertionOrder(name: string, version: string, platform: Option<string>)
    ensures var data := RubyHash.Store(RubyHash.Store([], "gem_name", name), "version", version);
            FormFields(name, version, platform)
              == if platform.Some? then RubyHash.Store(data, "platform", platform.value) else data
  {
    var data := RubyHash.Store([], "gem_name", name);
    assert data == [("gem_name", name)];
    assert RubyHash.Keys(data) == ["gem_name"];
    assert "version" !in ["gem_name"];
    data := RubyHash.Store(data, "version", version);
    assert data == [("gem_name", name), ("version", version)];
    if platform.Some? {
      assert RubyHash.Keys(data) == ["gem_name", "version"];
      assert "platform" !in ["gem_name", "version"];
    }
  }

  // ---------------------------------------------------------------------
  // The command, step by step.

  method Execute(o: Options, env: Environment) returns (trace: seq<Event>)
    ensures trace == Effects(o, env)
  {
    trace := [SignIn];

    var version := VersionFromRequirements(o.version);
    var platform := PlatformFromRequirements(o, env.platforms);
    var apiKey := Some(env.defaultKey);
    if o.key.Some? {
      apiKey := if o.key.value in env.apiKeys then Some(env.apiKeys[o.key.value]) else None;
    }

    if version.Some? {
      var rest;
      if o.undo {
        rest := UnyankGem(version.value, platform, apiKey, env);
      } else {
        rest := YankGem(version.value, platform, apiKey, env);
      }
      trace := trace + rest;
    } else {
      trace := trace + [Say(UsageMessage(env.programName))];
      trace := trace + [Terminate];
    }
  }

  method YankGem(version: string, platform: Option<string>, apiKey: Option<string>, env: Environment)
    returns (trace: seq<Event>)
    ensures trace == [ Say(Yank.StatusLine(env.host)),
                       Call(Request(Delete, "api/v1/gems/yank", apiKey, FormFields(env.gemName, version, platform))),
                       Say(env.responseBody) ]
  {
    trace := [Say("Yanking gem from " + env.host + "...")];
    var rest := YankApiRequest(Delete, version, platform, "api/v1/gems/yank", apiKey, env);
    trace := trace + rest;
  }

  method UnyankGem(version: string, platform: Option<string>, apiKey: Option<string>, env: Environment)
    returns (trace: seq<Event>)
    ensures trace == [ Say(Unyank.StatusLine(env.host)),
                       Call(Request(Put, "api/v1/gems/unyank", apiKey, FormFields(env.gemName, version, platform))),
                       Say(env.responseBody) ]
  {
    trace := [Say("Unyanking gem from " + env.host + "...")];
    var rest := YankApiRequest(Put, version, platform, "api/v1/gems/unyank", apiKey, env);
    trace := trace + rest;
  }

  /** Builds the form hash in place, sends it with the key as the raw
      `Authorization` header, and says the response body as it came back. */
  method YankApiRequest(verb: HttpMethod, version: string, platform: Option<string>, api: string,
                        apiKey: Option<string>, env: Environment)
    returns (trace: seq<Event>)
    ensures trace == [ Call(Request(verb, api, apiKey, FormFields(env.gemName, version, platform))),
                       Say(env.responseBody) ]
  {
    var name := env.gemName;
    var data: RubyHash.Entries := RubyHash.Store(RubyHash.Store([], "gem_name", name), "version", version);
    if platform.Some? {
      data := RubyHash.Store(data, "platform", platform.value);
    }
    FormDataInsertionOrder(name, version, platform);
    trace := [Call(Request(verb, api, apiKey, data))];
    trace := trace + [Say(env.responseBody)];
  }

}
