/** What `gem yank` promises, stated over every invocation the model admits. */
module YankProperties {
  import opened Wrappers
  import RubyHash
  import opened YankCommand

  /** The two shapes an invocation can take. Every step of either is named:
      with no version there is sign-in, the usage message, and termination;
      with one there is sign-in, the status line, one request, and the
      response body. */
  lemma TraceShape(o: Options, env: Environment)
    ensures VersionFromRequirements(o.version).None? ==>
              Requests(Effects(o, env)) == []
              && Said(Effects(o, env)) == [MissingVersion + Usage(env.programName)]
              && Effects(o, env) == [SignIn, Say(UsageMessage(env.programName)), Terminate]
    ensures VersionFromRequirements(o.version).Some? ==>
              |Requests(Effects(o, env))| == 1
              && Said(Effects(o, env)) == [(if o.undo then Unyank else Yank).StatusLine(env.host), env.responseBody]
              && Terminate !in Effects(o, env)
  {
    var t := Effects(o, env);
    if VersionFromRequirements(o.version).Some? {
      RequestPathShape(t[1].line, t[2].request, t[3].line);
      assert t == [SignIn, Say(t[1].line), Call(t[2].request), Say(t[3].line)];
    } else {
      UsagePathShape(t[1].line);
      assert t == [SignIn, Say(t[1].line), Terminate];
    }
  }

  /** Requests and said lines of the no-version trace shape. */
  lemma UsagePathShape(s: string)
    ensures Requests([SignIn, Say(s), Terminate]) == []
    ensures Said([SignIn, Say(s), Terminate]) == [s]
  {
    var t3: seq<Event> := [Terminate];
    assert t3[1..] == [];
    assert Requests(t3) == [] && Said(t3) == [];
    var t2 := [Say(s)] + t3;
    assert t2[1..] == t3;
    assert Requests(t2) == [] && Said(t2) == [s];
    var t1 := [SignIn] + t2;
    assert t1[1..] == t2 && t1 == [SignIn, Say(s), Terminate];
  }

  /** Requests and said lines of the request trace shape. */
  lemma RequestPathShape(status: string, r: Request, body: string)
    ensures Requests([SignIn, Say(status), Call(r), Say(body)]) == [r]
    ensures Said([SignIn, Say(status), Call(r), Say(body)]) == [status, body]
  {
    var t4: seq<Event> := [Say(body)];
    assert t4[1..] == [];
    assert Requests(t4) == [] && Said(t4) == [body];
    var t3 := [Call(r)] + t4;
    assert t3[1..] == t4;
    assert Requests(t3) == [r] && Said(t3) == [body];
    var t2 := [Say(status)] + t3;
    assert t2[1..] == t3;
    assert Requests(t2) == [r] && Said(t2) == [status, body];
    var t1 := [SignIn] + t2;
    assert t1[1..] == t2 && t1 == [SignIn, Say(status), Call(r), Say(body)];
  }

  /** A request is made exactly when a version could be read, and signing in
      comes before anything else in both cases. */
  lemma NoVersionNoRequest(o: Options, env: Environment)
    ensures Requests(Effects(o, env)) == [] <==> VersionFromRequirements(o.version).None?
    ensures Effects(o, env)[0] == SignIn
  {
    TraceShape(o, env);
  }

  /** `text` holds `part` starting at position `i`. */
  predicate OccursAt(part: string, text: string, i: nat)
  {
    i + |part| <= |text| && text[i..i + |part|] == part
  }

  /** The usage message carries the whole invocation pattern. */
  lemma UsageMentionsInvocationPattern(programName: string)
    ensures exists i :: OccursAt(InvocationPattern, UsageMessage(programName), i)
  {
    var m := UsageMessage(programName);
    var i := |MissingVersion| + |programName| + 1;
    assert m[i..] == Usage(programName)[|programName| + 1..];
    assert OccursAt(InvocationPattern, m, i);
  }

  /** Only the version of the first requirement pair matters: its operator and
      every pair after it are ignored. */
  lemma FirstPairDecides(o: Options, env: Environment, op: string, op': string, v: string,
                         rest: seq<(string, string)>, rest': seq<(string, string)>)
    requires o.version == Requirement([(op, v)] + rest)
    ensures Effects(o, env) == Effects(o.(version := Requirement([(op', v)] + rest')), env)
    ensures |Requests(Effects(o, env))| == 1 && |Requests(Effects(o, env))[0].form| >= 2
    ensures Requests(Effects(o, env))[0].form[1] == ("version", v)
  {
    TraceShape(o, env);
    assert Requests(Effects(o, env))[0] == Effects(o, env)[2].request by {
      assert Effects(o, env)[2].request in Requests(Effects(o, env));
    }
  }

  /** With a version, `--undo` sends PUT to the unyank endpoint and its
      absence DELETE to the yank endpoint; form and key are the same either
      way. */
  lemma UndoSelectsEndpoint(o: Options, env: Environment)
    requires VersionFromRequirements(o.version).Some?
    ensures var e := if o.undo then Unyank else Yank;
            var version := VersionFromRequirements(o.version).value;
            Requests(Effects(o, env))
              == [Request(e.Method(), e.Path(), ApiKeyFor(o, env),
                          FormFields(env.gemName, version, PlatformFromRequirements(o, env.platforms)))]
  {
    TraceShape(o, env);
    var t := Effects(o, env);
    assert t[2].request in Requests(t);
  }

  /** `--undo` changes the verb and the path and nothing else: the key and the
      form sent are the same. */
  lemma UndoChangesOnlyEndpoint(o: Options, env: Environment)
    requires VersionFromRequirements(o.version).Some?
    ensures var yank := Requests(Effects(o.(undo := false), env));
            var unyank := Requests(Effects(o.(undo := true), env));
            |yank| == |unyank| == 1
            && yank[0].authorization == unyank[0].authorization
            && yank[0].form == unyank[0].form
            && (yank[0].verb, yank[0].path) == (Delete, "api/v1/gems/yank")
            && (unyank[0].verb, unyank[0].path) == (Put, "api/v1/gems/unyank")
  {
    UndoSelectsEndpoint(o.(undo := false), env);
    UndoSelectsEndpoint(o.(undo := true), env);
  }

  /** No verb and path other than DELETE `api/v1/gems/yank` and PUT
      `api/v1/gems/unyank` is ever sent. */
  lemma OnlyTwoEndpoints(o: Options, env: Environment, r: Request)
    requires r in Requests(Effects(o, env))
    ensures (r.verb == Delete && r.path == "api/v1/gems/yank")
         || (r.verb == Put && r.path == "api/v1/gems/unyank")
  {
  }

  /** Some request sent by this invocation uses `verb` on `path`. */
  predicate Sends(o: Options, env: Environment, verb: HttpMethod, path: string)
  {
    exists r :: r in Requests(Effects(o, env)) && r.verb == verb && r.path == path
  }

  /** In every environment, both endpoints are reached by some options. */
  lemma BothEndpointsReachable(env: Environment)
    ensures exists o :: Sends(o, env, Delete, "api/v1/gems/yank")
    ensures exists o :: Sends(o, env, Put, "api/v1/gems/unyank")
  {
    var yank := Options(Requirement([(">=", "0")]), false, false, None);
    var unyank := yank.(undo := true);
    UndoSelectsEndpoint(yank, env);
    assert Requests(Effects(yank, env))[0] in Requests(Effects(yank, env));
    assert Sends(yank, env, Delete, "api/v1/gems/yank");
    UndoSelectsEndpoint(unyank, env);
    assert Requests(Effects(unyank, env))[0] in Requests(Effects(unyank, env));
    assert Sends(unyank, env, Put, "api/v1/gems/unyank");
  }

  /** The form is `gem_name`, `version` and then `platform`, the last exactly
      when `:added_platform` is among the options. */
  lemma FormShape(o: Options, env: Environment, r: Request)
    requires r in Requests(Effects(o, env))
    ensures r.form[..2] == [("gem_name", env.gemName), ("version", VersionFromRequirements(o.version).value)]
    ensures "platform" in RubyHash.Keys(r.form) <==> o.addedPlatform
    ensures |r.form| == if o.addedPlatform then 3 else 2
    ensures RubyHash.DistinctKeys(r.form)
  {
    var form := r.form;
    var ks := RubyHash.Keys(form);
    assert "platform" != "gem_name" && "platform" != "version" by {
      assert "platform"[0] != "gem_name"[0] && "platform"[0] != "version"[0];
    }
    if o.addedPlatform {
      assert ks[2] == "platform";
    } else {
      assert ks == ["gem_name", "version"];
    }
  }

  /** The platform sent is the second entry of `Gem.platforms` (or "" when it
      has none): its first entry and anything after the second never matter. */
  lemma PlatformReadsOnlySecondEntry(o: Options, env: Environment, platforms: seq<string>)
    requires |env.platforms| > 1 <==> |platforms| > 1
    requires |platforms| > 1 ==> platforms[1] == env.platforms[1]
    ensures Effects(o, env) == Effects(o, env.(platforms := platforms))
  {
  }

  /** A named key never falls back to the default key, even when the name is
      missing from the credentials. */
  lemma NamedKeyNeverFallsBack(o: Options, env: Environment, r: Request)
    requires o.key.Some?
    requires r in Requests(Effects(o, env))
    ensures r.authorization == if o.key.value in env.apiKeys then Some(env.apiKeys[o.key.value]) else None
  {
  }

  /** Without `--key`, the default key authorizes the request. */
  lemma DefaultKeyWithoutName(o: Options, env: Environment, r: Request)
    requires o.key.None?
    requires r in Requests(Effects(o, env))
    ensures r.authorization == Some(env.defaultKey)
  {
  }

  /** The response body is said as it came back, whatever it is, after the
      status line naming the host. */
  lemma StatusThenBody(o: Options, env: Environment)
    requires VersionFromRequirements(o.version).Some?
    ensures Said(Effects(o, env))
              == [ (if o.undo then "Unyanking" else "Yanking") + " gem from " + env.host + "...",
                   env.responseBody ]
  {
    TraceShape(o, env);
    if o.undo {
      assert "Unyanking gem from " + env.host + "..." == "Unyanking" + " gem from " + env.host + "...";
    } else {
      assert "Yanking gem from " + env.host + "..." == "Yanking" + " gem from " + env.host + "...";
    }
  }

  /** `gem yank foo -v '>= 1.2.3'` deletes version 1.2.3 of foo with no
      platform field; with a platform flag and `Gem.platforms == [p0, p1]`,
      `platform=p1` is added whatever `p0` is. */
  lemma ExampleInvocations(env: Environment, p0: string, p1: string)
    requires env.gemName == "foo"
    ensures var o := Options(Requirement([(">=", "1.2.3")]), false, false, None);
            Requests(Effects(o, env))
              == [Request(Delete, "api/v1/gems/yank", Some(env.defaultKey),
                          [("gem_name", "foo"), ("version", "1.2.3")])]
    ensures var o := Options(Requirement([(">=", "1.2.3")]), true, true, None);
            Requests(Effects(o, env.(platforms := [p0, p1])))
              == [Request(Put, "api/v1/gems/unyank", Some(env.defaultKey),
                          [("gem_name", "foo"), ("version", "1.2.3"), ("platform", p1)])]
  {
    var req := Requirement([(">=", "1.2.3")]);
    assert VersionFromRequirements(req) == Some("1.2.3");
    var plain, full := Options(req, false, false, None), Options(req, true, true, None);
    var env' := env.(platforms := [p0, p1]);
    UndoSelectsEndpoint(plain, env);
    assert ApiKeyFor(plain, env) == Some(env.defaultKey);
    assert FormFields("foo", "1.2.3", PlatformFromRequirements(plain, env.platforms))
        == [("gem_name", "foo"), ("version", "1.2.3")];
    UndoSelectsEndpoint(full, env');
    assert ApiKeyFor(full, env') == Some(env.defaultKey);
    assert PlatformFromRequirements(full, env'.platforms) == Some(p1);
    assert FormFields("foo", "1.2.3", Some(p1))
        == [("gem_name", "foo"), ("version", "1.2.3"), ("platform", p1)];
  }

}
