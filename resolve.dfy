/** What resolving `${NAME}` placeholders means, as functions of the
    configuration and the environment: the reference the in-place resolver
    is proved against, and the properties it has. */
module Resolve {
  import opened McpData
  import opened Traversal

  /** A string value that starts with "${" (Python's
      `isinstance(v, str) and v.startswith("${")`). */
  predicate IsPlaceholder(v: Value)
  {
    v.Str? && |v.s| >= 2 && v.s[..2] == "${"
  }

  /** Python's `s[2:-1]`: the string without its first two characters and its
      last one, or empty when fewer than three characters are left to cut. */
  function PlaceholderName(s: string): (name: string)
    ensures |name| == if |s| >= 3 then |s| - 3 else 0
    ensures forall i :: 0 <= i < |name| ==> name[i] == s[i + 2]
  {
    if |s| >= 3 then s[2..|s| - 1] else ""
  }

  /** For a well-formed placeholder the name is exactly what sits between
      "${" and "}". */
  lemma BracedName(name: string)
    ensures IsPlaceholder(Str("${" + name + "}"))
    ensures PlaceholderName("${" + name + "}") == name
  {
    var s := "${" + name + "}";
    assert s[..2] == "${";
    assert s[2..|s| - 1] == name;
  }

  /** The closing brace is never checked: whatever the last character is, it
      is dropped, and too-short placeholders name the empty variable. */
  lemma UncheckedClosingBrace()
    ensures PlaceholderName("${FOO") == "FO"
    ensures PlaceholderName("${FOO}x") == "FOO}"
    ensures PlaceholderName("${") == "" && PlaceholderName("${}") == ""
  {
    assert "${FOO"[2..4] == "FO";
    assert "${FOO}x"[2..6] == "FOO}";
  }

  /** Resolving one value: a placeholder whose variable is set becomes that
      variable's value verbatim; one whose variable is unset raises, leaving
      the value as it was; anything else is left alone. */
  function ResolveValue(v: Value, environ: map<string, string>): Run<Value>
  {
    if IsPlaceholder(v) then
      var name := PlaceholderName(v.s);
      if name in environ then Run(Str(environ[name]), None)
      else Run(v, Some(Unset(name)))
    else Run(v, None)
  }

  function ValueStep(environ: map<string, string>): Value -> Run<Value>
  {
    v => ResolveValue(v, environ)
  }

  /** The values of an "env" object or the entries of an "args" array,
      resolved in order up to the first unset variable. */
  function ResolveValues(vs: seq<Value>, environ: map<string, string>): Run<seq<Value>>
  {
    Traverse(vs, ValueStep(environ))
  }

  /** The "env" part of one server (config.py:11-18). */
  function ResolveEnv(s: Server, environ: map<string, string>): Run<Server>
  {
    if s.env.Some? then
      var r := ResolveValues(s.env.value.values, environ);
      Run(s.(env := Some(s.env.value.(values := r.state))), r.error)
    else Run(s, None)
  }

  /** The "args" part of one server (config.py:19-26). */
  function ResolveArgs(s: Server, environ: map<string, string>): Run<Server>
  {
    if s.args.Some? then
      var r := ResolveValues(s.args.value, environ);
      Run(s.(args := Some(r.state)), r.error)
    else Run(s, None)
  }

  /** One server: all of its "env" values first, then, if none failed, its
      "args" entries. */
  function ResolveServer(s: Server, environ: map<string, string>): Run<Server>
  {
    var e := ResolveEnv(s, environ);
    if e.error.Some? then e else ResolveArgs(e.state, environ)
  }

  function ServerStep(environ: map<string, string>): Server -> Run<Server>
  {
    s => ResolveServer(s, environ)
  }

  /** The whole configuration: servers in order, stopping at the first unset
      variable. */
  function ResolveServers(servers: seq<Server>, environ: map<string, string>): Run<seq<Server>>
  {
    Traverse(servers, ServerStep(environ))
  }

  // ---------------------------------------------------------------------
  // The configuration seen as the flat sequence of the values resolution
  // may rewrite ("slots"), in the order the resolver visits them.

  function EnvValues(s: Server): seq<Value>
  {
    if s.env.Some? then s.env.value.values else []
  }

  function ArgValues(s: Server): seq<Value>
  {
    if s.args.Some? then s.args.value else []
  }

  /** One server's slots: its "env" values, then its "args" entries. */
  function Slots(s: Server): seq<Value>
  {
    EnvValues(s) + ArgValues(s)
  }

  /** All slots of a configuration, server after server. */
  function AllSlots(servers: seq<Server>): seq<Value>
    decreases |servers|
  {
    if servers == [] then [] else Slots(servers[0]) + AllSlots(servers[1..])
  }

  /** Everything but the slot values is the same: the other fields, whether
      "env" and "args" are present, the "env" keys in order, and how many
      values each holds. */
  predicate SameShape(s: Server, t: Server)
  {
    && s.fields == t.fields
    && s.env.Some? == t.env.Some?
    && (s.env.Some? ==> s.env.value.keys == t.env.value.keys && |s.env.value.values| == |t.env.value.values|)
    && s.args.Some? == t.args.Some?
    && (s.args.Some? ==> |s.args.value| == |t.args.value|)
  }

  predicate AllSameShape(ss: seq<Server>, ts: seq<Server>)
  {
    |ss| == |ts| && forall i :: 0 <= i < |ss| ==> SameShape(ss[i], ts[i])
  }

  /** Resolving a server walks its slots: env values, then args. */
  lemma ServerWalksSlots(s: Server, environ: map<string, string>)
    ensures SameShape(s, ResolveServer(s, environ).state)
    ensures Slots(ResolveServer(s, environ).state) == ResolveValues(Slots(s), environ).state
    ensures ResolveServer(s, environ).error == ResolveValues(Slots(s), environ).error
  {
    var step := ValueStep(environ);
    TraverseAppend(EnvValues(s), ArgValues(s), step);
    var e := ResolveEnv(s, environ);
    assert EnvValues(e.state) == ResolveValues(EnvValues(s), environ).state;
    assert ArgValues(e.state) == ArgValues(s);
    if e.error == None {
      var a := ResolveArgs(e.state, environ);
      assert EnvValues(a.state) == EnvValues(e.state);
      assert ArgValues(a.state) == ResolveValues(ArgValues(s), environ).state;
      assert ResolveValues([], environ) == Run([], None);
      assert ResolveValues(EnvValues(s), environ).state + [] == ResolveValues(EnvValues(s), environ).state;
    } else {
      assert s.env.Some?;
    }
  }

  lemma AllSlotsCons(s: Server, rest: seq<Server>)
    ensures AllSlots([s] + rest) == Slots(s) + AllSlots(rest)
  {
    assert ([s] + rest)[0] == s && ([s] + rest)[1..] == rest;
  }

  /** The nested walk over servers, env values and args entries is one walk
      over all slots in visiting order: the same values end up rewritten and
      the same error is reported. */
  lemma {:induction false} ServersWalkSlots(servers: seq<Server>, environ: map<string, string>)
    ensures AllSlots(ResolveServers(servers, environ).state) == ResolveValues(AllSlots(servers), environ).state
    ensures ResolveServers(servers, environ).error == ResolveValues(AllSlots(servers), environ).error
    decreases |servers|
  {
    var step := ValueStep(environ);
    if servers == [] {
      assert ResolveServers(servers, environ) == Run([], None);
      assert ResolveValues([], environ) == Run([], None);
    } else {
      var s, rest := servers[0], servers[1..];
      var head := ResolveServer(s, environ);
      ServerWalksSlots(s, environ);
      TraverseAppend(Slots(s), AllSlots(rest), step);
      if head.error.Some? {
        AllSlotsCons(head.state, rest);
      } else {
        ServersWalkSlots(rest, environ);
        AllSlotsCons(head.state, ResolveServers(rest, environ).state);
      }
    }
  }

  /** Resolution changes nothing but slot values. */
  lemma ResolveKeepsShape(servers: seq<Server>, environ: map<string, string>)
    ensures AllSameShape(servers, ResolveServers(servers, environ).state)
  {
    var run := ResolveServers(servers, environ);
    TraverseAt(servers, ServerStep(environ));
    forall i | 0 <= i < |servers| ensures SameShape(servers[i], run.state[i]) {
      ServerWalksSlots(servers[i], environ);
    }
  }

  lemma SameShapeSlots(s: Server, t: Server)
    requires SameShape(s, t)
    ensures |Slots(s)| == |Slots(t)|
  {
  }

  /** A shape and a slot sequence pin down a configuration: two configurations
      of the same shape with the same slots are equal. With ResolveKeepsShape
      and ServersWalkSlots this makes the flat description of resolution
      complete. */
  lemma {:induction false} ShapeAndSlotsDetermine(ss: seq<Server>, ts: seq<Server>)
    requires AllSameShape(ss, ts)
    requires AllSlots(ss) == AllSlots(ts)
    ensures ss == ts
    decreases |ss|
  {
    if ss != [] {
      var s, t := ss[0], ts[0];
      SameShapeSlots(s, t);
      var n := |Slots(s)|;
      assert Slots(s) == AllSlots(ss)[..n] == Slots(t);
      assert AllSlots(ss[1..]) == AllSlots(ss)[n..] == AllSlots(ts[1..]);
      assert EnvValues(s) == Slots(s)[..|EnvValues(s)|] == EnvValues(t);
      assert ArgValues(s) == Slots(s)[|EnvValues(s)|..] == ArgValues(t);
      assert s == t;
      ShapeAndSlotsDetermine(ss[1..], ts[1..]);
      assert ss == [s] + ss[1..] && ts == [t] + ts[1..];
    }
  }

  /** Resolution of a whole configuration, slot by slot: the configuration
      keeps its shape; every slot before the first placeholder whose variable
      is unset is resolved (placeholders replaced by the variable's value,
      everything else unchanged); that slot and every later one are left as
      they were; and the error, if any, names that slot's variable. */
  lemma ResolveBySlot(servers: seq<Server>, environ: map<string, string>)
    ensures var run := ResolveServers(servers, environ);
      var flat := AllSlots(servers);
      var k := FirstFailure(flat, ValueStep(environ));
      && AllSameShape(servers, run.state)
      && |AllSlots(run.state)| == |flat|
      && (forall p :: 0 <= p < |flat| ==>
            AllSlots(run.state)[p] == if p < k then ResolveValue(flat[p], environ).state else flat[p])
      && (k < |flat| ==> IsPlaceholder(flat[k]) && run.error == Some(Unset(PlaceholderName(flat[k].s))))
      && (k == |flat| ==> run.error == None)
  {
    var step := ValueStep(environ);
    var flat := AllSlots(servers);
    ResolveKeepsShape(servers, environ);
    ServersWalkSlots(servers, environ);
    TraverseAt(flat, step);
  }

  /** Resolution succeeds exactly when every placeholder in the configuration
      names a variable that is set. */
  lemma ResolveSucceedsIff(servers: seq<Server>, environ: map<string, string>)
    ensures ResolveServers(servers, environ).error == None <==>
      forall v :: v in AllSlots(servers) && IsPlaceholder(v) ==> PlaceholderName(v.s) in environ
  {
    var flat := AllSlots(servers);
    ServersWalkSlots(servers, environ);
    TraverseSucceedsIff(flat, ValueStep(environ));
    if ResolveServers(servers, environ).error == None {
      forall v | v in flat && IsPlaceholder(v) ensures PlaceholderName(v.s) in environ {
        var p :| 0 <= p < |flat| && flat[p] == v;
        assert ValueStep(environ)(flat[p]).error == None;
      }
    }
  }

  /** On success, each "env" value and each "args" entry of each server is
      its resolved value, at the same key or index. */
  lemma ResolvedInPlace(servers: seq<Server>, environ: map<string, string>, i: nat)
    requires ResolveServers(servers, environ).error == None
    requires i < |servers|
    ensures var s, t := servers[i], ResolveServers(servers, environ).state[i];
      && SameShape(s, t)
      && (s.env.Some? ==> forall j :: 0 <= j < |s.env.value.values| ==>
            t.env.value.values[j] == ResolveValue(s.env.value.values[j], environ).state)
      && (s.args.Some? ==> forall j :: 0 <= j < |s.args.value| ==>
            t.args.value[j] == ResolveValue(s.args.value[j], environ).state)
  {
    var s := servers[i];
    TraverseAt(servers, ServerStep(environ));
    TraverseSucceedsIff(servers, ServerStep(environ));
    assert ServerStep(environ)(s).error == None;
    ServerWalksSlots(s, environ);
    var e := ResolveEnv(s, environ);
    if s.env.Some? {
      TraverseAt(s.env.value.values, ValueStep(environ));
      TraverseSucceedsIff(s.env.value.values, ValueStep(environ));
    }
    if s.args.Some? {
      TraverseAt(s.args.value, ValueStep(environ));
      TraverseSucceedsIff(s.args.value, ValueStep(environ));
    }
  }

  /** Substitution is single-pass: a substituted value that itself looks like
      a placeholder is stored as it is, so resolving twice differs from
      resolving once. */
  lemma SinglePass()
    ensures var environ := map["A" := "${B}", "B" := "b"];
      var cfg := [Server(None, Some([Str("${A}")]), [])];
      && ResolveServers(cfg, environ) == Run([Server(None, Some([Str("${B}")]), [])], None)
      && ResolveServers(ResolveServers(cfg, environ).state, environ).state == [Server(None, Some([Str("b")]), [])]
  {
    var environ := map["A" := "${B}", "B" := "b"];
    BracedName("A");
    BracedName("B");
    assert "${A}" == "${" + "A" + "}";
    assert "${B}" == "${" + "B" + "}";
    var once := Server(None, Some([Str("${B}")]), []);
    TraverseSingle(Str("${A}"), ValueStep(environ));
    TraverseSingle(Server(None, Some([Str("${A}")]), []), ServerStep(environ));
    TraverseSingle(Str("${B}"), ValueStep(environ));
    TraverseSingle(once, ServerStep(environ));
  }

  /** All "env" values of a server are visited before any of its "args", so
      an unset variable in "env" is the one reported even when an earlier
      "args" entry also names an unset variable. */
  lemma EnvBeforeArgs()
    ensures var cfg := [Server(Some(Env(["K"], [Str("${X}")])), Some([Str("${Y}")]), [])];
      ResolveServers(cfg, map[]).error == Some(Unset("X"))
  {
    var s := Server(Some(Env(["K"], [Str("${X}")])), Some([Str("${Y}")]), []);
    assert "${X}" == "${" + "X" + "}";
    BracedName("X");
    TraverseSingle(Str("${X}"), ValueStep(map[]));
    TraverseSingle(s, ServerStep(map[]));
  }
}
