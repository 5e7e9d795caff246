/** The loaded MCP configuration as the mutable dictionary the resolver
    rewrites in place (config.py:9-27). */
module McpConfig {
  import opened McpData
  import opened Traversal
  import opened Resolve

  /** The configuration object: server names in insertion order, and the
      server object bound to each name. */
  class Config {
    var names: seq<string>
    var servers: seq<Server>

    ghost predicate Valid()
      reads this
    {
      WellFormedConfig(names, servers)
    }

    /** A configuration as parsed from JSON. */
    constructor (names: seq<string>, servers: seq<Server>)
      requires |names| == |servers| && Distinct(names)
      requires forall i :: 0 <= i < |servers| ==> WellFormedServer(servers[i])
      ensures Valid() && this.names == names && this.servers == servers
    {
      this.names := names;
      this.servers := servers;
    }

    /** Resolves every placeholder of every server, in place, and returns this
        same object; on the first unset variable it stops with that error,
        keeping the substitutions already made. */
    method ResolveEnvVars(environ: map<string, string>) returns (r: Result<Config>)
      requires Valid()
      modifies this
      ensures Valid() && names == old(names)
      ensures servers == ResolveServers(old(servers), environ).state
      ensures r.Ok? <==> ResolveServers(old(servers), environ).error == None
      ensures r.Ok? ==> r.value == this
      ensures r.Err? ==> ResolveServers(old(servers), environ).error == Some(r.error)
    {
      ghost var step := ServerStep(environ);
      ghost var original := servers;
      ghost var done: seq<Server> := [];
      assert original[..0] == [] && [] + original[0..] == original;
      var i := 0;
      while i < |servers|
        invariant 0 <= i <= |servers| == |original| && |done| == i
        invariant Valid() && names == old(names)
        invariant Traverse(original[..i], step) == Run(done, None)
        invariant servers == done + original[i..]
      {
        ghost var head := step(original[i]);
        TraverseExtend(original, i, step);
        Splice(done, original, i, head.state);
        var err := ResolveServerAt(i, environ);
        if err.Some? {
          TraverseStop(original, i, step);
          return Err(err.value);
        }
        done := done + [head.state];
        i := i + 1;
      }
      assert original[..i] == original && done + original[i..] == done;
      return Ok(this);
    }

    /** One server (config.py:11-26): its "env" loop, then, if that did not
        raise, its "args" loop. */
    method ResolveServerAt(i: nat, environ: map<string, string>) returns (err: Option<Error>)
      requires Valid() && i < |servers|
      modifies this
      ensures Valid() && names == old(names)
      ensures servers == old(servers)[i := ResolveServer(old(servers)[i], environ).state]
      ensures err == ResolveServer(old(servers)[i], environ).error
    {
      ghost var s := servers[i];
      err := ResolveEnvOf(i, environ);
      if err.None? {
        ghost var e := servers;
        err := ResolveArgsOf(i, environ);
        assert servers == e[i := ResolveArgs(e[i], environ).state];
      }
    }

    /** The "env" loop of one server (config.py:11-18): each value that starts
        with "${" is overwritten, key by key, with the variable it names. */
    method ResolveEnvOf(i: nat, environ: map<string, string>) returns (err: Option<Error>)
      requires Valid() && i < |servers|
      modifies this
      ensures Valid() && names == old(names)
      ensures servers == old(servers)[i := ResolveEnv(old(servers)[i], environ).state]
      ensures err == ResolveEnv(old(servers)[i], environ).error
    {
      if servers[i].env.None? {
        return None;
      }
      ghost var step := ValueStep(environ);
      ghost var s := servers[i];
      var values := servers[i].env.value.values;
      ghost var done: seq<Value> := [];
      assert values[..0] == [] && [] + values[0..] == values;
      assert old(servers)[i := WithEnvValues(s, values)] == old(servers);
      var j := 0;
      while j < |values|
        invariant 0 <= j <= |values| && |done| == j
        invariant names == old(names)
        invariant Traverse(values[..j], step) == Run(done, None)
        invariant servers == old(servers)[i := WithEnvValues(s, done + values[j..])]
      {
        var value := values[j];
        TraverseExtend(values, j, step);
        ghost var r := step(value);
        Splice(done, values, j, r.state);
        if IsPlaceholder(value) {
          var name := PlaceholderName(value.s);
          if name !in environ {
            TraverseStop(values, j, step);
            UpdateKeepsWellFormed(names, old(servers), i, servers[i]);
            return Some(Unset(name));
          }
          servers := servers[i := SetEnvValue(servers[i], j, Str(environ[name]))];
        }
        done := done + [r.state];
        j := j + 1;
      }
      assert values[..j] == values && done + values[j..] == done;
      UpdateKeepsWellFormed(names, old(servers), i, servers[i]);
      return None;
    }

    /** The "args" loop of one server (config.py:19-26): each entry that starts
        with "${" is overwritten, at its index, with the variable it names. */
    method ResolveArgsOf(i: nat, environ: map<string, string>) returns (err: Option<Error>)
      requires Valid() && i < |servers|
      modifies this
      ensures Valid() && names == old(names)
      ensures servers == old(servers)[i := ResolveArgs(old(servers)[i], environ).state]
      ensures err == ResolveArgs(old(servers)[i], environ).error
    {
      if servers[i].args.None? {
        return None;
      }
      ghost var step := ValueStep(environ);
      ghost var s := servers[i];
      var args := servers[i].args.value;
      ghost var done: seq<Value> := [];
      assert args[..0] == [] && [] + args[0..] == args;
      assert old(servers)[i := s.(args := Some(args))] == old(servers);
      var j := 0;
      while j < |args|
        invariant 0 <= j <= |args| && |done| == j
        invariant names == old(names)
        invariant Traverse(args[..j], step) == Run(done, None)
        invariant servers == old(servers)[i := s.(args := Some(done + args[j..]))]
      {
        var arg := args[j];
        TraverseExtend(args, j, step);
        ghost var r := step(arg);
        Splice(done, args, j, r.state);
        if IsPlaceholder(arg) {
          var name := PlaceholderName(arg.s);
          if name !in environ {
            TraverseStop(args, j, step);
            UpdateKeepsWellFormed(names, old(servers), i, servers[i]);
            return Some(Unset(name));
          }
          servers := servers[i := SetArg(servers[i], j, Str(environ[name]))];
        }
        done := done + [r.state];
        j := j + 1;
      }
      assert args[..j] == args && done + args[j..] == done;
      UpdateKeepsWellFormed(names, old(servers), i, servers[i]);
      return None;
    }
  }

  /** What a parsed JSON configuration object always satisfies: one server
      object per name, no repeated name, and well-formed server objects. */
  ghost predicate WellFormedConfig(names: seq<string>, servers: seq<Server>)
  {
    && |names| == |servers|
    && Distinct(names)
    && forall i :: 0 <= i < |servers| ==> WellFormedServer(servers[i])
  }

  lemma UpdateKeepsWellFormed(names: seq<string>, servers: seq<Server>, i: nat, t: Server)
    requires WellFormedConfig(names, servers) && i < |servers|
    requires SameShape(servers[i], t)
    ensures WellFormedConfig(names, servers[i := t])
  {
  }

  /** Overwriting index j of a sequence whose first j elements are done. */
  lemma Splice<T>(done: seq<T>, xs: seq<T>, j: nat, v: T)
    requires |done| == j < |xs|
    ensures (done + xs[j..])[j := v] == done + [v] + xs[j + 1..]
    ensures done + xs[j..] == done + [xs[j]] + xs[j + 1..]
  {
    assert xs[j..] == [xs[j]] + xs[j + 1..];
  }

  /** The server with its "env" values replaced, keys kept. */
  function WithEnvValues(s: Server, values: seq<Value>): Server
    requires s.env.Some?
  {
    s.(env := Some(s.env.value.(values := values)))
  }

  /** `server["env"][key] = value` for the j-th key. */
  function SetEnvValue(s: Server, j: nat, v: Value): Server
    requires s.env.Some? && j < |s.env.value.values|
  {
    s.(env := Some(s.env.value.(values := s.env.value.values[j := v])))
  }

  /** `server["args"][j] = value`. */
  function SetArg(s: Server, j: nat, v: Value): Server
    requires s.args.Some? && j < |s.args.value|
  {
    s.(args := Some(s.args.value[j := v]))
  }
}
