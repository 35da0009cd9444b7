/**
 * `ArangoDBContainer`: the single-node container whose authentication setters
 * refuse a mode while a different one is already set, so the environment
 * never holds two modes at once.
 */
module AuthEager {
  import opened Wrappers
  import opened AuthEnv
  import AuthLate

  const Host := "localhost"
  const PortDefault := 8529
  const RootUser := "root"

  /** The environment, the remembered password and the host port chosen with `setPort`. */
  datatype Container = Container(env: map<string, string>, password: Option<string>, port: int)

  datatype AuthError = AuthConflict

  /** A setter call's outcome: the container afterwards and the exception, if one was thrown. */
  datatype Attempt = Attempt(after: Container, error: Option<AuthError>)

  ghost predicate AtMostOneMode(c: Container)
  {
    !Mixed(PresentModes(c.env))
  }

  function New(): (c: Container)
    ensures PresentModes(c.env) == {}
    ensures c.password == None
    ensures c.port == PortDefault
  {
    Container(map[], None, PortDefault)
  }

  /**
   * `withPassword(p)`: refused while the no-auth or random-password switch is
   * set; otherwise sets the root password variable and remembers `p`, replacing
   * an earlier password.
   */
  function WithPassword(c: Container, p: string): (r: Attempt)
    ensures r.error.Some? <==> NoAuthKey in c.env || RandomRootPasswordKey in c.env
    ensures r.error.Some? ==> r.after == c
    ensures r.error.None? ==> RootPasswordKey in r.after.env && r.after.env[RootPasswordKey] == p
    ensures r.error.None? ==> r.after.password == Some(p) && r.after.port == c.port
    ensures r.error.None? ==> PresentModes(r.after.env) == {RootPassword}
    ensures r.error.None? ==> forall k :: k != RootPasswordKey ==> (k in r.after.env <==> k in c.env)
    ensures r.error.None? ==> forall k :: k != RootPasswordKey && k in c.env ==> r.after.env[k] == c.env[k]
  {
    if NoAuthKey in c.env || RandomRootPasswordKey in c.env then
      Attempt(c, Some(AuthConflict))
    else
      PresentAfterSet(c.env, RootPassword, p);
      Attempt(c.(env := c.env[RootPasswordKey := p], password := Some(p)), None)
  }

  /** `withoutAuthentication()`: refused while a password mode is set. */
  function WithoutAuthentication(c: Container): (r: Attempt)
    ensures r.error.Some? <==> RootPasswordKey in c.env || RandomRootPasswordKey in c.env
    ensures r.error.Some? ==> r.after == c
    ensures r.error.None? ==> NoAuthKey in r.after.env && r.after.env[NoAuthKey] == Enabled
    ensures r.error.None? ==> r.after.password == c.password && r.after.port == c.port
    ensures r.error.None? ==> PresentModes(r.after.env) == {NoAuth}
    ensures r.error.None? ==> forall k :: k != NoAuthKey ==> (k in r.after.env <==> k in c.env)
    ensures r.error.None? ==> forall k :: k != NoAuthKey && k in c.env ==> r.after.env[k] == c.env[k]
  {
    if RootPasswordKey in c.env || RandomRootPasswordKey in c.env then
      Attempt(c, Some(AuthConflict))
    else
      PresentAfterSet(c.env, NoAuth, Enabled);
      Attempt(c.(env := c.env[NoAuthKey := Enabled]), None)
  }

  /** `withRandomPassword()`: refused while a fixed password or the no-auth switch is set. */
  function WithRandomPassword(c: Container): (r: Attempt)
    ensures r.error.Some? <==> RootPasswordKey in c.env || NoAuthKey in c.env
    ensures r.error.Some? ==> r.after == c
    ensures r.error.None? ==> RandomRootPasswordKey in r.after.env && r.after.env[RandomRootPasswordKey] == Enabled
    ensures r.error.None? ==> r.after.password == c.password && r.after.port == c.port
    ensures r.error.None? ==> PresentModes(r.after.env) == {RandomRootPassword}
    ensures r.error.None? ==> forall k :: k != RandomRootPasswordKey ==> (k in r.after.env <==> k in c.env)
    ensures r.error.None? ==> forall k :: k != RandomRootPasswordKey && k in c.env ==> r.after.env[k] == c.env[k]
  {
    if RootPasswordKey in c.env || NoAuthKey in c.env then
      Attempt(c, Some(AuthConflict))
    else
      PresentAfterSet(c.env, RandomRootPassword, Enabled);
      Attempt(c.(env := c.env[RandomRootPasswordKey := Enabled]), None)
  }

  function Apply(c: Container, call: AuthCall): Attempt
  {
    match call
    case UsePassword(p) => WithPassword(c, p)
    case UseNoAuth => WithoutAuthentication(c)
    case UseRandomPassword => WithRandomPassword(c)
  }

  /** Each setter keeps "at most one mode"; it refuses exactly when another mode is present. */
  lemma ApplyKeepsOneMode(c: Container, call: AuthCall)
    requires AtMostOneMode(c)
    ensures AtMostOneMode(Apply(c, call).after)
    ensures Apply(c, call).error.Some? <==> Mixed(PresentModes(c.env) + {ModeOf(call)})
    ensures Apply(c, call).error.None? ==> PresentModes(Apply(c, call).after.env) == PresentModes(c.env) + {ModeOf(call)}
  {
    var m := ModeOf(call);
    var ps := PresentModes(c.env);
    var r := Apply(c, call);
    if r.error.Some? {
      var other :| other in AllModes && other != m && Key(other) in c.env;
      assert other in ps + {m};
    } else {
      assert PresentModes(r.after.env) == {m};
      assert forall m' :: m' in ps ==> m' == m;
      assert ps + {m} == {m};
      assert !Mixed(ps + {m});
    }
  }

  /** A chain of setter calls; the first refusal ends the chain, as a thrown exception would. */
  function Run(c: Container, calls: seq<AuthCall>): Attempt
    decreases |calls|
  {
    if calls == [] then Attempt(c, None)
    else
      var step := Apply(c, calls[0]);
      if step.error.Some? then step else Run(step.after, calls[1..])
  }

  /**
   * Every state a chain of setter calls reaches holds at most one mode, and
   * the chain is refused exactly when the modes it asks for, together with the
   * ones already present, are mixed.
   */
  lemma {:induction false} RunKeepsOneMode(c: Container, calls: seq<AuthCall>)
    requires AtMostOneMode(c)
    ensures AtMostOneMode(Run(c, calls).after)
    ensures Run(c, calls).error.Some? <==> Mixed(PresentModes(c.env) + ModesOf(calls))
    decreases |calls|
  {
    if calls != [] {
      var ps := PresentModes(c.env);
      var step := Apply(c, calls[0]);
      ApplyKeepsOneMode(c, calls[0]);
      assert calls == [calls[0]] + calls[1..];
      ModesOfCons(calls[0], calls[1..]);
      if step.error.Some? {
        var m1, m2 :| m1 in ps + {ModeOf(calls[0])} && m2 in ps + {ModeOf(calls[0])} && m1 != m2;
        assert m1 in ps + ModesOf(calls) && m2 in ps + ModesOf(calls);
      } else {
        RunKeepsOneMode(step.after, calls[1..]);
        assert PresentModes(step.after.env) + ModesOf(calls[1..]) == ps + ModesOf(calls);
      }
    }
  }

  /**
   * Both container revisions reject the same chains of setter calls: this one
   * at the offending setter, the older one in `configure()`.
   */
  lemma EagerAndLateRejectAlike(calls: seq<AuthCall>)
    ensures Run(New(), calls).error.Some? <==> AuthLate.Configure(AuthLate.Run(AuthLate.Fresh(), calls)).Fail?
  {
    RunKeepsOneMode(New(), calls);
    assert PresentModes(New().env) + ModesOf(calls) == ModesOf(calls);
    AuthLate.ConfigureRejectsMixedCalls(calls);
  }

  /** A chain that is not refused ends with the modes it started with plus the ones it asked for. */
  lemma {:induction false} RunModesAccepted(c: Container, calls: seq<AuthCall>)
    requires AtMostOneMode(c)
    ensures Run(c, calls).error.None? ==> PresentModes(Run(c, calls).after.env) == PresentModes(c.env) + ModesOf(calls)
    decreases |calls|
  {
    if calls != [] {
      var step := Apply(c, calls[0]);
      ApplyKeepsOneMode(c, calls[0]);
      assert calls == [calls[0]] + calls[1..];
      ModesOfCons(calls[0], calls[1..]);
      if step.error.None? {
        RunModesAccepted(step.after, calls[1..]);
      }
    }
  }

  /** One more call at the end of a chain runs only when the chain so far was not refused. */
  lemma {:induction false} RunSnoc(c: Container, calls: seq<AuthCall>, call: AuthCall)
    ensures Run(c, calls + [call])
      == if Run(c, calls).error.Some? then Run(c, calls) else Apply(Run(c, calls).after, call)
    decreases |calls|
  {
    if calls == [] {
      assert calls + [call] == [call];
    } else {
      assert (calls + [call])[0] == calls[0];
      assert (calls + [call])[1..] == calls[1..] + [call];
      var step := Apply(c, calls[0]);
      if step.error.None? {
        RunSnoc(step.after, calls[1..], call);
      }
    }
  }

  /**
   * The calls a fresh container accepts: the longest prefix of the chain that
   * asks for a single mode. The first call past it is the one that throws.
   */
  ghost function AcceptedPrefix(calls: seq<AuthCall>): seq<AuthCall>
    decreases |calls|
  {
    if calls == [] || !Mixed(ModesOf(calls)) then calls else AcceptedPrefix(calls[..|calls| - 1])
  }

  /**
   * `getPassword()` after a chain of setter calls on a new container is the
   * argument of the last `withPassword` it accepted, and `null` when it
   * accepted none; a chain that is not refused accepts every call.
   */
  lemma {:induction false} PasswordIsLastAccepted(calls: seq<AuthCall>)
    ensures GetPassword(Run(New(), calls).after) == AuthLate.LastPassword(AcceptedPrefix(calls))
    ensures Run(New(), calls).error.None? ==> GetPassword(Run(New(), calls).after) == AuthLate.LastPassword(calls)
    decreases |calls|
  {
    RunKeepsOneMode(New(), calls);
    assert PresentModes(New().env) + ModesOf(calls) == ModesOf(calls);
    if calls != [] {
      var init, x := calls[..|calls| - 1], calls[|calls| - 1];
      assert calls == init + [x];
      RunSnoc(New(), init, x);
      ModesOfSnoc(init, x);
      PasswordIsLastAccepted(init);
      RunKeepsOneMode(New(), init);
      assert PresentModes(New().env) + ModesOf(init) == ModesOf(init);
      var before := Run(New(), init);
      if before.error.None? {
        RunModesAccepted(New(), init);
        assert AcceptedPrefix(init) == init;
        ApplyKeepsOneMode(before.after, x);
      }
    }
  }

  /** Every state this class can reach passes the older class's start-time check. */
  lemma ReachableStatesConfigure(calls: seq<AuthCall>)
    ensures AuthLate.Configure(AuthLate.Container(Run(New(), calls).after.env, None)).Pass?
  {
    RunKeepsOneMode(New(), calls);
  }

  function SetPort(c: Container, port: int): (r: Container)
    ensures r.port == port
    ensures r.env == c.env && r.password == c.password
  {
    c.(port := port)
  }

  /** `getPort()` as written: always the container's default port, whatever `setPort` chose. */
  function GetPort(c: Container): (r: int)
    ensures r == PortDefault
  {
    PortDefault
  }

  /** A fixed port forward from the host into the container. */
  datatype PortBinding = PortBinding(hostPort: int, containerPort: int)

  /** `configure()`'s `addFixedExposedPort(port, PORT_DEFAULT)`: the chosen host port forwards to the database's 8529. */
  function Bind(c: Container): (b: PortBinding)
    ensures b.containerPort == PortDefault
    ensures b.hostPort == c.port
  {
    PortBinding(c.port, PortDefault)
  }

  /** `getPort()` as evidently intended: the host port `configure()` binds to the database port. */
  function GetBoundPort(c: Container): (r: int)
    ensures r == Bind(c).hostPort
  {
    c.port
  }

  /**
   * The as-written getter ignores `setPort`: after `setPort(port)` with any
   * port other than 8529 it reports a port the container does not bind, for
   * example 8529 after `setPort(8233)`.
   */
  lemma GetPortIgnoresSetPort(c: Container, port: int)
    ensures port != PortDefault ==> GetPort(SetPort(c, port)) != Bind(SetPort(c, port)).hostPort
    ensures GetPort(SetPort(New(), 8233)) == PortDefault && Bind(SetPort(New(), 8233)).hostPort == 8233
  {
  }

  /** The intended getter reports whatever port was last set, and the default before any `setPort`. */
  lemma BoundPortFollowsSetPort(c: Container, port: int)
    ensures GetBoundPort(SetPort(c, port)) == port
    ensures GetBoundPort(New()) == PortDefault
    ensures SetPort(c, port).env == c.env && SetPort(c, port).password == c.password
  {
  }

  function GetHost(c: Container): string
  {
    Host
  }

  function GetUser(c: Container): string
  {
    RootUser
  }

  /** `getPassword()`: the last password a `withPassword` call accepted, `None` (Java's `null`) before any. */
  function GetPassword(c: Container): (r: Option<string>)
    ensures r.Some? <==> c.password.Some?
    ensures r.Some? ==> r.value == c.password.value
  {
    c.password
  }
}
