/**
 * `ArangoContainer`: the single-node container whose authentication setters
 * write their variable unconditionally; conflicting modes are only detected
 * when the container is configured for start.
 */
module AuthLate {
  import opened Wrappers
  import opened AuthEnv

  /** The container port of the database server (`PORT`). */
  const Port := 8529
  const DefaultUser := "root"

  /** The configuration state the setters touch: the environment and the remembered password. */
  datatype Container = Container(env: map<string, string>, password: Option<string>)

  datatype AuthError = AuthConflict

  function Fresh(): (c: Container)
    ensures PresentModes(c.env) == {}
    ensures c.password == None
  {
    Container(map[], None)
  }

  /** `withPassword(p)`: remembers `p` and sets the root password variable, replacing an earlier one. */
  function WithPassword(c: Container, p: string): (r: Container)
    ensures RootPasswordKey in r.env && r.env[RootPasswordKey] == p
    ensures r.password == Some(p)
    ensures PresentModes(r.env) == PresentModes(c.env) + {RootPassword}
    ensures forall k :: k != RootPasswordKey ==> (k in r.env <==> k in c.env)
    ensures forall k :: k != RootPasswordKey && k in c.env ==> r.env[k] == c.env[k]
  {
    PresentAfterSet(c.env, RootPassword, p);
    Container(c.env[RootPasswordKey := p], Some(p))
  }

  /** `withoutAuth()`: sets the no-auth switch; never checks for conflicts. */
  function WithoutAuth(c: Container): (r: Container)
    ensures NoAuthKey in r.env && r.env[NoAuthKey] == Enabled
    ensures r.password == c.password
    ensures PresentModes(r.env) == PresentModes(c.env) + {NoAuth}
    ensures forall k :: k != NoAuthKey ==> (k in r.env <==> k in c.env)
    ensures forall k :: k != NoAuthKey && k in c.env ==> r.env[k] == c.env[k]
  {
    PresentAfterSet(c.env, NoAuth, Enabled);
    c.(env := c.env[NoAuthKey := Enabled])
  }

  /** `withRandomPassword()`: sets the random-password switch; never checks for conflicts. */
  function WithRandomPassword(c: Container): (r: Container)
    ensures RandomRootPasswordKey in r.env && r.env[RandomRootPasswordKey] == Enabled
    ensures r.password == c.password
    ensures PresentModes(r.env) == PresentModes(c.env) + {RandomRootPassword}
    ensures forall k :: k != RandomRootPasswordKey ==> (k in r.env <==> k in c.env)
    ensures forall k :: k != RandomRootPasswordKey && k in c.env ==> r.env[k] == c.env[k]
  {
    PresentAfterSet(c.env, RandomRootPassword, Enabled);
    c.(env := c.env[RandomRootPasswordKey := Enabled])
  }

  /** `configure()`: the three pairwise conflict checks, in the order the source makes them. */
  function Configure(c: Container): (r: Outcome<AuthError>)
    ensures r.Fail? <==> Mixed(PresentModes(c.env))
  {
    var env := c.env;
    var r :=
      if RootPasswordKey in env && (NoAuthKey in env || RandomRootPasswordKey in env) then Fail(AuthConflict)
      else if NoAuthKey in env && (RootPasswordKey in env || RandomRootPasswordKey in env) then Fail(AuthConflict)
      else if RandomRootPasswordKey in env && (RootPasswordKey in env || NoAuthKey in env) then Fail(AuthConflict)
      else Pass;
    assert Mixed(PresentModes(env)) ==> r.Fail? by {
      if Mixed(PresentModes(env)) {
        var m1, m2 :| m1 in PresentModes(env) && m2 in PresentModes(env) && m1 != m2;
        assert Key(m1) in env && Key(m2) in env;
      }
    }
    assert r.Fail? ==> Mixed(PresentModes(env)) by {
      if RootPasswordKey in env && NoAuthKey in env {
        assert RootPassword in PresentModes(env) && NoAuth in PresentModes(env);
      } else if RootPasswordKey in env && RandomRootPasswordKey in env {
        assert RootPassword in PresentModes(env) && RandomRootPassword in PresentModes(env);
      } else if NoAuthKey in env && RandomRootPasswordKey in env {
        assert NoAuth in PresentModes(env) && RandomRootPassword in PresentModes(env);
      }
    }
    r
  }

  /** `withoutAuth()` on a fresh container switches on the no-auth mode alone, which `configure()` accepts. */
  lemma WithoutAuthFreshPasses()
    ensures PresentModes(WithoutAuth(Fresh()).env) == {NoAuth}
    ensures Configure(WithoutAuth(Fresh())).Pass?
  {
    assert !Mixed(PresentModes(WithoutAuth(Fresh()).env));
  }

  function GetUser(c: Container): string
  {
    DefaultUser
  }

  /** `getPassword()`: the remembered password, `None` (Java's `null`) before any `withPassword`. */
  function GetPassword(c: Container): (r: Option<string>)
    ensures r.Some? <==> c.password.Some?
    ensures r.Some? ==> r.value == c.password.value
  {
    c.password
  }

  function Apply(c: Container, call: AuthCall): (r: Container)
    ensures PresentModes(r.env) == PresentModes(c.env) + {ModeOf(call)}
  {
    match call
    case UsePassword(p) => WithPassword(c, p)
    case UseNoAuth => WithoutAuth(c)
    case UseRandomPassword => WithRandomPassword(c)
  }

  /** A chain of setter calls, applied left to right. */
  function Run(c: Container, calls: seq<AuthCall>): Container
    decreases |calls|
  {
    if calls == [] then c else Run(Apply(c, calls[0]), calls[1..])
  }

  lemma {:induction false} RunModes(c: Container, calls: seq<AuthCall>)
    ensures PresentModes(Run(c, calls).env) == PresentModes(c.env) + ModesOf(calls)
    decreases |calls|
  {
    if calls != [] {
      RunModes(Apply(c, calls[0]), calls[1..]);
      assert calls == [calls[0]] + calls[1..];
      ModesOfCons(calls[0], calls[1..]);
    }
  }

  /**
   * Starting from a fresh container, `configure()` rejects a chain of setter
   * calls exactly when the chain asks for two different modes; the setters
   * themselves never reject anything.
   */
  lemma ConfigureRejectsMixedCalls(calls: seq<AuthCall>)
    ensures Configure(Run(Fresh(), calls)).Fail? <==> Mixed(ModesOf(calls))
  {
    RunModes(Fresh(), calls);
  }

  /** The password of the last `withPassword` in the chain, if any. */
  function LastPassword(calls: seq<AuthCall>): Option<string>
    decreases |calls|
  {
    if calls == [] then None
    else match calls[|calls| - 1]
      case UsePassword(p) => Some(p)
      case _ => LastPassword(calls[..|calls| - 1])
  }

  lemma {:induction false} RunSnoc(c: Container, calls: seq<AuthCall>, call: AuthCall)
    ensures Run(c, calls + [call]) == Apply(Run(c, calls), call)
    decreases |calls|
  {
    if calls == [] {
      assert calls + [call] == [call];
    } else {
      assert (calls + [call])[0] == calls[0];
      assert (calls + [call])[1..] == calls[1..] + [call];
      RunSnoc(Apply(c, calls[0]), calls[1..], call);
    }
  }

  /**
   * `getPassword()` after a chain of calls is the value given to the last
   * `withPassword`, and `null` when there was none; the other setters never
   * touch it.
   */
  lemma {:induction false} PasswordIsLastGiven(calls: seq<AuthCall>)
    ensures GetPassword(Run(Fresh(), calls)) == LastPassword(calls)
    decreases |calls|
  {
    if calls != [] {
      var init := calls[..|calls| - 1];
      assert calls == init + [calls[|calls| - 1]];
      RunSnoc(Fresh(), init, calls[|calls| - 1]);
      PasswordIsLastGiven(init);
    }
  }
}
