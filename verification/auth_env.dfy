/**
 * The three environment variables the ArangoDB image reads to choose how the
 * root user authenticates. Both container classes set them; at most one may
 * be present when the container starts.
 */
module AuthEnv {

  const NoAuthKey := "ARANGO_NO_AUTH"
  const RootPasswordKey := "ARANGO_ROOT_PASSWORD"
  const RandomRootPasswordKey := "ARANGO_RANDOM_ROOT_PASSWORD"

  /** The value the no-auth and random-password switches are set to. */
  const Enabled := "1"

  datatype AuthMode = RootPassword | NoAuth | RandomRootPassword

  const AllModes: set<AuthMode> := {RootPassword, NoAuth, RandomRootPassword}

  function Key(m: AuthMode): string
  {
    match m
    case RootPassword => RootPasswordKey
    case NoAuth => NoAuthKey
    case RandomRootPassword => RandomRootPasswordKey
  }

  lemma KeyInjective(m1: AuthMode, m2: AuthMode)
    ensures Key(m1) == Key(m2) <==> m1 == m2
  {
    if m1 != m2 {
      assert |Key(m1)| != |Key(m2)|;
    }
  }

  /** The modes whose variable is set in `env`. */
  function PresentModes(env: map<string, string>): (r: set<AuthMode>)
    ensures forall m :: m in r <==> Key(m) in env
  {
    set m | m in AllModes && Key(m) in env
  }

  /** Two different modes are requested at once. */
  ghost predicate Mixed(ms: set<AuthMode>)
  {
    exists m1, m2 :: m1 in ms && m2 in ms && m1 != m2
  }

  /** Setting one mode's variable adds exactly that mode. */
  lemma PresentAfterSet(env: map<string, string>, m: AuthMode, v: string)
    ensures PresentModes(env[Key(m) := v]) == PresentModes(env) + {m}
  {
    forall m' | m' != m
      ensures Key(m') in env[Key(m) := v] <==> Key(m') in env
    {
      KeyInjective(m, m');
    }
  }

  /** One setter call on a container: `withPassword(p)`, `withoutAuth()`, `withRandomPassword()`. */
  datatype AuthCall = UsePassword(password: string) | UseNoAuth | UseRandomPassword

  function ModeOf(call: AuthCall): AuthMode
  {
    match call
    case UsePassword(_) => RootPassword
    case UseNoAuth => NoAuth
    case UseRandomPassword => RandomRootPassword
  }

  /** The value the call writes into its mode's variable. */
  function ValueOf(call: AuthCall): string
  {
    match call
    case UsePassword(p) => p
    case _ => Enabled
  }

  function ModesOf(calls: seq<AuthCall>): (r: set<AuthMode>)
    ensures forall m :: m in r <==> exists i :: 0 <= i < |calls| && ModeOf(calls[i]) == m
  {
    set i | 0 <= i < |calls| :: ModeOf(calls[i])
  }

  lemma ModesOfSnoc(calls: seq<AuthCall>, call: AuthCall)
    ensures ModesOf(calls + [call]) == ModesOf(calls) + {ModeOf(call)}
  {
    var all := calls + [call];
    assert all[|calls|] == call;
    forall m | m in ModesOf(calls)
      ensures m in ModesOf(all)
    {
      var i :| 0 <= i < |calls| && ModeOf(calls[i]) == m;
      assert all[i] == calls[i];
    }
    forall m | m in ModesOf(all)
      ensures m in ModesOf(calls) + {ModeOf(call)}
    {
      var i :| 0 <= i < |all| && ModeOf(all[i]) == m;
      if i < |calls| {
        assert all[i] == calls[i];
      }
    }
  }

  lemma ModesOfCons(call: AuthCall, calls: seq<AuthCall>)
    ensures ModesOf([call] + calls) == {ModeOf(call)} + ModesOf(calls)
  {
    var all := [call] + calls;
    assert all[0] == call;
    forall m | m in ModesOf(calls)
      ensures m in ModesOf(all)
    {
      var i :| 0 <= i < |calls| && ModeOf(calls[i]) == m;
      assert all[i + 1] == calls[i];
    }
    forall m | m in ModesOf(all)
      ensures m in {ModeOf(call)} + ModesOf(calls)
    {
      var i :| 0 <= i < |all| && ModeOf(all[i]) == m;
      if i > 0 {
        assert all[i] == calls[i - 1];
      }
    }
  }
}
