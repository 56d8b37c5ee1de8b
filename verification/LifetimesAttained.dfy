/** No smaller bound on lifetimes holds: runs in which every refresh comes at the last moment. */
module LifetimesAttained {
  import opened TokenService
  import opened OAuthFlow
  import opened Provenance
  import opened Interleaving
  import opened Redemptions
  import opened Lifetimes
  import opened Overlaps
  import RevocationRaces

  // ---------------------------------------------------------------- timed runs put together

  function EndClock(clock: int, acts: seq<Timed>): int {
    if acts == [] then clock else acts[|acts| - 1].now
  }

  function EndStarts(starts: map<nat, int>, acts: seq<Timed>): map<nat, int>
    decreases |acts|
  {
    if acts == [] then starts else EndStarts(Starts(starts, acts[0]), acts[1..])
  }

  lemma {:induction false} TimedConcat(
    k: Config, d: nat, sys: Sys, clock: int, starts: map<nat, int>, xs: seq<Timed>, ys: seq<Timed>)
    requires TimedOk(k, d, sys, clock, starts, xs)
    requires
      TimedOk(k, d, TimedRun(k, d, sys, clock, starts, xs), EndClock(clock, xs), EndStarts(starts, xs), ys)
    ensures TimedOk(k, d, sys, clock, starts, xs + ys)
    ensures
      TimedRun(k, d, sys, clock, starts, xs + ys) ==
      TimedRun(k, d, TimedRun(k, d, sys, clock, starts, xs), EndClock(clock, xs), EndStarts(starts, xs), ys)
    ensures EndStarts(starts, xs + ys) == EndStarts(EndStarts(starts, xs), ys)
    ensures EndClock(clock, xs + ys) == EndClock(EndClock(clock, xs), ys)
    decreases |xs|
  {
    hide Next, Enabled;
    if xs == [] {
      assert xs + ys == ys;
    } else {
      assert (xs + ys)[0] == xs[0] && (xs + ys)[1..] == xs[1..] + ys;
      TimedConcat(k, d, Next(k, sys, xs[0].act), xs[0].now, Starts(starts, xs[0]), xs[1..], ys);
    }
  }

  /** Acts that all happen at the same time. */
  function At(now: int, acts: seq<Act>): (r: seq<Timed>)
    ensures |r| == |acts| && forall i | 0 <= i < |r| :: r[i] == Timed(now, acts[i])
  {
    if acts == [] then [] else [Timed(now, acts[0])] + At(now, acts[1..])
  }

  /** Acts of one request at one time: a run, if the request has just begun or may go on. */
  lemma {:induction false} OneRequestAt(
    k: Config, d: nat, sys: Sys, clock: int, starts: map<nat, int>, acts: seq<Act>, id: nat, env: Env)
    requires RunOk(k, sys, acts) && ActsOf(acts, id, env) && clock <= env.now
    requires (acts != [] && acts[0].Begin?) || (id in starts && env.now <= starts[id] + d)
    ensures TimedOk(k, d, sys, clock, starts, At(env.now, acts))
    ensures TimedRun(k, d, sys, clock, starts, At(env.now, acts)) == Run(k, sys, acts)
    ensures
      EndStarts(starts, At(env.now, acts)) == starts || EndStarts(starts, At(env.now, acts)) == starts[id := env.now]
    ensures acts != [] && acts[0].Begin? ==> EndStarts(starts, At(env.now, acts)) == starts[id := env.now]
    decreases |acts|
  {
    hide Next, Enabled;
    if acts != [] {
      assert ActOf(acts[0], id, env);
      var t := At(env.now, acts);
      assert t[1..] == At(env.now, acts[1..]);
      OneRequestAt(k, d, Next(k, sys, acts[0]), env.now, Starts(starts, t[0]), acts[1..], id, env);
    }
  }

  // ---------------------------------------------------------------- one use at the last moment

  lemma {:induction false} ClientsStay(k: Config, sys: Sys, acts: seq<Act>)
    requires SysSound(k, sys) && RunOk(k, sys, acts) && sys.history != []
    ensures
      var sys' := Run(k, sys, acts);
      sys'.history != [] && SubMap(sys.Current().clients, sys'.Current().clients)
    decreases |acts|
  {
    hide SysSound, Next;
    if acts != [] {
      NextKeepsSound(k, sys, acts[0]);
      ClientsStayNext(k, sys, acts[0]);
      ClientsStay(k, Next(k, sys, acts[0]), acts[1..]);
    }
  }

  lemma ClientsStayNext(k: Config, sys: Sys, act: Act)
    requires Enabled(sys, act) && SysSound(k, Next(k, sys, act))
    ensures
      var sys' := Next(k, sys, act);
      sys'.history != [] && SubMap(sys.Current().clients, sys'.Current().clients)
  {
    hide StateSound, TablesSound, PhaseSound, Advance, Observe;
    var sys' := Next(k, sys, act);
    assert Older(sys'.history[|sys.history| - 1], sys'.Current());
  }

  /** `sys'` comes after `sys`: nothing on record is altered and no client is gone. */
  ghost predicate After(k: Config, sys: Sys, sys': Sys) {
    && SysSound(k, sys') && Grows(sys.ledger, sys'.ledger)
    && sys.history != [] && sys'.history != [] && SubMap(sys.Current().clients, sys'.Current().clients)
  }

  lemma RunIsAfter(k: Config, sys: Sys, acts: seq<Act>)
    requires SysSound(k, sys) && RunOk(k, sys, acts) && sys.history != []
    ensures After(k, sys, Run(k, sys, acts))
  {
    hide SysSound, Grows, SubMap;
    RunKeepsSound(k, sys, acts);
    ClientsStay(k, sys, acts);
  }

  lemma AfterIsTransitive(k: Config, a: Sys, b: Sys, c: Sys)
    requires After(k, a, b) && After(k, b, c)
    ensures After(k, a, c)
  {
    hide SysSound;
  }

  /** A token of this lineage was minted at that time and is in place. */
  ghost predicate Fresh(sys: Sys, token: string, lin: Lineage, at: int) {
    && sys.history != [] && token in sys.Current().tokens && token in sys.ledger.mints
    && sys.ledger.mints[token].lineage == lin && sys.ledger.mints[token].at == at
  }

  /** A request that begins at a time at which it finds something. */
  lemma FindsAt(
    k: Config, d: nat, sys: Sys, clock: int, starts: map<nat, int>, id: nat, env: Env, r: TokenRequest, what: Source)
    returns (found: Sys, acts: seq<Timed>)
    requires SysSound(k, sys) && sys.history != [] && clock <= env.now
    requires id !in sys.begun && env.token !in sys.ledger.mints && LooksUp(k, sys.Current(), env.now, r, what)
    ensures TimedOk(k, d, sys, clock, starts, acts) && EndClock(clock, acts) == env.now
    ensures id in EndStarts(starts, acts) && EndStarts(starts, acts)[id] == env.now
    ensures found == TimedRun(k, d, sys, clock, starts, acts) && FoundIn(sys, found, id, what) && After(k, sys, found)
  {
    hide SysSound, LooksUp, RunOk, UpToDate, Run, Held, TimedOk, TimedRun, ActsOf, After, EndStarts, FoundIn;
    LoneRequests.EmptyRun(k, sys);
    var finding;
    found, finding := Finder(k, sys, [], sys, id, env, r, what);
    assert finding[0..] == finding;
    RunIsAfter(k, sys, finding);
    OneRequestAt(k, d, sys, clock, starts, finding, id, env);
    acts := At(env.now, finding);
  }

  /** And takes as long as it may. */
  lemma UseAtLast(
    k: Config, d: nat, sys: Sys, clock: int, starts: map<nat, int>, time: int, r: TokenRequest, what: Source)
    returns (acts: seq<Timed>, token: string)
    requires SysSound(k, sys) && sys.history != [] && k.EncodeTotal() && clock <= time
    requires LooksUp(k, sys.Current(), time, r, what)
    ensures TimedOk(k, d, sys, clock, starts, acts) && EndClock(clock, acts) == time + d
    ensures
      var sys' := TimedRun(k, d, sys, clock, starts, acts);
      After(k, sys, sys') && Fresh(sys', token, sys.ledger.LineageFrom(what), time + d)
  {
    hide SysSound, Config.EncodeTotal, LooksUp, RunOk, UpToDate, Run, Held, TimedOk, TimedRun, ActsOf, After, EndStarts;
    var id := GreaterThanAll(sys.begun);
    var n := LongerThanAll(sys.ledger.mints.Keys);
    token := seq(n, _ => 'x');
    var found, xs := FindsAt(k, d, sys, clock, starts, id, Env(time, "", token, "", "", "", 0), r, what);
    AfterIsSound(k, sys, found);
    var env := Env(time + d, "", token, "", "", "", 0);
    var rest := HolderMints(k, found, id, env, what);
    RunIsAfter(k, found, rest);
    AfterIsTransitive(k, sys, found, Run(k, found, rest));
    OneRequestAt(k, d, found, EndClock(clock, xs), EndStarts(starts, xs), rest, id, env);
    TimedConcat(k, d, sys, clock, starts, xs, At(time + d, rest));
    acts := xs + At(time + d, rest);
  }

  // ---------------------------------------------------------------- every refresh at the last moment

  function LatestIssue(k: Config, d: nat, l: Ledger, code: string, rank: nat): int
    requires code in l.grants
  {
    l.grants[code].at + 600 + d + rank * (k.RefreshTtl() + d)
  }

  lemma ClientStillCan(k: Config, sys: Sys, sys': Sys, code: string, secret: string)
    requires After(k, sys, sys') && RevocationRaces.ClientCan(k, sys, code, secret)
    ensures RevocationRaces.ClientCan(k, sys', code, secret) && sys'.ledger.grants[code] == sys.ledger.grants[code]
  {
    hide SysSound;
  }

  /** When the token expires its client can still refresh it. */
  lemma LastRefresh(k: Config, sys: Sys, code: string, secret: string, token: string)
    returns (r: TokenRequest)
    requires SysSound(k, sys) && sys.history != [] && RevocationRaces.ClientCan(k, sys, code, secret)
    requires token in sys.Current().tokens && token in sys.ledger.mints && sys.ledger.mints[token].lineage.code == code
    ensures LooksUp(k, sys.Current(), sys.ledger.mints[token].at + k.RefreshTtl(), r, FromToken(token))
  {
    RevocationRaces.TokenOfCode(k, sys, token, code);
    RowOfToken(k, sys, token);
    hide SysSound, AuthenticateClient;
    r := RevocationRaces.RefreshRequest(token, sys.Current().tokens[token].clientId, secret);
  }

  lemma RowOfToken(k: Config, sys: Sys, token: string)
    requires SysSound(k, sys) && sys.history != [] && token in sys.Current().tokens && token in sys.ledger.mints
    ensures sys.Current().tokens[token].expiresAt == sys.ledger.mints[token].at + k.RefreshTtl()
  {
    RevocationRaces.SoundParts(k, sys);
    assert MintSound(k, sys.ledger, token, sys.ledger.mints[token]);
    hide MintsSound, LedgerSound;
  }

  /**
   * The bound is attained: from every sound state in which a client can exchange an unused code at the last moment,
   * there is for every n a run in which a token of its n-th refresh is issued exactly 600 s, n refresh lifetimes
   * and n + 1 durations after the `authorize`.
   */
  lemma {:induction false} LifetimesAttained(
    k: Config, d: nat, n: nat, sys: Sys, clock: int, starts: map<nat, int>, code: string, r: TokenRequest, secret: string)
    returns (acts: seq<Timed>, token: string)
    requires SysSound(k, sys) && sys.history != [] && k.EncodeTotal() && k.refreshTtlDays >= 0
    requires RevocationRaces.ClientCan(k, sys, code, secret) && clock <= sys.ledger.grants[code].at + 600
    requires LooksUp(k, sys.Current(), sys.ledger.grants[code].at + 600, r, FromCode(code))
    ensures TimedOk(k, d, sys, clock, starts, acts)
    ensures
      var sys', latest := TimedRun(k, d, sys, clock, starts, acts), LatestIssue(k, d, sys.ledger, code, n);
      && After(k, sys, sys') && EndClock(clock, acts) == latest
      && token in sys'.ledger.mints && Fresh(sys', token, sys'.ledger.mints[token].lineage, latest)
      && sys'.ledger.mints[token].lineage.code == code && sys'.ledger.mints[token].lineage.rank == n
  {
    hide SysSound, Config.EncodeTotal, LooksUp, TimedOk, TimedRun, After, RevocationRaces.ClientCan;
    if n == 0 {
      CodeIsGranted(k, sys, code, secret);
      acts, token := UseAtLast(k, d, sys, clock, starts, sys.ledger.grants[code].at + 600, r, FromCode(code));
    } else {
      var before, p := LifetimesAttained(k, d, n - 1, sys, clock, starts, code, r, secret);
      var mid := TimedRun(k, d, sys, clock, starts, before);
      ClientStillCan(k, sys, mid, code, secret);
      AfterIsSound(k, sys, mid);
      var q := LastRefresh(k, mid, code, secret, p);
      var time := mid.ledger.mints[p].at + k.RefreshTtl();
      var more;
      more, token := UseAtLast(k, d, mid, EndClock(clock, before), EndStarts(starts, before), time, q, FromToken(p));
      TimedConcat(k, d, sys, clock, starts, before, more);
      acts := before + more;
      AfterIsTransitive(k, sys, mid, TimedRun(k, d, sys, clock, starts, acts));
      assert n * (k.RefreshTtl() + d) == (n - 1) * (k.RefreshTtl() + d) + k.RefreshTtl() + d;
    }
  }

  lemma CodeIsGranted(k: Config, sys: Sys, code: string, secret: string)
    requires sys.history != [] && RevocationRaces.ClientCan(k, sys, code, secret)
    ensures code in sys.ledger.grants
  {
  }

  lemma AfterIsSound(k: Config, sys: Sys, sys': Sys)
    requires After(k, sys, sys')
    ensures SysSound(k, sys') && sys'.history != []
  {
  }
}
