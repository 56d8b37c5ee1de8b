/**
 * Requests side by side on one database: whoever has found a code or a refresh token can still turn it into
 * tokens, whatever others have done to it since.
 */
module Overlaps {
  import opened Wrappers
  import opened AuthTables
  import opened TokenService
  import opened OAuthFlow
  import opened Provenance
  import opened Interleaving
  import opened Redemptions
  import opened LoneRequests

  // ---------------------------------------------------------------- fresh names

  lemma {:induction false} LongerThanAll(s: set<string>) returns (n: nat)
    ensures forall x | x in s :: |x| < n
    decreases |s|
  {
    n := 0;
    if x :| x in s {
      var m := LongerThanAll(s - {x});
      n := if m <= |x| then |x| + 1 else m;
    }
  }

  lemma {:induction false} GreaterThanAll(s: set<nat>) returns (n: nat)
    ensures forall i | i in s :: i < n
    decreases |s|
  {
    n := 0;
    if i :| i in s {
      var m := GreaterThanAll(s - {i});
      n := if m <= i then i + 1 else m;
      forall j | j in s ensures j < n {
        if j != i {
          assert j in s - {i};
        }
      }
    } else {
      assert forall j | j in s :: j < n;
    }
  }

  // ---------------------------------------------------------------- a holder left alone

  /** `sys'` is `sys` after request `id` minted a token from what it held and ended; nobody else moved. */
  ghost predicate MintedIn(sys: Sys, sys': Sys, id: nat, env: Env, what: Source) {
    && env.token in sys'.ledger.mints && sys'.history != [] && env.token in sys'.Current().tokens
    && sys'.ledger.mints == sys.ledger.mints[env.token := sys'.ledger.mints[env.token]]
    && sys'.ledger.mints[env.token].lineage == sys.ledger.LineageFrom(what)
    && sys'.ledger.mints[env.token].at == env.now
    && id in sys'.flights && sys'.flights[id].Done?
    && (forall j | j in sys.flights && j != id :: j in sys'.flights && sys'.flights[j] == sys.flights[j])
  }

  /** An act of this request alone, under this environment. */
  predicate ActOf(act: Act, id: nat, env: Env) {
    !act.Abandon? && act.id == id && (act.Step? ==> act.env == env)
  }

  predicate ActsOf(acts: seq<Act>, id: nat, env: Env) {
    forall i | 0 <= i < |acts| :: ActOf(acts[i], id, env)
  }

  /** Whatever has become of the code or token, a request that has found it obtains a token if it is left alone. */
  lemma {:induction false} HolderMints(k: Config, sys: Sys, id: nat, env: Env, what: Source) returns (acts: seq<Act>)
    requires SysSound(k, sys) && sys.history != [] && k.EncodeTotal()
    requires id in sys.flights && Held(sys.flights[id]) == Some(what) && env.token !in sys.ledger.mints
    ensures RunOk(k, sys, acts) && UpToDate(k, sys, acts) && ActsOf(acts, id, env) && acts != []
    ensures SysSound(k, Run(k, sys, acts)) && MintedIn(sys, Run(k, sys, acts), id, env, what)
    decreases if id in sys.flights then sys.flights[id].Remaining() else 0
  {
    hide SysSound, Config.EncodeTotal, RunOk, UpToDate, Run;
    var act := Step(id, |sys.history| - 1, env);
    var sys' := Next(k, sys, act);
    HolderSteps(k, sys, id, env, what);
    NextKeepsSound(k, sys, act);
    OneAct(k, sys, act);
    acts := [act];
    if !sys'.flights[id].Done? {
      hide Next;
      var rest := HolderMints(k, sys', id, env, what);
      RunConcat(k, sys, [act], rest);
      acts := [act] + rest;
    }
  }

  /** One step of such a request: nearer to its end, or there. */
  lemma HolderSteps(k: Config, sys: Sys, id: nat, env: Env, what: Source)
    requires SysSound(k, sys) && sys.history != [] && k.EncodeTotal()
    requires id in sys.flights && Held(sys.flights[id]) == Some(what) && env.token !in sys.ledger.mints
    ensures
      var sys' := Next(k, sys, Step(id, |sys.history| - 1, env));
      && sys'.history != [] && sys'.flights.Keys == sys.flights.Keys
      && (forall j | j in sys.flights && j != id :: sys'.flights[j] == sys.flights[j])
      && if sys'.flights[id].Done? then MintedIn(sys, sys', id, env, what)
         else
           && sys'.ledger.mints == sys.ledger.mints && Held(sys'.flights[id]) == Some(what)
           && sys'.flights[id].Remaining() < sys.flights[id].Remaining()
  {
    hide SysSound, StateSound, PhaseSound, Config.EncodeTotal, Next, Advance, Held;
    FlightIsSound(k, sys, id);
    StepShape(k, sys, id, env);
    HolderAdvances(k, env, State(sys.Current(), sys.ledger), sys.flights[id]);
  }

  /** An up-to-date step, but for what the audit notes. */
  lemma StepShape(k: Config, sys: Sys, id: nat, env: Env)
    requires sys.history != [] && id in sys.flights && env.token !in sys.ledger.mints
    ensures
      var (s', ph') := Advance(k, env, sys.Current(), State(sys.Current(), sys.ledger), sys.flights[id]);
      var sys' := Next(k, sys, Step(id, |sys.history| - 1, env));
      && |sys'.history| == |sys.history| + 1 && sys'.Current() == s'.tables && sys'.ledger == s'.ledger
      && sys'.flights == sys.flights[id := ph'] && sys'.begun == sys.begun
  {
    hide Advance, Observe;
  }

  lemma HolderAdvances(k: Config, env: Env, s: State, ph: Phase)
    requires StateSound(k, s) && PhaseSound(k, s.tables, s.ledger, ph) && k.EncodeTotal()
    requires Held(ph).Some? && env.token !in s.ledger.mints
    ensures
      var (s', ph') := Advance(k, env, s.tables, s, ph);
      if ph'.Done? then
        && env.token in s'.ledger.mints && s'.ledger.mints == s.ledger.mints[env.token := s'.ledger.mints[env.token]]
        && s'.ledger.mints[env.token].lineage == s.ledger.LineageFrom(Held(ph).value)
        && s'.ledger.mints[env.token].at == env.now && env.token in s'.tables.tokens
      else s'.ledger.mints == s.ledger.mints && Held(ph') == Held(ph) && ph'.Remaining() < ph.Remaining()
  {
    hide StateSound, PhaseSound, Config.EncodeTotal, Advance, Held, Mints;
    HolderGoesOn(k, env, s, ph);
    AdvanceMints(k, env, s.tables, s, ph);
    AdvanceIssues(k, env, s.tables, s, ph);
    MintIsInserted(k, env, s.tables, s, ph);
    HolderEnds(ph, Advance(k, env, s.tables, s, ph).1);
  }

  lemma MintIsInserted(k: Config, env: Env, snap: Tables, s: State, ph: Phase)
    ensures var (s', ph') := Advance(k, env, snap, s, ph); Mints(ph, ph') ==> env.token in s'.tables.tokens
  {
    hide AtStart, AtReadCodeUser, AtReadTokenUser, RecordMint;
  }

  lemma HolderEnds(ph: Phase, ph': Phase)
    requires Held(ph).Some? && (Held(ph') == Held(ph) || Mints(ph, ph'))
    ensures !ph.Done? && (ph'.Done? <==> Mints(ph, ph'))
  {
  }

  // ---------------------------------------------------------------- a request that finds

  /** A token request that, in these tables and at that time, finds this code or refresh token good. */
  ghost predicate LooksUp(k: Config, t: Tables, now: int, r: TokenRequest, what: Source) {
    && AuthenticateClient(k, t, r.clientId, r.clientSecret).Success?
    && match what
       case FromCode(c) =>
         && r.grantType == "authorization_code" && ParseCodeGrant(r).Success? && r.code == Some(c)
         && c in t.codes && CheckCode(k, now, ParseCodeGrant(r).value, t.codes[c]).Success?
       case FromToken(x) =>
         && r.grantType == "refresh_token" && r.refreshToken == Some(x)
         && x in t.tokens && now <= t.tokens[x].expiresAt && t.tokens[x].clientId == r.clientId
  }

  /** `sys'` is `sys` with one more request, which holds this. */
  ghost predicate FoundIn(sys: Sys, sys': Sys, id: nat, what: Source)
    requires sys.history != []
  {
    && sys'.history != [] && sys'.Current() == sys.Current() && sys'.ledger == sys.ledger
    && id in sys'.flights && Held(sys'.flights[id]) == Some(what)
    && sys'.begun == sys.begun + {id} && sys'.flights == sys.flights[id := sys'.flights[id]]
  }

  lemma LookingUp(k: Config, env: Env, s: State, r: TokenRequest, what: Source)
    requires LooksUp(k, s.tables, env.now, r, what)
    ensures
      var (s1, ph1) := Advance(k, env, s.tables, s, Start(Request.Token(r)));
      var (s2, ph2) := Advance(k, env, s.tables, s, ph1);
      s1 == s && s2 == s && Held(ph2) == Some(what)
  {
    hide AuthenticateClient, CheckCode;
  }

  /** A new request that looks something up, after its first step. */
  lemma Beginner(k: Config, sys: Sys, acts: seq<Act>, now: Sys, id: nat, env: Env, r: TokenRequest, what: Source)
    returns (now': Sys, acts': seq<Act>)
    requires RunOk(k, sys, acts) && UpToDate(k, sys, acts) && Run(k, sys, acts) == now && now.history != []
    requires id !in now.begun && env.token !in now.ledger.mints && LooksUp(k, now.Current(), env.now, r, what)
    ensures RunOk(k, sys, acts') && UpToDate(k, sys, acts') && Run(k, sys, acts') == now'
    ensures
      var s := State(now.Current(), now.ledger);
      && now'.history != [] && now'.Current() == now.Current() && now'.ledger == now.ledger
      && now'.begun == now.begun + {id}
      && acts' == acts + [Begin(id, Request.Token(r)), Step(id, |now.history| - 1, env)]
      && now'.flights == now.flights[id := Advance(k, env, s.tables, s, Start(Request.Token(r))).1]
  {
    hide RunOk, UpToDate, Run, Advance, Next;
    LookingUp(k, env, State(now.Current(), now.ledger), r, what);
    hide LooksUp, Held;
    var req := Request.Token(r);
    BeginStep(k, now, id, req);
    var s1, a1 := Append(k, sys, now, acts, Begin(id, req));
    StepShape(k, s1, id, env);
    now', acts' := Append(k, sys, s1, a1, Step(id, |s1.history| - 1, env));
  }

  /** Brings a new request to the point where it has found what it looks up. */
  lemma Finder(k: Config, sys: Sys, acts: seq<Act>, now: Sys, id: nat, env: Env, r: TokenRequest, what: Source)
    returns (now': Sys, acts': seq<Act>)
    requires RunOk(k, sys, acts) && UpToDate(k, sys, acts) && Run(k, sys, acts) == now && now.history != []
    requires id !in now.begun && env.token !in now.ledger.mints && LooksUp(k, now.Current(), env.now, r, what)
    ensures RunOk(k, sys, acts') && UpToDate(k, sys, acts') && Run(k, sys, acts') == now'
    ensures FoundIn(now, now', id, what)
    ensures
      && acts <= acts' && |acts'| > |acts| && acts'[|acts|].Begin?
      && ActsOf(acts'[|acts|..], id, env)
  {
    hide RunOk, UpToDate, Run, Advance, Next, Held, LooksUp;
    LookingUp(k, env, State(now.Current(), now.ledger), r, what);
    var s1, a1 := Beginner(k, sys, acts, now, id, env, r, what);
    StepShape(k, s1, id, env);
    now', acts' := Append(k, sys, s1, a1, Step(id, |s1.history| - 1, env));
  }

  lemma BeginStep(k: Config, sys: Sys, id: nat, req: Request)
    requires sys.history != [] && id !in sys.begun
    ensures
      Next(k, sys, Begin(id, req)) == sys.(flights := sys.flights[id := Start(req)], begun := sys.begun + {id})
  {
  }

  lemma EndOfRun(k: Config, sys: Sys, acts: seq<Act>, now: Sys, rest: seq<Act>)
    requires RunOk(k, sys, acts) && UpToDate(k, sys, acts) && Run(k, sys, acts) == now
    requires RunOk(k, now, rest) && UpToDate(k, now, rest)
    ensures RunOk(k, sys, acts + rest) && UpToDate(k, sys, acts + rest)
    ensures Run(k, sys, acts + rest) == Run(k, now, rest)
  {
    RunConcat(k, sys, acts, rest);
  }

  lemma FoundIsSound(k: Config, sys: Sys, acts: seq<Act>)
    requires SysSound(k, sys) && RunOk(k, sys, acts)
    ensures SysSound(k, Run(k, sys, acts)) && Run(k, sys, acts).history != []
  {
    hide Grows;
    RunKeepsSound(k, sys, acts);
    hide StateSound, TablesSound, Older, PhaseSound;
  }

  /**
   * Two requests that find the same code, or the same refresh token, before either has spent it both obtain
   * tokens: from every sound state in which each of them alone would find it.
   */
  lemma OverlappingRequestsBothMint(
    k: Config, sys: Sys, a: nat, b: nat, envA: Env, envB: Env, reqA: TokenRequest, reqB: TokenRequest, what: Source)
    returns (acts: seq<Act>)
    requires SysSound(k, sys) && sys.history != [] && k.EncodeTotal()
    requires a != b && a !in sys.begun && b !in sys.begun && envA.token != envB.token
    requires envA.token !in sys.ledger.mints && envB.token !in sys.ledger.mints
    requires LooksUp(k, sys.Current(), envA.now, reqA, what) && LooksUp(k, sys.Current(), envB.now, reqB, what)
    ensures RunOk(k, sys, acts) && UpToDate(k, sys, acts)
    ensures {envA.token, envB.token} <= Successors(Run(k, sys, acts), what)
  {
    EmptyRun(k, sys);
    hide SysSound, LooksUp, RunOk, UpToDate, Run, Held, Config.EncodeTotal;
    var s1, a1 := Finder(k, sys, [], sys, a, envA, reqA, what);
    var s2, a2 := Finder(k, sys, a1, s1, b, envB, reqB, what);
    FoundIsSound(k, sys, a2);
    var restA := HolderMints(k, s2, a, envA, what);
    EndOfRun(k, sys, a2, s2, restA);
    FoundIsSound(k, sys, a2 + restA);
    var s3 := Run(k, s2, restA);
    var restB := HolderMints(k, s3, b, envB, what);
    EndOfRun(k, sys, a2 + restA, s3, restB);
    acts := a2 + restA + restB;
  }
}
