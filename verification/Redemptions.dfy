/**
 * Exchanges of one code, or rotations of one refresh token, that overlap: how many of them obtain tokens.
 * Reads and writes go to one database here.
 */
module Redemptions {
  import opened Wrappers
  import opened AuthTables
  import opened TokenService
  import opened OAuthFlow
  import opened Provenance
  import opened Interleaving
  import Failures

  /** Codes are never removed, and a used one stays used. */
  ghost predicate UsedStays(a: Tables, b: Tables) {
    forall c | c in a.codes :: c in b.codes && (a.codes[c].used ==> b.codes[c].used)
  }

  lemma AdvanceKeepsUsed(k: Config, env: Env, snap: Tables, s: State, ph: Phase)
    ensures UsedStays(s.tables, Advance(k, env, snap, s, ph).0.tables)
  {
    if ph.Start? {
      StartKeepsRows(k, env, snap, s, ph.req);
    }
    hide AtStart;
  }

  lemma StartKeepsRows(k: Config, env: Env, snap: Tables, s: State, req: Request)
    ensures
      var s' := AtStart(k, env, snap, s, req).0;
      s'.tables.codes == s.tables.codes && s'.tables.tokens == s.tables.tokens && s'.ledger.mints == s.ledger.mints
  {
    hide AuthenticateClient, CheckAuthorize, ClientClaims;
  }

  /** `used` never goes back to false, in any run. */
  lemma {:induction false} UsedNeverResets(k: Config, sys: Sys, acts: seq<Act>)
    requires sys.history != [] && RunOk(k, sys, acts)
    ensures var sys' := Run(k, sys, acts); sys'.history != [] && UsedStays(sys.Current(), sys'.Current())
    decreases |acts|
  {
    if acts != [] {
      var act := acts[0];
      if act.Step? {
        AdvanceKeepsUsed(k, act.env, sys.history[act.snap], State(sys.Current(), sys.ledger), sys.flights[act.id]);
      }
      hide Advance;
      var sys' := Next(k, sys, act);
      assert sys'.history != [] && UsedStays(sys.Current(), sys'.Current());
      UsedNeverResets(k, sys', acts[1..]);
    }
  }

  /** Reads and writes go to one database: every step reads the current tables. */
  ghost predicate UpToDate(k: Config, sys: Sys, acts: seq<Act>)
    requires RunOk(k, sys, acts)
    decreases |acts|
  {
    acts == [] ||
    (&& (acts[0].Step? ==> acts[0].snap == |sys.history| - 1)
     && UpToDate(k, Next(k, sys, acts[0]), acts[1..]))
  }

  // ---------------------------------------------------------------- what a step does

  /** The code is used, or the token was on record and is gone. */
  predicate Gone(what: Source, t: Tables, mints: map<string, Mint>) {
    match what
    case FromCode(c) => c in t.codes && t.codes[c].used
    case FromToken(x) => x in mints && x !in t.tokens
  }

  ghost predicate GoneStays(t: Tables, mints: map<string, Mint>, t': Tables, mints': map<string, Mint>) {
    forall what | Gone(what, t, mints) :: Gone(what, t', mints')
  }

  lemma GoneStaysIf(t: Tables, mints: map<string, Mint>, t': Tables, mints': map<string, Mint>, token: string)
    requires UsedStays(t, t') && mints.Keys <= mints'.Keys
    requires t'.tokens.Keys <= t.tokens.Keys + {token} && token !in mints
    ensures GoneStays(t, mints, t', mints')
  {
  }

  /** What a request holds, it found, or held before; and it turns it into tokens only once it is spent. */
  predicate Spent(ph: Phase) {
    ph.ReadCodeUser? || ph.InsertFirst? || ph.ReadTokenUser? || ph.InsertNext?
  }

  ghost predicate HoldsOn(t: Tables, ph: Phase, ph': Phase) {
    && (Held(ph').Some? ==>
          if Finds(ph, ph') then
            match Held(ph').value
            case FromCode(c) => c in t.codes && !t.codes[c].used
            case FromToken(x) => x in t.tokens
          else Held(ph') == Held(ph))
    && (Spent(ph') ==> Spent(ph) || (Spends(ph).Some? && Spends(ph) == Held(ph)))
    && (Finds(ph, ph') ==> !Spent(ph'))
    && (ph.Done? ==> ph' == ph)
    && (Spends(ph).Some? && Held(ph).Some? ==> Spends(ph) == Held(ph) && !Spent(ph))
  }

  lemma AdvanceHoldsOn(k: Config, env: Env, snap: Tables, s: State, ph: Phase)
    ensures HoldsOn(snap, ph, Advance(k, env, snap, s, ph).1)
  {
    if ph.Start? {
      StartPhases(k, env, snap, s, ph.req);
    }
    hide AtStart, GrantCode, MintToken, Drop, CheckLogin, UserClaims;
  }

  /** The refresh tokens on record after a step: at most the fresh one is new, from what the request held. */
  ghost predicate MintsStep(env: Env, ph: Phase, ph': Phase, mints: map<string, Mint>, mints': map<string, Mint>) {
    if Mints(ph, ph') then
      && env.token in mints' && mints' == mints[env.token := mints'[env.token]]
      && Some(mints'[env.token].lineage.source) == Held(ph)
    else mints' == mints
  }

  lemma AdvanceMints(k: Config, env: Env, snap: Tables, s: State, ph: Phase)
    ensures
      var (s', ph') := Advance(k, env, snap, s, ph);
      MintsStep(env, ph, ph', s.ledger.mints, s'.ledger.mints)
  {
    if ph.Start? {
      StartKeepsRows(k, env, snap, s, ph.req);
    }
    hide AtStart, NewToken, UserClaims, CheckCode;
  }

  lemma AdvanceTokens(k: Config, env: Env, snap: Tables, s: State, ph: Phase)
    ensures Advance(k, env, snap, s, ph).0.tables.tokens.Keys <= s.tables.tokens.Keys + {env.token}
  {
    if ph.Start? {
      StartKeepsRows(k, env, snap, s, ph.req);
    }
    hide AtStart, UserClaims, CheckCode, LogAccess, RecordMint;
  }

  lemma AdvanceSpends(k: Config, env: Env, snap: Tables, s: State, ph: Phase)
    requires StateSound(k, s) && PhaseSound(k, s.tables, s.ledger, ph) && Spends(ph).Some?
    ensures
      var s' := Advance(k, env, snap, s, ph).0;
      OnRecord(Spends(ph).value, s.ledger.mints) ==> Gone(Spends(ph).value, s'.tables, s'.ledger.mints)
  {
    hide LedgerSound, TablesSound;
  }

  /** What a step adds to the ledger: a token from what was held, stamped with the time. */
  ghost predicate Issues(l: Ledger, l': Ledger, held: Option<Source>, now: int) {
    && (forall t | t in l'.mints && (t !in l.mints || l'.mints[t] != l.mints[t]) ::
          held.Some? && l'.mints[t].lineage == l.LineageFrom(held.value) && l'.mints[t].at == now)
    && (l'.access == l.access
        || exists a: Access :: l'.access == l.access + [a] && a.at == now &&
             (a.lineage.Some? ==> held.Some? && a.lineage.value == l.LineageFrom(held.value)))
  }

  lemma StartIssues(k: Config, env: Env, snap: Tables, s: State, req: Request)
    ensures Issues(s.ledger, AtStart(k, env, snap, s, req).0.ledger, None, env.now)
  {
    hide AuthenticateClient, CheckAuthorize, ClientClaims;
  }

  lemma AdvanceIssues(k: Config, env: Env, snap: Tables, s: State, ph: Phase)
    ensures Issues(s.ledger, Advance(k, env, snap, s, ph).0.ledger, Held(ph), env.now)
  {
    if ph.Start? {
      StartIssues(k, env, snap, s, ph.req);
    }
    hide AtStart, UserClaims, CheckCode, NewToken, NewCode, CheckLogin;
  }

  // ---------------------------------------------------------------- the audit

  predicate Stamped(m: map<nat, Stamp>, id: nat, what: Source) {
    id in m && m[id].what == what
  }

  /** What the audit says of a request that is past its read, or past its mark. */
  ghost predicate FlightAudited(a: Audit, id: nat, ph: Phase) {
    && (Held(ph).Some? ==> Stamped(a.readings, id, Held(ph).value))
    && (Spent(ph) ==> Held(ph).Some? && Stamped(a.markings, id, Held(ph).value))
  }

  /** A code or token once spent stays so, and whoever found it did so before. */
  ghost predicate ReadsPrecedeMarks(a: Audit, t: Tables, mints: map<string, Mint>, now: nat) {
    && (forall id | id in a.readings :: a.readings[id].at < now)
    && (forall id | id in a.markings :: Gone(a.markings[id].what, t, mints))
    && (forall r, m | r in a.readings && m in a.markings && a.readings[r].what == a.markings[m].what ::
          a.readings[r].at < a.markings[m].at)
  }

  /** Every token was minted by a request of its own, which had found what it came from and spent it. */
  ghost predicate MintersAudited(a: Audit, mints: map<string, Mint>) {
    && (forall t | t in mints ::
          && t in a.minters
          && Stamped(a.readings, a.minters[t], mints[t].lineage.source)
          && Stamped(a.markings, a.minters[t], mints[t].lineage.source))
    && (forall t | t in a.minters :: t in mints)
    && (forall t, u | t in a.minters && u in a.minters && a.minters[t] == a.minters[u] :: t == u)
  }

  /** A request that has minted has run to its end. */
  ghost predicate MintersDone(a: Audit, flights: map<nat, Phase>) {
    forall t | t in a.minters :: a.minters[t] in flights && flights[a.minters[t]].Done?
  }

  ghost predicate FlightsAudited(a: Audit, begun: set<nat>, flights: map<nat, Phase>) {
    forall id | id in flights :: id in begun && FlightAudited(a, id, flights[id])
  }

  /** What holds of the audit however stale the reads are. */
  ghost predicate MintingAudited(sys: Sys) {
    && FlightsAudited(sys.audit, sys.begun, sys.flights)
    && MintersAudited(sys.audit, sys.ledger.mints)
    && MintersDone(sys.audit, sys.flights)
    && (forall id | id in sys.audit.readings || id in sys.audit.markings :: id in sys.begun)
  }

  /** And what holds besides if reads are up to date. */
  ghost predicate Audited(sys: Sys) {
    && sys.history != [] && MintingAudited(sys)
    && ReadsPrecedeMarks(sys.audit, sys.Current(), sys.ledger.mints, |sys.history|)
  }

  lemma FoundIsNotGone(t: Tables, mints: map<string, Mint>, ph: Phase, ph': Phase)
    requires HoldsOn(t, ph, ph') && Finds(ph, ph')
    ensures Held(ph').Some? && !Gone(Held(ph').value, t, mints)
  {
  }

  lemma ObserveKeepsReads(a: Audit, t: Tables, t': Tables, mints: map<string, Mint>, mints': map<string, Mint>,
                          now: nat, id: nat, env: Env, ph: Phase, ph': Phase)
    requires ReadsPrecedeMarks(a, t, mints, now) && GoneStays(t, mints, t', mints')
    requires Finds(ph, ph') ==> Held(ph').Some? && !Gone(Held(ph').value, t, mints)
    requires Spends(ph).Some? && OnRecord(Spends(ph).value, mints) ==> Gone(Spends(ph).value, t', mints')
    ensures ReadsPrecedeMarks(Observe(a, id, env, ph, ph', now, mints), t', mints', now + 1)
  {
    hide Gone, Held, Spends, Finds, OnRecord, Mints;
  }

  lemma ObserveKeepsMinters(a: Audit, now: nat, id: nat, env: Env, ph: Phase, ph': Phase,
                            mints: map<string, Mint>, mints': map<string, Mint>)
    requires MintersAudited(a, mints) && MintsStep(env, ph, ph', mints, mints')
    requires env.token !in mints && FlightAudited(a, id, ph)
    requires !ph.Done? ==> forall t | t in a.minters :: a.minters[t] != id
    ensures MintersAudited(Observe(a, id, env, ph, ph', now, mints), mints')
  {
    hide OnRecord;
    assert ph.Done? ==> Observe(a, id, env, ph, ph', now, mints) == a;
  }

  lemma ObserveKeepsFlights(a: Audit, t: Tables, now: nat, id: nat, env: Env, ph: Phase, ph': Phase,
                            mints: map<string, Mint>, begun: set<nat>, flights: map<nat, Phase>)
    requires FlightsAudited(a, begun, flights) && id in flights && flights[id] == ph
    requires MintersDone(a, flights) && HoldsOn(t, ph, ph')
    requires Spends(ph).Some? && Held(ph).Some? ==> OnRecord(Spends(ph).value, mints)
    ensures
      var a' := Observe(a, id, env, ph, ph', now, mints);
      FlightsAudited(a', begun, flights[id := ph']) && MintersDone(a', flights[id := ph'])
  {
    var a' := Observe(a, id, env, ph, ph', now, mints);
    assert FlightAudited(a', id, ph') by {
      FlightStaysAudited(a, t, now, id, env, ph, ph', mints);
    }
    hide HoldsOn;
  }

  lemma FlightStaysAudited(
    a: Audit, t: Tables, now: nat, id: nat, env: Env, ph: Phase, ph': Phase, mints: map<string, Mint>)
    requires FlightAudited(a, id, ph) && HoldsOn(t, ph, ph')
    requires Spends(ph).Some? && Held(ph).Some? ==> OnRecord(Spends(ph).value, mints)
    ensures FlightAudited(Observe(a, id, env, ph, ph', now, mints), id, ph')
  {
    hide OnRecord;
  }

  lemma NotYetMinted(a: Audit, begun: set<nat>, flights: map<nat, Phase>, id: nat)
    requires MintersDone(a, flights) && FlightsAudited(a, begun, flights) && id in flights
    ensures FlightAudited(a, id, flights[id]) && id in begun
    ensures !flights[id].Done? ==> forall t | t in a.minters :: a.minters[t] != id
  {
  }

  lemma MintsGrow(env: Env, ph: Phase, ph': Phase, mints: map<string, Mint>, mints': map<string, Mint>)
    requires MintsStep(env, ph, ph', mints, mints')
    ensures mints.Keys <= mints'.Keys <= mints.Keys + {env.token}
  {
    hide Mints;
  }

  lemma FlightIsSound(k: Config, sys: Sys, id: nat)
    requires SysSound(k, sys) && id in sys.flights
    ensures StateSound(k, State(sys.Current(), sys.ledger)) && PhaseSound(k, sys.Current(), sys.ledger, sys.flights[id])
  {
  }

  lemma ObserveStampsBegun(a: Audit, begun: set<nat>, now: nat, id: nat, env: Env, ph: Phase, ph': Phase,
                           mints: map<string, Mint>)
    requires id in begun && forall i | i in a.readings || i in a.markings :: i in begun
    ensures
      var a' := Observe(a, id, env, ph, ph', now, mints);
      forall i | i in a'.readings || i in a'.markings :: i in begun
  {
    hide Held, Spends, Finds, OnRecord, Mints;
  }

  /** Deleting what is held deletes something on record. */
  lemma SpendsOnRecord(k: Config, s: State, ph: Phase)
    requires StateSound(k, s) && PhaseSound(k, s.tables, s.ledger, ph)
    ensures Spends(ph).Some? && Held(ph).Some? ==> OnRecord(Spends(ph).value, s.ledger.mints)
  {
    hide LedgerSound, TablesSound;
  }

  lemma TakeStepKeepsMinting(k: Config, sys: Sys, id: nat, snap: nat, env: Env)
    requires SysSound(k, sys) && MintingAudited(sys) && Enabled(sys, Step(id, snap, env))
    ensures MintingAudited(TakeStep(k, sys, id, snap, env))
  {
    FlightIsSound(k, sys, id);
    hide MintersAudited, MintersDone, FlightsAudited, FlightAudited, Observe;
    hide MintsStep, HoldsOn, Held, Spends, Finds, Mints, OnRecord, SysSound, Advance, StateSound, PhaseSound;
    var t, mints, now := sys.history[snap], sys.ledger.mints, |sys.history|;
    var s, ph := State(sys.Current(), sys.ledger), sys.flights[id];
    var (s', ph') := Advance(k, env, t, s, ph);
    AdvanceHoldsOn(k, env, t, s, ph);
    AdvanceMints(k, env, t, s, ph);
    NotYetMinted(sys.audit, sys.begun, sys.flights, id);
    SpendsOnRecord(k, s, ph);
    ObserveKeepsMinters(sys.audit, now, id, env, ph, ph', mints, s'.ledger.mints);
    ObserveKeepsFlights(sys.audit, t, now, id, env, ph, ph', mints, sys.begun, sys.flights);
    ObserveStampsBegun(sys.audit, sys.begun, now, id, env, ph, ph', mints);
  }

  lemma TakeStepKeepsReads(k: Config, sys: Sys, id: nat, env: Env)
    requires SysSound(k, sys) && Audited(sys) && Enabled(sys, Step(id, |sys.history| - 1, env))
    ensures
      var sys' := TakeStep(k, sys, id, |sys.history| - 1, env);
      && sys'.history != []
      && ReadsPrecedeMarks(sys'.audit, sys'.Current(), sys'.ledger.mints, |sys'.history|)
  {
    FlightIsSound(k, sys, id);
    hide ReadsPrecedeMarks, MintingAudited, Observe, UsedStays, GoneStays;
    hide MintsStep, HoldsOn, Gone, Held, Spends, Finds, Mints, OnRecord, SysSound, Advance, StateSound, PhaseSound;
    var t, mints, now := sys.Current(), sys.ledger.mints, |sys.history|;
    var s, ph := State(t, sys.ledger), sys.flights[id];
    var (s', ph') := Advance(k, env, t, s, ph);
    var sys' := TakeStep(k, sys, id, now - 1, env);
    assert sys'.Current() == s'.tables;
    StepKeepsGone(k, env, t, s, ph);
    if Spends(ph).Some? {
      AdvanceSpends(k, env, t, s, ph);
    }
    AdvanceHoldsOn(k, env, t, s, ph);
    if Finds(ph, ph') {
      FoundIsNotGone(t, mints, ph, ph');
    }
    ObserveKeepsReads(sys.audit, t, s'.tables, mints, s'.ledger.mints, now, id, env, ph, ph');
  }

  lemma StepKeepsGone(k: Config, env: Env, snap: Tables, s: State, ph: Phase)
    requires env.token !in s.ledger.mints
    ensures
      var (s', ph') := Advance(k, env, snap, s, ph);
      GoneStays(s.tables, s.ledger.mints, s'.tables, s'.ledger.mints)
  {
    hide MintsStep, UsedStays, GoneStays, Advance;
    var (s', ph') := Advance(k, env, snap, s, ph);
    AdvanceMints(k, env, snap, s, ph);
    AdvanceKeepsUsed(k, env, snap, s, ph);
    AdvanceTokens(k, env, snap, s, ph);
    MintsGrow(env, ph, ph', s.ledger.mints, s'.ledger.mints);
    GoneStaysIf(s.tables, s.ledger.mints, s'.tables, s'.ledger.mints, env.token);
  }

  lemma NextKeepsMinting(k: Config, sys: Sys, act: Act)
    requires SysSound(k, sys) && MintingAudited(sys) && Enabled(sys, act)
    ensures MintingAudited(Next(k, sys, act))
  {
    hide SysSound, MintersAudited, TakeStep;
    if act.Step? {
      TakeStepKeepsMinting(k, sys, act.id, act.snap, act.env);
    }
  }

  lemma NextKeepsAudited(k: Config, sys: Sys, act: Act)
    requires SysSound(k, sys) && Audited(sys) && Enabled(sys, act)
    requires act.Step? ==> act.snap == |sys.history| - 1
    ensures Audited(Next(k, sys, act))
  {
    hide SysSound, ReadsPrecedeMarks, MintingAudited, TakeStep;
    NextKeepsMinting(k, sys, act);
    if act.Step? {
      TakeStepKeepsReads(k, sys, act.id, act.env);
    }
  }

  lemma {:induction false} RunKeepsAudited(k: Config, sys: Sys, acts: seq<Act>)
    requires SysSound(k, sys) && Audited(sys) && RunOk(k, sys, acts) && UpToDate(k, sys, acts)
    ensures Audited(Run(k, sys, acts))
    decreases |acts|
  {
    hide SysSound, Audited;
    if acts != [] {
      NextKeepsSound(k, sys, acts[0]);
      NextKeepsAudited(k, sys, acts[0]);
      RunKeepsAudited(k, Next(k, sys, acts[0]), acts[1..]);
    }
  }

  lemma RunFromStartIsAudited(k: Config, acts: seq<Act>)
    requires RunOk(k, INITIAL, acts) && UpToDate(k, INITIAL, acts)
    ensures Audited(Run(k, INITIAL, acts))
  {
    InitialIsSound(k);
    RunKeepsAudited(k, INITIAL, acts);
  }

  // ---------------------------------------------------------------- at most one token for each finder

  /** The refresh tokens minted straight from a code or from a refresh token. */
  ghost function Successors(sys: Sys, what: Source): set<string> {
    set t | t in sys.ledger.mints && sys.ledger.mints[t].lineage.source == what
  }

  /** The requests that found it unused, or in place. */
  ghost function Finders(sys: Sys, what: Source): set<nat> {
    set id | id in sys.audit.readings && sys.audit.readings[id].what == what
  }

  /** Those of them that have run to their end. */
  ghost function Finishers(sys: Sys, what: Source): set<nat> {
    set id | id in sys.audit.readings && sys.audit.readings[id].what == what && id in sys.flights && sys.flights[id].Done?
  }

  /** A request finished with a code or token before another one looked at it. */
  ghost predicate FinishedBefore(sys: Sys, a: nat, b: nat) {
    a in sys.audit.markings && b in sys.audit.readings && sys.audit.markings[a].at <= sys.audit.readings[b].at
  }

  lemma {:induction false} InjectionBoundsSize(tokens: set<string>, ids: set<nat>, minter: map<string, nat>)
    requires forall t | t in tokens :: t in minter && minter[t] in ids
    requires forall t, u | t in tokens && u in tokens && minter[t] == minter[u] :: t == u
    ensures |tokens| <= |ids|
    decreases |tokens|
  {
    if tokens != {} {
      var t :| t in tokens;
      InjectionBoundsSize(tokens - {t}, ids - {minter[t]}, minter);
    }
  }

  /**
   * On one database, whatever the interleaving, for every code and every refresh token: each request that
   * found it did so before anyone spent it, the tokens minted from it number at most those requests, and two
   * that both mint overlap, so of two one of which finishes before the other looks one at most succeeds.
   */
  lemma InterleavedExchanges(k: Config, acts: seq<Act>, what: Source)
    requires RunOk(k, INITIAL, acts) && UpToDate(k, INITIAL, acts)
    ensures
      var sys := Run(k, INITIAL, acts);
      && (forall r, m | r in Finders(sys, what) && Stamped(sys.audit.markings, m, what) ::
            sys.audit.readings[r].at < sys.audit.markings[m].at)
      && |Successors(sys, what)| <= |Finders(sys, what)|
      && (forall t, u | t in Successors(sys, what) && u in Successors(sys, what) && t != u ::
            && t in sys.audit.minters && u in sys.audit.minters
            && sys.audit.minters[t] != sys.audit.minters[u]
            && !FinishedBefore(sys, sys.audit.minters[t], sys.audit.minters[u]))
  {
    hide Audited;
    RunFromStartIsAudited(k, acts);
    AuditSummary(Run(k, INITIAL, acts), what);
  }

  lemma AuditSummary(sys: Sys, what: Source)
    requires Audited(sys)
    ensures forall r, m | r in Finders(sys, what) && Stamped(sys.audit.markings, m, what) ::
              sys.audit.readings[r].at < sys.audit.markings[m].at
    ensures |Successors(sys, what)| <= |Finders(sys, what)|
    ensures forall t, u | t in Successors(sys, what) && u in Successors(sys, what) && t != u ::
              && t in sys.audit.minters && u in sys.audit.minters
              && sys.audit.minters[t] != sys.audit.minters[u]
              && !FinishedBefore(sys, sys.audit.minters[t], sys.audit.minters[u])
  {
    InjectionBoundsSize(Successors(sys, what), Finders(sys, what), sys.audit.minters);
  }

  lemma {:induction false} RunKeepsMinting(k: Config, sys: Sys, acts: seq<Act>)
    requires SysSound(k, sys) && MintingAudited(sys) && RunOk(k, sys, acts)
    ensures MintingAudited(Run(k, sys, acts))
    decreases |acts|
  {
    hide SysSound, MintingAudited;
    if acts != [] {
      NextKeepsSound(k, sys, acts[0]);
      NextKeepsMinting(k, sys, acts[0]);
      RunKeepsMinting(k, Next(k, sys, acts[0]), acts[1..]);
    }
  }

  /** However stale the reads, no request that found a code or refresh token mints more than one token from it. */
  lemma OneTokenForEachFinder(k: Config, acts: seq<Act>, what: Source)
    requires RunOk(k, INITIAL, acts)
    ensures var sys := Run(k, INITIAL, acts); |Successors(sys, what)| <= |Finders(sys, what)|
  {
    hide SysSound;
    InitialIsSound(k);
    RunKeepsMinting(k, INITIAL, acts);
    var sys := Run(k, INITIAL, acts);
    InjectionBoundsSize(Successors(sys, what), Finders(sys, what), sys.audit.minters);
  }

  // ---------------------------------------------------------------- exactly one for each that runs to its end

  predicate MintedBy(a: Audit, mints: map<string, Mint>, id: nat, what: Source, t: string) {
    t in a.minters && a.minters[t] == id && t in mints && mints[t].lineage.source == what
  }

  /** Whoever found something still holds it, or has run to its end and minted a token from it. */
  ghost predicate FinderFares(a: Audit, mints: map<string, Mint>, id: nat, ph: Phase) {
    id in a.readings ==>
      || Held(ph) == Some(a.readings[id].what)
      || (ph.Done? && exists t :: MintedBy(a, mints, id, a.readings[id].what, t))
  }

  ghost predicate FindersFare(a: Audit, mints: map<string, Mint>, flights: map<nat, Phase>) {
    forall id | id in flights :: FinderFares(a, mints, id, flights[id])
  }

  /** With up-to-date reads, what is held is held on to until it is turned into a token. */
  lemma HolderGoesOn(k: Config, env: Env, s: State, ph: Phase)
    requires StateSound(k, s) && PhaseSound(k, s.tables, s.ledger, ph) && env.token !in s.ledger.mints
    requires k.EncodeTotal() && Held(ph).Some?
    ensures var ph' := Advance(k, env, s.tables, s, ph).1; Held(ph') == Held(ph) || Mints(ph, ph')
  {
    hide StateSound, PhaseSound, Config.EncodeTotal, Advance, Mints;
    Failures.WritingStepSucceeds(k, env, s, ph);
    AfterHolding(k, env, s, ph);
  }

  lemma AfterHolding(k: Config, env: Env, s: State, ph: Phase)
    requires Held(ph).Some?
    ensures
      var ph' := Advance(k, env, s.tables, s, ph).1;
      Held(ph') == Held(ph) || Mints(ph, ph') || (ph'.Done? && ph'.answer.Failure?)
  {
    hide AtStart, LogAccess, UserClaims, MintToken, Drop, NewToken;
  }

  lemma MintedStays(a: Audit, mints: map<string, Mint>, mints': map<string, Mint>, id: nat, env: Env, ph: Phase, ph': Phase,
                    now: nat, i: nat, what: Source)
    requires MintsStep(env, ph, ph', mints, mints') && env.token !in mints
    requires exists t :: MintedBy(a, mints, i, what, t)
    ensures exists t :: MintedBy(Observe(a, id, env, ph, ph', now, mints), mints', i, what, t)
  {
    var t :| MintedBy(a, mints, i, what, t);
    assert MintedBy(Observe(a, id, env, ph, ph', now, mints), mints', i, what, t);
  }

  lemma StepperFares(a: Audit, t: Tables, mints: map<string, Mint>, mints': map<string, Mint>, now: nat, id: nat,
                     env: Env, ph: Phase, ph': Phase)
    requires MintsStep(env, ph, ph', mints, mints') && env.token !in mints && HoldsOn(t, ph, ph')
    requires FinderFares(a, mints, id, ph) && (Held(ph).Some? ==> Held(ph') == Held(ph) || Mints(ph, ph'))
    ensures FinderFares(Observe(a, id, env, ph, ph', now, mints), mints', id, ph')
  {
    var a' := Observe(a, id, env, ph, ph', now, mints);
    if !Finds(ph, ph') && id in a.readings {
      assert a'.readings == a.readings;
      if Held(ph) != Some(a.readings[id].what) {
        MintedStays(a, mints, mints', id, env, ph, ph', now, id, a.readings[id].what);
      } else if Held(ph') != Held(ph) {
        assert MintedBy(a', mints', id, a.readings[id].what, env.token);
      }
    }
  }

  lemma OtherFares(a: Audit, mints: map<string, Mint>, mints': map<string, Mint>, now: nat, id: nat,
                   env: Env, ph: Phase, ph': Phase, i: nat, qh: Phase)
    requires MintsStep(env, ph, ph', mints, mints') && env.token !in mints && i != id
    requires FinderFares(a, mints, i, qh)
    ensures FinderFares(Observe(a, id, env, ph, ph', now, mints), mints', i, qh)
  {
    hide MintsStep, MintedBy;
    if i in a.readings && Held(qh) != Some(a.readings[i].what) {
      MintedStays(a, mints, mints', id, env, ph, ph', now, i, a.readings[i].what);
    }
  }

  lemma TakeStepKeepsFare(k: Config, sys: Sys, id: nat, env: Env)
    requires SysSound(k, sys) && k.EncodeTotal() && Enabled(sys, Step(id, |sys.history| - 1, env))
    requires FindersFare(sys.audit, sys.ledger.mints, sys.flights)
    ensures
      var sys' := TakeStep(k, sys, id, |sys.history| - 1, env);
      FindersFare(sys'.audit, sys'.ledger.mints, sys'.flights)
  {
    FlightIsSound(k, sys, id);
    hide Observe, MintsStep, HoldsOn, Held, Finds, Mints, SysSound, Advance, StateSound, PhaseSound, FinderFares;
    hide Config.EncodeTotal;
    var t, mints, now := sys.Current(), sys.ledger.mints, |sys.history|;
    var s, ph := State(t, sys.ledger), sys.flights[id];
    var (s', ph') := Advance(k, env, t, s, ph);
    AdvanceHoldsOn(k, env, t, s, ph);
    AdvanceMints(k, env, t, s, ph);
    if Held(ph).Some? {
      HolderGoesOn(k, env, s, ph);
    }
    StepperFares(sys.audit, t, mints, s'.ledger.mints, now, id, env, ph, ph');
    var sys' := TakeStep(k, sys, id, now - 1, env);
    forall i | i in sys'.flights ensures FinderFares(sys'.audit, sys'.ledger.mints, i, sys'.flights[i]) {
      if i != id {
        OtherFares(sys.audit, mints, s'.ledger.mints, now, id, env, ph, ph', i, sys.flights[i]);
      }
    }
  }

  lemma NextKeepsFare(k: Config, sys: Sys, act: Act)
    requires SysSound(k, sys) && Audited(sys) && k.EncodeTotal() && Enabled(sys, act)
    requires FindersFare(sys.audit, sys.ledger.mints, sys.flights) && (act.Step? ==> act.snap == |sys.history| - 1)
    ensures var sys' := Next(k, sys, act); FindersFare(sys'.audit, sys'.ledger.mints, sys'.flights)
  {
    hide SysSound, FlightsAudited, ReadsPrecedeMarks, MintersAudited, MintersDone, TakeStep, Config.EncodeTotal;
    if act.Step? {
      TakeStepKeepsFare(k, sys, act.id, act.env);
    }
  }

  lemma {:induction false} RunKeepsFare(k: Config, sys: Sys, acts: seq<Act>)
    requires SysSound(k, sys) && Audited(sys) && k.EncodeTotal() && RunOk(k, sys, acts) && UpToDate(k, sys, acts)
    requires FindersFare(sys.audit, sys.ledger.mints, sys.flights)
    ensures var sys' := Run(k, sys, acts); FindersFare(sys'.audit, sys'.ledger.mints, sys'.flights)
    decreases |acts|
  {
    hide SysSound, Audited, FindersFare, Config.EncodeTotal;
    if acts != [] {
      NextKeepsSound(k, sys, acts[0]);
      NextKeepsAudited(k, sys, acts[0]);
      NextKeepsFare(k, sys, acts[0]);
      RunKeepsFare(k, Next(k, sys, acts[0]), acts[1..]);
    }
  }

  lemma {:induction false} SurjectionBoundsSize(tokens: set<string>, ids: set<nat>, minter: map<string, nat>)
    requires forall id | id in ids :: exists t :: t in tokens && t in minter && minter[t] == id
    ensures |ids| <= |tokens|
    decreases |ids|
  {
    if ids != {} {
      var id :| id in ids;
      var t :| t in tokens && t in minter && minter[t] == id;
      forall j | j in ids - {id} ensures exists u :: u in tokens - {t} && u in minter && minter[u] == j {
        var u :| u in tokens && u in minter && minter[u] == j;
        assert u in tokens - {t};
      }
      SurjectionBoundsSize(tokens - {t}, ids - {id}, minter);
    }
  }

  /**
   * If encoding never fails, the requests that found a code or refresh token and ran to their end are exactly
   * those that minted a token from it, one each. So it is redeemed at most once if and only if at most one of
   * them ran to its end.
   */
  lemma RedemptionsAreFinishers(k: Config, acts: seq<Act>, what: Source)
    requires k.EncodeTotal() && RunOk(k, INITIAL, acts) && UpToDate(k, INITIAL, acts)
    ensures
      var sys := Run(k, INITIAL, acts);
      var tokens, ids := Successors(sys, what), Finishers(sys, what);
      && (forall t | t in tokens :: t in sys.audit.minters && sys.audit.minters[t] in ids)
      && (forall id | id in ids :: exists t :: t in tokens && t in sys.audit.minters && sys.audit.minters[t] == id)
      && |tokens| == |ids|
  {
    hide Audited, Config.EncodeTotal, SysSound;
    InitialIsSound(k);
    InitialIsAudited();
    RunFromStartIsAudited(k, acts);
    RunKeepsFare(k, INITIAL, acts);
    FinishersMint(Run(k, INITIAL, acts), what);
  }

  lemma InitialIsAudited()
    ensures Audited(INITIAL)
  {
  }

  lemma FinishersMint(sys: Sys, what: Source)
    requires Audited(sys) && FindersFare(sys.audit, sys.ledger.mints, sys.flights)
    ensures
      var tokens, ids := Successors(sys, what), Finishers(sys, what);
      && (forall t | t in tokens :: t in sys.audit.minters && sys.audit.minters[t] in ids)
      && (forall id | id in ids :: exists t :: t in tokens && t in sys.audit.minters && sys.audit.minters[t] == id)
      && |tokens| == |ids|
  {
    var tokens, ids := Successors(sys, what), Finishers(sys, what);
    forall id | id in ids ensures exists t :: t in tokens && t in sys.audit.minters && sys.audit.minters[t] == id {
      assert FinderFares(sys.audit, sys.ledger.mints, id, sys.flights[id]);
      var t :| MintedBy(sys.audit, sys.ledger.mints, id, what, t);
      assert t in tokens;
    }
    SurjectionBoundsSize(tokens, ids, sys.audit.minters);
    InjectionBoundsSize(tokens, ids, sys.audit.minters);
  }
}
