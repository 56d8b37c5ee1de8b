/**
 * Lifetimes when requests take time: they interleave, read stale tables and are given at most `d` seconds
 * each, under a clock that never runs backwards.
 */
module Lifetimes {
  import opened Wrappers
  import opened AuthTables
  import opened TokenService
  import opened OAuthFlow
  import opened Provenance
  import opened Interleaving
  import opened Redemptions

  /** An act and when it happens. */
  datatype Timed = Timed(now: int, act: Act)

  function Starts(starts: map<nat, int>, t: Timed): map<nat, int> {
    if t.act.Begin? then starts[t.act.id := t.now] else starts
  }

  /** The clock does not run backwards, and a request takes a step at most d seconds after it began. */
  ghost predicate TimedOk(k: Config, d: nat, sys: Sys, clock: int, starts: map<nat, int>, acts: seq<Timed>)
    decreases |acts|
  {
    acts == [] ||
    (&& Enabled(sys, acts[0].act) && clock <= acts[0].now
     && (acts[0].act.Step? ==>
           acts[0].act.env.now == acts[0].now && acts[0].act.id in starts && acts[0].now <= starts[acts[0].act.id] + d)
     && TimedOk(k, d, Next(k, sys, acts[0].act), acts[0].now, Starts(starts, acts[0]), acts[1..]))
  }

  ghost function TimedRun(k: Config, d: nat, sys: Sys, clock: int, starts: map<nat, int>, acts: seq<Timed>): Sys
    requires TimedOk(k, d, sys, clock, starts, acts)
    decreases |acts|
  {
    if acts == [] then sys
    else TimedRun(k, d, Next(k, sys, acts[0].act), acts[0].now, Starts(starts, acts[0]), acts[1..])
  }

  // ---------------------------------------------------------------- the invariant

  /** The latest time at which a token of this lineage can have been issued. */
  ghost predicate Timely(k: Config, d: nat, l: Ledger, lin: Lineage, at: int) {
    lin.code in l.grants && at <= l.grants[lin.code].at + 600 + d + lin.rank * (k.RefreshTtl() + d)
  }

  /** A request that holds a code or token began before that expired. */
  ghost predicate BeganInTime(k: Config, l: Ledger, start: int, what: Source) {
    match what
    case FromCode(c) => c in l.grants && start <= l.grants[c].at + 600
    case FromToken(p) => p in l.mints && start <= l.mints[p].at + k.RefreshTtl()
  }

  ghost predicate MintsTimely(k: Config, d: nat, l: Ledger) {
    forall t | t in l.mints :: Timely(k, d, l, l.mints[t].lineage, l.mints[t].at)
  }

  ghost predicate AccessTimely(k: Config, d: nat, l: Ledger) {
    forall i | 0 <= i < |l.access| && l.access[i].lineage.Some? ::
      Timely(k, d, l, l.access[i].lineage.value, l.access[i].at)
  }

  ghost predicate FlightsTimely(k: Config, l: Ledger, clock: int, starts: map<nat, int>, flights: map<nat, Phase>) {
    forall id | id in flights ::
      && id in starts && starts[id] <= clock
      && (Held(flights[id]).Some? ==> BeganInTime(k, l, starts[id], Held(flights[id]).value))
  }

  ghost predicate AllTimely(k: Config, d: nat, sys: Sys, clock: int, starts: map<nat, int>) {
    && MintsTimely(k, d, sys.ledger) && AccessTimely(k, d, sys.ledger)
    && FlightsTimely(k, sys.ledger, clock, starts, sys.flights)
  }

  // ---------------------------------------------------------------- one step

  /** Whoever finds a code or token finds it unexpired. */
  lemma FoundUnexpired(k: Config, env: Env, snap: Tables, s: State, ph: Phase)
    ensures
      var ph' := Advance(k, env, snap, s, ph).1;
      && (ph.ReadCode? && ph'.MarkCode? ==> env.now <= ph'.row.expiresAt)
      && (ph.ReadToken? && ph'.DropRotated? ==> env.now <= ph'.stored.expiresAt)
  {
    hide AtStart;
  }

  /** And so the request began in time. */
  lemma FoundInTime(k: Config, m: Tables, l: Ledger, start: int, now: int, ph: Phase, ph': Phase)
    requires LedgerSound(k, m, l) && PhaseSound(k, m, l, ph') && start <= now && Finds(ph, ph')
    requires ph.ReadCode? && ph'.MarkCode? ==> now <= ph'.row.expiresAt
    requires ph.ReadToken? && ph'.DropRotated? ==> now <= ph'.stored.expiresAt
    ensures Held(ph').Some? && BeganInTime(k, l, start, Held(ph').value)
  {
    if ph'.MarkCode? {
      assert GrantSound(k, m, ph'.g.code, l.grants[ph'.g.code]);
    } else {
      assert MintSound(k, l, ph'.r.token, l.mints[ph'.r.token]);
    }
  }

  lemma BeganInTimeGrows(k: Config, l: Ledger, l': Ledger, start: int, what: Source)
    requires BeganInTime(k, l, start, what) && Grows(l, l')
    ensures BeganInTime(k, l', start, what)
  {
  }

  lemma TimelyGrows(k: Config, d: nat, l: Ledger, l': Ledger, lin: Lineage, at: int)
    requires Timely(k, d, l, lin, at) && Grows(l, l')
    ensures Timely(k, d, l', lin, at)
  {
  }

  /** One more refresh, one more lifetime and one more duration. */
  lemma IssueIsTimely(k: Config, d: nat, l: Ledger, what: Source, start: int, now: int)
    requires MintsTimely(k, d, l) && BeganInTime(k, l, start, what) && now <= start + d
    ensures Timely(k, d, l, l.LineageFrom(what), now)
  {
    if what.FromToken? {
      var lin, r := l.mints[what.token].lineage, k.RefreshTtl() + d;
      assert Timely(k, d, l, lin, l.mints[what.token].at);
      assert (lin.rank + 1) * r == lin.rank * r + r;
    }
  }

  lemma StepKeepsLedgerTimely(k: Config, d: nat, l: Ledger, l': Ledger, held: Option<Source>, start: int, now: int)
    requires MintsTimely(k, d, l) && AccessTimely(k, d, l) && Issues(l, l', held, now) && Grows(l, l')
    requires now <= start + d && (held.Some? ==> BeganInTime(k, l, start, held.value))
    ensures MintsTimely(k, d, l') && AccessTimely(k, d, l')
  {
    if held.Some? {
      IssueIsTimely(k, d, l, held.value, start, now);
    }
    hide Timely, BeganInTime, Grows;
    forall t | t in l'.mints ensures Timely(k, d, l', l'.mints[t].lineage, l'.mints[t].at) {
      TimelyGrows(k, d, l, l', l'.mints[t].lineage, l'.mints[t].at);
    }
    forall i | 0 <= i < |l'.access| && l'.access[i].lineage.Some?
      ensures Timely(k, d, l', l'.access[i].lineage.value, l'.access[i].at)
    {
      TimelyGrows(k, d, l, l', l'.access[i].lineage.value, l'.access[i].at);
    }
  }

  lemma StepKeepsFlightsTimely(
    k: Config, l: Ledger, l': Ledger, t: Tables, clock: int, now: int, starts: map<nat, int>, flights: map<nat, Phase>,
    id: nat, ph': Phase)
    requires FlightsTimely(k, l, clock, starts, flights) && Grows(l, l') && clock <= now && id in flights
    requires HoldsOn(t, flights[id], ph')
    requires Finds(flights[id], ph') ==> Held(ph').Some? && BeganInTime(k, l', starts[id], Held(ph').value)
    ensures FlightsTimely(k, l', now, starts, flights[id := ph'])
  {
    hide BeganInTime, Grows;
    var flights' := flights[id := ph'];
    forall j | j in flights' && Held(flights'[j]).Some? ensures BeganInTime(k, l', starts[j], Held(flights'[j]).value) {
      if j != id || !Finds(flights[id], ph') {
        BeganInTimeGrows(k, l, l', starts[j], Held(flights'[j]).value);
      }
    }
  }

  /** A step finds only what is on record and has not expired. */
  lemma StepFindsInTime(k: Config, sys: Sys, id: nat, snap: nat, env: Env, start: int)
    requires SysSound(k, sys) && Enabled(sys, Step(id, snap, env)) && start <= env.now
    ensures
      var ph := sys.flights[id];
      var (s', ph') := Advance(k, env, sys.history[snap], State(sys.Current(), sys.ledger), ph);
      && Grows(sys.ledger, s'.ledger)
      && (Finds(ph, ph') ==> Held(ph').Some? && BeganInTime(k, s'.ledger, start, Held(ph').value))
  {
    var s, ph := State(sys.Current(), sys.ledger), sys.flights[id];
    var (s', ph') := Advance(k, env, sys.history[snap], s, ph);
    SnapshotIsSound(k, sys, id, snap);
    hide SysSound, StateSound, PhaseSound, TablesSound, LedgerSound, Older, Grows, Advance, Held, BeganInTime;
    StepKeeps(k, env, sys.history[snap], s, ph);
    if Finds(ph, ph') {
      FoundUnexpired(k, env, sys.history[snap], s, ph);
      LedgerOfState(k, s');
      FoundInTime(k, s'.tables, s'.ledger, start, env.now, ph, ph');
    }
  }

  lemma SnapshotIsSound(k: Config, sys: Sys, id: nat, snap: nat)
    requires SysSound(k, sys) && id in sys.flights && snap < |sys.history|
    ensures StateSound(k, State(sys.Current(), sys.ledger)) && TablesSound(sys.ledger, sys.history[snap])
    ensures Older(sys.history[snap], sys.Current()) && PhaseSound(k, sys.Current(), sys.ledger, sys.flights[id])
  {
    hide StateSound, TablesSound, Older, PhaseSound;
  }

  lemma LedgerOfState(k: Config, s: State)
    requires StateSound(k, s)
    ensures LedgerSound(k, s.tables, s.ledger)
  {
    hide LedgerSound, TablesSound;
  }

  lemma TakeStepKeepsTimely(
    k: Config, d: nat, sys: Sys, clock: int, starts: map<nat, int>, id: nat, snap: nat, env: Env)
    requires SysSound(k, sys) && AllTimely(k, d, sys, clock, starts) && Enabled(sys, Step(id, snap, env))
    requires clock <= env.now && id in starts && env.now <= starts[id] + d
    ensures AllTimely(k, d, TakeStep(k, sys, id, snap, env), env.now, starts)
  {
    hide SysSound, Advance, Observe, MintsTimely, AccessTimely, Issues, Grows, Held, BeganInTime, HoldsOn;
    var s, ph := State(sys.Current(), sys.ledger), sys.flights[id];
    var (s', ph') := Advance(k, env, sys.history[snap], s, ph);
    StepFindsInTime(k, sys, id, snap, env, starts[id]);
    AdvanceIssues(k, env, sys.history[snap], s, ph);
    AdvanceHoldsOn(k, env, sys.history[snap], s, ph);
    StepKeepsLedgerTimely(k, d, sys.ledger, s'.ledger, Held(ph), starts[id], env.now);
    StepKeepsFlightsTimely(
      k, sys.ledger, s'.ledger, sys.history[snap], clock, env.now, starts, sys.flights, id, ph');
  }

  lemma BeginKeepsTimely(k: Config, l: Ledger, clock: int, now: int, starts: map<nat, int>, sys: Sys, id: nat, req: Request)
    requires FlightsTimely(k, l, clock, starts, sys.flights) && clock <= now && id !in sys.flights
    ensures FlightsTimely(k, l, now, starts[id := now], sys.flights[id := Start(req)])
  {
    hide BeganInTime;
  }

  lemma FewerStayTimely(k: Config, l: Ledger, clock: int, now: int, starts: map<nat, int>, flights: map<nat, Phase>, id: nat)
    requires FlightsTimely(k, l, clock, starts, flights) && clock <= now
    ensures FlightsTimely(k, l, now, starts, flights - {id})
  {
    hide BeganInTime;
  }

  /** A request that has not begun is not in flight. */
  ghost predicate FlightsBegun(sys: Sys) {
    forall id | id in sys.flights :: id in sys.begun
  }

  lemma NextKeepsTimely(k: Config, d: nat, sys: Sys, clock: int, starts: map<nat, int>, t: Timed)
    requires SysSound(k, sys) && AllTimely(k, d, sys, clock, starts) && FlightsBegun(sys)
    requires Enabled(sys, t.act) && clock <= t.now
    requires t.act.Step? ==> t.act.env.now == t.now && t.act.id in starts && t.now <= starts[t.act.id] + d
    ensures AllTimely(k, d, Next(k, sys, t.act), t.now, Starts(starts, t)) && FlightsBegun(Next(k, sys, t.act))
  {
    hide SysSound, MintsTimely, AccessTimely, FlightsTimely, Advance;
    match t.act
    case Begin(id, req) => BeginKeepsTimely(k, sys.ledger, clock, t.now, starts, sys, id, req);
    case Step(id, snap, env) => TakeStepKeepsTimely(k, d, sys, clock, starts, id, snap, env);
    case Abandon(id) => FewerStayTimely(k, sys.ledger, clock, t.now, starts, sys.flights, id);
  }

  lemma {:induction false} RunKeepsTimely(
    k: Config, d: nat, sys: Sys, clock: int, starts: map<nat, int>, acts: seq<Timed>)
    requires SysSound(k, sys) && AllTimely(k, d, sys, clock, starts) && FlightsBegun(sys)
    requires TimedOk(k, d, sys, clock, starts, acts)
    ensures
      var l := TimedRun(k, d, sys, clock, starts, acts).ledger;
      MintsTimely(k, d, l) && AccessTimely(k, d, l)
    decreases |acts|
  {
    hide SysSound, MintsTimely, AccessTimely, FlightsTimely, FlightsBegun, Enabled, Next;
    if acts != [] {
      NextKeepsTimely(k, d, sys, clock, starts, acts[0]);
      NextKeepsSound(k, sys, acts[0].act);
      RunKeepsTimely(k, d, Next(k, sys, acts[0].act), acts[0].now, Starts(starts, acts[0]), acts[1..]);
    }
  }

  /**
   * In every such run the tokens of the n-th refresh of a grant, refresh tokens and access tokens alike, are
   * issued no later than 600 s, n refresh lifetimes and n + 1 durations after its `authorize`.
   */
  lemma LifetimesWithDurations(k: Config, d: nat, clock: int, acts: seq<Timed>)
    requires TimedOk(k, d, INITIAL, clock, map[], acts)
    ensures
      var l := TimedRun(k, d, INITIAL, clock, map[], acts).ledger;
      && (forall t | t in l.mints ::
            var lin := l.mints[t].lineage;
            && lin.code in l.grants
            && l.mints[t].at <= l.grants[lin.code].at + 600 + d + lin.rank * (k.refreshTtlDays * 86400 + d))
      && (forall i | 0 <= i < |l.access| && l.access[i].lineage.Some? ::
            var lin := l.access[i].lineage.value;
            && lin.code in l.grants
            && l.access[i].at <= l.grants[lin.code].at + 600 + d + lin.rank * (k.refreshTtlDays * 86400 + d))
  {
    hide SysSound, TimedOk, TimedRun;
    InitialIsSound(k);
    RunKeepsTimely(k, d, INITIAL, clock, map[], acts);
    var l := TimedRun(k, d, INITIAL, clock, map[], acts).ledger;
    forall t | t in l.mints ensures Timely(k, d, l, l.mints[t].lineage, l.mints[t].at) {
    }
    forall i | 0 <= i < |l.access| && l.access[i].lineage.Some?
      ensures Timely(k, d, l, l.access[i].lineage.value, l.access[i].at)
    {
    }
  }
}
