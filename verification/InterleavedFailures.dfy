/** A request that fails leaves nothing half done among overlapping requests either, on one database. */
module InterleavedFailures {
  import opened TokenService
  import opened OAuthFlow
  import opened Provenance
  import opened Interleaving
  import opened Redemptions
  import opened Failures
  import Overlaps

  /** A request that has begun to write, or has succeeded. */
  predicate Committed(ph: Phase) {
    Writing(ph) || (ph.Done? && ph.answer.Success?)
  }

  /** A step changes tables or ledger only if its request is committed then, or to remove an expired token. */
  lemma StepCommits(k: Config, env: Env, s: State, ph: Phase)
    requires StateSound(k, s) && PhaseSound(k, s.tables, s.ledger, ph) && env.token !in s.ledger.mints && k.EncodeTotal()
    ensures
      var (s', ph') := Advance(k, env, s.tables, s, ph);
      && (Committed(ph) ==> Committed(ph'))
      && (s' == s || Committed(ph') || (ph.DropExpired? && s' == Drop(s, ph.r.token)))
  {
    hide StateSound, PhaseSound, Config.EncodeTotal, Advance;
    if Writing(ph) {
      WritingStepSucceeds(k, env, s, ph);
    } else if ph.Done? {
      NoStepWhenDone(k, env, s, ph);
    } else {
      ReadingStep(k, env, s, ph);
    }
  }

  lemma NoStepWhenDone(k: Config, env: Env, s: State, ph: Phase)
    requires ph.Done?
    ensures Advance(k, env, s.tables, s, ph) == (s, ph)
  {
  }

  /** A request under way is committed, or it has been given up. */
  ghost predicate StillCommitted(sys: Sys, id: nat) {
    id in sys.begun && (id in sys.flights ==> Committed(sys.flights[id]))
  }

  lemma NextKeepsCommitted(k: Config, sys: Sys, act: Act, id: nat)
    requires SysSound(k, sys) && sys.history != [] && k.EncodeTotal() && StillCommitted(sys, id)
    requires Enabled(sys, act) && (act.Step? ==> act.snap == |sys.history| - 1)
    ensures StillCommitted(Next(k, sys, act), id) && Next(k, sys, act).history != []
  {
    hide SysSound, StateSound, PhaseSound, Config.EncodeTotal, Advance, Observe, Committed;
    if act.Step? && act.id == id {
      FlightIsSound(k, sys, id);
      StepCommits(k, act.env, State(sys.Current(), sys.ledger), sys.flights[id]);
    }
  }

  lemma {:induction false} RunKeepsCommitted(k: Config, sys: Sys, acts: seq<Act>, id: nat)
    requires SysSound(k, sys) && sys.history != [] && k.EncodeTotal() && StillCommitted(sys, id)
    requires RunOk(k, sys, acts) && UpToDate(k, sys, acts)
    ensures StillCommitted(Run(k, sys, acts), id)
    decreases |acts|
  {
    hide SysSound, StillCommitted, Config.EncodeTotal, Next;
    if acts != [] {
      NextKeepsSound(k, sys, acts[0]);
      NextKeepsCommitted(k, sys, acts[0], id);
      RunKeepsCommitted(k, Next(k, sys, acts[0]), acts[1..], id);
    }
  }

  /**
   * If encoding never fails and reads are up to date: no step of a request that ends in an error has changed the
   * tables or issued anything, whatever ran in between, except the removal of a refresh token it found expired.
   */
  lemma FailedRequestChangesNothing(k: Config, before: seq<Act>, id: nat, env: Env, after: seq<Act>)
    requires k.EncodeTotal() && RunOk(k, INITIAL, before) && UpToDate(k, INITIAL, before)
    requires
      var sys := Run(k, INITIAL, before);
      && sys.history != [] && Enabled(sys, Step(id, |sys.history| - 1, env))
      && var sys' := Next(k, sys, Step(id, |sys.history| - 1, env));
      && RunOk(k, sys', after) && UpToDate(k, sys', after)
      && var end := Run(k, sys', after);
         id in end.flights && end.flights[id].Done? && end.flights[id].answer.Failure?
    ensures
      var sys := Run(k, INITIAL, before);
      var sys' := Next(k, sys, Step(id, |sys.history| - 1, env));
      && sys'.history != [] && sys'.ledger == sys.ledger
      && (sys'.Current() == sys.Current() ||
          (sys.flights[id].DropExpired? && sys'.Current() == sys.Current().DeleteToken(sys.flights[id].r.token)))
  {
    hide SysSound, RunOk, UpToDate, Run, Config.EncodeTotal;
    InitialIsSound(k);
    RunKeepsSound(k, INITIAL, before);
    RunFromStartIsAudited(k, before);
    FlightBegan(Run(k, INITIAL, before), id);
    StepOfFailure(k, Run(k, INITIAL, before), id, env, after);
  }

  lemma FlightBegan(sys: Sys, id: nat)
    requires Audited(sys) && id in sys.flights
    ensures id in sys.begun
  {
    hide ReadsPrecedeMarks, MintersAudited, FlightAudited;
  }

  lemma StepOfFailure(k: Config, sys: Sys, id: nat, env: Env, after: seq<Act>)
    requires SysSound(k, sys) && sys.history != [] && k.EncodeTotal()
    requires Enabled(sys, Step(id, |sys.history| - 1, env)) && id in sys.begun
    requires
      var sys' := Next(k, sys, Step(id, |sys.history| - 1, env));
      && RunOk(k, sys', after) && UpToDate(k, sys', after)
      && var end := Run(k, sys', after);
         id in end.flights && end.flights[id].Done? && end.flights[id].answer.Failure?
    ensures
      var sys' := Next(k, sys, Step(id, |sys.history| - 1, env));
      && sys'.history != [] && sys'.ledger == sys.ledger
      && (sys'.Current() == sys.Current() ||
          (sys.flights[id].DropExpired? && sys'.Current() == sys.Current().DeleteToken(sys.flights[id].r.token)))
  {
    hide SysSound, StateSound, PhaseSound, RunOk, UpToDate, Run, Config.EncodeTotal, Advance, Next;
    var s, ph := State(sys.Current(), sys.ledger), sys.flights[id];
    var act := Step(id, |sys.history| - 1, env);
    FlightIsSound(k, sys, id);
    StepCommits(k, env, s, ph);
    Overlaps.StepShape(k, sys, id, env);
    NextKeepsSound(k, sys, act);
    if Committed(Advance(k, env, s.tables, s, ph).1) {
      RunKeepsCommitted(k, Next(k, sys, act), after, id);
    }
  }
}
