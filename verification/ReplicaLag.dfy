/**
 * Codes and refresh tokens are looked up at a replica that lags behind by a number of versions of the tables:
 * how late one that has been spent can still be found.
 */
module ReplicaLag {
  import opened AuthTables
  import opened TokenService
  import opened OAuthFlow
  import opened Provenance
  import opened Interleaving
  import opened Redemptions

  /** Every read sees one of the last `lag` + 1 versions of the tables. */
  ghost predicate Lagging(k: Config, lag: nat, sys: Sys, acts: seq<Act>)
    requires RunOk(k, sys, acts)
    decreases |acts|
  {
    acts == [] ||
    (&& (acts[0].Step? ==> |sys.history| <= acts[0].snap + 1 + lag)
     && Lagging(k, lag, Next(k, sys, acts[0]), acts[1..]))
  }

  /** What was spent is gone from every version since. */
  ghost predicate GoneSince(history: seq<Tables>, mints: map<string, Mint>, mark: Stamp) {
    mark.at < |history| && forall i | mark.at <= i < |history| :: Gone(mark.what, history[i], mints)
  }

  ghost predicate MarksLast(a: Audit, history: seq<Tables>, mints: map<string, Mint>) {
    forall m | m in a.markings :: GoneSince(history, mints, a.markings[m])
  }

  /** Whoever found something found it at most `lag` versions after anyone spent it. */
  ghost predicate ReadsNearMarks(lag: nat, a: Audit, now: nat) {
    && (forall r | r in a.readings :: a.readings[r].at < now)
    && (forall r, m | r in a.readings && m in a.markings && a.readings[r].what == a.markings[m].what ::
          a.readings[r].at <= a.markings[m].at + lag)
  }

  ghost predicate Near(lag: nat, sys: Sys) {
    && sys.history != [] && MarksLast(sys.audit, sys.history, sys.ledger.mints)
    && ReadsNearMarks(lag, sys.audit, |sys.history|)
  }

  lemma ObserveKeepsNear(lag: nat, a: Audit, now: nat, id: nat, env: Env, ph: Phase, ph': Phase, mints: map<string, Mint>)
    requires ReadsNearMarks(lag, a, now)
    requires Finds(ph, ph') ==> Held(ph').Some? && forall m | m in a.markings && a.markings[m].what == Held(ph').value ::
      now <= a.markings[m].at + lag
    ensures ReadsNearMarks(lag, Observe(a, id, env, ph, ph', now, mints), now + 1)
  {
    hide Held, Spends, Finds, OnRecord, Mints;
  }

  /** What is found in a version is not gone from it, so that version is older than any mark. */
  lemma FoundBeforeMarks(
    lag: nat, a: Audit, history: seq<Tables>, mints: map<string, Mint>, snap: nat, ph: Phase, ph': Phase)
    requires MarksLast(a, history, mints) && snap < |history| <= snap + 1 + lag
    requires HoldsOn(history[snap], ph, ph') && Finds(ph, ph')
    ensures Held(ph').Some?
    ensures forall m | m in a.markings && a.markings[m].what == Held(ph').value :: |history| <= a.markings[m].at + lag
  {
    FoundIsNotGone(history[snap], mints, ph, ph');
    hide HoldsOn, Gone, Held, Finds;
    forall m | m in a.markings && a.markings[m].what == Held(ph').value ensures |history| <= a.markings[m].at + lag {
      assert GoneSince(history, mints, a.markings[m]);
    }
  }

  /** Another version follows, in which what was gone is gone. */
  lemma GoneOnceMore(history: seq<Tables>, mints: map<string, Mint>, t': Tables, mints': map<string, Mint>, mark: Stamp)
    requires GoneSince(history, mints, mark) && mints.Keys <= mints'.Keys
    requires GoneStays(history[|history| - 1], mints, t', mints')
    ensures GoneSince(history + [t'], mints', mark)
  {
    forall i | mark.at <= i < |history| + 1 ensures Gone(mark.what, (history + [t'])[i], mints') {
      if i < |history| {
        assert Gone(mark.what, history[i], mints);
      } else {
        assert Gone(mark.what, history[|history| - 1], mints);
      }
    }
  }

  lemma ObserveKeepsMarks(a: Audit, id: nat, env: Env, ph: Phase, ph': Phase, history: seq<Tables>,
                          mints: map<string, Mint>, t': Tables, mints': map<string, Mint>)
    requires history != [] && MarksLast(a, history, mints) && mints.Keys <= mints'.Keys
    requires GoneStays(history[|history| - 1], mints, t', mints')
    requires Spends(ph).Some? && OnRecord(Spends(ph).value, mints) ==> Gone(Spends(ph).value, t', mints')
    ensures MarksLast(Observe(a, id, env, ph, ph', |history|, mints), history + [t'], mints')
  {
    hide Gone, Held, Spends, Finds, OnRecord, Mints, GoneStays;
    var a' := Observe(a, id, env, ph, ph', |history|, mints);
    forall m | m in a'.markings ensures GoneSince(history + [t'], mints', a'.markings[m]) {
      if m in a.markings && a'.markings[m] == a.markings[m] {
        hide GoneSince;
        GoneOnceMore(history, mints, t', mints', a.markings[m]);
      }
    }
  }

  lemma TakeStepKeepsNear(k: Config, lag: nat, sys: Sys, id: nat, snap: nat, env: Env)
    requires SysSound(k, sys) && Near(lag, sys) && Enabled(sys, Step(id, snap, env)) && |sys.history| <= snap + 1 + lag
    ensures Near(lag, TakeStep(k, sys, id, snap, env))
  {
    hide SysSound, MarksLast, ReadsNearMarks, Observe, Advance;
    StepKeepsReads(k, lag, sys, id, snap, env);
    StepKeepsMarks(k, sys, id, snap, env);
  }

  lemma StepKeepsReads(k: Config, lag: nat, sys: Sys, id: nat, snap: nat, env: Env)
    requires Near(lag, sys) && Enabled(sys, Step(id, snap, env)) && |sys.history| <= snap + 1 + lag
    ensures ReadsNearMarks(lag, TakeStep(k, sys, id, snap, env).audit, |sys.history| + 1)
  {
    hide MarksLast, ReadsNearMarks, Observe, HoldsOn, Held, Finds, Advance;
    var s, ph := State(sys.Current(), sys.ledger), sys.flights[id];
    var ph' := Advance(k, env, sys.history[snap], s, ph).1;
    AdvanceHoldsOn(k, env, sys.history[snap], s, ph);
    if Finds(ph, ph') {
      FoundBeforeMarks(lag, sys.audit, sys.history, sys.ledger.mints, snap, ph, ph');
    }
    ObserveKeepsNear(lag, sys.audit, |sys.history|, id, env, ph, ph', sys.ledger.mints);
  }

  lemma StepKeepsMarks(k: Config, sys: Sys, id: nat, snap: nat, env: Env)
    requires SysSound(k, sys) && Enabled(sys, Step(id, snap, env)) && MarksLast(sys.audit, sys.history, sys.ledger.mints)
    ensures
      var sys' := TakeStep(k, sys, id, snap, env);
      MarksLast(sys'.audit, sys'.history, sys'.ledger.mints)
  {
    hide SysSound, StateSound, PhaseSound, MarksLast, Observe, GoneStays, MintsStep, Gone, Spends, OnRecord, Advance;
    FlightIsSound(k, sys, id);
    var s, ph := State(sys.Current(), sys.ledger), sys.flights[id];
    var (s', ph') := Advance(k, env, sys.history[snap], s, ph);
    AdvanceMints(k, env, sys.history[snap], s, ph);
    MintsGrow(env, ph, ph', sys.ledger.mints, s'.ledger.mints);
    StepKeepsGone(k, env, sys.history[snap], s, ph);
    if Spends(ph).Some? {
      AdvanceSpends(k, env, sys.history[snap], s, ph);
    }
    ObserveKeepsMarks(sys.audit, id, env, ph, ph', sys.history, sys.ledger.mints, s'.tables, s'.ledger.mints);
  }

  lemma {:induction false} RunKeepsNear(k: Config, lag: nat, sys: Sys, acts: seq<Act>)
    requires SysSound(k, sys) && Near(lag, sys) && RunOk(k, sys, acts) && Lagging(k, lag, sys, acts)
    ensures Near(lag, Run(k, sys, acts))
    decreases |acts|
  {
    hide SysSound, MarksLast, ReadsNearMarks, TakeStep;
    if acts != [] {
      NextKeepsSound(k, sys, acts[0]);
      if acts[0].Step? {
        TakeStepKeepsNear(k, lag, sys, acts[0].id, acts[0].snap, acts[0].env);
      }
      RunKeepsNear(k, lag, Next(k, sys, acts[0]), acts[1..]);
    }
  }

  /**
   * With replicas at most `lag` versions behind: the tokens minted from a code or refresh token number at most
   * the requests that found it, and each of those found it at most `lag` versions after anyone spent it.
   */
  lemma RedemptionsUnderLag(k: Config, lag: nat, acts: seq<Act>, what: Source)
    requires RunOk(k, INITIAL, acts) && Lagging(k, lag, INITIAL, acts)
    ensures
      var sys := Run(k, INITIAL, acts);
      && |Successors(sys, what)| <= |Finders(sys, what)|
      && forall r, m | r in Finders(sys, what) && Stamped(sys.audit.markings, m, what) ::
           sys.audit.readings[r].at <= sys.audit.markings[m].at + lag
  {
    hide SysSound, RunOk, Lagging, Run, MarksLast;
    OneTokenForEachFinder(k, acts, what);
    InitialIsSound(k);
    InitialIsNear(lag);
    RunKeepsNear(k, lag, INITIAL, acts);
  }

  lemma InitialIsNear(lag: nat)
    ensures Near(lag, INITIAL)
  {
  }
}
