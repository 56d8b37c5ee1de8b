/** The two models are one: a request whose steps nothing interrupts has the effect of `Drive`. */
module LoneRequests {
  import opened TokenService
  import opened OAuthFlow
  import opened AtomicRuns
  import opened Interleaving
  import opened Redemptions

  /** Up-to-date steps of one request until it is done, from a history of the given length. */
  ghost function LoneActs(k: Config, env: Env, s: State, ph: Phase, id: nat, length: nat): seq<Act>
    requires length > 0
    decreases ph.Remaining()
  {
    if ph.Done? then []
    else
      var (s', ph') := Advance(k, env, s.tables, s, ph);
      [Step(id, length - 1, env)] + LoneActs(k, env, s', ph', id, length + 1)
  }

  lemma {:induction false} LoneRunIsDrive(k: Config, env: Env, sys: Sys, id: nat)
    requires sys.history != [] && id in sys.flights && env.token !in sys.ledger.mints
    ensures
      var s := State(sys.Current(), sys.ledger);
      var acts := LoneActs(k, env, s, sys.flights[id], id, |sys.history|);
      && RunOk(k, sys, acts) && UpToDate(k, sys, acts)
      && var sys' := Run(k, sys, acts);
         && sys'.history != [] && id in sys'.flights && sys'.flights[id].Done?
         && (State(sys'.Current(), sys'.ledger), sys'.flights[id].answer) == Drive(k, env, s, sys.flights[id])
         && sys'.begun == sys.begun
         && (forall j | j in sys.flights && j != id :: j in sys'.flights && sys'.flights[j] == sys.flights[j])
    decreases if id in sys.flights then sys.flights[id].Remaining() else 0
  {
    hide Advance, Observe;
    var s, ph := State(sys.Current(), sys.ledger), sys.flights[id];
    if !ph.Done? {
      var (s', ph') := Advance(k, env, s.tables, s, ph);
      var act := Step(id, |sys.history| - 1, env);
      var sys' := Next(k, sys, act);
      DriveStep(k, env, s, ph);
      assert State(sys'.Current(), sys'.ledger) == s' && sys'.flights[id] == ph';
      var acts := LoneActs(k, env, s, ph, id, |sys.history|);
      assert acts[0] == act && acts[1..] == LoneActs(k, env, s', ph', id, |sys.history| + 1);
      if !ph'.Done? {
        FreshStays(k, env, s, ph);
        LoneRunIsDrive(k, env, sys', id);
      }
    }
  }

  // ---------------------------------------------------------------- runs in sequence

  lemma {:induction false} RunConcat(k: Config, sys: Sys, xs: seq<Act>, ys: seq<Act>)
    requires RunOk(k, sys, xs) && UpToDate(k, sys, xs)
    requires RunOk(k, Run(k, sys, xs), ys) && UpToDate(k, Run(k, sys, xs), ys)
    ensures RunOk(k, sys, xs + ys) && UpToDate(k, sys, xs + ys)
    ensures Run(k, sys, xs + ys) == Run(k, Run(k, sys, xs), ys)
    decreases |xs|
  {
    hide Next;
    if xs == [] {
      assert xs + ys == ys;
    } else {
      assert (xs + ys)[0] == xs[0] && (xs + ys)[1..] == xs[1..] + ys;
      RunConcat(k, Next(k, sys, xs[0]), xs[1..], ys);
    }
  }

  lemma OneAct(k: Config, sys: Sys, act: Act)
    requires Enabled(sys, act) && (act.Step? ==> act.snap == |sys.history| - 1)
    ensures RunOk(k, sys, [act]) && UpToDate(k, sys, [act]) && Run(k, sys, [act]) == Next(k, sys, act)
  {
    hide Next;
  }

  /** Every run of requests served one at a time is an up-to-date run of the interleaving model. */
  lemma {:induction false} ServedRunIsInterleaved(k: Config, sys: Sys, clock: int, calls: seq<Call>, next: nat)
    returns (acts: seq<Act>)
    requires sys.history != [] && (forall id | id in sys.begun :: id < next)
    requires CallsOk(k, State(sys.Current(), sys.ledger), clock, calls)
    ensures RunOk(k, sys, acts) && UpToDate(k, sys, acts)
    ensures
      var sys' := Run(k, sys, acts);
      && sys'.history != []
      && State(sys'.Current(), sys'.ledger) == ServeAll(k, State(sys.Current(), sys.ledger), calls)
    decreases |calls|
  {
    hide Drive, LoneActs;
    if calls == [] {
      acts := [];
    } else {
      var env, s := calls[0].env, State(sys.Current(), sys.ledger);
      var begin := Begin(next, calls[0].req);
      OneAct(k, sys, begin);
      var begun := Next(k, sys, begin);
      LoneRunIsDrive(k, env, begun, next);
      var lone := LoneActs(k, env, s, Start(calls[0].req), next, |begun.history|);
      RunConcat(k, sys, [begin], lone);
      var served := Run(k, begun, lone);
      assert (State(served.Current(), served.ledger), served.flights[next].answer) == Serve(k, s, calls[0]);
      var rest := ServedRunIsInterleaved(k, served, env.now, calls[1..], next + 1);
      RunConcat(k, sys, [begin] + lone, rest);
      acts := [begin] + lone + rest;
    }
  }

  lemma EmptyRun(k: Config, sys: Sys)
    ensures RunOk(k, sys, []) && UpToDate(k, sys, []) && Run(k, sys, []) == sys
  {
  }

  lemma Append(k: Config, sys: Sys, now: Sys, acts: seq<Act>, act: Act) returns (sys': Sys, acts': seq<Act>)
    requires RunOk(k, sys, acts) && UpToDate(k, sys, acts) && Run(k, sys, acts) == now
    requires Enabled(now, act) && (act.Step? ==> act.snap == |now.history| - 1)
    ensures RunOk(k, sys, acts') && UpToDate(k, sys, acts') && acts' == acts + [act]
    ensures sys' == Next(k, now, act) == Run(k, sys, acts')
  {
    hide Next;
    OneAct(k, now, act);
    RunConcat(k, sys, acts, [act]);
    sys', acts' := Next(k, now, act), acts + [act];
  }
}
