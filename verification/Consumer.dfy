/**
 * The consumer of user events: it receives a message, handles it, and only then commits its offset.
 * Commits are asynchronous: the broker may apply one late, twice, out of order or never. The consumer may
 * stop at any point, and starts again from what is committed.
 */
module Consumer {
  import opened Wrappers
  import opened UserFlow

  datatype Mark = Mark(part: nat, offset: nat)

  /** A partition's log (None where a payload is not an event), and where its only consumer is. */
  datatype Partition = Partition(log: seq<Option<UserEvent>>, committed: nat, position: nat)

  datatype Stage = Down | Idle | Handling(mark: Mark, phase: UserPhase)

  /**
   * What has happened: handlings begun, offsets that went through the whole body of the loop, profiles
   * inserted, offsets whose profile the database refused, and offsets that a restart found passed but not
   * committed (rewound) or committed but not passed (jumped).
   */
  datatype History = History(
    begun: multiset<Mark>, handled: set<Mark>, inserted: multiset<Mark>, refused: set<Mark>,
    rewound: multiset<Mark>, jumped: multiset<Mark>, restarts: nat)

  datatype Sys = Sys(parts: seq<Partition>, sent: set<Mark>, stage: Stage, store: Store, past: History)

  datatype Act =
    | Append(part: nat, event: Option<UserEvent>)
    | Apply(commit: Mark)
    | Receive(part: nat)
    | Work(env: UserEnv)
    | Commit(accepted: bool)
    | Shutdown(committed: bool)
    | Crash
    | Restart
    | Elsewhere(store: Store)

  // ---------------------------------------------------------------- steps

  function CommittedAll(parts: seq<Partition>): (r: seq<Partition>)
    ensures |r| == |parts| && forall p | 0 <= p < |r| :: r[p] == parts[p].(committed := parts[p].position)
  {
    if parts == [] then []
    else [parts[0].(committed := parts[0].position)] + CommittedAll(parts[1..])
  }

  function Rewound(parts: seq<Partition>): (r: seq<Partition>)
    ensures |r| == |parts| && forall p | 0 <= p < |r| :: r[p] == parts[p].(position := parts[p].committed)
  {
    if parts == [] then []
    else [parts[0].(position := parts[0].committed)] + Rewound(parts[1..])
  }

  /** The offsets that a restart goes back over. */
  function Uncommitted(parts: seq<Partition>): set<Mark> {
    set p: nat, o: nat | p < |parts| && parts[p].committed <= o < parts[p].position :: Mark(p, o)
  }

  /** The offsets that a restart leaves behind because a late commit of an earlier start covers them. */
  function Overtaken(parts: seq<Partition>): set<Mark> {
    set p: nat, o: nat | p < |parts| && parts[p].position <= o < parts[p].committed :: Mark(p, o)
  }

  function Restarted(sys: Sys): Sys {
    sys.(stage := Idle, parts := Rewound(sys.parts),
         past := sys.past.(
           rewound := sys.past.rewound + multiset(Uncommitted(sys.parts)),
           jumped := sys.past.jumped + multiset(Overtaken(sys.parts)),
           restarts := sys.past.restarts + 1))
  }

  predicate HasNext(parts: seq<Partition>, p: nat) {
    p < |parts| && parts[p].position < |parts[p].log|
  }

  function Received(sys: Sys, p: nat): Sys
    requires HasNext(sys.parts, p)
  {
    var part := sys.parts[p];
    var mark := Mark(p, part.position);
    sys.(parts := sys.parts[p := part.(position := part.position + 1)],
         stage := Handling(mark, Start(Consume(part.log[part.position]))),
         past := sys.past.(begun := sys.past.begun + multiset{mark}))
  }

  predicate Registered(event: Option<UserEvent>) {
    event.Some? && event.value.eventType == "user.registered"
  }

  /** What the first call to the database adds to the history. */
  function Recorded(past: History, mark: Mark, ph: UserPhase, ph': UserPhase): History {
    var past1 :=
      if !ph.Start? then past
      else if ph'.SetUser? then past.(inserted := past.inserted + multiset{mark})
      else if ph.req.Consume? && Registered(ph.req.event) then past.(refused := past.refused + {mark})
      else past;
    if ph'.Done? then past1.(handled := past1.handled + {mark}) else past1
  }

  function Worked(sys: Sys, env: UserEnv): Sys
    requires sys.stage.Handling?
  {
    var (store, ph) := Advance(env, sys.store.rows, sys.store, sys.stage.phase);
    sys.(store := store, stage := Handling(sys.stage.mark, ph),
         past := Recorded(sys.past, sys.stage.mark, sys.stage.phase, ph))
  }

  /** One step; a step that is not possible changes nothing. */
  function Next(sys: Sys, act: Act): Sys {
    match act
    case Append(p, event) =>
      if p < |sys.parts|
      then sys.(parts := sys.parts[p := sys.parts[p].(log := sys.parts[p].log + [event])])
      else sys
    case Apply(c) =>
      if c in sys.sent && c.part < |sys.parts|
      then sys.(parts := sys.parts[c.part := sys.parts[c.part].(committed := c.offset)])
      else sys
    case Receive(p) => if sys.stage.Idle? && HasNext(sys.parts, p) then Received(sys, p) else sys
    case Work(env) => if sys.stage.Handling? && !sys.stage.phase.Done? then Worked(sys, env) else sys
    case Commit(accepted) =>
      if sys.stage.Handling? && sys.stage.phase.Done? then
        var mark := sys.stage.mark;
        sys.(stage := Idle, sent := if accepted then sys.sent + {Mark(mark.part, mark.offset + 1)} else sys.sent)
      else sys
    case Shutdown(committed) =>
      if sys.stage.Idle?
      then sys.(stage := Down, parts := if committed then CommittedAll(sys.parts) else sys.parts)
      else sys
    case Crash => sys.(stage := Down)
    case Restart =>
      if sys.stage.Down? then Restarted(sys) else sys
    case Elsewhere(store) => sys.(store := store)
  }

  function Run(sys: Sys, acts: seq<Act>): Sys
    decreases |acts|
  {
    if acts == [] then sys else Run(Next(sys, acts[0]), acts[1..])
  }

  /** Empty logs, nothing committed, and a consumer that starts from the beginning. */
  function Initial(parts: nat, store: Store): (sys: Sys)
    ensures |sys.parts| == parts && forall p | 0 <= p < parts :: sys.parts[p] == Partition([], 0, 0)
  {
    Sys(seq(parts, _ => Partition([], 0, 0)), {}, Idle, store, History(multiset{}, {}, multiset{}, {}, multiset{}, multiset{}, 0))
  }

  // ---------------------------------------------------------------- invariants

  ghost predicate Known(sys: Sys, m: Mark) {
    m.part < |sys.parts| && m.offset < |sys.parts[m.part].log|
  }

  ghost predicate InHand(sys: Sys, m: Mark) {
    sys.stage.Handling? && sys.stage.mark == m && !sys.stage.phase.Done?
  }

  ghost predicate HandledBelow(sys: Sys, part: nat, offset: nat) {
    forall o | 0 <= o < offset :: Mark(part, o) in sys.past.handled
  }

  /** Committed offsets, offsets of commits on their way, and offsets already passed have been handled. */
  ghost predicate Covered(sys: Sys) {
    && (forall p | 0 <= p < |sys.parts| :: HandledBelow(sys, p, sys.parts[p].committed))
    && (forall c | c in sys.sent :: HandledBelow(sys, c.part, c.offset))
    && (!sys.stage.Down? ==> forall p, o | 0 <= p < |sys.parts| && 0 <= o < sys.parts[p].position ::
          Mark(p, o) in sys.past.handled || InHand(sys, Mark(p, o)))
  }

  ghost predicate InLog(sys: Sys) {
    && (forall p | 0 <= p < |sys.parts| ::
          sys.parts[p].committed <= |sys.parts[p].log| && sys.parts[p].position <= |sys.parts[p].log|)
    && (forall c | c in sys.sent && c.part < |sys.parts| :: c.offset <= |sys.parts[c.part].log|)
    && (forall m | m in sys.past.handled :: Known(sys, m))
    && (sys.stage.Handling? ==>
          && Known(sys, sys.stage.mark) && sys.stage.mark.offset < sys.parts[sys.stage.mark.part].position
          && (sys.stage.phase.Done? ==> sys.stage.mark in sys.past.handled))
  }

  ghost predicate Passed(sys: Sys, m: Mark) {
    m.part < |sys.parts| && m.offset < sys.parts[m.part].position
  }

  ghost predicate Opening(sys: Sys, m: Mark) {
    sys.stage.Handling? && sys.stage.mark == m && sys.stage.phase.Start?
  }

  /**
   * A message is handled once when it is first passed and once for every restart that goes back over it,
   * less the restarts that pass it without handling it; each time it inserts at most one profile.
   */
  ghost predicate Counted(sys: Sys) {
    && (forall m :: sys.past.begun[m] + sys.past.jumped[m] == sys.past.rewound[m] + if Passed(sys, m) then 1 else 0)
    && (forall m :: sys.past.rewound[m] <= sys.past.restarts)
    && (forall m :: sys.past.inserted[m] + (if Opening(sys, m) then 1 else 0) <= sys.past.begun[m])
  }

  ghost predicate HasProfile(sys: Sys, m: Mark) {
    Known(sys, m) && Registered(sys.parts[m.part].log[m.offset]) ==>
      sys.past.inserted[m] > 0 || m in sys.past.refused
  }

  /** A registration that was handled has its profile, unless the database refused it. */
  ghost predicate Profiled(sys: Sys) {
    && (forall m | m in sys.past.handled :: HasProfile(sys, m))
    && (sys.stage.Handling? && Known(sys, sys.stage.mark) ==>
          if sys.stage.phase.Start?
          then sys.stage.phase.req == Consume(sys.parts[sys.stage.mark.part].log[sys.stage.mark.offset])
          else HasProfile(sys, sys.stage.mark))
  }

  ghost predicate Inv(sys: Sys) {
    Covered(sys) && InLog(sys) && Counted(sys) && Profiled(sys)
  }

  // ---------------------------------------------------------------- every step keeps them

  lemma CommitIsCovered(sys: Sys)
    requires Covered(sys) && InLog(sys) && sys.stage.Handling? && sys.stage.phase.Done?
    ensures HandledBelow(sys, sys.stage.mark.part, sys.stage.mark.offset + 1)
  {
    var mark := sys.stage.mark;
    forall o | 0 <= o < mark.offset + 1 ensures Mark(mark.part, o) in sys.past.handled {
      assert o < sys.parts[mark.part].position;
    }
  }

  lemma ReceiveKeepsCovered(sys: Sys, p: nat)
    requires Covered(sys) && sys.stage.Idle? && HasNext(sys.parts, p)
    ensures Covered(Received(sys, p))
  {
    hide Known;
    var sys' := Received(sys, p);
    assert forall q, o :: HandledBelow(sys, q, o) ==> HandledBelow(sys', q, o);
  }

  lemma WorkKeepsCovered(sys: Sys, env: UserEnv)
    requires Covered(sys) && sys.stage.Handling? && !sys.stage.phase.Done?
    ensures Covered(Worked(sys, env))
  {
    hide Advance;
    var sys' := Worked(sys, env);
    assert forall q, o :: HandledBelow(sys, q, o) ==> HandledBelow(sys', q, o);
    forall q, o | 0 <= q < |sys.parts| && 0 <= o < sys'.parts[q].position
      ensures Mark(q, o) in sys'.past.handled || InHand(sys', Mark(q, o))
    {
      assert Mark(q, o) in sys.past.handled || InHand(sys, Mark(q, o));
    }
  }

  lemma CommitKeepsCovered(sys: Sys, accepted: bool)
    requires Covered(sys) && InLog(sys)
    ensures Covered(Next(sys, Commit(accepted)))
  {
    hide Advance, Known;
    var sys' := Next(sys, Commit(accepted));
    assert forall q, o :: HandledBelow(sys, q, o) <==> HandledBelow(sys', q, o);
    if sys.stage.Handling? && sys.stage.phase.Done? {
      CommitIsCovered(sys);
      assert forall m :: !InHand(sys, m);
    }
  }

  lemma BrokerKeepsCovered(sys: Sys, act: Act)
    requires Covered(sys) && (act.Append? || act.Apply?)
    ensures Covered(Next(sys, act))
  {
    hide Advance, Known;
    var sys' := Next(sys, act);
    assert forall q, o :: HandledBelow(sys, q, o) <==> HandledBelow(sys', q, o);
    assert forall m :: InHand(sys, m) <==> InHand(sys', m);
  }

  lemma StopKeepsCovered(sys: Sys, act: Act)
    requires Covered(sys) && (act.Shutdown? || act.Crash? || act.Restart? || act.Elsewhere?)
    ensures Covered(Next(sys, act))
  {
    hide Advance, Known;
    var sys' := Next(sys, act);
    assert forall q, o :: HandledBelow(sys, q, o) <==> HandledBelow(sys', q, o);
    assert act.Elsewhere? ==> forall m :: InHand(sys, m) <==> InHand(sys', m);
    assert act.Shutdown? && sys.stage.Idle? ==> forall m :: !InHand(sys, m);
  }

  lemma NextKeepsCovered(sys: Sys, act: Act)
    requires Covered(sys) && InLog(sys)
    ensures Covered(Next(sys, act))
  {
    hide Covered, InLog;
    match act
    case Receive(p) => if sys.stage.Idle? && HasNext(sys.parts, p) { ReceiveKeepsCovered(sys, p); }
    case Work(env) => if sys.stage.Handling? && !sys.stage.phase.Done? { WorkKeepsCovered(sys, env); }
    case Commit(accepted) => CommitKeepsCovered(sys, accepted);
    case Append(_, _) => BrokerKeepsCovered(sys, act);
    case Apply(_) => BrokerKeepsCovered(sys, act);
    case _ => StopKeepsCovered(sys, act);
  }

  lemma BrokerKeepsInLog(sys: Sys, act: Act)
    requires InLog(sys) && (act.Append? || act.Apply? || act.Shutdown? || act.Restart?)
    ensures InLog(Next(sys, act))
  {
    hide Worked, Received;
    var sys' := Next(sys, act);
    assert forall m :: Known(sys, m) ==> Known(sys', m);
  }

  lemma NextKeepsInLog(sys: Sys, act: Act)
    requires InLog(sys)
    ensures InLog(Next(sys, act))
  {
    hide Advance, Registered;
    if act.Append? || act.Apply? || act.Shutdown? || act.Restart? {
      BrokerKeepsInLog(sys, act);
      hide Next;
    } else {
      var sys' := Next(sys, act);
      assert forall m :: Known(sys, m) ==> Known(sys', m);
    }
  }

  lemma WorkKeepsCounted(sys: Sys, env: UserEnv)
    requires Counted(sys) && sys.stage.Handling? && !sys.stage.phase.Done?
    ensures Counted(Worked(sys, env))
  {
    hide AtStart, UserKey, EncodeUser, EncodeUsers;
  }

  lemma NextKeepsCounted(sys: Sys, act: Act)
    requires Counted(sys)
    ensures Counted(Next(sys, act))
  {
    hide Worked, Advance, Counted;
    var sys' := Next(sys, act);
    if act.Work? && sys.stage.Handling? && !sys.stage.phase.Done? {
      WorkKeepsCounted(sys, act.env);
    } else if act.Receive? && sys.stage.Idle? && HasNext(sys.parts, act.part) {
      ReceiveKeepsCounted(sys, act.part);
    } else if act.Restart? && sys.stage.Down? {
      RestartKeepsCounted(sys);
    } else {
      hide Received, Restarted, HasNext;
      SameCounts(sys, sys');
    }
  }

  lemma SameCounts(sys: Sys, sys': Sys)
    requires Counted(sys) && sys'.past == sys.past && |sys'.parts| == |sys.parts|
    requires forall p | 0 <= p < |sys.parts| :: sys'.parts[p].position == sys.parts[p].position
    requires sys'.stage == sys.stage || !sys'.stage.Handling?
    ensures Counted(sys')
  {
    assert forall m :: Passed(sys', m) <==> Passed(sys, m);
    assert forall m :: Opening(sys', m) ==> Opening(sys, m);
  }

  lemma ReceiveKeepsCounted(sys: Sys, p: nat)
    requires Counted(sys) && sys.stage.Idle? && HasNext(sys.parts, p)
    ensures Counted(Received(sys, p))
  {
    var mark := Mark(p, sys.parts[p].position);
    assert forall m :: Passed(Received(sys, p), m) <==> Passed(sys, m) || m == mark;
  }

  lemma RestartKeepsCounted(sys: Sys)
    requires Counted(sys) && sys.stage.Down?
    ensures Counted(Restarted(sys))
  {
    hide Restarted, Passed, Opening, Uncommitted, Overtaken;
    var past' := Restarted(sys).past;
    forall m
      ensures past'.begun[m] + past'.jumped[m] == past'.rewound[m] + if Passed(Restarted(sys), m) then 1 else 0
      ensures past'.rewound[m] <= past'.restarts
      ensures past'.inserted[m] + (if Opening(Restarted(sys), m) then 1 else 0) <= past'.begun[m]
    {
      RestartCounts(sys, m);
    }
  }

  lemma RestartCounts(sys: Sys, m: Mark)
    ensures
      var past, past', went, left := sys.past, Restarted(sys).past, m in Uncommitted(sys.parts), m in Overtaken(sys.parts);
      && past'.begun == past.begun && past'.inserted == past.inserted && past'.restarts == past.restarts + 1
      && past'.rewound[m] == past.rewound[m] + (if went then 1 else 0)
      && past'.jumped[m] == past.jumped[m] + (if left then 1 else 0)
      && (if Passed(sys, m) then !left && (Passed(Restarted(sys), m) <==> !went)
          else !went && (Passed(Restarted(sys), m) <==> left))
      && !Opening(Restarted(sys), m)
  {
    hide Counted;
    CountInSet(Uncommitted(sys.parts), m);
    CountInSet(Overtaken(sys.parts), m);
    AmongUncommitted(sys.parts, m);
    hide Uncommitted, Overtaken;
  }

  lemma CountInSet(s: set<Mark>, m: Mark)
    ensures multiset(s)[m] == if m in s then 1 else 0
  {
  }

  lemma AmongUncommitted(parts: seq<Partition>, m: Mark)
    ensures m in Uncommitted(parts) <==>
              m.part < |parts| && parts[m.part].committed <= m.offset < parts[m.part].position
    ensures m in Overtaken(parts) <==>
              m.part < |parts| && parts[m.part].position <= m.offset < parts[m.part].committed
  {
  }

  lemma WorkKeepsProfiled(sys: Sys, env: UserEnv)
    requires Profiled(sys) && InLog(sys) && sys.stage.Handling? && !sys.stage.phase.Done?
    ensures Profiled(Worked(sys, env))
  {
    var sys' := Worked(sys, env);
    assert forall m :: Known(sys, m) <==> Known(sys', m);
  }

  lemma NextKeepsProfiled(sys: Sys, act: Act)
    requires Profiled(sys) && InLog(sys)
    ensures Profiled(Next(sys, act))
  {
    hide Worked, Advance;
    var sys' := Next(sys, act);
    if act.Work? && sys.stage.Handling? && !sys.stage.phase.Done? {
      WorkKeepsProfiled(sys, act.env);
    } else {
      assert forall m :: Known(sys, m) ==>
        Known(sys', m) && sys'.parts[m.part].log[m.offset] == sys.parts[m.part].log[m.offset];
    }
  }

  lemma NextKeepsInv(sys: Sys, act: Act)
    requires Inv(sys)
    ensures Inv(Next(sys, act))
  {
    hide Covered, InLog, Counted, Profiled, Next;
    NextKeepsCovered(sys, act);
    NextKeepsInLog(sys, act);
    NextKeepsCounted(sys, act);
    NextKeepsProfiled(sys, act);
  }

  lemma InitialInv(parts: nat, store: Store)
    ensures Inv(Initial(parts, store))
  {
  }

  lemma {:induction false} RunKeepsInv(sys: Sys, acts: seq<Act>)
    requires Inv(sys)
    ensures Inv(Run(sys, acts))
    decreases |acts|
  {
    hide Inv, Next;
    if acts != [] {
      NextKeepsInv(sys, acts[0]);
      RunKeepsInv(Next(sys, acts[0]), acts[1..]);
    }
  }

  // ---------------------------------------------------------------- every run

  /**
   * At least once: every offset below a committed one went through the body of the loop, and a registration
   * among them has its profile unless the database refused it.
   */
  lemma AtLeastOnce(parts: nat, store: Store, acts: seq<Act>, p: nat, o: nat)
    requires p < parts
    ensures
      var sys := Run(Initial(parts, store), acts);
      p < |sys.parts| && (o < sys.parts[p].committed ==>
        && o < |sys.parts[p].log| && Mark(p, o) in sys.past.handled
        && (Registered(sys.parts[p].log[o]) ==>
              sys.past.inserted[Mark(p, o)] > 0 || Mark(p, o) in sys.past.refused))
  {
    hide Run;
    InitialInv(parts, store);
    RunKeepsInv(Initial(parts, store), acts);
    PartsStay(Initial(parts, store), acts);
  }

  lemma {:induction false} PartsStay(sys: Sys, acts: seq<Act>)
    ensures |Run(sys, acts).parts| == |sys.parts|
    decreases |acts|
  {
    if acts != [] {
      PartsStay(Next(sys, acts[0]), acts[1..]);
    }
  }

  /** Nothing is skipped, on a restart either: a consumer that waits has handled all it has passed. */
  lemma NothingIsSkipped(parts: nat, store: Store, acts: seq<Act>, p: nat, o: nat)
    requires p < parts
    ensures
      var sys := Run(Initial(parts, store), acts);
      p < |sys.parts| && (sys.stage.Idle? && o < sys.parts[p].position ==> Mark(p, o) in sys.past.handled)
  {
    hide Run, InLog, Counted, Profiled;
    InitialInv(parts, store);
    RunKeepsInv(Initial(parts, store), acts);
    PartsStay(Initial(parts, store), acts);
    var sys := Run(Initial(parts, store), acts);
    assert sys.stage.Idle? ==> !InHand(sys, Mark(p, o));
  }

  /**
   * The exact count: an event has been handled once for every restart that found it passed and not committed,
   * and once more if it is passed now, less the restarts that found it committed and not yet passed again.
   */
  lemma ExactHandlings(parts: nat, store: Store, acts: seq<Act>, m: Mark)
    ensures
      var sys := Run(Initial(parts, store), acts);
      && sys.past.begun[m] + sys.past.jumped[m] == sys.past.rewound[m] + (if Passed(sys, m) then 1 else 0)
      && sys.past.inserted[m] <= sys.past.begun[m]
  {
    hide Run, InLog, Covered, Profiled;
    InitialInv(parts, store);
    RunKeepsInv(Initial(parts, store), acts);
  }

  /** An event is handled, and its profile inserted, at most once and once more for every restart. */
  lemma AtMostOncePerStart(parts: nat, store: Store, acts: seq<Act>, m: Mark)
    ensures
      var past := Run(Initial(parts, store), acts).past;
      past.inserted[m] <= past.begun[m] <= 1 + past.restarts
  {
    hide Run, InLog, Covered, Profiled;
    InitialInv(parts, store);
    RunKeepsInv(Initial(parts, store), acts);
  }

  // ---------------------------------------------------------------- profiles are rows

  predicate OwnAct(act: Act) {
    !act.Elsewhere?
  }

  lemma WorkInserts(sys: Sys, env: UserEnv)
    requires Profiled(sys) && InLog(sys) && sys.stage.Handling? && !sys.stage.phase.Done?
    ensures
      var sys' := Worked(sys, env);
      |sys'.store.rows| - |sys.store.rows| == |sys'.past.inserted| - |sys.past.inserted|
  {
  }

  /** As long as nobody else writes to the table, it grows by one row for every insertion in the history. */
  lemma {:induction false} RowsAreInsertions(sys: Sys, acts: seq<Act>)
    requires Inv(sys) && forall i | 0 <= i < |acts| :: OwnAct(acts[i])
    ensures
      var sys' := Run(sys, acts);
      |sys'.store.rows| - |sys.store.rows| == |sys'.past.inserted| - |sys.past.inserted|
    decreases |acts|
  {
    hide Covered, InLog, Counted, Profiled, Worked;
    if acts != [] {
      var act := acts[0];
      assert OwnAct(act);
      if act.Work? && sys.stage.Handling? && !sys.stage.phase.Done? {
        WorkInserts(sys, act.env);
      }
      NextKeepsInv(sys, act);
      RowsAreInsertions(Next(sys, act), acts[1..]);
    }
  }

  // ---------------------------------------------------------------- the bound on handlings is attained

  lemma {:induction false} RunAppend(sys: Sys, xs: seq<Act>, ys: seq<Act>)
    ensures Run(sys, xs + ys) == Run(Run(sys, xs), ys)
    decreases |xs|
  {
    if xs == [] {
      assert xs + ys == ys;
    } else {
      assert (xs + ys)[0] == xs[0] && (xs + ys)[1..] == xs[1..] + ys;
      RunAppend(Next(sys, xs[0]), xs[1..], ys);
    }
  }

  lemma RunOne(sys: Sys, act: Act)
    ensures Run(sys, [act]) == Next(sys, act)
  {
  }

  lemma RunTwo(sys: Sys, a: Act, b: Act)
    ensures Run(sys, [a, b]) == Next(Next(sys, a), b)
  {
    hide Next;
    RunOne(sys, a);
    RunOne(Next(sys, a), b);
    RunAppend(sys, [a], [b]);
    assert [a] + [b] == [a, b];
  }

  function EnvFor(id: int): UserEnv {
    UserEnv(0, id, [], true, true, true)
  }

  /** The consumer stops right after it inserted the profile, and is started again. */
  function Round(id: int): seq<Act> {
    [Receive(0), Work(EnvFor(id)), Crash, Restart]
  }

  /** One registration in the log, nothing committed, and `k` profiles inserted in `k` rounds. */
  ghost predicate AfterRounds(sys: Sys, event: UserEvent, k: nat) {
    && sys.stage.Idle? && sys.parts == [Partition([Some(event)], 0, 0)]
    && (forall id | id in sys.store.rows :: 0 <= id < k)
    && sys.past.inserted[Mark(0, 0)] == k && sys.past.restarts == k
  }

  lemma InsertedOnce(sys: Sys, event: UserEvent, k: nat)
    requires AfterRounds(sys, event, k) && Registered(Some(event))
    ensures
      var sys' := Worked(Received(sys, 0), EnvFor(k));
      && sys'.stage.Handling? && sys'.parts == [Partition([Some(event)], 0, 1)]
      && (forall id | id in sys'.store.rows :: 0 <= id < k + 1)
      && sys'.past.inserted[Mark(0, 0)] == k + 1 && sys'.past.restarts == k
  {
    hide UserKey, EncodeUser;
  }

  lemma StoppedAndStarted(sys: Sys, event: UserEvent, k: nat)
    requires sys.parts == [Partition([Some(event)], 0, 1)] && k > 0
    requires forall id | id in sys.store.rows :: 0 <= id < k
    requires sys.past.inserted[Mark(0, 0)] == k && sys.past.restarts == k - 1
    ensures AfterRounds(Next(Next(sys, Crash), Restart), event, k)
  {
    hide Uncommitted, Overtaken;
  }

  lemma OneRound(sys: Sys, event: UserEvent, k: nat)
    requires AfterRounds(sys, event, k) && Registered(Some(event))
    ensures AfterRounds(Run(sys, Round(k)), event, k + 1)
    ensures
      var sys' := Run(sys, [Receive(0), Work(EnvFor(k))]);
      sys'.past.inserted[Mark(0, 0)] == k + 1 && sys'.past.restarts == k
  {
    var sys2 := Worked(Received(sys, 0), EnvFor(k));
    InsertedOnce(sys, event, k);
    RunTwo(sys, Receive(0), Work(EnvFor(k)));
    StoppedAndStarted(sys2, event, k + 1);
    hide Received, Worked, AfterRounds, Next, Run;
    RunTwo(sys2, Crash, Restart);
    RunAppend(sys, [Receive(0), Work(EnvFor(k))], [Crash, Restart]);
    assert Round(k) == [Receive(0), Work(EnvFor(k))] + [Crash, Restart];
  }

  lemma {:induction false} ManyRounds(event: UserEvent, k: nat) returns (acts: seq<Act>)
    requires Registered(Some(event))
    ensures AfterRounds(Run(Initial(1, Store(map[], map[])), acts), event, k)
  {
    hide AfterRounds;
    var start := Initial(1, Store(map[], map[]));
    if k == 0 {
      acts := [Append(0, Some(event))];
      FirstRound(event);
    } else {
      acts := ManyRounds(event, k - 1);
      OneRound(Run(start, acts), event, k - 1);
      RunAppend(start, acts, Round(k - 1));
      acts := acts + Round(k - 1);
    }
  }

  lemma FirstRound(event: UserEvent)
    ensures AfterRounds(Run(Initial(1, Store(map[], map[])), [Append(0, Some(event))]), event, 0)
  {
    var start := Initial(1, Store(map[], map[]));
    RunOne(start, Append(0, Some(event)));
    assert start.parts[0].log + [Some(event)] == [Some(event)];
  }

  /** For every number of restarts there is a run in which one event inserts one profile more than that. */
  lemma DuplicatesAttained(event: UserEvent, k: nat) returns (acts: seq<Act>)
    requires Registered(Some(event))
    ensures
      var sys := Run(Initial(1, Store(map[], map[])), acts);
      sys.past.restarts == k && sys.past.inserted[Mark(0, 0)] == k + 1
  {
    hide AfterRounds, Run;
    var start := Initial(1, Store(map[], map[]));
    acts := ManyRounds(event, k);
    OneRound(Run(start, acts), event, k);
    RunAppend(start, acts, [Receive(0), Work(EnvFor(k))]);
    acts := acts + [Receive(0), Work(EnvFor(k))];
  }

  // ---------------------------------------------------------------- the loop

  /** What ends a wait; the first two concern the broker alone. */
  datatype Wake =
    | Appended(part: nat, event: Option<UserEvent>)
    | Applied(commit: Mark)
    | Message(part: nat, env: UserEnv, accepted: bool)
    | ReceiveError
    | ShutdownSignal(committed: bool)

  /** One message through the body of the loop; handling it takes up to three calls. */
  function TurnActs(p: nat, env: UserEnv, accepted: bool): seq<Act> {
    [Receive(p), Work(env), Work(env), Work(env), Commit(accepted)]
  }

  function ActsOf(wakes: seq<Wake>): seq<Act> {
    if wakes == [] then []
    else
      match wakes[0]
      case Appended(p, event) => [Append(p, event)] + ActsOf(wakes[1..])
      case Applied(c) => [Apply(c)] + ActsOf(wakes[1..])
      case Message(p, env, accepted) => TurnActs(p, env, accepted) + ActsOf(wakes[1..])
      case ReceiveError => ActsOf(wakes[1..])
      case ShutdownSignal(committed) => [Shutdown(committed)]
  }

  /** A shutdown signal is the end, whatever else would have come; an error of the broker is nothing. */
  lemma LoopEnds(committed: bool, rest: seq<Wake>)
    ensures ActsOf([ShutdownSignal(committed)] + rest) == [Shutdown(committed)]
    ensures ActsOf([ReceiveError] + rest) == ActsOf(rest)
  {
    assert ([ReceiveError] + rest)[1..] == rest;
  }

  /** Before a shutdown signal the loop does what each wake-up asks, one after the other and in their order. */
  lemma {:induction false} WakesInOrder(first: seq<Wake>, rest: seq<Wake>)
    requires forall w | w in first :: !w.ShutdownSignal?
    ensures ActsOf(first + rest) == ActsOf(first) + ActsOf(rest)
  {
    hide TurnActs;
    if first == [] {
      assert first + rest == rest;
    } else {
      assert (first + rest)[0] == first[0] && (first + rest)[1..] == first[1..] + rest;
      WakesInOrder(first[1..], rest);
    }
  }

  lemma TurnSteps(sys: Sys, p: nat, env: UserEnv, accepted: bool)
    ensures
      var s1 := Next(sys, Receive(p));
      var s4 := Next(Next(Next(s1, Work(env)), Work(env)), Work(env));
      Run(sys, TurnActs(p, env, accepted)) == Next(s4, Commit(accepted))
  {
    hide Next;
    var s2 := Next(Next(sys, Receive(p)), Work(env));
    var s4 := Next(Next(s2, Work(env)), Work(env));
    RunTwo(sys, Receive(p), Work(env));
    RunTwo(s2, Work(env), Work(env));
    RunOne(s4, Commit(accepted));
    RunAppend(sys, [Receive(p), Work(env)], [Work(env), Work(env)]);
    RunAppend(sys, [Receive(p), Work(env)] + [Work(env), Work(env)], [Commit(accepted)]);
    assert TurnActs(p, env, accepted) == [Receive(p), Work(env)] + [Work(env), Work(env)] + [Commit(accepted)];
  }

  /** Three calls bring an event to the end of its handling, as if it ran alone. */
  lemma ThreeCalls(sys: Sys, env: UserEnv)
    requires sys.stage.Handling? && sys.stage.phase.Start? && sys.stage.phase.req.Consume?
    ensures
      var s4 := Next(Next(Next(sys, Work(env)), Work(env)), Work(env));
      && s4.stage.Handling? && s4.stage.mark == sys.stage.mark && s4.stage.phase.Done?
      && s4.parts == sys.parts && s4.sent == sys.sent
      && s4.store == Drive(env, sys.store, sys.stage.phase).0
  {
    hide UserKey, EncodeUser;
    var ph := sys.stage.phase;
    DriveStep(env, sys.store, ph);
    var (st1, ph1) := Advance(env, sys.store.rows, sys.store, ph);
    if ph1.SetUser? {
      DriveStep(env, st1, ph1);
      var (st2, ph2) := Advance(env, st1.rows, st1, ph1);
      DriveStep(env, st2, ph2);
    }
  }

  /** A turn, all at once: the message handled, the position moved on, the commit perhaps sent. */
  lemma TurnInOne(sys: Sys, p: nat, env: UserEnv, accepted: bool)
    requires sys.stage.Idle? && HasNext(sys.parts, p)
    ensures
      var sys' := Run(sys, TurnActs(p, env, accepted));
      var part := sys.parts[p];
      && sys'.stage == Idle && sys'.parts == sys.parts[p := part.(position := part.position + 1)]
      && sys'.sent == sys.sent + (if accepted then {Mark(p, part.position + 1)} else {})
      && sys'.store == Drive(env, sys.store, Start(Consume(part.log[part.position]))).0
  {
    hide Run, Drive, TurnActs, Worked, Advance;
    TurnSteps(sys, p, env, accepted);
    ThreeCalls(Received(sys, p), env);
  }

  lemma NoTurn(sys: Sys, p: nat, env: UserEnv, accepted: bool)
    requires sys.stage.Idle? && !HasNext(sys.parts, p)
    ensures Run(sys, TurnActs(p, env, accepted)) == sys
  {
    hide Run, TurnActs;
    TurnSteps(sys, p, env, accepted);
  }

  // ---------------------------------------------------------------- commits take effect

  /** A shutdown whose commit succeeds commits every position, so that the next start goes back over nothing. */
  lemma CleanShutdown(sys: Sys)
    requires sys.stage.Idle?
    ensures
      var down := Next(sys, Shutdown(true));
      var up := Next(down, Restart);
      && down.stage.Down? && |down.parts| == |sys.parts|
      && (forall p | 0 <= p < |sys.parts| ::
            && down.parts[p] == sys.parts[p].(committed := sys.parts[p].position)
            && up.parts[p].position == sys.parts[p].position)
      && up.stage.Idle? && up.past.begun == sys.past.begun && up.past.handled == sys.past.handled
      && up.past.rewound == sys.past.rewound && up.past.jumped == sys.past.jumped
  {
    var down := Next(sys, Shutdown(true));
    forall m ensures m !in Uncommitted(down.parts) && m !in Overtaken(down.parts) {
      AmongUncommitted(down.parts, m);
    }
    assert Uncommitted(down.parts) == {} && Overtaken(down.parts) == {};
    hide Uncommitted, Overtaken;
  }

  /** A shutdown whose commit fails, and a crash, leave the committed offsets as they are. */
  lemma UncleanStop(sys: Sys)
    ensures Next(sys, Crash).stage.Down? && Next(sys, Crash).parts == sys.parts
    ensures sys.stage.Idle? ==> Next(sys, Shutdown(false)).stage.Down? && Next(sys, Shutdown(false)).parts == sys.parts
  {
  }

  /**
   * A message whose commit the broker applies before the consumer stops is not handled again: the next start goes
   * on behind it.
   */
  lemma CommittedIsNotRepeated(sys: Sys, p: nat, env: UserEnv)
    requires sys.stage.Idle? && HasNext(sys.parts, p)
    ensures
      var o := sys.parts[p].position;
      var done := Run(sys, TurnActs(p, env, true));
      var up := Next(Next(Next(done, Apply(Mark(p, o + 1))), Crash), Restart);
      up.stage.Idle? && |up.parts| == |sys.parts| && up.parts[p].position == o + 1 && up.parts[p].log == sys.parts[p].log
  {
    TurnInOne(sys, p, env, true);
    hide Run, Uncommitted, Overtaken, TurnActs;
  }

  /** Turns for a partition, one after the other. */
  function Turns(p: nat, envs: seq<UserEnv>): seq<Act> {
    if envs == [] then [] else TurnActs(p, envs[0], false) + Turns(p, envs[1..])
  }

  /** A consumer that is left alone works off what is there, message by message. */
  lemma {:induction false} BacklogIsWorkedOff(sys: Sys, p: nat, envs: seq<UserEnv>)
    requires sys.stage.Idle? && p < |sys.parts| && |envs| <= |sys.parts[p].log| - sys.parts[p].position
    ensures
      var sys' := Run(sys, Turns(p, envs));
      && sys'.stage.Idle? && |sys'.parts| == |sys.parts| && sys'.parts[p].log == sys.parts[p].log
      && sys'.parts[p].position == sys.parts[p].position + |envs|
    decreases |envs|
  {
    hide Run, TurnActs;
    if envs == [] {
      RunEmpty(sys);
    } else {
      TurnInOne(sys, p, envs[0], false);
      RunAppend(sys, TurnActs(p, envs[0], false), Turns(p, envs[1..]));
      BacklogIsWorkedOff(Run(sys, TurnActs(p, envs[0], false)), p, envs[1..]);
    }
  }

  lemma RunEmpty(sys: Sys)
    ensures Run(sys, []) == sys
  {
  }
}
