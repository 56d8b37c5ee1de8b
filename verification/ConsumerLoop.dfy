/** The consumer's loop over the live user service, proved to be a run of the machine in `Consumer`. */
module ConsumerLoop {
  import opened Wrappers
  import opened UserFlow
  import opened Consumer
  import UserService

  class EventConsumer {
    const service: UserService.UserService
    var parts: seq<Partition>
    var sent: set<Mark>
    var running: bool
    ghost var past: History

    ghost predicate Valid()
      reads this, service, service.db
    {
      service.Valid()
    }

    ghost function Current(): Sys
      reads this, service.db, service.redis
    {
      Sys(parts, sent, if running then Idle else Down, service.Current(), past)
    }

    constructor (parts: nat)
      ensures Valid() && fresh(service.db) && fresh(service.redis)
      ensures Current() == Initial(parts, Store(map[], map[]))
    {
      service := new UserService.UserService();
      this.parts := seq(parts, _ => Partition([], 0, 0));
      sent := {};
      running := true;
      past := History(multiset{}, {}, multiset{}, {}, multiset{}, multiset{}, 0);
    }

    /** One message: received, handled, and its offset committed without waiting for the broker. */
    method Turn(p: nat, env: UserEnv, accepted: bool)
      requires Valid() && running
      modifies this, service.db, service.redis
      ensures Valid() && running
      ensures Current() == Run(old(Current()), TurnActs(p, env, accepted))
    {
      hide Run, Drive, TurnActs;
      ghost var before := Current();
      if !(p < |parts| && parts[p].position < |parts[p].log|) {
        NoTurn(before, p, env, accepted);
        return;
      }
      TurnInOne(before, p, env, accepted);
      var offset := parts[p].position;
      var event := parts[p].log[offset];
      parts := parts[p := parts[p].(position := offset + 1)];
      service.HandleEvent(env, event);
      if accepted {
        sent := sent + {Mark(p, offset + 1)};
      }
      past := Run(before, TurnActs(p, env, accepted)).past;
    }

    /** The offsets passed so far are committed before the loop ends. */
    method Stop(committed: bool)
      requires running
      modifies this
      ensures Current() == Next(old(Current()), Shutdown(committed))
    {
      if committed {
        ghost var before := parts;
        var i := 0;
        while i < |parts|
          invariant 0 <= i <= |parts| == |before|
          invariant forall j | 0 <= j < i :: parts[j] == CommittedAll(before)[j]
          invariant forall j | i <= j < |parts| :: parts[j] == before[j]
          invariant running && sent == old(sent) && past == old(past)
        {
          parts := parts[i := parts[i].(committed := parts[i].position)];
          i := i + 1;
        }
      }
      running := false;
    }

    /** Waits, and does what each wake-up asks, until a shutdown signal. */
    method Consume(wakes: seq<Wake>)
      requires Valid() && running
      modifies this, service.db, service.redis
      ensures Valid()
      ensures Current() == Run(old(Current()), ActsOf(wakes))
    {
      hide Run, Next, TurnActs;
      ghost var before := Current();
      var i := 0;
      while i < |wakes|
        invariant 0 <= i <= |wakes| && Valid() && running
        invariant Run(before, ActsOf(wakes)) == Run(Current(), ActsOf(wakes[i..]))
      {
        ghost var now, rest := Current(), wakes[i + 1..];
        assert wakes[i..][0] == wakes[i] && wakes[i..][1..] == rest;
        match wakes[i] {
          case Appended(p, event) =>
            RunAppend(now, [Append(p, event)], ActsOf(rest));
            RunOne(now, Append(p, event));
            AppendToLog(p, event);
          case Applied(c) =>
            RunAppend(now, [Apply(c)], ActsOf(rest));
            RunOne(now, Apply(c));
            ApplyCommit(c);
          case Message(p, env, accepted) =>
            RunAppend(now, TurnActs(p, env, accepted), ActsOf(rest));
            Turn(p, env, accepted);
          case ReceiveError =>
          case ShutdownSignal(committed) =>
            RunOne(now, Shutdown(committed));
            Stop(committed);
            return;
        }
        i := i + 1;
      }
      RunEmpty(Current());
    }

    /** The broker's own steps. */
    method AppendToLog(p: nat, event: Option<UserEvent>)
      requires running
      modifies this
      ensures running && Current() == Next(old(Current()), Append(p, event))
    {
      if p < |parts| {
        parts := parts[p := parts[p].(log := parts[p].log + [event])];
      }
    }

    method ApplyCommit(c: Mark)
      requires running
      modifies this
      ensures running && Current() == Next(old(Current()), Apply(c))
    {
      if c in sent && c.part < |parts| {
        parts := parts[c.part := parts[c.part].(committed := c.offset)];
      }
    }
  }
}
