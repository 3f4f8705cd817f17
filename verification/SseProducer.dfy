/** The stream's producer task (`stream_events`, `replay_to_sse` and
    `send_sse_event`, crates/vidarax-api/src/delivery.rs), run against a feed
    that lets the writer, the ring and the client move before every effect.
    Each statement is shown to be a step of the stream protocol. */
module SseProducer {
  import opened Wrappers
  import opened Timeline
  import opened SseStream

  /** How many steps of a run are the producer's own. */
  function Turns(actions: seq<Action>): nat {
    if actions == [] then 0 else Turns(actions[..|actions| - 1]) + Turn(actions[|actions| - 1])
  }

  function Turn(a: Action): nat { if a.Stage? || a.Commit? || a.Notify? || a.Receive? then 0 else 1 }

  lemma TurnTaken(actions: seq<Action>, a: Action)
    ensures Turns(actions + [a]) == Turns(actions) + Turn(a)
  {
    assert (actions + [a])[..|actions|] == actions;
  }

  /** The writer, the broadcast ring and the client of one stream. */
  class Feed {
    const decode: Decoder
    var world: State
    ghost var states: seq<State>
    ghost var actions: seq<Action>

    constructor (start: State, decode: Decoder)
      requires Starts(start)
      ensures Valid() && world == start && states == [start] && actions == []
    {
      world, this.decode := start, decode;
      states, actions := [start], [];
    }

    ghost predicate Valid()
      reads this
    {
      IsRun(states, actions) && states[|actions|] == world
    }

    ghost predicate Continues(states0: seq<State>, actions0: seq<Action>)
      reads this
    {
      states0 <= states && actions0 <= actions && Turns(actions0) <= Turns(actions)
    }

    method Take(a: Action)
      requires Valid() && Sane(world) && Enabled(world, a)
      modifies this
      ensures Valid() && world == Do(old(world), a)
      ensures Continues(old(states), old(actions)) && Turns(actions) == Turns(old(actions)) + Turn(a)
    {
      hide Do, Enabled, Starts, Turns;
      TurnTaken(actions, a);
      ghost var more, acts := states + [Do(world, a)], actions + [a];
      forall k | 0 <= k < |acts| ensures Step(more[k], acts[k], more[k + 1]) {
        if k < |actions| {
          assert Step(states[k], actions[k], states[k + 1]);
        }
      }
      states, actions := more, acts;
      world := Do(world, a);
    }

    lemma Reached()
      requires Valid()
      ensures Inv(world) && Sane(world)
    {
      RunKeeps(states, actions, |actions|);
    }

    /** Any number of steps of the writer, the ring and the client. */
    method Others()
      requires Valid()
      modifies this
      ensures Valid() && Continues(old(states), old(actions))
      ensures world == old(world).(wal := world.wal, committed := world.committed, notified := world.notified,
                                   received := world.received)
      ensures Inv(world) && Sane(world)
    {
      hide IsRun, Inv, Turns;
      Reached();
      var rounds: nat := *;
      while rounds > 0
        invariant Valid() && Continues(old(states), old(actions))
        invariant world == old(world).(wal := world.wal, committed := world.committed, notified := world.notified,
                                       received := world.received)
        invariant Inv(world) && Sane(world)
      {
        var a: Action := *;
        if (a.Stage? || a.Commit? || a.Notify? || a.Receive?) && Enabled(world, a) {
          Take(a);
          Reached();
        }
        rounds := rounds - 1;
      }
    }
  }

  lemma FromTheStart(s: State, decode: Decoder)
    requires Sane(s)
    ensures ReadWith(s.wal, s.cursor, REPLAY_BATCH, 0, Pos(s.wal, s.committed), decode)
            == ReadFrom(s.wal, s.cursor, REPLAY_BATCH, 0, Pos(s.wal, s.committed))
  {
    ZeroIsABoundary(s.wal, |s.wal|);
    BoundaryNeedsNoDecoder(s.wal, s.cursor, REPLAY_BATCH, 0, Pos(s.wal, s.committed), decode);
  }

  lemma {:induction false} ZeroIsABoundary(wal: seq<Record>, n: nat)
    requires n <= |wal|
    ensures IndexAt(wal, n, 0).Some?
  {
    if n > 0 {
      ZeroIsABoundary(wal, n - 1);
    }
  }

  /** What the loop over notifications does next. */
  datatype Heard = Notification(event: Event) | Lagged | Gone

  class Producer {
    var cursor: nat
    var needsReplay: bool

    constructor (start: nat)
      ensures cursor == start && needsReplay
    {
      cursor, needsReplay := start, true;
    }

    ghost predicate At(feed: Feed, pc: Pc)
      reads this, feed
    {
      feed.Valid() && feed.world.cursor == cursor && feed.world.pc == pc
    }

    /** Put one event in the output channel, waiting for room; false when the
        client is gone. */
    method SendEvent(feed: Feed) returns (ok: bool)
      requires feed.Valid() && Sending(feed.world.pc) && feed.world.cursor == cursor
      modifies feed
      ensures feed.Continues(old(feed.states), old(feed.actions))
      ensures At(feed, if ok then SendStep(old(feed.world)).pc else Closed(true))
      ensures feed.world.q == old(feed.world.q)
    {
      hide IsRun, Inv, Turns;
      feed.Others();
      if |feed.world.sent| >= feed.world.received + OUTPUT_CAP && feed.world.received < |feed.world.sent| {
        feed.Take(Action.Receive);
        feed.Reached();
      }
      ok := *;
      if |feed.world.sent| >= feed.world.received + OUTPUT_CAP {
        ok := false;
      }
      feed.Take(Send(ok));
    }

    /** One replay batch: None when the stream must end, else whether to read again. */
    method ReplayToSse(feed: Feed) returns (more: Option<bool>)
      requires At(feed, Replaying)
      modifies this, feed
      ensures feed.Continues(old(feed.states), old(feed.actions)) && Turns(feed.actions) > Turns(old(feed.actions))
      ensures feed.world.q == old(feed.world.q)
      ensures match more
              case None => feed.Valid() && feed.world.pc.Closed?
              case Some(full) => At(feed, if full then Replaying else Following)
      ensures more == Some(true) ==> old(cursor) < cursor <= U64_MAX
    {
      hide IsRun, Inv, ReadFrom, ReadWith, Wanted, Turns;
      feed.Others();
      var readable: bool := *;
      if !readable {
        feed.Take(Read(false));
        return None;
      }
      var read := ReadEventsAfterFromUpTo(feed.world.wal, cursor, REPLAY_BATCH, 0,
                                          Pos(feed.world.wal, feed.world.committed), feed.decode);
      FromTheStart(feed.world, feed.decode);
      ReadKeeps(feed.world);
      feed.Take(Read(true));
      var batch := read.events;
      if batch == [] {
        return Some(false);
      }
      more := SendBatch(feed, batch, |batch| == REPLAY_BATCH);
    }

    /** The loop over one batch: every event moves the cursor, and the wanted ones are sent. */
    method SendBatch(feed: Feed, batch: seq<Event>, full: bool) returns (more: Option<bool>)
      requires batch != [] && At(feed, InBatch(batch, 0, full))
      modifies this, feed
      ensures feed.Continues(old(feed.states), old(feed.actions)) && feed.world.q == old(feed.world.q)
      ensures match more
              case None => feed.Valid() && feed.world.pc.Closed?
              case Some(again) =>
                && again == full && cursor == batch[|batch| - 1].seqNo
                && At(feed, if full then Replaying else Following)
    {
      hide IsRun, Inv, Wanted, Turns;
      for i := 0 to |batch|
        invariant At(feed, InBatch(batch, i, full)) && feed.world.q == old(feed.world.q)
        invariant i > 0 ==> cursor == batch[i - 1].seqNo
        invariant feed.Continues(old(feed.states), old(feed.actions))
      {
        feed.Reached();
        feed.Take(Next);
        cursor := batch[i].seqNo;
        if !Wanted(feed.world.q, batch[i]) {
          continue;
        }
        var ok := SendEvent(feed);
        if !ok {
          return None;
        }
      }
      feed.Reached();
      feed.Take(Next);
      more := Some(full);
    }

    /** Replay until a batch comes back short. */
    method CatchUp(feed: Feed) returns (ok: bool)
      requires At(feed, Replaying)
      modifies this, feed
      ensures feed.Continues(old(feed.states), old(feed.actions)) && Turns(feed.actions) > Turns(old(feed.actions))
      ensures feed.world.q == old(feed.world.q)
      ensures if ok then At(feed, Following) else feed.Valid() && feed.world.pc.Closed?
    {
      hide IsRun, Turns;
      while true
        invariant At(feed, Replaying)
        invariant feed.world.q == old(feed.world.q)
        invariant feed.Continues(old(feed.states), old(feed.actions))
        decreases U64_MAX - cursor
      {
        var more := ReplayToSse(feed);
        if more.None? {
          return false;
        }
        if !more.value {
          return true;
        }
      }
    }

    /** Wait for the next notification, a lag report, or the client leaving. */
    method AwaitNotification(feed: Feed) returns (heard: Heard)
      requires At(feed, Following)
      modifies feed
      ensures feed.Continues(old(feed.states), old(feed.actions)) && feed.Valid()
      ensures Turns(feed.actions) > Turns(old(feed.actions))
      ensures feed.world.q == old(feed.world.q)
      ensures match heard
              case Gone => feed.world.pc.Closed?
              case Lagged =>
                && feed.world.pc == Replaying && feed.world.cursor == cursor
                && feed.world.notified - feed.world.heard == 1024
              case Notification(e) =>
                if e.seqNo <= cursor then feed.world.pc == Following && feed.world.cursor == cursor
                else
                  && feed.world.cursor == e.seqNo
                  && feed.world.pc == if Wanted(feed.world.q, e) then SendingLive(e) else Following
    {
      hide IsRun, Inv, Wanted, Turns;
      feed.Others();
      if feed.world.heard >= feed.world.notified {
        feed.Take(Hangup);
        return Gone;
      }
      var e := feed.world.wal[feed.world.heard].event;
      heard := if feed.world.notified > feed.world.heard + BROADCAST_CAP then Lagged else Notification(e);
      feed.Take(Hear);
    }

    /** The producer task, observed for some number of notifications. What it
        has sent is a run of the stream protocol; it ends only by closing, and
        otherwise has heard that many notifications and stands where
        `needsReplay` says. */
    method Produce(feed: Feed, rounds: nat) returns (ended: bool)
      requires At(feed, Replaying) && needsReplay
      modifies this, feed
      ensures feed.Valid() && feed.Continues(old(feed.states), old(feed.actions)) && Inv(feed.world)
      ensures feed.world.q == old(feed.world.q)
      ensures if ended then feed.world.pc.Closed? && Turns(feed.actions) > Turns(old(feed.actions))
              else At(feed, if needsReplay then Replaying else Following)
                   && Turns(feed.actions) >= Turns(old(feed.actions)) + rounds && (needsReplay || rounds > 0)
    {
      hide IsRun, Inv, Wanted, Turns;
      ended := false;
      for i := 0 to rounds
        invariant At(feed, if needsReplay then Replaying else Following)
        invariant feed.world.q == old(feed.world.q) && (needsReplay || i > 0)
        invariant feed.Continues(old(feed.states), old(feed.actions))
        invariant Turns(feed.actions) >= Turns(old(feed.actions)) + i
      {
        ended := Round(feed);
        if ended {
          feed.Reached();
          return;
        }
      }
      feed.Reached();
    }

    /** The replay if one is needed, and the next notification. */
    method Round(feed: Feed) returns (ended: bool)
      requires At(feed, if needsReplay then Replaying else Following)
      modifies this, feed
      ensures feed.Valid() && feed.Continues(old(feed.states), old(feed.actions))
      ensures feed.world.q == old(feed.world.q) && Turns(feed.actions) > Turns(old(feed.actions))
      ensures if ended then feed.world.pc.Closed? else At(feed, if needsReplay then Replaying else Following)
    {
      hide IsRun, Inv, Wanted, Turns;
      if needsReplay {
        var ok := CatchUp(feed);
        if !ok {
          return true;
        }
        needsReplay := false;
      }
      var heard := AwaitNotification(feed);
      match heard {
        case Gone => return true;
        case Lagged => needsReplay := true;
        case Notification(event) =>
          if event.seqNo > cursor {
            cursor := event.seqNo;
            if Wanted(feed.world.q, event) {
              var ok := SendEvent(feed);
              return !ok;
            }
          }
      }
      ended := false;
    }
  }
}
