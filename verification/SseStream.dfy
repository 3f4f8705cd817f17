/** The server-sent event stream: subscribe, replay the timeline until a short
    batch, then follow the lossy broadcast ring, replaying again when lagged
    (`stream_events`, `replay_to_sse`, `send_sse_event`,
    crates/vidarax-api/src/delivery.rs). */
module SseStream {
  import opened Wrappers
  import opened Timeline

  const OUTPUT_CAP: nat := 16

  datatype Request = Request(start: nat, run: string, kind: Option<string>)

  predicate Wanted(q: Request, e: Event) {
    e.run == q.run && (q.kind.None? || e.kind == q.kind.value)
  }

  /** The wanted events among records a..b: what a client is owed. */
  function Filter(q: Request, wal: seq<Record>, a: nat, b: nat): seq<Event>
    requires a <= b <= |wal|
  {
    if a == b then []
    else Filter(q, wal, a, b - 1) + if Wanted(q, wal[b - 1].event) then [wal[b - 1].event] else []
  }

  /** Where the producer stands between two effects. `Closed(owing)` remembers
      whether the event at the cursor was still to be sent. */
  datatype Pc =
    | Replaying
    | InBatch(batch: seq<Event>, i: nat, full: bool)
    | SendingOne(batch: seq<Event>, i: nat, full: bool)
    | Following
    | SendingLive(event: Event)
    | Closed(owing: bool)

  datatype State = State(
    wal: seq<Record>, committed: nat, notified: nat,
    q: Request, heard: nat,            // the request, and this subscriber's place in the ring
    cursor: nat, pc: Pc,
    sent: seq<Event>, received: nat)   // put in the output channel, and taken by the client

  datatype Action =
    | Stage(record: Record) | Commit | Notify | Receive
    | Read(ok: bool) | Next | Send(ok: bool) | Hear | Hangup

  /** A stream starts by subscribing, before it reads anything. */
  ghost predicate Starts(s: State) {
    && s.heard == s.notified <= s.committed <= |s.wal| && Increasing(s.wal)
    && (forall k :: 0 <= k < |s.wal| ==> s.wal[k].event.seqNo <= U64_MAX)
    && s.q.start == s.cursor <= U64_MAX && s.pc.Replaying? && s.sent == [] && s.received == 0
  }

  predicate Sane(s: State) { s.heard <= s.notified <= s.committed <= |s.wal| }

  predicate Sending(pc: Pc) { pc.SendingOne? || pc.SendingLive? }

  predicate Enabled(s: State, a: Action)
    requires Sane(s)
  {
    match a
    case Stage(r) =>
      && r.size > 0 && r.event.seqNo <= U64_MAX
      && (s.wal != [] ==> s.wal[|s.wal| - 1].event.seqNo < r.event.seqNo)
    case Commit => true
    case Notify => s.notified < s.committed
    case Receive => s.received < |s.sent|
    case Read(_) => s.pc.Replaying?
    case Next => s.pc.InBatch?
    case Send(ok) => Sending(s.pc) && (ok ==> |s.sent| < s.received + OUTPUT_CAP)
    case Hear => s.pc.Following? && s.heard < s.notified
    case Hangup => s.pc.Following?
  }

  function ReadStep(s: State): State
    requires Sane(s)
  {
    match ReadFrom(s.wal, s.cursor, REPLAY_BATCH, 0, Pos(s.wal, s.committed))
    case Corrupt => s.(pc := Closed(false))
    case Batch(events, _) =>
      s.(pc := if events == [] then Following else InBatch(events, 0, |events| == REPLAY_BATCH))
  }

  function NextStep(s: State): State
    requires s.pc.InBatch?
  {
    var batch, i, full := s.pc.batch, s.pc.i, s.pc.full;
    if i >= |batch| then s.(pc := if full then Replaying else Following)
    else
      var next := if Wanted(s.q, batch[i]) then SendingOne(batch, i, full) else InBatch(batch, i + 1, full);
      s.(cursor := batch[i].seqNo, pc := next)
  }

  function SendStep(s: State): State
    requires Sending(s.pc)
  {
    match s.pc
    case SendingOne(batch, i, full) =>
      if i < |batch| then s.(sent := s.sent + [batch[i]], pc := InBatch(batch, i + 1, full)) else s
    case SendingLive(event) => s.(sent := s.sent + [event], pc := Following)
  }

  function HearStep(s: State): State
    requires s.heard < s.notified <= |s.wal|
  {
    if s.notified > s.heard + BROADCAST_CAP then s.(heard := s.notified - BROADCAST_CAP, pc := Replaying)
    else
      var e := s.wal[s.heard].event;
      var next := s.(heard := s.heard + 1);
      if e.seqNo <= s.cursor then next
      else next.(cursor := e.seqNo, pc := if Wanted(s.q, e) then SendingLive(e) else Following)
  }

  function Do(s: State, a: Action): State
    requires Sane(s) && Enabled(s, a)
  {
    match a
    case Stage(r) => s.(wal := s.wal + [r])
    case Commit => s.(committed := |s.wal|)
    case Notify => s.(notified := s.notified + 1)
    case Receive => s.(received := s.received + 1)
    case Read(ok) => if ok then ReadStep(s) else s.(pc := Closed(false))
    case Next => NextStep(s)
    case Send(ok) => if ok then SendStep(s) else s.(pc := Closed(true))
    case Hear => HearStep(s)
    case Hangup => s.(pc := Closed(false))
  }

  predicate Step(s: State, a: Action, s': State) { Sane(s) && Enabled(s, a) && s' == Do(s, a) }

  ghost predicate IsRun(states: seq<State>, actions: seq<Action>) {
    && |states| == |actions| + 1 && Starts(states[0])
    && forall k :: 0 <= k < |actions| ==> Step(states[k], actions[k], states[k + 1])
  }

  // ------------------------------------------------------------ invariant

  /** The number of committed records the stream has dealt with. */
  function Progress(s: State): nat
    requires Sane(s)
  {
    var u := UpTo(s.wal, s.committed, s.cursor);
    if (Sending(s.pc) || s.pc == Closed(true)) && u > 0 then u - 1 else u
  }

  ghost predicate BatchInv(wal: seq<Record>, n: nat, batch: seq<Event>, i: nat, done: nat)
    requires n <= |wal|
  {
    && i <= |batch| && batch != []
    && i <= done <= done - i + |batch| <= n
    && batch == Events(wal, done - i, done - i + |batch|)
  }

  ghost predicate PcInv(s: State)
    requires Sane(s)
  {
    var u := UpTo(s.wal, s.committed, s.cursor);
    match s.pc
    case Replaying => true
    case InBatch(batch, i, full) =>
      && BatchInv(s.wal, s.committed, batch, i, u) && (!full ==> s.heard <= u - i + |batch|)
      && (i > 0 ==> s.cursor == batch[i - 1].seqNo)
    case SendingOne(batch, i, full) =>
      && i < |batch| && u > 0 && BatchInv(s.wal, s.committed, batch, i, u - 1) && Wanted(s.q, batch[i])
      && s.cursor == batch[i].seqNo
      && (!full ==> s.heard <= u - 1 - i + |batch|)
    case Following => s.heard <= u
    case SendingLive(event) =>
      s.heard <= u && u > 0 && event == s.wal[u - 1].event && Wanted(s.q, event) && s.cursor == event.seqNo
    case Closed(owing) => owing ==> u > 0 && UpTo(s.wal, s.committed, s.q.start) < u
  }

  ghost predicate Inv(s: State) {
    && Sane(s) && Increasing(s.wal)
    && (forall k :: 0 <= k < |s.wal| ==> s.wal[k].event.seqNo <= U64_MAX)
    && s.q.start <= s.cursor <= U64_MAX
    && (s.cursor == s.q.start || (s.committed > 0 && s.cursor <= s.wal[s.committed - 1].event.seqNo))
    && s.received <= |s.sent| <= s.received + OUTPUT_CAP
    && PcInv(s)
    && UpTo(s.wal, s.committed, s.q.start) <= Progress(s)
    && s.sent == Filter(s.q, s.wal, UpTo(s.wal, s.committed, s.q.start), Progress(s))
  }

  // ------------------------------------------------------------ steps

  lemma {:induction false} FilterSplits(q: Request, wal: seq<Record>, a: nat, b: nat, c: nat)
    requires a <= b <= c <= |wal|
    ensures Filter(q, wal, a, c) == Filter(q, wal, a, b) + Filter(q, wal, b, c)
    decreases c
  {
    if b < c {
      FilterSplits(q, wal, a, b, c - 1);
    }
  }

  lemma {:induction false} FilterOfPrefix(q: Request, p: seq<Record>, r: seq<Record>, a: nat, b: nat)
    requires a <= b <= |p| && b <= |r| && forall k :: 0 <= k < b ==> p[k] == r[k]
    ensures Filter(q, p, a, b) == Filter(q, r, a, b)
    decreases b
  {
    if a < b {
      FilterOfPrefix(q, p, r, a, b - 1);
    }
  }

  lemma CursorStable(p: seq<Record>, r: seq<Record>, n: nat, m: nat, cursor: nat)
    requires Increasing(p) && Increasing(r) && n <= |p| && n <= m <= |r| && forall k :: 0 <= k < n ==> p[k] == r[k]
    requires n > 0 && cursor <= p[n - 1].event.seqNo
    ensures UpTo(r, m, cursor) == UpTo(p, n, cursor)
  {
    UpToSplits(p, n, cursor);
    assert r[n - 1] == p[n - 1];
    assert m > n ==> r[n - 1].event.seqNo < r[m - 1].event.seqNo;
    UpToIs(r, m, cursor, UpTo(p, n, cursor));
  }

  ghost predicate Grows(s: State, s': State) {
    && Sane(s) && Sane(s') && Increasing(s.wal) && Increasing(s'.wal)
    && s.wal <= s'.wal && s.committed <= s'.committed && s.notified <= s'.notified
    && s' == s.(wal := s'.wal, committed := s'.committed, notified := s'.notified)
  }

  lemma BatchStable(s: State, s': State, batch: seq<Event>, i: nat, done: nat)
    requires Grows(s, s') && BatchInv(s.wal, s.committed, batch, i, done)
    ensures BatchInv(s'.wal, s'.committed, batch, i, done)
  {
    assert Events(s.wal, done - i, done - i + |batch|) == Events(s'.wal, done - i, done - i + |batch|);
  }

  lemma PcStable(s: State, s': State)
    requires Grows(s, s') && PcInv(s)
    requires UpTo(s'.wal, s'.committed, s.cursor) == UpTo(s.wal, s.committed, s.cursor)
    requires UpTo(s'.wal, s'.committed, s.q.start) == UpTo(s.wal, s.committed, s.q.start)
    ensures PcInv(s')
  {
    hide UpTo, Events, Wanted;
    var u := UpTo(s.wal, s.committed, s.cursor);
    match s.pc {
      case InBatch(batch, i, _) => BatchStable(s, s', batch, i, u);
      case SendingOne(batch, i, _) => BatchStable(s, s', batch, i, u - 1);
      case _ =>
    }
  }

  /** More records, staged or committed, change nothing the stream has done. */
  lemma GrowthKeeps(s: State, s': State)
    requires Inv(s) && Grows(s, s')
    requires forall k :: 0 <= k < |s'.wal| ==> s'.wal[k].event.seqNo <= U64_MAX
    ensures Inv(s')
  {
    hide PcInv, Filter, UpTo;
    var n, m := s.committed, s'.committed;
    UpToMonotone(s.wal, n, s.q.start, s.cursor);
    if n > 0 && s.cursor <= s.wal[n - 1].event.seqNo {
      CursorStable(s.wal, s'.wal, n, m, s.cursor);
      CursorStable(s.wal, s'.wal, n, m, s.q.start);
      FilterOfPrefix(s.q, s.wal, s'.wal, UpTo(s.wal, n, s.q.start), Progress(s));
      PcStable(s, s');
    } else {
      AheadIsIdle(s);
      AheadStaysIdle(s, s');
    }
  }

  /** A cursor past everything committed has no batch and owes nothing. */
  lemma AheadIsIdle(s: State)
    requires Inv(s) && !(s.committed > 0 && s.cursor <= s.wal[s.committed - 1].event.seqNo)
    ensures !s.pc.InBatch? && !Sending(s.pc) && s.pc != Closed(true) && s.cursor == s.q.start
    ensures s.sent == []
  {
    UpToSplits(s.wal, s.committed, s.cursor);
    if s.pc.InBatch? {
      UpToIs(s.wal, s.committed, s.cursor, s.committed);
    }
  }

  lemma AheadStaysIdle(s: State, s': State)
    requires Inv(s) && Grows(s, s') && s.cursor == s.q.start && s.sent == []
    requires !s.pc.InBatch? && !Sending(s.pc) && s.pc != Closed(true)
    requires forall k :: 0 <= k < |s'.wal| ==> s'.wal[k].event.seqNo <= U64_MAX
    ensures Inv(s')
  {
    UpToGrows(s.wal, s'.wal, s.committed, s'.committed, s.cursor);
  }

  lemma UpToGrows(p: seq<Record>, r: seq<Record>, n: nat, m: nat, cursor: nat)
    requires Increasing(p) && Increasing(r) && n <= |p| && n <= m <= |r| && forall k :: 0 <= k < n ==> p[k] == r[k]
    ensures UpTo(p, n, cursor) <= UpTo(r, m, cursor)
  {
    UpToSplits(p, n, cursor);
    UpToSplits(r, m, cursor);
    var u := UpTo(p, n, cursor);
    if u > 0 {
      assert r[u - 1] == p[u - 1];
    }
  }

  lemma StageKeeps(s: State, r: Record)
    requires Inv(s) && Enabled(s, Stage(r))
    ensures Inv(Do(s, Stage(r)))
  {
    hide PcInv, Filter, UpTo, Progress;
    assert Increasing(s.wal + [r]);
    GrowthKeeps(s, Do(s, Stage(r)));
  }

  lemma FilterStep(q: Request, wal: seq<Record>, a: nat, b: nat)
    requires a <= b < |wal|
    ensures Filter(q, wal, a, b + 1) == Filter(q, wal, a, b) + if Wanted(q, wal[b].event) then [wal[b].event] else []
  {
  }

  lemma ReadKeeps(s: State)
    requires Inv(s) && s.pc.Replaying?
    ensures Inv(ReadStep(s)) && !ReadStep(s).pc.Closed?
    ensures ReadStep(s).pc.InBatch? ==>
      ReadStep(s).pc.batch != [] && s.cursor < ReadStep(s).pc.batch[|ReadStep(s).pc.batch| - 1].seqNo <= U64_MAX
  {
    hide ReadFrom, Pos, UpTo, Filter;
    var n, cursor := s.committed, s.cursor;
    var u := UpTo(s.wal, n, cursor);
    var m := Min(u + REPLAY_BATCH, n);
    ReadIsSlice(s.wal, 0, n, cursor, REPLAY_BATCH);
    PosOfStart(s.wal);
    UpToSplits(s.wal, n, cursor);
    if u < m {
      assert Events(s.wal, u, m)[m - u - 1] == s.wal[m - 1].event;
    }
  }

  lemma PosOfStart(wal: seq<Record>)
    ensures Pos(wal, 0) == 0
  {
  }

  lemma BatchEvent(s: State, batch: seq<Event>, i: nat, done: nat)
    requires Sane(s) && Increasing(s.wal) && BatchInv(s.wal, s.committed, batch, i, done) && i < |batch|
    ensures done < s.committed && batch[i] == s.wal[done].event
    ensures UpTo(s.wal, s.committed, batch[i].seqNo) == done + 1
    ensures batch[i].seqNo <= s.wal[s.committed - 1].event.seqNo
  {
    assert batch[i] == s.wal[done].event;
    UpToOfRecord(s.wal, s.committed, done);
    assert done < s.committed - 1 ==> s.wal[done].event.seqNo < s.wal[s.committed - 1].event.seqNo;
  }

  lemma BatchMoves(wal: seq<Record>, n: nat, batch: seq<Event>, i: nat, done: nat)
    requires n <= |wal| && BatchInv(wal, n, batch, i, done) && i < |batch|
    ensures BatchInv(wal, n, batch, i + 1, done + 1)
  {
  }

  lemma NextKeeps(s: State)
    requires Inv(s) && s.pc.InBatch?
    ensures Inv(NextStep(s))
  {
    hide UpTo, Filter, Events, BatchInv;
    var batch, i, s' := s.pc.batch, s.pc.i, NextStep(s);
    var u := UpTo(s.wal, s.committed, s.cursor);
    if i < |batch| {
      BatchEvent(s, batch, i, u);
      BatchMoves(s.wal, s.committed, batch, i, u);
      UpToSplits(s.wal, s.committed, s.cursor);
      FilterStep(s.q, s.wal, UpTo(s.wal, s.committed, s.q.start), u);
      assert s.sent + [] == s.sent;
      assert UpTo(s'.wal, s'.committed, s'.cursor) == u + 1;
    } else {
      BatchEnd(s, batch, i, u);
    }
  }

  lemma BatchEnd(s: State, batch: seq<Event>, i: nat, done: nat)
    requires Sane(s) && BatchInv(s.wal, s.committed, batch, i, done)
    ensures i <= |batch|
  {
  }

  lemma SendKeeps(s: State, ok: bool)
    requires Inv(s) && Enabled(s, Send(ok))
    ensures Inv(Do(s, Send(ok)))
  {
    hide UpTo, Filter, Events, BatchInv;
    var s' := Do(s, Send(ok));
    var u := UpTo(s.wal, s.committed, s.cursor);
    if s.pc.SendingOne? {
      BatchEvent(s, s.pc.batch, s.pc.i, u - 1);
      BatchMoves(s.wal, s.committed, s.pc.batch, s.pc.i, u - 1);
    }
    FilterStep(s.q, s.wal, UpTo(s.wal, s.committed, s.q.start), u - 1);
  }

  lemma HearKeeps(s: State)
    requires Inv(s) && Enabled(s, Hear)
    ensures Inv(HearStep(s))
  {
    hide UpTo, Filter;
    if s.notified <= s.heard + BROADCAST_CAP {
      var k := s.heard;
      UpToSplits(s.wal, s.committed, s.cursor);
      if s.wal[k].event.seqNo > s.cursor {
        UpToOfRecord(s.wal, s.committed, k);
        assert k < s.committed - 1 ==> s.wal[k].event.seqNo < s.wal[s.committed - 1].event.seqNo;
        FilterStep(s.q, s.wal, UpTo(s.wal, s.committed, s.q.start), k);
        assert s.sent + [] == s.sent;
      }
    }
  }

  lemma StepKeeps(s: State, a: Action, s': State)
    requires Inv(s) && Step(s, a, s')
    ensures Inv(s')
  {
    hide UpTo, Filter, Events, BatchInv, ReadStep, NextStep, SendStep, HearStep;
    match a {
      case Stage(r) => StageKeeps(s, r);
      case Commit => GrowthKeeps(s, s');
      case Notify => GrowthKeeps(s, s');
      case Read(ok) =>
        if ok {
          ReadKeeps(s);
        }
      case Next => NextKeeps(s);
      case Send(ok) => SendKeeps(s, ok);
      case Hear => HearKeeps(s);
      case _ =>
    }
  }

  lemma StartKeeps(s: State)
    requires Starts(s)
    ensures Inv(s)
  {
  }

  lemma {:induction false} RunKeeps(states: seq<State>, actions: seq<Action>, k: nat)
    requires IsRun(states, actions) && k < |states|
    ensures Inv(states[k]) && states[k].q == states[0].q
    ensures states[0].wal <= states[k].wal && states[0].committed <= states[k].committed
  {
    hide Step, Inv, Starts;
    if k == 0 {
      StartKeeps(states[0]);
    } else {
      RunKeeps(states, actions, k - 1);
      StepKeeps(states[k - 1], actions[k - 1], states[k]);
      StepExtends(states[k - 1], actions[k - 1], states[k]);
    }
  }

  lemma StepExtends(s: State, a: Action, s': State)
    requires Step(s, a, s')
    ensures s'.q == s.q && s.wal <= s'.wal && s.committed <= s'.committed
  {
  }

  // ------------------------------------------------------------ theorems

  ghost predicate Ascending(es: seq<Event>) {
    forall i, j :: 0 <= i < j < |es| ==> es[i].seqNo < es[j].seqNo
  }

  lemma {:induction false} FilterAscends(q: Request, wal: seq<Record>, a: nat, b: nat)
    requires Increasing(wal) && a <= b <= |wal|
    ensures Ascending(Filter(q, wal, a, b))
    ensures forall e :: e in Filter(q, wal, a, b) <==>
              exists k :: a <= k < b && wal[k].event == e
                          && e.run == q.run && (q.kind == None || q.kind == Some(e.kind))
    ensures forall e :: e in Filter(q, wal, a, b) ==> a < b && e.seqNo <= wal[b - 1].event.seqNo
    decreases b
  {
    if a < b {
      FilterAscends(q, wal, a, b - 1);
      var init := Filter(q, wal, a, b - 1);
      assert forall i :: 0 <= i < |init| ==> init[i] in init;
    }
  }

  /** For every interleaving of commits, replay batches, notifications and ring
      overruns, what a client was sent is strictly increasing, and a committed
      event is in it exactly when it is of the run and kind asked for and lies past
      the start and within the stream's progress: no gap, no duplicate, nothing
      else. Progress is the cursor, less the one event that may be in the act of
      being sent. */
  lemma StreamIsFilter(states: seq<State>, actions: seq<Action>, i: nat)
    requires IsRun(states, actions) && i < |states|
    ensures var s := states[i];
            && Sane(s) && Ascending(s.sent)
            && (forall e :: e in s.sent <==>
                  exists k :: 0 <= k < Progress(s) && s.wal[k].event == e && s.q.start < e.seqNo
                              && e.run == s.q.run && (s.q.kind == None || s.q.kind == Some(e.kind)))
            && (!Sending(s.pc) && s.pc != Closed(true) ==>
                  forall k :: 0 <= k < s.committed ==> (k < Progress(s) <==> s.wal[k].event.seqNo <= s.cursor))
  {
    RunKeeps(states, actions, i);
    FilterOfInv(states[i]);
  }

  lemma FilterOfInv(s: State)
    requires Inv(s)
    ensures Ascending(s.sent)
    ensures forall e :: e in s.sent <==>
              exists k :: 0 <= k < Progress(s) && s.wal[k].event == e && s.q.start < e.seqNo
                          && e.run == s.q.run && (s.q.kind == None || s.q.kind == Some(e.kind))
    ensures !Sending(s.pc) && s.pc != Closed(true) ==>
              forall k :: 0 <= k < s.committed ==> (k < Progress(s) <==> s.wal[k].event.seqNo <= s.cursor)
  {
    hide PcInv;
    var a := UpTo(s.wal, s.committed, s.q.start);
    FilterAscends(s.q, s.wal, a, Progress(s));
    UpToSplits(s.wal, s.committed, s.q.start);
    UpToSplits(s.wal, s.committed, s.cursor);
  }

  /** A stream that has heard everything and is waiting has sent, in order, every
      committed event past the start of the run and kind asked for, and no other. */
  lemma CaughtUpMeansComplete(states: seq<State>, actions: seq<Action>, i: nat)
    requires IsRun(states, actions) && i < |states|
    requires states[i].pc.Following? && states[i].heard == states[i].committed
    ensures var s := states[i];
            && Sane(s)
            && s.sent == Filter(s.q, s.wal, UpTo(s.wal, s.committed, s.q.start), s.committed)
            && Ascending(s.sent)
            && forall e :: e in s.sent <==>
                 exists k :: 0 <= k < s.committed && s.wal[k].event == e && s.q.start < e.seqNo
                             && e.run == s.q.run && (s.q.kind == None || s.q.kind == Some(e.kind))
  {
    RunKeeps(states, actions, i);
    var s := states[i];
    FilterAscends(s.q, s.wal, UpTo(s.wal, s.committed, s.q.start), s.committed);
    UpToSplits(s.wal, s.committed, s.q.start);
  }

  /** Never more than 16 events wait for the client. */
  lemma OutputIsBounded(states: seq<State>, actions: seq<Action>, i: nat)
    requires IsRun(states, actions) && i < |states|
    ensures states[i].received <= |states[i].sent| <= states[i].received + 16
  {
    RunKeeps(states, actions, i);
  }

  /** The cursor a client resumes from: the last event id it received, or its
      original start if it received none. */
  function ResumeAt(q: Request, got: seq<Event>): nat {
    if got == [] then q.start else got[|got| - 1].seqNo
  }

  /** A prefix of a filter that ends with an event is the filter up to that event. */
  lemma {:induction false} PrefixOfFilter(q: Request, wal: seq<Record>, a: nat, b: nat, r: nat) returns (k: nat)
    requires Increasing(wal) && a <= b <= |wal| && 0 < r <= |Filter(q, wal, a, b)|
    ensures a <= k < b && wal[k].event == Filter(q, wal, a, b)[r - 1]
    ensures Filter(q, wal, a, b)[..r] == Filter(q, wal, a, k + 1)
    decreases b
  {
    var init := Filter(q, wal, a, b - 1);
    if r <= |init| {
      k := PrefixOfFilter(q, wal, a, b - 1, r);
      assert Filter(q, wal, a, b)[..r] == init[..r];
    } else {
      k := b - 1;
      assert Filter(q, wal, a, b)[..r] == Filter(q, wal, a, b);
    }
  }

  /** Cutting a stream anywhere and resuming at the last received id is
      seamless: what the client received before the cut, followed by what the
      second stream sends, is what one uninterrupted stream at the second
      stream's progress sends. The two streams may be in different server
      lives, as long as committed records survive. */
  lemma ResumeIsSeamless(first: seq<State>, acts1: seq<Action>, i: nat, second: seq<State>, acts2: seq<Action>, j: nat)
    requires IsRun(first, acts1) && i < |first| && IsRun(second, acts2) && j < |second|
    requires Sane(first[i]) && Sane(second[0]) && first[i].committed <= second[0].committed
    requires forall k :: 0 <= k < first[i].committed ==> first[i].wal[k] == second[0].wal[k]
    requires first[i].received <= |first[i].sent|
    requires var got := first[i].sent[..first[i].received];
             second[0].q == first[i].q.(start := ResumeAt(first[i].q, got))
    ensures var s, t := first[i], second[j];
            var got := s.sent[..s.received];
            && Sane(t) && UpTo(t.wal, t.committed, s.q.start) <= Progress(t)
            && got + t.sent == Filter(s.q, t.wal, UpTo(t.wal, t.committed, s.q.start), Progress(t))
  {
    RunKeeps(first, acts1, i);
    RunKeeps(second, acts2, j);
    var s, t := first[i], second[j];
    forall k | 0 <= k < s.committed ensures s.wal[k] == t.wal[k] {
      assert second[0].wal[k] == t.wal[k];
    }
    Resumed(s, t);
  }

  lemma {:induction false} FilterOfRequest(q: Request, p: Request, wal: seq<Record>, a: nat, b: nat)
    requires a <= b <= |wal| && p == q.(start := p.start)
    ensures Filter(q, wal, a, b) == Filter(p, wal, a, b)
    decreases b
  {
    if a < b {
      FilterOfRequest(q, p, wal, a, b - 1);
    }
  }

  lemma Resumed(s: State, t: State)
    requires Inv(s) && Inv(t) && s.committed <= t.committed
    requires forall k :: 0 <= k < s.committed ==> s.wal[k] == t.wal[k]
    requires t.q == s.q.(start := ResumeAt(s.q, s.sent[..s.received]))
    ensures UpTo(t.wal, t.committed, s.q.start) <= Progress(t)
    ensures s.sent[..s.received] + t.sent == Filter(s.q, t.wal, UpTo(t.wal, t.committed, s.q.start), Progress(t))
  {
    hide PcInv, Filter, UpTo;
    var got := s.sent[..s.received];
    var p, m := Progress(t), t.committed;
    FilterOfRequest(s.q, t.q, t.wal, UpTo(t.wal, m, t.q.start), p);
    if got == [] {
      assert got + t.sent == t.sent;
    } else {
      var a := UpTo(s.wal, s.committed, s.q.start);
      var k := PrefixOfFilter(s.q, s.wal, a, Progress(s), s.received);
      FilterOfPrefix(s.q, s.wal, t.wal, a, k + 1);
      UpToOfRecord(t.wal, m, k);
      StartBefore(s, t, k);
      FilterSplits(s.q, t.wal, a, k + 1, p);
    }
  }

  /** The start lies before record `k`, so it splits both logs alike. */
  lemma StartBefore(s: State, t: State, k: nat)
    requires Sane(s) && Sane(t) && Increasing(s.wal) && Increasing(t.wal) && s.committed <= t.committed
    requires forall j :: 0 <= j < s.committed ==> s.wal[j] == t.wal[j]
    requires UpTo(s.wal, s.committed, s.q.start) <= k < s.committed
    ensures UpTo(t.wal, t.committed, s.q.start) == UpTo(s.wal, s.committed, s.q.start)
  {
    UpToSplits(s.wal, s.committed, s.q.start);
    assert s.q.start < s.wal[k].event.seqNo;
    assert k < s.committed - 1 ==> s.wal[k].event.seqNo < s.wal[s.committed - 1].event.seqNo;
    CursorStable(s.wal, t.wal, s.committed, t.committed, s.q.start);
  }
}
