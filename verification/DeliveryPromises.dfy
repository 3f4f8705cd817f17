/** The promises of webhook delivery in terms of the records alone: which events
    a hook is told of, and how often (`webhook_matches` and `replay_hook`,
    crates/vidarax-api/src/delivery.rs). */
module DeliveryPromises {
  import opened Wrappers
  import opened Timeline
  import opened DeliveryLog
  import opened DeliveryProtocol
  import opened DeliveryInvariant
  import opened DeliverySafety
  import opened DeliveryTheorems

  /** The record that registers a hook. */
  ghost predicate Registers(h: Event, id: string) {
    h.kind == "webhook_registered" && h.payload.webhookId == Some(id) && h.payload.url != None
  }

  /** A hook is told of the events of its run that are not about webhooks, that
      ask for one if they are triggers, and that are of a kind it listed, if it
      listed any; but only of those after its own registration. */
  ghost predicate ToldOf(h: Event, e: Event) {
    && h.seqNo < e.seqNo && e.run == h.run
    && !StartsWith(e.kind, "webhook_")
    && (StartsWith(e.kind, "trigger.") ==> e.payload.webhookAction)
    && (|h.payload.kinds| == 0 || exists k :: 0 <= k < |h.payload.kinds| && h.payload.kinds[k] == e.kind)
  }

  /** Where the log says that an event was delivered to a hook, or given up on. */
  ghost function Verdicts(log: seq<DeliveryRecord>, id: string, seqNo: nat): set<nat> {
    set m | 0 <= m < |log| && log[m].id == id && log[m].seqNo == seqNo
            && (log[m].state == Delivered || log[m].state == DeadLetter)
  }

  /** The log has a verdict or a checkpoint of the hook at or past an event. */
  ghost predicate Passed(log: seq<DeliveryRecord>, id: string, seqNo: nat) {
    exists m :: 0 <= m < |log| && log[m].id == id && log[m].state != Retry && seqNo <= log[m].seqNo
  }

  // ------------------------------------------------------------ the words used elsewhere

  lemma ToldOfIs(h: Event, e: Event)
    ensures ToldOf(h, e) <==> h.seqNo < e.seqNo && Subscribed(ConfigOf(h), e)
  {
    hide StartsWith;
  }

  lemma {:induction false} RegisteredIs(wal: seq<Record>, n: nat, id: string, r: nat)
    requires r < n <= |wal| && RegisteredOnce(wal) && Registers(wal[r].event, id)
    ensures Registered(wal, n, id) == Some(ConfigOf(wal[r].event))
  {
    RegistrationFound(wal, r + 1, id, r);
    if Registered(wal, r, id).Some? {
      var k := RegisteredWithin(wal, r, id);
      assert false;
    }
    RegisteredStays(wal, r + 1, n, id);
  }

  lemma VerdictsGrow(front: seq<DeliveryRecord>, r: DeliveryRecord, id: string, seqNo: nat)
    ensures Verdicts(front + [r], id, seqNo)
            == Verdicts(front, id, seqNo)
               + if r.id == id && Terminal(r.state) && r.seqNo == seqNo then {|front|} else {}
  {
    var log := front + [r];
    forall m | 0 <= m < |log| ensures m < |front| ==> log[m] == front[m] {
    }
  }

  lemma CountGrows(s: seq<nat>, y: nat, x: nat)
    ensures Count(s + [y], x) == Count(s, x) + if y == x then 1 else 0
  {
    assert (s + [y])[..|s|] == s;
  }

  lemma {:induction false} VerdictsCounted(log: seq<DeliveryRecord>, id: string, seqNo: nat)
    ensures |Verdicts(log, id, seqNo)| == Count(Terminals(log, id), seqNo)
  {
    hide Count, Verdicts;
    if log == [] {
      NoVerdicts(id, seqNo);
    } else {
      var n := |log| - 1;
      assert log == log[..n] + [log[n]];
      VerdictsCounted(log[..n], id, seqNo);
      VerdictsGrow(log[..n], log[n], id, seqNo);
      CountGrows(Terminals(log[..n], id), log[n].seqNo, seqNo);
      assert Terminals(log[..n], id) + [] == Terminals(log[..n], id);
      assert n !in Verdicts(log[..n], id, seqNo) by { VerdictsWithin(log[..n], id, seqNo); }
    }
  }

  lemma NoVerdicts(id: string, seqNo: nat)
    ensures Verdicts([], id, seqNo) == {} && Count([], seqNo) == 0
  {
  }

  lemma VerdictsWithin(log: seq<DeliveryRecord>, id: string, seqNo: nat)
    ensures forall m :: m in Verdicts(log, id, seqNo) ==> m < |log|
  {
  }

  lemma {:induction false} PassedIs(log: seq<DeliveryRecord>, id: string, seqNo: nat)
    requires seqNo > 0
    ensures Passed(log, id, seqNo) <==> seqNo <= Cursor(log, id)
  {
    if log != [] {
      var n := |log| - 1;
      PassedIs(log[..n], id, seqNo);
      if Passed(log[..n], id, seqNo) {
        var m :| 0 <= m < n && log[..n][m].id == id && log[..n][m].state != Retry && seqNo <= log[..n][m].seqNo;
        assert log[m] == log[..n][m];
      }
      if Passed(log, id, seqNo) {
        var m :| 0 <= m < |log| && log[m].id == id && log[m].state != Retry && seqNo <= log[m].seqNo;
        assert m < n ==> log[..n][m] == log[m];
      }
    }
  }

  lemma VerdictFound(log: seq<DeliveryRecord>, id: string, seqNo: nat, m: nat)
    requires m in Verdicts(log, id, seqNo)
    ensures seqNo in Terminals(log, id)
  {
    VerdictsCounted(log, id, seqNo);
    if seqNo !in Terminals(log, id) {
      NotCounted(Terminals(log, id), seqNo);
      assert false;
    }
  }

  lemma {:induction false} NotCounted(s: seq<nat>, x: nat)
    requires x !in s
    ensures Count(s, x) == 0
  {
    if s != [] {
      NotCounted(s[..|s| - 1], x);
    }
  }

  // ------------------------------------------------------------ the promises

  /** In every reachable state, for every registered hook and committed event:
      one verdict in the log if the hook is told of the event and the log has
      passed it, and otherwise none. */
  lemma OneVerdictEach(states: seq<State>, actions: seq<Action>, i: nat, id: string, r: nat, k: nat)
    requires IsRun(states, actions) && i < |states| && states[i].committed <= |states[i].wal|
    requires r < states[i].committed && k < states[i].committed && Registers(states[i].wal[r].event, id)
    ensures var h, e := states[i].wal[r].event, states[i].wal[k].event;
            |Verdicts(states[i].log, id, e.seqNo)|
            == if ToldOf(h, e) && Passed(states[i].log, id, e.seqNo) then 1 else 0
  {
    hide IsRun, UpTo, Due, Terminals, Cursor, Count, Subscribed, StrictlyIncreasing, Inv, ToldOf, Registered, Registers;
    var s := states[i];
    var h, e := s.wal[r].event, s.wal[k].event;
    RunKeeps(states, actions, i);
    WalOf(s);
    RegisteredIs(s.wal, s.committed, id, r);
    ExactlyOnce(states, actions, i, id, k);
    VerdictsCounted(s.log, id, e.seqNo);
    ToldOfIs(h, e);
    if h.seqNo < e.seqNo {
      PassedIs(s.log, id, e.seqNo);
    }
  }

  lemma WalOf(s: State)
    requires Inv(s)
    ensures Sane(s) && Increasing(s.wal) && RegisteredOnce(s.wal)
  {
  }

  /** Every verdict is on a committed event that a committed registration of the
      hook is told of. */
  lemma VerdictsAreOwed(states: seq<State>, actions: seq<Action>, i: nat, m: nat)
    requires IsRun(states, actions) && i < |states| && m < |states[i].log|
    requires states[i].log[m].state == Delivered || states[i].log[m].state == DeadLetter
    ensures var s := states[i];
            && s.committed <= |s.wal|
            && exists r, k :: 0 <= r < s.committed && 0 <= k < s.committed && Registers(s.wal[r].event, s.log[m].id)
                              && s.wal[k].event.seqNo == s.log[m].seqNo && ToldOf(s.wal[r].event, s.wal[k].event)
  {
    hide IsRun, UpTo, Due, Terminals, Cursor, Count, Subscribed, StrictlyIncreasing, Inv, ToldOf, Registered, Registers;
    var s := states[i];
    var id, x := s.log[m].id, s.log[m].seqNo;
    RunKeeps(states, actions, i);
    WalOf(s);
    assert m in Verdicts(s.log, id, x);
    VerdictFound(s.log, id, x, m);
    ExactlyOnce(states, actions, i, id, 0);
    assert Terminals(s.log, id) != [];
    var k :| 0 <= k < s.committed && s.wal[k].event.seqNo == x
             && Subscribed(Registered(s.wal, s.committed, id).value, s.wal[k].event);
    var r := RegistrationOf(s.wal, s.committed, id);
    RegisteredIs(s.wal, s.committed, id, r);
    ExactlyOnce(states, actions, i, id, k);
    VerdictsCounted(s.log, id, x);
    assert |Verdicts(s.log, id, x)| > 0;
    ToldOfIs(s.wal[r].event, s.wal[k].event);
  }

  lemma RegistrationOf(wal: seq<Record>, n: nat, id: string) returns (r: nat)
    requires n <= |wal| && Registered(wal, n, id).Some?
    ensures r < n && Registers(wal[r].event, id)
  {
    r := RegisteredWithin(wal, n, id);
  }

  /** A POST is only ever made for a committed event that a committed
      registration of the hook is told of, of at most 1048576 bytes and with no
      verdict yet. */
  lemma PostsAreOwed(states: seq<State>, actions: seq<Action>, i: nat, p: Post)
    requires IsRun(states, actions) && i < |actions| && states[i + 1].posts == states[i].posts + [p]
    ensures var s := states[i];
            && s.committed <= |s.wal| && Verdicts(s.log, p.id, p.seqNo) == {}
            && exists r, k :: 0 <= r < s.committed && 0 <= k < s.committed && Registers(s.wal[r].event, p.id)
                              && s.wal[k].event.seqNo == p.seqNo && ToldOf(s.wal[r].event, s.wal[k].event)
                              && s.wal[k].event.payload.bytes <= 1_048_576
  {
    hide UpTo, Due, Terminals, Subscribed, Inv, ToldOf, Registered, Registers, Verdicts;
    var s := states[i];
    RunKeeps(states, actions, i);
    WalOf(s);
    NoPostAfterSettled(states, actions, i, p);
    PostPastRegistration(states, actions, i, p);
    var k :| 0 <= k < s.committed && s.wal[k].event.seqNo == p.seqNo && !Oversize(s.wal[k].event)
             && Subscribed(Registered(s.wal, s.committed, p.id).value, s.wal[k].event);
    var r := RegistrationOf(s.wal, s.committed, p.id);
    RegisteredIs(s.wal, s.committed, p.id, r);
    ToldOfIs(s.wal[r].event, s.wal[k].event);
    NotCounted(Terminals(s.log, p.id), p.seqNo);
    VerdictsCounted(s.log, p.id, p.seqNo);
  }

  lemma PostPastRegistration(states: seq<State>, actions: seq<Action>, i: nat, p: Post)
    requires IsRun(states, actions) && i < |actions| && states[i + 1].posts == states[i].posts + [p]
    ensures var s := states[i];
            && s.committed <= |s.wal| && Registered(s.wal, s.committed, p.id).Some?
            && Registered(s.wal, s.committed, p.id).value.registered < p.seqNo
  {
    hide TaskStep, Due, UpTo, Registered;
    RunKeeps(states, actions, i);
    assert Step(states[i], actions[i], states[i + 1]);
    var s := states[i];
    var t := PostComesFrom(s, actions[i], states[i + 1], p);
    assert TaskInv(s.wal, s.committed, s.heard, ViewOf(s.log, p.id), s.posts, p.id, t);
    DeliverySteps.NothingDueAt(s.wal, s.committed, t, t.pc.job);
  }

  /** The POSTs of an event to a hook that failed. */
  ghost function Failures(posts: seq<Post>, id: string, seqNo: nat): set<nat> {
    set m | 0 <= m < |posts| && posts[m].id == id && posts[m].seqNo == seqNo && posts[m].ok == false
  }

  lemma FailuresGrow(front: seq<Post>, p: Post, id: string, seqNo: nat)
    ensures Failures(front + [p], id, seqNo)
            == Failures(front, id, seqNo) + if p == Post(id, seqNo, false) then {|front|} else {}
    ensures |front| !in Failures(front, id, seqNo)
  {
    var posts := front + [p];
    forall m | 0 <= m < |posts| ensures m < |front| ==> posts[m] == front[m] {
    }
  }

  lemma {:induction false} FailuresCounted(posts: seq<Post>, id: string, seqNo: nat)
    ensures |Failures(posts, id, seqNo)| == Fails(posts, id, seqNo)
  {
    if posts == [] {
      assert Failures(posts, id, seqNo) == {};
    } else {
      var n := |posts| - 1;
      assert posts == posts[..n] + [posts[n]];
      FailuresCounted(posts[..n], id, seqNo);
      hide Failures;
      FailuresGrow(posts[..n], posts[n], id, seqNo);
    }
  }

  /** What a failed POST reported is what the log then says: a retry after the
      first two attempts, a dead letter after the third. */
  lemma FailureIsRecorded(wal: seq<Record>, n: nat, later: seq<Record>, m: nat, id: string, t: Task,
                          error: Option<string>)
    requires n <= |wal| && m <= |later| && t.pc.Try?
    ensures var failed := TaskStep(wal, n, id, t, Done(false, error));
            && failed.Some? && failed.value.task.Some? && failed.value.log == []
            && var recorded := TaskStep(later, m, id, failed.value.task.value, Done(true, None));
               && recorded.Some?
               && recorded.value.log
                  == [DeliveryRecord(id, t.pc.job.scanned, if t.pc.attempt < 3 then Retry else DeadLetter, error)]
  {
  }

  /** At most three attempts at an event in a row. */
  lemma ThreeAttempts(states: seq<State>, actions: seq<Action>, i: nat, id: string)
    requires IsRun(states, actions) && i < |states| && id in states[i].tasks && states[i].tasks[id].pc.Try?
    ensures 1 <= states[i].tasks[id].pc.attempt <= 3
  {
    hide IsRun;
    RunKeeps(states, actions, i);
    var s := states[i];
    assert TaskInv(s.wal, s.committed, s.heard, ViewOf(s.log, id), s.posts, id, s.tasks[id]);
  }

  /** A dead letter is on a committed event over 1048576 bytes, or one that had
      failed three times before the record was written. */
  lemma DeadLettersWereTried(states: seq<State>, actions: seq<Action>, i: nat, m: nat) returns (j: nat)
    requires IsRun(states, actions) && i < |states| && m < |states[i].log|
    requires states[i].log[m].state == DeadLetter
    ensures j < i && |states[j].log| <= m && states[j].committed <= |states[j].wal|
    ensures var s, r := states[j], states[i].log[m];
            exists k :: 0 <= k < s.committed && s.wal[k].event.seqNo == r.seqNo
                        && (s.wal[k].event.payload.bytes > 1_048_576 || |Failures(s.posts, r.id, r.seqNo)| >= 3)
  {
    hide IsRun, Failures, Fails;
    j := DeadLetterWasTried(states, actions, i, m);
    FailuresCounted(states[j].posts, states[i].log[m].id, states[i].log[m].seqNo);
  }

  /** Once the coordinator has heard everything, a parked worker's hook has one
      verdict on every committed event it is told of, and none on any other. */
  lemma QuietMeansAllTold(states: seq<State>, actions: seq<Action>, i: nat, id: string, r: nat, k: nat)
    requires IsRun(states, actions) && i < |states| && id in states[i].tasks
    requires var t := states[i].tasks[id]; t.pc == Idle(false) && !t.token && !t.stopping
    requires states[i].heard == states[i].committed <= |states[i].wal|
    requires r < states[i].committed && k < states[i].committed && Registers(states[i].wal[r].event, id)
    ensures var h, e := states[i].wal[r].event, states[i].wal[k].event;
            |Verdicts(states[i].log, id, e.seqNo)| == if ToldOf(h, e) then 1 else 0
  {
    hide IsRun, Inv;
    RunKeeps(states, actions, i);
    AllTold(states[i], id, r, k);
  }

  lemma AllTold(s: State, id: string, r: nat, k: nat)
    requires Inv(s) && id in s.tasks && s.heard == s.committed
    requires var t := s.tasks[id]; t.pc == Idle(false) && !t.token && !t.stopping
    requires r < s.committed && k < s.committed && Registers(s.wal[r].event, id)
    ensures var h, e := s.wal[r].event, s.wal[k].event;
            |Verdicts(s.log, id, e.seqNo)| == if ToldOf(h, e) then 1 else 0
  {
    hide UpTo, Due, Terminals, Cursor, Count, Subscribed, ToldOf, Registered, Registers, Verdicts, PcInv;
    var h, e := s.wal[r].event, s.wal[k].event;
    QuiescentMeansSettled(s, id);
    assert TaskInv(s.wal, s.committed, s.heard, ViewOf(s.log, id), s.posts, id, s.tasks[id]);
    RegisteredIs(s.wal, s.committed, id, r);
    var a := UpTo(s.wal, s.committed, h.seqNo);
    DueCounts(ConfigOf(h), s.wal, a, s.committed, k);
    UpToSplits(s.wal, s.committed, h.seqNo);
    VerdictsCounted(s.log, id, e.seqNo);
    ToldOfIs(h, e);
  }

  /** From every reachable state, however many failures came before, some
      schedule leads to one verdict on every committed event the hook is told of. */
  lemma EveryEventCanBeTold(states: seq<State>, actions: seq<Action>, i: nat, id: string, r: nat)
    returns (more: seq<Action>, t: State)
    requires IsRun(states, actions) && i < |states| && id in states[i].tasks && !states[i].tasks[id].stopping
    requires states[i].committed <= |states[i].wal|
    requires r < states[i].committed && Registers(states[i].wal[r].event, id)
    ensures Leads(states[i], more, t) && t.wal == states[i].wal && t.committed == states[i].committed
    ensures forall k :: 0 <= k < t.committed ==>
              |Verdicts(t.log, id, t.wal[k].event.seqNo)| == if ToldOf(t.wal[r].event, t.wal[k].event) then 1 else 0
  {
    hide IsRun, Inv, Leads, Verdicts, ToldOf, Registers;
    RunKeeps(states, actions, i);
    more, t := CatchesUpAndParks(states[i], id);
    forall k | 0 <= k < t.committed
      ensures |Verdicts(t.log, id, t.wal[k].event.seqNo)| == if ToldOf(t.wal[r].event, t.wal[k].event) then 1 else 0
    {
      AllTold(t, id, r, k);
    }
  }
}
