/** Which error a webhook worker shows, and when a restart would show the same
    (`last_error`, crates/vidarax-api/src/delivery.rs). */
module DeliveryErrors {
  import opened Wrappers
  import opened Timeline
  import opened DeliveryLog
  import opened DeliveryProtocol
  import opened DeliveryInvariant
  import opened DeliverySafety

  /** What last set the error a worker shows. */
  datatype Writer = Started | SettledDelivered | SettledDead | ReplayFailed(error: Option<string>)

  /** The error of a step that makes the replay fail, if it does. */
  function Failure(wal: seq<Record>, n: nat, t: Task, choice: Choice): Option<Option<string>>
    requires n <= |wal|
  {
    if !choice.Done? then None
    else if t.pc.Load? && choice.ok && ReadFrom(wal, CursorOf(t), REPLAY_BATCH, t.offset, Pos(wal, n)).Corrupt? then
      Some(Some("webhook WAL replay failed"))
    else if !choice.ok && (t.pc.Load? || t.pc.LogRetry? || t.pc.LogTerminal? || t.pc.LogCheckpoint?) then
      Some(choice.error)
    else None
  }

  /** A settlement or a failed replay writes the error; nothing else of a worker does. */
  function NextWriter(wal: seq<Record>, n: nat, t: Task, choice: Choice, before: Writer): Writer
    requires n <= |wal|
  {
    if t.pc.Settle? then if t.pc.delivered then SettledDelivered else SettledDead
    else
      var failure := Failure(wal, n, t, choice);
      if failure.Some? then ReplayFailed(failure.value) else before
  }

  function WriterAfter(s: State, a: Action, id: string, before: Writer): Writer
    requires Sane(s) && Enabled(s, a)
  {
    match a
    case Crash(_, _) => Started
    case Activate(g) => if g == id then Started else before
    case Work(g, choice) =>
      if g == id then NextWriter(s.wal, s.committed, s.tasks[id], choice, before) else before
    case _ => before
  }

  /** What last set the error of hook `id` in the run up to state `i`. */
  ghost function LastWriter(states: seq<State>, actions: seq<Action>, i: nat, id: string): Writer
    requires IsRun(states, actions) && i < |states|
  {
    if i == 0 then Started
    else
      assert Step(states[i - 1], actions[i - 1], states[i]);
      WriterAfter(states[i - 1], actions[i - 1], id, LastWriter(states, actions, i - 1, id))
  }

  /** A dead-letter record was just written and the status not yet updated. */
  predicate DeadPending(pc: Pc) { pc.Settle? && !pc.delivered }

  ghost predicate ShowsError(log: seq<DeliveryRecord>, id: string, t: Task, w: Writer) {
    && (t.pc.Settle? ==> LiveError(log, id) == if t.pc.delivered then None else t.pc.error)
    && if DeadPending(t.pc) then LastDeadError(log, id) == t.pc.error
    else
      match w
      case Started => t.status.lastError == LastDeadError(log, id)
      case SettledDead =>
        && t.status.lastError == LastDeadError(log, id)
        && (t.pc.Settle? || t.status.lastError == LiveError(log, id))
      case SettledDelivered => t.status.lastError == None && (t.pc.Settle? || LiveError(log, id) == None)
      case ReplayFailed(error) => t.status.lastError == error
  }

  lemma ErrorsAppend(log: seq<DeliveryRecord>, r: DeliveryRecord, id: string)
    ensures LastDeadError(log + [r], id)
            == if r.id == id && r.state.DeadLetter? then r.error else LastDeadError(log, id)
    ensures LiveError(log + [r], id)
            == if r.id == id && r.state.DeadLetter? then r.error
               else if r.id == id && r.state.Delivered? then None
               else LiveError(log, id)
  {
    assert (log + [r])[..|log|] == log;
  }

  lemma {:induction false} NoDeadNoError(log: seq<DeliveryRecord>, id: string)
    requires CountOf(log, id, DeadLetter) == 0
    ensures LastDeadError(log, id) == None
  {
    if log != [] {
      NoDeadNoError(log[..|log| - 1], id);
    }
  }

  /** A worker's own step. */
  lemma OwnStepShows(wal: seq<Record>, n: nat, id: string, t: Task, choice: Choice, log: seq<DeliveryRecord>, w: Writer)
    requires n <= |wal| && TaskStep(wal, n, id, t, choice).Some? && ShowsError(log, id, t, w)
    ensures var e := TaskStep(wal, n, id, t, choice).value;
            e.task.Some? ==> ShowsError(log + e.log, id, e.task.value, NextWriter(wal, n, t, choice, w))
  {
    hide ReadFrom, Relevant, Oversize, LastDeadError, LiveError, Pos, ShowsError;
    var e := TaskStep(wal, n, id, t, choice).value;
    if e.log == [] {
      assert log + e.log == log;
      QuietStepShows(wal, n, id, t, choice, log, w);
    } else {
      AppendShows(wal, n, id, t, choice, log, w);
    }
  }

  lemma QuietStepShows(wal: seq<Record>, n: nat, id: string, t: Task, choice: Choice, log: seq<DeliveryRecord>,
                       w: Writer)
    requires n <= |wal| && TaskStep(wal, n, id, t, choice).Some? && ShowsError(log, id, t, w)
    requires TaskStep(wal, n, id, t, choice).value.log == []
    ensures var e := TaskStep(wal, n, id, t, choice).value;
            e.task.Some? ==> ShowsError(log, id, e.task.value, NextWriter(wal, n, t, choice, w))
  {
    hide ReadFrom, Relevant, Oversize, LastDeadError, LiveError, Pos;
  }

  lemma AppendShows(wal: seq<Record>, n: nat, id: string, t: Task, choice: Choice, log: seq<DeliveryRecord>,
                    w: Writer)
    requires n <= |wal| && TaskStep(wal, n, id, t, choice).Some? && ShowsError(log, id, t, w)
    requires TaskStep(wal, n, id, t, choice).value.log != []
    ensures var e := TaskStep(wal, n, id, t, choice).value;
            e.task.Some? ==> ShowsError(log + e.log, id, e.task.value, NextWriter(wal, n, t, choice, w))
  {
    hide ReadFrom, Relevant, Oversize, LastDeadError, LiveError, Pos;
    ErrorsAppend(log, TaskStep(wal, n, id, t, choice).value.log[0], id);
  }

  lemma OtherAppends(log: seq<DeliveryRecord>, more: seq<DeliveryRecord>, id: string, t: Task, w: Writer)
    requires ShowsError(log, id, t, w) && |more| <= 1 && forall k :: 0 <= k < |more| ==> more[k].id != id
    ensures ShowsError(log + more, id, t, w)
  {
    hide LastDeadError, LiveError;
    if more == [] {
      assert log + more == log;
    } else {
      ErrorsAppend(log, more[0], id);
      assert more == [more[0]];
    }
  }

  lemma StepWritesOwn(wal: seq<Record>, n: nat, id: string, t: Task, choice: Choice)
    requires n <= |wal| && TaskStep(wal, n, id, t, choice).Some?
    ensures var e := TaskStep(wal, n, id, t, choice).value;
            |e.log| <= 1 && forall k :: 0 <= k < |e.log| ==> e.log[k].id == id
  {
    hide ReadFrom, Relevant;
  }

  lemma NewTaskShows(log: seq<DeliveryRecord>, id: string, config: Config, status: Status)
    requires status.lastError == LastDeadError(log, id)
    ensures ShowsError(log, id, NewTask(config, status), Started)
  {
  }

  lemma RecoveredShows(log: seq<DeliveryRecord>, id: string, config: Config)
    ensures ShowsError(log, id, NewTask(config, Recovered(log, id)), Started)
  {
    NewTaskShows(log, id, config, Recovered(log, id));
  }

  /** A hook that is reserved has no records. */
  lemma NoRecordYet(s: State, id: string)
    requires Inv(s) && id in s.hooks && !s.hooks[id].active
    ensures LastDeadError(s.log, id) == None
  {
    assert HookInv(s, id);
    NoDeadNoError(s.log, id);
  }

  lemma StepShows(s: State, a: Action, s': State, id: string, w: Writer)
    requires Inv(s) && Step(s, a, s') && (id in s.tasks ==> ShowsError(s.log, id, s.tasks[id], w))
    ensures id in s'.tasks ==> ShowsError(s'.log, id, s'.tasks[id], WriterAfter(s, a, id, w))
  {
    hide TaskStep, ShowsError, Failure, Inv, Registered, Recovered, Wakes, IsRegistration;
    match a {
      case Crash(survivors, restored) =>
        if id in s'.tasks {
          RecoveredShows(s.log, id, Configs(s.wal, survivors)[id]);
        }
      case Activate(g) =>
        if g == id {
          NoRecordYet(s, id);
          NewTaskShows(s.log, id, s'.tasks[id].config, s'.tasks[id].status);
        }
      case Work(g, choice) =>
        StepWritesOwn(s.wal, s.committed, g, s.tasks[g], choice);
        var e := TaskStep(s.wal, s.committed, g, s.tasks[g], choice).value;
        if g == id {
          OwnStepShows(s.wal, s.committed, id, s.tasks[id], choice, s.log, w);
        } else if id in s.tasks {
          OtherAppends(s.log, e.log, id, s.tasks[id], w);
        }
      case _ =>
        if id in s'.tasks {
          SignalsShow(s.log, id, s.tasks[id], s'.tasks[id], w);
        }
    }
  }

  lemma SignalsShow(log: seq<DeliveryRecord>, id: string, t: Task, u: Task, w: Writer)
    requires ShowsError(log, id, t, w) && u == t.(token := u.token, stopping := u.stopping)
    ensures ShowsError(log, id, u, w)
  {
  }

  lemma {:induction false} RunShows(states: seq<State>, actions: seq<Action>, i: nat, id: string)
    requires IsRun(states, actions) && i < |states| && id in states[i].tasks
    ensures ShowsError(states[i].log, id, states[i].tasks[id], LastWriter(states, actions, i, id))
  {
    hide ShowsError, WriterAfter, Step, Inv;
    if i > 0 {
      assert Step(states[i - 1], actions[i - 1], states[i]);
      RunKeeps(states, actions, i - 1);
      if id in states[i - 1].tasks {
        RunShows(states, actions, i - 1, id);
      }
      StepShows(states[i - 1], actions[i - 1], states[i], id, LastWriter(states, actions, i - 1, id));
    } else {
      assert false;
    }
  }

  /** In every reachable state of every run, a restart recovers the error the
      worker shows if and only if what last set it was a start or a dead letter,
      or a delivery with no dead-letter error on record, or a failed replay with
      the same error as the last dead letter. In the moment between a
      dead-letter record and its status update, it recovers the new error. */
  lemma RestartErrorExactly(states: seq<State>, actions: seq<Action>, i: nat, id: string)
    requires IsRun(states, actions) && i < |states| && id in states[i].tasks
    ensures var s, t := states[i], states[i].tasks[id];
            var recovered := Recovered(s.log, id).lastError;
            if DeadPending(t.pc) then recovered == t.pc.error
            else
              recovered == t.status.lastError <==>
              match LastWriter(states, actions, i, id)
              case Started => true
              case SettledDead => true
              case SettledDelivered => LastDeadError(s.log, id) == None
              case ReplayFailed(error) => LastDeadError(s.log, id) == error
  {
    hide IsRun;
    RunShows(states, actions, i, id);
  }

  /** Until a replay fails or the process restarts, the worker shows the error of
      its last terminal record: none after a delivery. */
  lemma SettledShowsLastRecord(states: seq<State>, actions: seq<Action>, i: nat, id: string)
    requires IsRun(states, actions) && i < |states| && id in states[i].tasks && !states[i].tasks[id].pc.Settle?
    requires var w := LastWriter(states, actions, i, id); w == SettledDelivered || w == SettledDead
    ensures states[i].tasks[id].status.lastError == LiveError(states[i].log, id)
  {
    hide IsRun;
    RunShows(states, actions, i, id);
  }

  // ------------------------------------------------------------ runs in which they differ

  ghost predicate Reaches(s: State) {
    exists states, actions :: IsRun(states, actions) && states[|actions|] == s
  }

  lemma {:induction false} ReachesNext(s: State, a: Action, s': State)
    requires Reaches(s) && Step(s, a, s')
    ensures Reaches(s')
  {
    hide Do, Enabled;
    var states, actions :| IsRun(states, actions) && states[|actions|] == s;
    RunExtends(states, actions, a);
    assert IsRun(states + [s'], actions + [a]) && (states + [s'])[|actions + [a]|] == s';
  }

  const HOOK: string := "h"
  const RUN: string := "r"
  const REGISTRATION: Record :=
    Record(Event(1, RUN, "webhook_registered", Payload(Some(HOOK), Some("u"), [], false, 0)), 1)

  function SampleConfig(): Config { Config(RUN, [], 1) }

  /** A world with one hook, whose task stands at `t`. */
  function WithHook(wal: seq<Record>, n: nat, log: seq<DeliveryRecord>, posts: seq<Post>, t: Task): State {
    State(wal, n, 0, 0, log, posts, map[HOOK := Hook(SampleConfig(), true)], map[HOOK := t])
  }

  function FreshTask(): Task { NewTask(SampleConfig(), FRESH.(last := 1)) }

  lemma {:induction false} HookActivates()
    ensures Reaches(WithHook([REGISTRATION], 1, [], [], FreshTask()))
  {
    assert IsRun([EMPTY], []) && [EMPTY][0] == EMPTY;
    var reserved := EMPTY.(hooks := map[HOOK := Hook(Config(RUN, [], 0), false)]);
    ReachesNext(EMPTY, Reserve(HOOK, Config(RUN, [], 0)), reserved);
    var staged := reserved.(wal := [REGISTRATION]);
    assert [] + [REGISTRATION] == [REGISTRATION];
    ReachesNext(reserved, Stage(REGISTRATION), staged);
    var committed := staged.(committed := 1);
    ReachesNext(staged, Commit, committed);
    assert Registered([REGISTRATION], 0, HOOK) == None;
    assert Registered([REGISTRATION], 1, HOOK) == Some(SampleConfig());
    ReachesNext(committed, Activate(HOOK), WithHook([REGISTRATION], 1, [], [], FreshTask()));
  }

  /** A failed replay shows an error no restart recovers. */
  lemma {:induction false} FailedReplayIsForgotten(error: string)
    ensures exists s :: Reaches(s) && HOOK in s.tasks && s.log == []
                        && s.tasks[HOOK].status.lastError == Some(error) && Recovered(s.log, HOOK).lastError == None
  {
    hide Reaches;
    HookActivates();
    var s := WithHook([REGISTRATION], 1, [], [], FreshTask());
    var failed := FreshTask().(pc := Idle(true), status := FRESH.(last := 1, lastError := Some(error)));
    var s' := WithHook([REGISTRATION], 1, [], [], failed);
    assert s.log + [] == s.log;
    ReachesNext(s, Work(HOOK, Done(false, Some(error))), s');
    assert s'.log == [];
  }

  /** The task of the sample hook takes a step. */
  lemma {:induction false} WorkReaches(wal: seq<Record>, n: nat, log: seq<DeliveryRecord>, posts: seq<Post>, t: Task,
                                       choice: Choice, log': seq<DeliveryRecord>, posts': seq<Post>, t': Task)
    requires n <= |wal| && Reaches(WithHook(wal, n, log, posts, t))
    requires var e := TaskStep(wal, n, HOOK, t, choice);
             e.Some? && e.value.task == Some(t') && log' == log + e.value.log && posts' == posts + e.value.posts
    ensures Reaches(WithHook(wal, n, log', posts', t'))
  {
    hide Reaches, TaskStep;
    ReachesNext(WithHook(wal, n, log, posts, t), Work(HOOK, choice), WithHook(wal, n, log', posts', t'));
  }

  const LARGE: Record := Record(Event(2, RUN, "k", Payload(None, None, [], false, MAX_WEBHOOK_BODY_BYTES + 1)), 1)
  const SMALL: Record := Record(Event(3, RUN, "k", Payload(None, None, [], false, 0)), 1)

  /** The hook has read one event too large to send and one small one. */
  function ReadJob(i: nat, scanned: nat): Job { Job([LARGE.event, SMALL.event], i, scanned, false, 3) }

  lemma {:induction false} SampleRead(wal: seq<Record>)
    requires wal == [REGISTRATION, LARGE, SMALL]
    ensures ReadFrom(wal, 1, REPLAY_BATCH, 0, Pos(wal, 3)) == Batch([LARGE.event, SMALL.event], 3)
  {
    hide ReadFrom;
    assert Pos(wal, 0) == 0;
    assert Pos(wal, 1) == 1;
    assert Pos(wal, 2) == 2;
    assert Pos(wal, 3) == 3;
    assert UpTo(wal, 1, 1) == 1;
    assert UpTo(wal, 2, 1) == 1;
    assert UpTo(wal, 3, 1) == 1;
    ReadIsSlice(wal, 0, 3, 1, REPLAY_BATCH);
    assert Events(wal, 1, 3) == [LARGE.event, SMALL.event];
  }

  lemma {:induction false} TwoEventsRead()
    ensures Reaches(WithHook([REGISTRATION, LARGE, SMALL], 3, [], [], FreshTask().(pc := Scan(ReadJob(0, 1)))))
  {
    hide Reaches, ReadFrom, Pos;
    HookActivates();
    var w1, w2, w3 := [REGISTRATION], [REGISTRATION, LARGE], [REGISTRATION, LARGE, SMALL];
    assert w1 + [LARGE] == w2 && w2 + [SMALL] == w3;
    ReachesNext(WithHook(w1, 1, [], [], FreshTask()), Stage(LARGE), WithHook(w2, 1, [], [], FreshTask()));
    ReachesNext(WithHook(w2, 1, [], [], FreshTask()), Stage(SMALL), WithHook(w3, 1, [], [], FreshTask()));
    ReachesNext(WithHook(w3, 1, [], [], FreshTask()), Commit, WithHook(w3, 3, [], [], FreshTask()));
    SampleRead(w3);
    WorkReaches(w3, 3, [], [], FreshTask(), Done(true, None), [], [], FreshTask().(pc := Scan(ReadJob(0, 1))));
  }

  function Dead(): DeliveryRecord { DeliveryRecord(HOOK, 2, DeadLetter, TOO_LARGE) }

  function Good(): DeliveryRecord { DeliveryRecord(HOOK, 3, Delivered, None) }

  lemma SamplesAreRelevant()
    ensures Relevant(SampleConfig(), LARGE.event) && Relevant(SampleConfig(), SMALL.event)
    ensures Oversize(LARGE.event) && !Oversize(SMALL.event)
  {
  }

  /** The large event becomes a dead letter. */
  lemma {:induction false} LargeIsDead(wal: seq<Record>)
    requires wal == [REGISTRATION, LARGE, SMALL]
    ensures var t := FreshTask().(status := Status(2, 0, 1, TOO_LARGE), pc := Scan(ReadJob(1, 2)));
            Reaches(WithHook(wal, 3, [Dead()], [], t))
  {
    hide Reaches, Relevant, Oversize;
    TwoEventsRead();
    SamplesAreRelevant();
    var t := FreshTask();
    var pc1, pc2 := LogTerminal(ReadJob(0, 2), false, TOO_LARGE), Settle(ReadJob(0, 2), false, TOO_LARGE);
    var after := t.(status := Status(2, 0, 1, TOO_LARGE), pc := Scan(ReadJob(1, 2)));
    WorkReaches(wal, 3, [], [], t.(pc := Scan(ReadJob(0, 1))), Go, [], [], t.(pc := pc1));
    WorkReaches(wal, 3, [], [], t.(pc := pc1), Done(true, None), [Dead()], [], t.(pc := pc2));
    WorkReaches(wal, 3, [Dead()], [], t.(pc := pc2), Go, [Dead()], [], after);
  }

  /** After a dead letter, a delivery clears the error the worker shows, and a
      restart brings the old one back. */
  lemma {:induction false} DeliveryIsForgotten()
    ensures exists s :: Reaches(s) && HOOK in s.tasks && s.tasks[HOOK].status.lastError == None
                        && Recovered(s.log, HOOK).lastError == TOO_LARGE
  {
    hide Reaches, Relevant, Oversize, Recovered;
    var wal := [REGISTRATION, LARGE, SMALL];
    LargeIsDead(wal);
    SamplesAreRelevant();
    var t := FreshTask().(status := Status(2, 0, 1, TOO_LARGE));
    var log, posts, job := [Dead()], [Post(HOOK, 3, true)], ReadJob(1, 3);
    var pc1, pc2 := Try(job, 1, None), LogTerminal(job, true, None);
    WorkReaches(wal, 3, log, [], t.(pc := Scan(ReadJob(1, 2))), Go, log, [], t.(pc := pc1));
    WorkReaches(wal, 3, log, [], t.(pc := pc1), Done(true, None), log, posts, t.(pc := pc2));
    SmallIsDelivered(wal, t.(pc := pc2), job);
    StaleErrorRecovered();
    var after := t.(status := Status(3, 1, 1, None), pc := Scan(ReadJob(2, 3)));
    var s := WithHook(wal, 3, log + [Good()], posts, after);
    assert Reaches(s);
  }

  lemma SmallIsDelivered(wal: seq<Record>, t: Task, job: Job)
    requires t.status == Status(2, 0, 1, TOO_LARGE) && t.pc == LogTerminal(job, true, None) && job == ReadJob(1, 3)
    requires |wal| == 3 && Reaches(WithHook(wal, 3, [Dead()], [Post(HOOK, 3, true)], t))
    ensures var after := t.(status := Status(3, 1, 1, None), pc := Scan(ReadJob(2, 3)));
            Reaches(WithHook(wal, 3, [Dead()] + [Good()], [Post(HOOK, 3, true)], after))
  {
    hide Reaches;
    var log, posts, pc := [Dead()], [Post(HOOK, 3, true)], Settle(job, true, None);
    var after := t.(status := Status(3, 1, 1, None), pc := Scan(ReadJob(2, 3)));
    WorkReaches(wal, 3, log, posts, t, Done(true, None), log + [Good()], posts, t.(pc := pc));
    WorkReaches(wal, 3, log + [Good()], posts, t.(pc := pc), Go, log + [Good()], posts, after);
  }

  lemma StaleErrorRecovered()
    ensures Recovered([Dead()] + [Good()], HOOK).lastError == TOO_LARGE
  {
    ErrorsAppend([], Dead(), HOOK);
    assert [] + [Dead()] == [Dead()];
    ErrorsAppend([Dead()], Good(), HOOK);
  }
}
