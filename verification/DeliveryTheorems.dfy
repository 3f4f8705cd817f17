/** The promises of webhook delivery, for every state of every run. */
module DeliveryTheorems {
  import opened Wrappers
  import opened Timeline
  import opened DeliveryLog
  import opened DeliveryProtocol
  import opened DeliveryInvariant
  import opened DeliverySteps
  import opened DeliverySafety

  // ------------------------------------------------------------ due events

  ghost predicate StartsWith(s: string, start: string) {
    |start| <= |s| && forall k :: 0 <= k < |start| ==> s[k] == start[k]
  }

  /** The rules of who is told of what, written out: events of the hook's run that
      are not about webhooks, that ask for one if they are triggers, and that are
      of a kind it listed, if it listed any. */
  ghost predicate Subscribed(config: Config, e: Event) {
    && e.run == config.run && !StartsWith(e.kind, "webhook_")
    && (StartsWith(e.kind, "trigger.") ==> e.payload.webhookAction)
    && (|config.kinds| == 0 || exists k :: 0 <= k < |config.kinds| && config.kinds[k] == e.kind)
  }

  lemma PrefixIs(s: string, start: string)
    ensures start <= s <==> StartsWith(s, start)
  {
  }

  lemma SubscribedIs(config: Config, e: Event)
    ensures Relevant(config, e) <==> Subscribed(config, e)
  {
    hide StartsWith;
    PrefixIs(e.kind, "webhook_");
    PrefixIs(e.kind, "trigger.");
  }

  ghost predicate StrictlyIncreasing(s: seq<nat>) {
    forall i, j :: 0 <= i < j < |s| ==> s[i] < s[j]
  }

  function Count(s: seq<nat>, x: nat): nat {
    if s == [] then 0 else Count(s[..|s| - 1], x) + if s[|s| - 1] == x then 1 else 0
  }

  lemma {:induction false} DueIncreasing(config: Config, wal: seq<Record>, a: nat, b: nat)
    requires Increasing(wal) && a <= b <= |wal|
    ensures StrictlyIncreasing(Due(config, wal, a, b))
    ensures forall x :: x in Due(config, wal, a, b) ==> a < b && x <= wal[b - 1].event.seqNo
    decreases b
  {
    if a < b {
      DueIncreasing(config, wal, a, b - 1);
      var init := Due(config, wal, a, b - 1);
      assert forall i :: 0 <= i < |init| ==> init[i] in init;
    }
  }

  /** Each record of the range is due once if it is relevant, and nothing else is due. */
  lemma {:induction false} DueCounts(config: Config, wal: seq<Record>, a: nat, b: nat, k: nat)
    requires Increasing(wal) && a <= b <= |wal| && k < |wal|
    ensures Count(Due(config, wal, a, b), wal[k].event.seqNo)
            == if a <= k < b && Subscribed(config, wal[k].event) then 1 else 0
    decreases b
  {
    hide Subscribed, Relevant;
    SubscribedIs(config, wal[k].event);
    if a < b {
      DueCounts(config, wal, a, b - 1, k);
      var init := Due(config, wal, a, b - 1);
      assert (init + [wal[b - 1].event.seqNo])[..|init|] == init;
      assert init + [] == init;
    }
  }

  lemma {:induction false} DueIsRelevant(config: Config, wal: seq<Record>, a: nat, b: nat, x: nat) returns (k: nat)
    requires a <= b <= |wal| && x in Due(config, wal, a, b)
    ensures a <= k < b && wal[k].event.seqNo == x && Subscribed(config, wal[k].event)
    decreases b
  {
    hide Subscribed, Relevant;
    if x in Due(config, wal, a, b - 1) {
      k := DueIsRelevant(config, wal, a, b - 1, x);
    } else {
      k := b - 1;
      SubscribedIs(config, wal[k].event);
    }
  }

  // ------------------------------------------------------------ theorems

  /** Exactly once: in every reachable state, for every committed event, the
      log holds one terminal record of a hook if the event is relevant to it and
      lies past its registration and not past its durable cursor, and none
      otherwise; the terminal records come in increasing order, each of them
      for such an event; and the cursor never passes the committed prefix. */
  lemma ExactlyOnce(states: seq<State>, actions: seq<Action>, i: nat, id: string, k: nat)
    requires IsRun(states, actions) && i < |states|
    ensures var s := states[i];
            && Sane(s)
            && match Registered(s.wal, s.committed, id)
               case None => Terminals(s.log, id) == []
               case Some(config) =>
                 var cursor := Max(Cursor(s.log, id), config.registered);
                 && StrictlyIncreasing(Terminals(s.log, id))
                 && (k < s.committed ==>
                       Count(Terminals(s.log, id), s.wal[k].event.seqNo)
                       == if Subscribed(config, s.wal[k].event)
                             && config.registered < s.wal[k].event.seqNo <= cursor then 1 else 0)
                 && (forall x :: x in Terminals(s.log, id) ==>
                       exists j :: 0 <= j < s.committed
                                   && s.wal[j].event.seqNo == x && Subscribed(config, s.wal[j].event))
                 && s.committed > 0 && cursor <= s.wal[s.committed - 1].event.seqNo
  {
    hide IsRun, UpTo, Due, Registered, Terminals, Cursor, CountOf, Count, Relevant, StrictlyIncreasing;
    RunKeeps(states, actions, i);
    var s := states[i];
    assert LogInv(s.wal, s.committed, s.log, id);
    if Registered(s.wal, s.committed, id).Some? {
      SettledOnce(s.wal, s.committed, Registered(s.wal, s.committed, id).value, ViewOf(s.log, id), k);
    }
  }

  lemma SettledOnce(wal: seq<Record>, n: nat, config: Config, v: View, k: nat)
    requires n <= |wal| && Increasing(wal) && SettledExactly(wal, n, config, v)
    ensures StrictlyIncreasing(v.terminals)
    ensures k < n ==>
      Count(v.terminals, wal[k].event.seqNo)
      == if Subscribed(config, wal[k].event)
            && config.registered < wal[k].event.seqNo <= Max(v.cursor, config.registered) then 1 else 0
    ensures forall x :: x in v.terminals ==>
              exists j :: 0 <= j < n && wal[j].event.seqNo == x && Subscribed(config, wal[j].event)
  {
    var cursor := Max(v.cursor, config.registered);
    var a, b := UpTo(wal, n, config.registered), UpTo(wal, n, cursor);
    DueIncreasing(config, wal, a, b);
    if k < n {
      DueCounts(config, wal, a, b, k);
      UpToSplits(wal, n, config.registered);
      UpToSplits(wal, n, cursor);
    }
    forall x | x in v.terminals
      ensures exists j :: 0 <= j < n && wal[j].event.seqNo == x && Subscribed(config, wal[j].event)
    {
      var j := DueIsRelevant(config, wal, a, b, x);
    }
  }

  /** The log only grows, and only a worker's own effects touch it or the posts. */
  lemma LogGrows(s: State, a: Action, s': State)
    requires Step(s, a, s')
    ensures s.log <= s'.log && |s'.log| <= |s.log| + 1 && s.posts <= s'.posts
    ensures s'.log != s.log ==> s'.posts == s.posts
  {
    match a {
      case Work(id, choice) =>
        var e := TaskStep(s.wal, s.committed, id, s.tasks[id], choice).value;
        assert s.posts + [] == s.posts;
      case _ =>
    }
  }

  /** A delivered record is preceded by a successful POST of that very event,
      made before the record was written. */
  lemma {:induction false} DeliveredWasPosted(states: seq<State>, actions: seq<Action>, i: nat, k: nat) returns (j: nat)
    requires IsRun(states, actions) && i < |states| && k < |states[i].log|
    requires states[i].log[k].state.Delivered?
    ensures j < i && |states[j].log| <= k
    ensures Post(states[i].log[k].id, states[i].log[k].seqNo, true) in states[j].posts
  {
    hide Inv, Step;
    RunKeeps(states, actions, i);
    DeliveredEarned(states[i], k);
    if i == 0 {
      assert false;
    }
    assert Step(states[i - 1], actions[i - 1], states[i]);
    LogGrows(states[i - 1], actions[i - 1], states[i]);
    if k < |states[i - 1].log| {
      assert states[i - 1].log[k] == states[i].log[k];
      j := DeliveredWasPosted(states, actions, i - 1, k);
    } else {
      j := i - 1;
    }
  }

  lemma DeliveredEarned(s: State, k: nat)
    requires Inv(s) && k < |s.log| && s.log[k].state.Delivered?
    ensures Post(s.log[k].id, s.log[k].seqNo, true) in s.posts
  {
    assert Earned(s.wal, s.committed, s.posts, s.log[k]);
  }

  /** A committed event that is over the body limit, or has had three failed POSTs. */
  ghost predicate Tried(s: State, id: string, seqNo: nat)
    requires Sane(s)
  {
    exists j :: 0 <= j < s.committed && s.wal[j].event.seqNo == seqNo
      && (Oversize(s.wal[j].event) || MAX_ATTEMPTS <= Fails(s.posts, id, seqNo))
  }

  /** A dead letter follows three failed POSTs of the event, or a body over the
      limit, that stood before the record was written. */
  lemma {:induction false} DeadLetterWasTried(states: seq<State>, actions: seq<Action>, i: nat, k: nat)
    returns (j: nat)
    requires IsRun(states, actions) && i < |states| && k < |states[i].log|
    requires states[i].log[k].state.DeadLetter?
    ensures j < i && |states[j].log| <= k
    ensures Sane(states[j]) && Tried(states[j], states[i].log[k].id, states[i].log[k].seqNo)
  {
    hide Inv, Step, Tried;
    if i == 0 {
      assert false;
    }
    assert Step(states[i - 1], actions[i - 1], states[i]);
    LogGrows(states[i - 1], actions[i - 1], states[i]);
    if k < |states[i - 1].log| {
      assert states[i - 1].log[k] == states[i].log[k];
      j := DeadLetterWasTried(states, actions, i - 1, k);
    } else {
      RunKeeps(states, actions, i);
      DeadLetterEarned(states[i - 1], actions[i - 1], states[i], k);
      j := i - 1;
    }
  }

  lemma DeadLetterEarned(s: State, a: Action, s': State, k: nat)
    requires Step(s, a, s') && Inv(s') && |s.log| <= k < |s'.log| && s'.log[k].state.DeadLetter?
    ensures Sane(s) && Tried(s, s'.log[k].id, s'.log[k].seqNo)
  {
    hide Fails, Oversize, TaskStep;
    assert Earned(s'.wal, s'.committed, s'.posts, s'.log[k]);
    LogGrows(s, a, s');
    WritingKeepsWal(s, a, s');
  }

  lemma WritingKeepsWal(s: State, a: Action, s': State)
    requires Step(s, a, s') && |s'.log| > |s.log|
    ensures s'.wal == s.wal && s'.committed == s.committed
  {
    hide TaskStep;
  }

  /** Once an event is settled for a hook it is never posted to it again,
      through any later crash; and only relevant committed events are posted. */
  lemma NoPostAfterSettled(states: seq<State>, actions: seq<Action>, i: nat, p: Post)
    requires IsRun(states, actions) && i < |actions|
    requires states[i + 1].posts == states[i].posts + [p]
    ensures var s := states[i];
            && p.seqNo !in Terminals(s.log, p.id)
            && Sane(s) && Registered(s.wal, s.committed, p.id).Some?
            && exists j :: 0 <= j < s.committed && s.wal[j].event.seqNo == p.seqNo && !Oversize(s.wal[j].event)
                           && Subscribed(Registered(s.wal, s.committed, p.id).value, s.wal[j].event)
  {
    RunKeeps(states, actions, i);
    assert Step(states[i], actions[i], states[i + 1]);
    var t := PostComesFrom(states[i], actions[i], states[i + 1], p);
    TriedIsUnsettled(states[i], p.id);
  }

  lemma PostComesFrom(s: State, a: Action, s': State, p: Post) returns (t: Task)
    requires Step(s, a, s') && s'.posts == s.posts + [p]
    ensures p.id in s.tasks && t == s.tasks[p.id] && t.pc.Try? && p.seqNo == t.pc.job.scanned
  {
    assert s'.posts[|s.posts|] == p;
    assert a.Work?;
    t := s.tasks[a.id];
    assert s.posts + [] == s.posts;
  }

  lemma TriedIsUnsettled(s: State, id: string)
    requires Inv(s) && id in s.tasks && s.tasks[id].pc.Try?
    ensures var seqNo := s.tasks[id].pc.job.scanned;
            && seqNo !in Terminals(s.log, id)
            && Registered(s.wal, s.committed, id).Some?
            && exists j :: 0 <= j < s.committed && s.wal[j].event.seqNo == seqNo && !Oversize(s.wal[j].event)
                           && Subscribed(Registered(s.wal, s.committed, id).value, s.wal[j].event)
  {
    hide Subscribed, Relevant, Registered, Pos, IndexAt, Due, UpTo, Terminals, Cursor, CountOf, Fails;
    var t := s.tasks[id];
    assert TaskInv(s.wal, s.committed, s.heard, ViewOf(s.log, id), s.posts, id, t);
    assert LogInv(s.wal, s.committed, s.log, id);
    SubscribedIs(t.config, t.pc.job.batch[t.pc.job.i]);
    EventAt(s.wal, s.committed, t.pc.job, t.pc.job.i);
    NothingDueAt(s.wal, s.committed, t, t.pc.job);
    var b := UpTo(s.wal, s.committed, CursorOf(t));
    DueIncreasing(t.config, s.wal, UpTo(s.wal, s.committed, t.config.registered), b);
    UpToSplits(s.wal, s.committed, CursorOf(t));
  }

  /** No lost wake-ups: if a worker whose hook is configured is parked after a
      successful replay with no token waiting, then every committed event of
      its run past its cursor is one whose notification, or the lag report that
      covers it, the coordinator has yet to consume. */
  lemma NoLostWakeups(states: seq<State>, actions: seq<Action>, i: nat, id: string, k: nat)
    requires IsRun(states, actions) && i < |states| && id in states[i].tasks
    requires var t := states[i].tasks[id]; t.pc == Idle(false) && !t.token && !t.stopping
    requires k < states[i].committed <= |states[i].wal|
    requires states[i].wal[k].event.run == states[i].tasks[id].config.run
    requires states[i].wal[k].event.seqNo > CursorOf(states[i].tasks[id])
    ensures states[i].heard <= k
  {
    RunKeeps(states, actions, i);
    var s := states[i];
    var t := s.tasks[id];
    assert TaskInv(s.wal, s.committed, s.heard, ViewOf(s.log, id), s.posts, id, t);
    UpToSplits(s.wal, s.committed, CursorOf(t));
    assert Covered(s.wal, s.heard, t, UpTo(s.wal, s.committed, CursorOf(t)));
  }

  /** A worker about to read gets, from its remembered offset, exactly what a
      scan of the whole file would give: the first 256 committed events past its
      cursor. The read cannot fail, after any mix of failed appends and crashes. */
  lemma OffsetReadIsFullRead(states: seq<State>, actions: seq<Action>, i: nat, id: string)
    requires IsRun(states, actions) && i < |states| && id in states[i].tasks && states[i].tasks[id].pc.Load?
    ensures var s, t := states[i], states[i].tasks[id];
            && Sane(s)
            && var read := ReadFrom(s.wal, CursorOf(t), REPLAY_BATCH, t.offset, Pos(s.wal, s.committed));
               && read.Batch?
               && read == ReadFrom(s.wal, CursorOf(t), REPLAY_BATCH, 0, Pos(s.wal, s.committed))
               && read.events == Newer(s.wal, s.committed, CursorOf(t), 256)
  {
    RunKeeps(states, actions, i);
    var s := states[i];
    var t := s.tasks[id];
    assert TaskInv(s.wal, s.committed, s.heard, ViewOf(s.log, id), s.posts, id, t);
    var j := IndexAt(s.wal, s.committed, t.offset).value;
    UpToSplits(s.wal, s.committed, CursorOf(t));
    assert forall k :: 0 <= k < j ==> s.wal[k].event.seqNo <= CursorOf(t);
    OffsetRefinesFullScan(s.wal, j, s.committed, CursorOf(t), REPLAY_BATCH);
    ReadIsNewer(s.wal, j, s.committed, CursorOf(t), REPLAY_BATCH);
  }

  predicate BetweenRecordAndStatus(pc: Pc) { pc.Settle? || pc.Adopt? }

  /** A restart recovers the running worker's counters and effective cursor,
      except in the moment between writing a record and updating the status. */
  lemma RestartAgreesWithMemory(states: seq<State>, actions: seq<Action>, i: nat, id: string)
    requires IsRun(states, actions) && i < |states| && id in states[i].tasks
    ensures var t, r := states[i].tasks[id], Recovered(states[i].log, id);
            !BetweenRecordAndStatus(t.pc) ==>
              && Max(r.last, t.config.registered) == CursorOf(t)
              && r.delivered == t.status.delivered && r.deadLetters == t.status.deadLetters
  {
    RunKeeps(states, actions, i);
    var s := states[i];
    assert TaskInv(s.wal, s.committed, s.heard, ViewOf(s.log, id), s.posts, id, s.tasks[id]);
  }

  /** When nothing is left to hear and a worker is parked with no token, every
      committed event due to its hook is settled. */
  lemma QuiescentMeansSettled(s: State, id: string)
    requires Inv(s) && id in s.tasks && s.heard == s.committed
    requires var t := s.tasks[id]; t.pc == Idle(false) && !t.token && !t.stopping
    ensures var c := s.tasks[id].config;
            Terminals(s.log, id) == Due(c, s.wal, UpTo(s.wal, s.committed, c.registered), s.committed)
  {
    var t := s.tasks[id];
    assert TaskInv(s.wal, s.committed, s.heard, ViewOf(s.log, id), s.posts, id, t);
    assert LogInv(s.wal, s.committed, s.log, id);
    var u := UpTo(s.wal, s.committed, CursorOf(t));
    NothingDue(t.config, s.wal, u, s.committed);
    DueSplits(t.config, s.wal, UpTo(s.wal, s.committed, t.config.registered), u, s.committed);
  }

  lemma {:induction false} NothingDue(config: Config, wal: seq<Record>, a: nat, b: nat)
    requires a <= b <= |wal| && forall k :: a <= k < b ==> wal[k].event.run != config.run
    ensures Due(config, wal, a, b) == []
    decreases b
  {
    if a < b {
      NothingDue(config, wal, a, b - 1);
    }
  }

  // ------------------------------------------------------------ progress

  /** `actions` take `s` to `t`. */
  ghost predicate Leads(s: State, actions: seq<Action>, t: State)
    decreases |actions|
  {
    if actions == [] then s == t
    else Sane(s) && Enabled(s, actions[0]) && Leads(Do(s, actions[0]), actions[1..], t)
  }

  lemma LeadsOn(s: State, a: Action, rest: seq<Action>, t: State)
    requires Sane(s) && Enabled(s, a) && Leads(Do(s, a), rest, t)
    ensures Leads(s, [a] + rest, t)
  {
    assert ([a] + rest)[1..] == rest;
  }

  /** Work left for one worker when its reads, posts and appends succeed. */
  function Rank(wal: seq<Record>, n: nat, t: Task): int
    requires n <= |wal|
  {
    (if t.token then 20 * n + 100 else 0) +
    match t.pc
    case Idle(failed) => if failed then 20 * (n - UpTo(wal, n, CursorOf(t))) + 6 else 0
    case Load => 20 * (n - UpTo(wal, n, CursorOf(t))) + 5
    case _ =>
      var job := t.pc.job;
      if job.batch == [] then 0
      else
        20 * (n - Base(wal, n, job) - |job.batch|) + JobRank(t.pc)
  }

  /** Work left within the current batch. */
  function JobRank(pc: Pc): int
    requires HasJob(pc)
  {
    10 * (|pc.job.batch| - pc.job.i) +
    match pc
    case Scan(_) => 9
    case LogRetry(_, _, _) => 8
    case Try(_, _, _) => 7
    case LogTerminal(_, _, _) => 6
    case Settle(_, _, _) => 5
    case LogCheckpoint(_) => 8
    case Adopt(_) => 7
    case _ => 6
  }

  function Friendly(t: Task): Choice {
    match t.pc
    case Idle(failed) => if failed then Tick else Wake
    case Load => Done(true, None)
    case Scan(_) => Go
    case Settle(_, _, _) => Go
    case Adopt(_) => Go
    case MoveOffset(_) => Go
    case _ => Done(true, None)
  }

  predicate Parked(t: Task) { t.pc == Idle(false) && !t.token }

  lemma FriendlyStepRanks(wal: seq<Record>, n: nat, heard: nat, v: View, posts: seq<Post>, id: string, t: Task)
    requires heard <= n <= |wal| && Increasing(wal) && !Parked(t)
    requires TaskInv(wal, n, heard, v, posts, id, t)
    ensures var e := TaskStep(wal, n, id, t, Friendly(t));
            && e.Some? && e.value.task.Some?
            && e.value.task.value.stopping == t.stopping
            && Rank(wal, n, e.value.task.value) < Rank(wal, n, t)
  {
    hide PcInv, Covered, Registered, OffsetInv;
    match t.pc {
      case Idle(_) =>
      case Load => LoadRanks(wal, n, t);
      case MoveOffset(job) => MoveOffsetRanks(wal, n, v, posts, id, t, job);
      case _ =>
        JobStepRanks(wal, n, id, t);
        assert t.pc.job.batch != [];
    }
  }

  lemma MoveOffsetRanks(wal: seq<Record>, n: nat, v: View, posts: seq<Post>, id: string, t: Task, job: Job)
    requires n <= |wal| && Increasing(wal) && t.pc == MoveOffset(job) && PcInv(wal, n, v, posts, id, t)
    ensures Rank(wal, n, TaskStep(wal, n, id, t, Go).value.task.value) < Rank(wal, n, t)
  {
    EventAt(wal, n, job, job.i - 1);
  }

  /** Within a job, a step moves on in the same batch. */
  lemma JobStepRanks(wal: seq<Record>, n: nat, id: string, t: Task)
    requires n <= |wal| && HasJob(t.pc) && !t.pc.MoveOffset?
    ensures var e := TaskStep(wal, n, id, t, Friendly(t));
            && e.Some? && e.value.task.Some?
            && var t' := e.value.task.value;
               && t'.stopping == t.stopping && t'.token == t.token
               && HasJob(t'.pc) && t'.pc.job.batch == t.pc.job.batch
               && JobRank(t'.pc) < JobRank(t.pc)
  {
    hide Relevant, Oversize, SettledStatus;
  }

  lemma LoadRanks(wal: seq<Record>, n: nat, t: Task)
    requires n <= |wal| && Increasing(wal) && t.pc.Load? && OffsetInv(wal, n, t.offset, CursorOf(t))
    ensures Rank(wal, n, LoadStep(wal, n, t)) < Rank(wal, n, t)
  {
    hide UpTo, Pos, IndexAt, ReadFrom;
    var cursor := CursorOf(t);
    var u := UpTo(wal, n, cursor);
    var m := Min(u + REPLAY_BATCH, n);
    ReadIsSlice(wal, IndexAt(wal, n, t.offset).value, n, cursor, REPLAY_BATCH);
    if u < m {
      UpToOfRecord(wal, n, u);
      assert Events(wal, u, m)[0] == wal[u].event;
    }
  }

  lemma RankNonNegative(s: State, id: string)
    requires Inv(s) && id in s.tasks
    ensures Rank(s.wal, s.committed, s.tasks[id]) >= 0
  {
    assert TaskInv(s.wal, s.committed, s.heard, ViewOf(s.log, id), s.posts, id, s.tasks[id]);
  }

  /** A worker left to itself parks. */
  lemma {:induction false} WorkerParks(s: State, id: string) returns (actions: seq<Action>, t: State)
    requires Inv(s) && id in s.tasks
    ensures Leads(s, actions, t) && Inv(t)
    ensures id in t.tasks && Parked(t.tasks[id]) && t.tasks[id].stopping == s.tasks[id].stopping
    ensures t.wal == s.wal && t.committed == s.committed && t.heard == s.heard
    decreases Rank(s.wal, s.committed, s.tasks[id])
  {
    hide LogsOk, HooksOk, RecordsOk, UpTo, Due, Registered, IndexAt, Pos, ViewOf;
    if Parked(s.tasks[id]) {
      return [], s;
    }
    RankNonNegative(s, id);
    assert TaskInv(s.wal, s.committed, s.heard, ViewOf(s.log, id), s.posts, id, s.tasks[id]);
    FriendlyStepRanks(s.wal, s.committed, s.heard, ViewOf(s.log, id), s.posts, id, s.tasks[id]);
    var a := Work(id, Friendly(s.tasks[id]));
    StepKeeps(s, a, Do(s, a));
    var rest;
    rest, t := WorkerParks(Do(s, a), id);
    actions := [a] + rest;
    LeadsOn(s, a, rest, t);
  }

  /** The coordinator first catches up with everything committed; then the worker parks. */
  lemma {:induction false} CatchesUpAndParks(s: State, id: string) returns (actions: seq<Action>, t: State)
    requires Inv(s) && id in s.tasks && !s.tasks[id].stopping
    ensures Leads(s, actions, t) && Inv(t)
    ensures id in t.tasks && Parked(t.tasks[id]) && !t.tasks[id].stopping && t.heard == t.committed
    ensures t.wal == s.wal && t.committed == s.committed
    decreases s.committed - s.notified, s.notified - s.heard
  {
    hide Leads, LogsOk, HooksOk, TasksOk, RecordsOk, TaskStep;
    if s.heard == s.committed {
      actions, t := WorkerParks(s, id);
      return;
    }
    var a := if s.notified < s.committed then Notify else Hear;
    StepKeeps(s, a, Do(s, a));
    var rest;
    rest, t := CatchesUpAndParks(Do(s, a), id);
    actions := [a] + rest;
    LeadsOn(s, a, rest, t);
  }

  /** From every reachable state, however many failures came before, a schedule
      in which effects succeed settles every committed event due to a hook. */
  lemma EverythingCanSettle(states: seq<State>, actions: seq<Action>, i: nat, id: string)
    returns (more: seq<Action>, t: State)
    requires IsRun(states, actions) && i < |states| && id in states[i].tasks && !states[i].tasks[id].stopping
    ensures Leads(states[i], more, t) && Inv(t) && t.wal == states[i].wal && t.committed == states[i].committed
    ensures id in t.tasks
    ensures var c := t.tasks[id].config;
            Terminals(t.log, id) == Due(c, t.wal, UpTo(t.wal, t.committed, c.registered), t.committed)
  {
    RunKeeps(states, actions, i);
    more, t := CatchesUpAndParks(states[i], id);
    QuiescentMeansSettled(t, id);
  }
}
