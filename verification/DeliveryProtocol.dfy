/** Webhook delivery as a step relation: one timeline writer, the broadcast
    ring, the coordinator, and one worker task per hook, interleaved step by
    step with failed appends, failed reads and crashes
    (crates/vidarax-api/src/delivery.rs). */
module DeliveryProtocol {
  import opened Wrappers
  import opened Timeline
  import opened DeliveryLog

  const MAX_ATTEMPTS: nat := 3
  const MAX_WEBHOOKS: nat := 64

  /** One POST that reached its verdict. Posts are history: no code reads them. */
  datatype Post = Post(id: string, seqNo: nat, ok: bool)

  /** The locals of one replayed batch: the events, the index of the current
      one, `scanned_to`, whether the batch was full, and the next byte offset. */
  datatype Job = Job(batch: seq<Event>, i: nat, scanned: nat, full: bool, next: nat)

  /** Where a worker stands between two of its effects. */
  datatype Pc =
    | Idle(failed: bool)
    | Load
    | Scan(job: Job)
    | Try(job: Job, attempt: nat, error: Option<string>)
    | LogRetry(job: Job, attempt: nat, error: Option<string>)
    | LogTerminal(job: Job, delivered: bool, error: Option<string>)
    | Settle(job: Job, delivered: bool, error: Option<string>)
    | LogCheckpoint(job: Job)
    | Adopt(job: Job)
    | MoveOffset(job: Job)

  /** A worker task: its configuration, shared status, byte offset, the token
      in its capacity-1 wake channel, and whether its hook was removed. */
  datatype Task = Task(config: Config, status: Status, offset: nat, token: bool, stopping: bool, pc: Pc)

  datatype Hook = Hook(config: Config, active: bool)

  datatype State = State(
    wal: seq<Record>,        // file contents, synced or not
    committed: nat,          // records below the published committed_end
    notified: nat,           // records whose notification was sent
    heard: nat,              // notifications the coordinator consumed or skipped
    log: seq<DeliveryRecord>,
    posts: seq<Post>,
    hooks: map<string, Hook>,
    tasks: map<string, Task>)

  const EMPTY: State := State([], 0, 0, 0, [], [], map[], map[])

  function CursorOf(t: Task): nat { Max(t.status.last, t.config.registered) }

  function NewTask(config: Config, status: Status): Task {
    Task(config, status, 0, false, false, Load)
  }

  // ------------------------------------------------------------ worker steps

  /** How the environment answers: nothing to ask, the verdict of a read, POST
      or append, or which branch of the select fires. */
  datatype Choice = Go | Done(ok: bool, error: Option<string>) | Wake | Tick | Quit

  /** A worker step: the task afterwards (None once it returned), records
      appended to the delivery log, and posts made. */
  datatype Effect = Effect(task: Option<Task>, log: seq<DeliveryRecord>, posts: seq<Post>)

  function To(t: Task): Option<Effect> { Some(Effect(Some(t), [], [])) }

  function Wrote(t: Task, r: DeliveryRecord): Option<Effect> { Some(Effect(Some(t), [r], [])) }

  function Failed(t: Task, error: Option<string>): Option<Effect> {
    To(t.(pc := Idle(true), status := t.status.(lastError := error)))
  }

  function Oversize(e: Event): bool { e.payload.bytes > MAX_WEBHOOK_BODY_BYTES }

  const TOO_LARGE: Option<string> := Some("webhook event body exceeds 1048576 bytes")

  /** Top of the replay loop: read from the remembered offset up to the
      published end. */
  function LoadStep(wal: seq<Record>, n: nat, t: Task): Task
    requires n <= |wal|
  {
    var cursor := CursorOf(t);
    match ReadFrom(wal, cursor, REPLAY_BATCH, t.offset, Pos(wal, n))
    case Corrupt => t.(pc := Idle(true), status := t.status.(lastError := Some("webhook WAL replay failed")))
    case Batch(events, next) =>
      if events == [] then t.(offset := next, pc := Idle(false))
      else t.(pc := Scan(Job(events, 0, cursor, |events| == REPLAY_BATCH, next)))
  }

  /** Head of the loop over the batch. */
  function ScanStep(t: Task, job: Job): Task {
    if job.i >= |job.batch| then t.(pc := LogCheckpoint(job))
    else
      var e := job.batch[job.i];
      var at := job.(scanned := e.seqNo);
      if !Relevant(t.config, e) then t.(pc := Scan(at.(i := at.i + 1)))
      else if Oversize(e) then t.(pc := LogTerminal(at, false, TOO_LARGE))
      else t.(pc := Try(at, 1, None))
  }

  function SettledStatus(s: Status, seqNo: nat, delivered: bool, error: Option<string>): Status {
    if delivered then Status(seqNo, SaturatingAdd(s.delivered, 1), s.deadLetters, None)
    else Status(seqNo, s.delivered, SaturatingAdd(s.deadLetters, 1), error)
  }

  function TaskStep(wal: seq<Record>, n: nat, id: string, t: Task, choice: Choice): Option<Effect>
    requires n <= |wal|
  {
    match t.pc
    case Idle(failed) =>
      if choice.Wake? && t.token then To(t.(token := false, pc := Load))
      else if choice.Tick? && failed then To(t.(pc := Load))
      else if choice.Quit? && t.stopping then Some(Effect(None, [], []))
      else None
    case Load =>
      if !choice.Done? then None
      else if choice.ok then To(LoadStep(wal, n, t))
      else Failed(t, choice.error)
    case Scan(job) =>
      if choice.Go? then To(ScanStep(t, job)) else None
    case Try(job, attempt, error) =>
      if !choice.Done? then None
      else
        var next :=
          if choice.ok then LogTerminal(job, true, error)
          else if attempt < MAX_ATTEMPTS then LogRetry(job, attempt, choice.error)
          else LogTerminal(job, false, choice.error);
        Some(Effect(Some(t.(pc := next)), [], [Post(id, job.scanned, choice.ok)]))
    case LogRetry(job, attempt, error) =>
      if !choice.Done? then None
      else if choice.ok then
        Wrote(t.(pc := Try(job, attempt + 1, error)), DeliveryRecord(id, job.scanned, Retry, error))
      else Failed(t, choice.error)
    case LogTerminal(job, delivered, error) =>
      if !choice.Done? then None
      else if choice.ok then
        Wrote(t.(pc := Settle(job, delivered, error)),
              DeliveryRecord(id, job.scanned, if delivered then Delivered else DeadLetter, error))
      else Failed(t, choice.error)
    case Settle(job, delivered, error) =>
      if choice.Go? then
        To(t.(status := SettledStatus(t.status, job.scanned, delivered, error), pc := Scan(job.(i := job.i + 1))))
      else None
    case LogCheckpoint(job) =>
      if !choice.Done? then None
      else if choice.ok then Wrote(t.(pc := Adopt(job)), DeliveryRecord(id, job.scanned, Checkpoint, None))
      else Failed(t, choice.error)
    case Adopt(job) =>
      if choice.Go? then To(t.(status := t.status.(last := job.scanned), pc := MoveOffset(job))) else None
    case MoveOffset(job) =>
      if choice.Go? then To(t.(offset := job.next, pc := if job.full then Load else Idle(false))) else None
  }

  // ------------------------------------------------------------ all steps

  datatype Action =
    | Stage(record: Record)
    | Commit
    | Notify
    | Hear
    | Reserve(id: string, config: Config)
    | Activate(id: string)
    | Remove(id: string)
    | Work(id: string, choice: Choice)
    | Crash(survivors: nat, restored: set<string>)

  predicate Sane(s: State) {
    s.heard <= s.notified <= s.committed <= |s.wal|
  }

  /** The writer may stage a record only with a fresh, larger u64 sequence number;
      a hook registration only for the hook that reserved its id. */
  predicate MayStage(s: State, r: Record) {
    var e := r.event;
    && r.size > 0 && e.seqNo <= U64_MAX
    && (s.wal != [] ==> s.wal[|s.wal| - 1].event.seqNo < e.seqNo)
    && (e.payload.webhookId.Some? && IsRegistration(e, e.payload.webhookId.value) ==>
          var id := e.payload.webhookId.value;
          && Registered(s.wal, |s.wal|, id) == None
          && id in s.hooks && !s.hooks[id].active
          && s.hooks[id].config.run == e.run && s.hooks[id].config.kinds == e.payload.kinds)
  }

  predicate Enabled(s: State, a: Action)
    requires Sane(s)
  {
    match a
    case Stage(record) => MayStage(s, record)
    case Commit => true
    case Notify => s.notified < s.committed
    case Hear => s.heard < s.notified
    case Reserve(id, _) =>
      |s.hooks| < MAX_WEBHOOKS && id !in s.hooks && id !in s.tasks && Registered(s.wal, |s.wal|, id) == None
    case Activate(id) =>
      id in s.hooks && !s.hooks[id].active && Registered(s.wal, s.committed, id).Some?
    case Remove(id) => id in s.hooks
    case Work(id, choice) => id in s.tasks && TaskStep(s.wal, s.committed, id, s.tasks[id], choice).Some?
    case Crash(survivors, restored) =>
      s.committed <= survivors <= |s.wal| && restored <= Configs(s.wal, survivors).Keys && |restored| <= MAX_WEBHOOKS
  }

  /** A receiver more than the ring's capacity behind is told it lagged and
      moves to the oldest retained notification. */
  predicate Lagged(heard: nat, notified: nat) { notified > heard + BROADCAST_CAP }

  predicate Wakes(s: State, id: string)
    requires s.heard < s.notified <= |s.wal|
  {
    && id in s.hooks && s.hooks[id].active
    && (Lagged(s.heard, s.notified) || s.hooks[id].config.run == s.wal[s.heard].event.run)
  }

  function Woken(s: State): map<string, Task>
    requires s.heard < s.notified <= |s.wal|
  {
    map id | id in s.tasks :: if Wakes(s, id) then s.tasks[id].(token := true) else s.tasks[id]
  }

  function Restarted(s: State, n: nat, restored: set<string>): State
    requires n <= |s.wal| && restored <= Configs(s.wal, n).Keys
  {
    var configs := Configs(s.wal, n);
    State(s.wal[..n], n, n, n, s.log, s.posts,
          map id | id in restored :: Hook(configs[id], true),
          map id | id in restored :: NewTask(configs[id], Recovered(s.log, id)))
  }

  function Do(s: State, a: Action): State
    requires Sane(s) && Enabled(s, a)
  {
    match a
    case Stage(record) => s.(wal := s.wal + [record])
    case Commit => s.(committed := |s.wal|)
    case Notify => s.(notified := s.notified + 1)
    case Hear =>
      s.(heard := if Lagged(s.heard, s.notified) then s.notified - BROADCAST_CAP else s.heard + 1, tasks := Woken(s))
    case Reserve(id, config) => s.(hooks := s.hooks[id := Hook(config, false)])
    case Activate(id) =>
      var config := s.hooks[id].config.(registered := Registered(s.wal, s.committed, id).value.registered);
      s.(hooks := s.hooks[id := Hook(config, true)],
         tasks := s.tasks[id := NewTask(config, FRESH.(last := config.registered))])
    case Remove(id) =>
      s.(hooks := s.hooks - {id},
         tasks := if id in s.tasks then s.tasks[id := s.tasks[id].(stopping := true)] else s.tasks)
    case Work(id, choice) =>
      var effect := TaskStep(s.wal, s.committed, id, s.tasks[id], choice).value;
      s.(tasks := if effect.task.Some? then s.tasks[id := effect.task.value] else s.tasks - {id},
         log := s.log + effect.log, posts := s.posts + effect.posts)
    case Crash(survivors, restored) => Restarted(s, survivors, restored)
  }

  ghost predicate Step(s: State, a: Action, s': State) {
    Sane(s) && Enabled(s, a) && s' == Do(s, a)
  }

  /** A run: each state follows from the one before by the matching action. */
  ghost predicate IsRun(states: seq<State>, actions: seq<Action>) {
    && |states| == |actions| + 1
    && states[0] == EMPTY
    && forall k :: 0 <= k < |actions| ==> Step(states[k], actions[k], states[k + 1])
  }
}
