/** What every step of the delivery protocol keeps. */
module DeliveryInvariant {
  import opened Wrappers
  import opened Timeline
  import opened DeliveryLog
  import opened DeliveryProtocol

  /** All that the delivery log says about one hook. */
  datatype View = View(terminals: seq<nat>, cursor: nat, delivered: nat, dead: nat)

  function ViewOf(log: seq<DeliveryRecord>, id: string): View {
    View(Terminals(log, id), Cursor(log, id), CountOf(log, id, Delivered), CountOf(log, id, DeadLetter))
  }

  function Fails(posts: seq<Post>, id: string, seqNo: nat): nat {
    if posts == [] then 0
    else
      var p := posts[|posts| - 1];
      Fails(posts[..|posts| - 1], id, seqNo) + if p.id == id && p.seqNo == seqNo && !p.ok then 1 else 0
  }

  // ------------------------------------------------------------ one hook

  ghost predicate WalInv(s: State) {
    && Sane(s) && Increasing(s.wal) && RegisteredOnce(s.wal)
    && forall k :: 0 <= k < |s.wal| ==> s.wal[k].event.seqNo <= U64_MAX
  }

  /** A cursor that does not run ahead of the first `n` records. */
  predicate Within(wal: seq<Record>, n: nat, cursor: nat)
    requires n <= |wal|
  {
    n > 0 && cursor <= wal[n - 1].event.seqNo
  }

  /** The hook's terminal records are exactly the events due after its
      registration, up to its durable cursor, in order. */
  ghost predicate SettledExactly(wal: seq<Record>, n: nat, config: Config, v: View)
    requires n <= |wal|
  {
    var cursor := Max(v.cursor, config.registered);
    && Within(wal, n, cursor)
    && UpTo(wal, n, config.registered) <= UpTo(wal, n, cursor)
    && v.terminals == Due(config, wal, UpTo(wal, n, config.registered), UpTo(wal, n, cursor))
  }

  const BLANK: View := View([], 0, 0, 0)

  ghost predicate LogInv(wal: seq<Record>, n: nat, log: seq<DeliveryRecord>, id: string)
    requires n <= |wal|
  {
    match Registered(wal, n, id)
    case None => ViewOf(log, id) == BLANK
    case Some(config) => SettledExactly(wal, n, config, ViewOf(log, id))
  }

  /** The remembered offset starts a record at or before the cursor. */
  predicate OffsetInv(wal: seq<Record>, n: nat, offset: nat, cursor: nat)
    requires n <= |wal|
  {
    var at := IndexAt(wal, n, offset);
    at.Some? && at.value <= UpTo(wal, n, cursor)
  }

  /** Memory agrees with what a restart would recover. */
  predicate InStep(t: Task, v: View) {
    && CursorOf(t) == Max(v.cursor, t.config.registered)
    && t.status.delivered == Sat(v.delivered)
    && t.status.deadLetters == Sat(v.dead)
  }

  /** The index in the WAL of a batch's first event. */
  function Base(wal: seq<Record>, n: nat, job: Job): int
    requires n <= |wal| && job.batch != []
  {
    UpTo(wal, n, job.batch[0].seqNo) - 1
  }

  ghost predicate JobInv(wal: seq<Record>, n: nat, job: Job)
    requires n <= |wal|
  {
    && job.batch != [] && job.i <= |job.batch|
    && var b := Base(wal, n, job);
       && 0 <= b <= b + |job.batch| <= n
       && job.batch == Events(wal, b, b + |job.batch|)
       && job.next == Pos(wal, b + |job.batch|)
  }

  /** Nothing due lies between the cursor and the current event. */
  ghost predicate NothingSkipped(wal: seq<Record>, n: nat, t: Task, job: Job)
    requires n <= |wal| && JobInv(wal, n, job)
  {
    var u, at := UpTo(wal, n, CursorOf(t)), Base(wal, n, job) + job.i;
    u <= at && Due(t.config, wal, u, at) == []
  }

  /** At an event: it is the current one, it is due, and it fits the loop. */
  ghost predicate AtEvent(wal: seq<Record>, n: nat, t: Task, job: Job)
    requires n <= |wal|
  {
    && JobInv(wal, n, job) && job.i < |job.batch|
    && job.scanned == job.batch[job.i].seqNo
    && Relevant(t.config, job.batch[job.i])
  }

  ghost predicate PcInv(wal: seq<Record>, n: nat, v: View, posts: seq<Post>, id: string, t: Task)
    requires n <= |wal|
  {
    match t.pc
    case Idle(_) => InStep(t, v)
    case Load => InStep(t, v)
    case Scan(job) =>
      && InStep(t, v) && JobInv(wal, n, job) && NothingSkipped(wal, n, t, job)
      && (job.i > 0 ==> CursorOf(t) <= job.scanned == job.batch[job.i - 1].seqNo)
    case Try(job, attempt, _) =>
      && InStep(t, v) && AtEvent(wal, n, t, job) && NothingSkipped(wal, n, t, job)
      && 1 <= attempt <= MAX_ATTEMPTS && attempt - 1 <= Fails(posts, id, job.scanned) && !Oversize(job.batch[job.i])
    case LogRetry(job, attempt, _) =>
      && InStep(t, v) && AtEvent(wal, n, t, job) && NothingSkipped(wal, n, t, job)
      && 1 <= attempt < MAX_ATTEMPTS && attempt <= Fails(posts, id, job.scanned) && !Oversize(job.batch[job.i])
    case LogTerminal(job, delivered, _) =>
      && InStep(t, v) && AtEvent(wal, n, t, job) && NothingSkipped(wal, n, t, job)
      && (if delivered then Post(id, job.scanned, true) in posts
          else Oversize(job.batch[job.i]) || MAX_ATTEMPTS <= Fails(posts, id, job.scanned))
    case Settle(job, delivered, _) =>
      && AtEvent(wal, n, t, job)
      && CursorOf(t) < job.scanned && v.cursor == job.scanned
      && Sat(v.delivered) == (if delivered then SaturatingAdd(t.status.delivered, 1) else t.status.delivered)
      && Sat(v.dead) == (if delivered then t.status.deadLetters else SaturatingAdd(t.status.deadLetters, 1))
    case LogCheckpoint(job) =>
      && InStep(t, v) && JobInv(wal, n, job) && job.i == |job.batch| && NothingSkipped(wal, n, t, job)
      && CursorOf(t) <= job.scanned == job.batch[job.i - 1].seqNo
    case Adopt(job) =>
      && JobInv(wal, n, job) && job.i == |job.batch| && job.scanned == job.batch[job.i - 1].seqNo
      && v.cursor == job.scanned && CursorOf(t) <= job.scanned
      && t.status.delivered == Sat(v.delivered) && t.status.deadLetters == Sat(v.dead)
    case MoveOffset(job) =>
      && InStep(t, v) && JobInv(wal, n, job) && job.i == |job.batch|
      && CursorOf(t) == job.scanned == job.batch[job.i - 1].seqNo
  }

  /** From `from` on, every event of the hook's run the coordinator has heard
      of has left a token in the wake channel. */
  ghost predicate Covered(wal: seq<Record>, heard: nat, t: Task, from: int)
    requires heard <= |wal|
  {
    t.stopping || t.token || forall k :: from <= k < heard && 0 <= k ==> wal[k].event.run != t.config.run
  }

  predicate HasJob(pc: Pc) { !pc.Idle? && !pc.Load? }

  /** No lost wake-ups: a worker that is parked, or will park without reading
      again, has seen or been told of everything the coordinator heard. */
  ghost predicate WakeInv(wal: seq<Record>, n: nat, heard: nat, t: Task)
    requires heard <= n <= |wal|
  {
    if t.pc.Idle? then !t.pc.failed ==> Covered(wal, heard, t, UpTo(wal, n, CursorOf(t)))
    else if t.pc.Load? then true
    else
      && t.pc.job.batch != []
      && (!t.pc.job.full ==> Covered(wal, heard, t, Base(wal, n, t.pc.job) + |t.pc.job.batch|))
  }

  ghost predicate TaskInv(wal: seq<Record>, n: nat, heard: nat, v: View, posts: seq<Post>, id: string, t: Task)
    requires heard <= n <= |wal|
  {
    && Registered(wal, n, id) == Some(t.config)
    && Within(wal, n, CursorOf(t))
    && OffsetInv(wal, n, t.offset, CursorOf(t))
    && PcInv(wal, n, v, posts, id, t)
    && WakeInv(wal, n, heard, t)
  }

  // ------------------------------------------------------------ all hooks

  ghost predicate HookInv(s: State, id: string)
    requires id in s.hooks
  {
    var hook := s.hooks[id];
    if hook.active then id in s.tasks && !s.tasks[id].stopping && s.tasks[id].config == hook.config
    else
      && id !in s.tasks
      && ViewOf(s.log, id) == BLANK
      && match Registered(s.wal, |s.wal|, id)
         case None => true
         case Some(config) => config.run == hook.config.run && config.kinds == hook.config.kinds
  }

  /** Each record in the log was earned. */
  ghost predicate Earned(wal: seq<Record>, n: nat, posts: seq<Post>, r: DeliveryRecord)
    requires n <= |wal|
  {
    exists k :: 0 <= k < n && wal[k].event.seqNo == r.seqNo &&
      match r.state
      case Delivered => Post(r.id, r.seqNo, true) in posts
      case DeadLetter => Oversize(wal[k].event) || MAX_ATTEMPTS <= Fails(posts, r.id, r.seqNo)
      case Retry => 1 <= Fails(posts, r.id, r.seqNo)
      case Checkpoint => true
  }

  ghost predicate LogsOk(s: State) requires Sane(s) {
    forall id :: LogInv(s.wal, s.committed, s.log, id)
  }

  ghost predicate HooksOk(s: State) requires Sane(s) {
    && |s.hooks| <= MAX_WEBHOOKS
    && (forall id :: id in s.hooks ==> HookInv(s, id))
    && (forall id :: id in s.tasks && !s.tasks[id].stopping ==> id in s.hooks && s.hooks[id].active)
  }

  ghost predicate TasksOk(s: State) requires Sane(s) {
    forall id :: id in s.tasks ==>
      TaskInv(s.wal, s.committed, s.heard, ViewOf(s.log, id), s.posts, id, s.tasks[id])
  }

  ghost predicate RecordsOk(s: State) requires Sane(s) {
    forall k :: 0 <= k < |s.log| ==> Earned(s.wal, s.committed, s.posts, s.log[k])
  }

  ghost predicate Inv(s: State) {
    WalInv(s) && LogsOk(s) && HooksOk(s) && TasksOk(s) && RecordsOk(s)
  }

  // ------------------------------------------------------------ frames

  lemma ViewOfAppend(log: seq<DeliveryRecord>, r: DeliveryRecord, id: string)
    ensures var v, w := ViewOf(log, id), ViewOf(log + [r], id);
            if r.id != id then w == v
            else w == View(v.terminals + if Terminal(r.state) then [r.seqNo] else [],
                           if r.state.Retry? then v.cursor else Max(v.cursor, r.seqNo),
                           v.delivered + if r.state.Delivered? then 1 else 0,
                           v.dead + if r.state.DeadLetter? then 1 else 0)
  {
    assert (log + [r])[..|log|] == log;
  }

  lemma FailsAppend(posts: seq<Post>, p: Post, id: string, seqNo: nat)
    ensures Fails(posts + [p], id, seqNo)
            == Fails(posts, id, seqNo) + if p.id == id && p.seqNo == seqNo && !p.ok then 1 else 0
  {
    assert (posts + [p])[..|posts|] == posts;
  }

  /** Same records below `n`: same answers below `n`. */
  ghost predicate SameBelow(p: seq<Record>, q: seq<Record>, n: nat) {
    n <= |p| && n <= |q| && forall k :: 0 <= k < n ==> p[k] == q[k]
  }

  lemma {:induction false} UpToStable(p: seq<Record>, q: seq<Record>, n: nat, m: nat, cursor: nat)
    requires SameBelow(p, q, n) && n <= m <= |q| && Increasing(p) && Increasing(q)
    requires Within(p, n, cursor)
    ensures UpTo(q, m, cursor) == UpTo(p, n, cursor) && Within(q, m, cursor)
  {
    UpToSplits(p, n, cursor);
    assert q[n - 1] == p[n - 1];
    assert m > n ==> q[n - 1].event.seqNo < q[m - 1].event.seqNo;
    UpToIs(q, m, cursor, UpTo(p, n, cursor));
  }

  lemma OffsetStable(p: seq<Record>, q: seq<Record>, n: nat, m: nat, offset: nat, cursor: nat)
    requires SameBelow(p, q, n) && n <= m <= |q| && Increasing(p) && Increasing(q)
    requires Within(p, n, cursor) && OffsetInv(p, n, offset, cursor)
    ensures OffsetInv(q, m, offset, cursor)
  {
    UpToStable(p, q, n, m, cursor);
    var j := IndexAt(p, n, offset).value;
    assert p[..j] == q[..j];
    PosOfPrefix(p, q, j);
    IndexAtBoundary(q, m, j);
  }

  lemma JobStable(p: seq<Record>, q: seq<Record>, n: nat, m: nat, job: Job)
    requires SameBelow(p, q, n) && n <= m <= |q| && Increasing(p) && Increasing(q)
    requires JobInv(p, n, job)
    ensures JobInv(q, m, job) && Base(q, m, job) == Base(p, n, job)
  {
    var b := Base(p, n, job);
    assert Events(p, b, b + |job.batch|) == Events(q, b, b + |job.batch|);
    assert job.batch[0] == p[b].event;
    UpToOfRecord(q, m, b);
    assert p[..b + |job.batch|] == q[..b + |job.batch|];
    PosOfPrefix(p, q, b + |job.batch|);
  }

  lemma DueStable(p: seq<Record>, q: seq<Record>, n: nat, config: Config, a: nat, b: nat)
    requires SameBelow(p, q, n) && a <= b <= n
    ensures Due(config, p, a, b) == Due(config, q, a, b)
  {
    DueOfPrefix(config, p, q, a, b);
  }

  lemma SkippedStable(p: seq<Record>, q: seq<Record>, n: nat, m: nat, t: Task, job: Job)
    requires SameBelow(p, q, n) && n <= m <= |q| && Increasing(p) && Increasing(q)
    requires Within(p, n, CursorOf(t)) && JobInv(p, n, job)
    ensures JobInv(q, m, job)
    ensures AtEvent(p, n, t, job) ==> AtEvent(q, m, t, job)
    ensures NothingSkipped(p, n, t, job) ==> NothingSkipped(q, m, t, job)
  {
    hide UpTo, Due, Relevant, Pos;
    JobStable(p, q, n, m, job);
    UpToStable(p, q, n, m, CursorOf(t));
    var at := Base(p, n, job) + job.i;
    if UpTo(p, n, CursorOf(t)) <= at {
      DueStable(p, q, n, t.config, UpTo(p, n, CursorOf(t)), at);
    }
  }

  lemma PcStable(p: seq<Record>, q: seq<Record>, n: nat, m: nat, v: View, posts: seq<Post>, id: string, t: Task)
    requires SameBelow(p, q, n) && n <= m <= |q| && Increasing(p) && Increasing(q)
    requires Within(p, n, CursorOf(t)) && PcInv(p, n, v, posts, id, t)
    ensures PcInv(q, m, v, posts, id, t)
  {
    if HasJob(t.pc) {
      SkippedStable(p, q, n, m, t, t.pc.job);
    }
  }

  /** A growing or truncated log file above the committed prefix changes nothing for a worker. */
  lemma TaskStable(p: seq<Record>, q: seq<Record>, n: nat, m: nat, heard: nat, v: View, posts: seq<Post>, id: string,
                   t: Task)
    requires SameBelow(p, q, n) && n <= m <= |q| && Increasing(p) && Increasing(q)
    requires heard <= n && TaskInv(p, n, heard, v, posts, id, t)
    ensures TaskInv(q, m, heard, v, posts, id, t)
  {
    RegisteredOfPrefix(p, q, n, id);
    RegisteredStays(q, n, m, id);
    UpToStable(p, q, n, m, CursorOf(t));
    OffsetStable(p, q, n, m, t.offset, CursorOf(t));
    PcStable(p, q, n, m, v, posts, id, t);
    if HasJob(t.pc) {
      JobStable(p, q, n, m, t.pc.job);
    }
  }

  lemma LogStable(p: seq<Record>, q: seq<Record>, n: nat, m: nat, log: seq<DeliveryRecord>, id: string)
    requires SameBelow(p, q, n) && n <= m <= |q| && Increasing(p) && Increasing(q)
    requires LogInv(p, n, log, id)
    ensures LogInv(q, m, log, id)
  {
    RegisteredOfPrefix(p, q, n, id);
    RegisteredStays(q, n, m, id);
    match Registered(p, n, id) {
      case None =>
        if Registered(q, m, id).Some? {
          FreshHookSettled(q, m, id, ViewOf(log, id));
        }
      case Some(config) =>
        var cursor := Max(Cursor(log, id), config.registered);
        UpToStable(p, q, n, m, cursor);
        UpToStable(p, q, n, m, config.registered);
        DueStable(p, q, n, config, UpTo(p, n, config.registered), UpTo(p, n, cursor));
    }
  }

  /** Right after registration nothing is due. */
  lemma FreshHookSettled(wal: seq<Record>, n: nat, id: string, v: View)
    requires Increasing(wal) && n <= |wal| && Registered(wal, n, id).Some? && v == BLANK
    ensures SettledExactly(wal, n, Registered(wal, n, id).value, v)
  {
    var k := RegisteredWithin(wal, n, id);
    assert k < n - 1 ==> wal[k].event.seqNo < wal[n - 1].event.seqNo;
  }

  lemma EarnedStable(p: seq<Record>, q: seq<Record>, n: nat, m: nat, posts: seq<Post>, r: DeliveryRecord)
    requires SameBelow(p, q, n) && n <= m <= |q| && Earned(p, n, posts, r)
    ensures Earned(q, m, posts, r)
  {
    var k :| 0 <= k < n && p[k].event.seqNo == r.seqNo &&
      match r.state
      case Delivered => Post(r.id, r.seqNo, true) in posts
      case DeadLetter => Oversize(p[k].event) || MAX_ATTEMPTS <= Fails(posts, r.id, r.seqNo)
      case Retry => 1 <= Fails(posts, r.id, r.seqNo)
      case Checkpoint => true;
    assert q[k] == p[k];
  }

  lemma EarnedMorePosts(wal: seq<Record>, n: nat, posts: seq<Post>, p: Post, r: DeliveryRecord)
    requires n <= |wal| && Earned(wal, n, posts, r)
    ensures Earned(wal, n, posts + [p], r)
  {
    FailsAppend(posts, p, r.id, r.seqNo);
  }

  lemma TaskMorePosts(wal: seq<Record>, n: nat, heard: nat, v: View, posts: seq<Post>, p: Post, id: string, t: Task)
    requires heard <= n <= |wal| && TaskInv(wal, n, heard, v, posts, id, t)
    ensures TaskInv(wal, n, heard, v, posts + [p], id, t)
  {
    if HasJob(t.pc) {
      FailsAppend(posts, p, id, t.pc.job.scanned);
    }
  }
}
