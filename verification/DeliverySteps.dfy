/** Each worker step keeps the worker's invariant and the hook's part of the log. */
module DeliverySteps {
  import opened Wrappers
  import opened Timeline
  import opened DeliveryLog
  import opened DeliveryProtocol
  import opened DeliveryInvariant

  // ------------------------------------------------------------ inside a job

  lemma EventAt(wal: seq<Record>, n: nat, job: Job, i: nat)
    requires n <= |wal| && Increasing(wal) && JobInv(wal, n, job) && i < |job.batch|
    ensures var k := Base(wal, n, job) + i;
            0 <= k < n && wal[k].event == job.batch[i] && UpTo(wal, n, job.batch[i].seqNo) == k + 1
            && Within(wal, n, job.batch[i].seqNo)
  {
    var k := Base(wal, n, job) + i;
    UpToOfRecord(wal, n, k);
    assert k < n - 1 ==> wal[k].event.seqNo < wal[n - 1].event.seqNo;
  }

  /** A job's other fields move without touching what ties it to the log. */
  lemma JobMoved(wal: seq<Record>, n: nat, job: Job, next: Job)
    requires n <= |wal| && JobInv(wal, n, job)
    requires next.batch == job.batch && next.next == job.next && next.i <= |job.batch|
    ensures JobInv(wal, n, next) && Base(wal, n, next) == Base(wal, n, job)
  {
  }

  lemma NothingDueAt(wal: seq<Record>, n: nat, t: Task, job: Job)
    requires n <= |wal| && Increasing(wal) && JobInv(wal, n, job) && job.i < |job.batch|
    requires NothingSkipped(wal, n, t, job)
    ensures CursorOf(t) < job.batch[job.i].seqNo
    ensures !Relevant(t.config, job.batch[job.i]) ==>
      Due(t.config, wal, UpTo(wal, n, CursorOf(t)), Base(wal, n, job) + job.i + 1) == []
  {
    EventAt(wal, n, job, job.i);
    if CursorOf(t) >= job.batch[job.i].seqNo {
      UpToMonotone(wal, n, job.batch[job.i].seqNo, CursorOf(t));
      assert false;
    }
  }

  lemma SettledOneMore(wal: seq<Record>, n: nat, t: Task, job: Job, v: View, w: View)
    requires n <= |wal| && Increasing(wal) && SettledExactly(wal, n, t.config, v)
    requires AtEvent(wal, n, t, job) && NothingSkipped(wal, n, t, job)
    requires CursorOf(t) == Max(v.cursor, t.config.registered)
    requires w.terminals == v.terminals + [job.scanned] && w.cursor == Max(v.cursor, job.scanned)
    ensures CursorOf(t) < job.scanned && w.cursor == job.scanned
    ensures SettledExactly(wal, n, t.config, w)
  {
    EventAt(wal, n, job, job.i);
    NothingDueAt(wal, n, t, job);
    var a, u, at := UpTo(wal, n, t.config.registered), UpTo(wal, n, CursorOf(t)), Base(wal, n, job) + job.i;
    DueSplits(t.config, wal, a, u, at);
    assert Due(t.config, wal, a, at + 1) == Due(t.config, wal, a, at) + [job.scanned];
  }

  lemma SettledCheckpoint(wal: seq<Record>, n: nat, t: Task, job: Job, v: View, w: View)
    requires n <= |wal| && Increasing(wal) && SettledExactly(wal, n, t.config, v)
    requires JobInv(wal, n, job) && job.i == |job.batch| && job.scanned == job.batch[job.i - 1].seqNo
    requires NothingSkipped(wal, n, t, job)
    requires CursorOf(t) == Max(v.cursor, t.config.registered) && CursorOf(t) <= job.scanned
    requires w.terminals == v.terminals && w.cursor == Max(v.cursor, job.scanned)
    ensures Max(w.cursor, t.config.registered) == job.scanned
    ensures SettledExactly(wal, n, t.config, w)
  {
    EventAt(wal, n, job, job.i - 1);
    var a, u, at := UpTo(wal, n, t.config.registered), UpTo(wal, n, CursorOf(t)), Base(wal, n, job) + job.i;
    DueSplits(t.config, wal, a, u, at);
  }

  // ------------------------------------------------------------ program counters

  lemma SkipKeeps(wal: seq<Record>, n: nat, v: View, posts: seq<Post>, id: string, t: Task, job: Job)
    requires n <= |wal| && Increasing(wal) && t.pc == Scan(job) && job.i < |job.batch|
    requires PcInv(wal, n, v, posts, id, t) && !Relevant(t.config, job.batch[job.i])
    ensures PcInv(wal, n, v, posts, id, ScanStep(t, job))
  {
    NothingDueAt(wal, n, t, job);
    JobMoved(wal, n, job, job.(scanned := job.batch[job.i].seqNo, i := job.i + 1));
  }

  lemma StopKeeps(wal: seq<Record>, n: nat, v: View, posts: seq<Post>, id: string, t: Task, job: Job)
    requires n <= |wal| && Increasing(wal) && t.pc == Scan(job) && job.i < |job.batch|
    requires PcInv(wal, n, v, posts, id, t) && Relevant(t.config, job.batch[job.i])
    ensures PcInv(wal, n, v, posts, id, ScanStep(t, job))
  {
    hide UpTo, Due, Pos, Registered, IndexAt, Fails, ReadFrom, Relevant;
    var at := job.(scanned := job.batch[job.i].seqNo);
    JobMoved(wal, n, job, at);
    assert AtEvent(wal, n, t, at) && NothingSkipped(wal, n, t, at);
  }

  lemma ScanKeeps(wal: seq<Record>, n: nat, v: View, posts: seq<Post>, id: string, t: Task, job: Job)
    requires n <= |wal| && Increasing(wal) && t.pc == Scan(job)
    requires PcInv(wal, n, v, posts, id, t)
    ensures PcInv(wal, n, v, posts, id, ScanStep(t, job))
  {
    if job.i >= |job.batch| {
    } else if Relevant(t.config, job.batch[job.i]) {
      StopKeeps(wal, n, v, posts, id, t, job);
    } else {
      SkipKeeps(wal, n, v, posts, id, t, job);
    }
  }

  lemma TryKeeps(wal: seq<Record>, n: nat, v: View, posts: seq<Post>, id: string, t: Task, job: Job, attempt: nat,
                 p: Post, next: Pc, error: Option<string>)
    requires n <= |wal| && t.pc == Try(job, attempt, error)
    requires PcInv(wal, n, v, posts, id, t)
    requires p.id == id && p.seqNo == job.scanned
    requires || (p.ok && next.LogTerminal? && next.delivered && next.job == job)
             || (!p.ok && attempt < MAX_ATTEMPTS && next.LogRetry? && next.job == job && next.attempt == attempt)
             || (!p.ok && attempt >= MAX_ATTEMPTS && next.LogTerminal? && !next.delivered && next.job == job)
    ensures PcInv(wal, n, v, posts + [p], id, t.(pc := next))
  {
    FailsAppend(posts, p, id, job.scanned);
    assert p in posts + [p];
    var t' := t.(pc := next);
    assert AtEvent(wal, n, t', job) && NothingSkipped(wal, n, t', job);
  }

  lemma RetryKeeps(wal: seq<Record>, n: nat, v: View, w: View, posts: seq<Post>, id: string, t: Task, job: Job,
                   attempt: nat, error: Option<string>)
    requires n <= |wal| && t.pc == LogRetry(job, attempt, error)
    requires PcInv(wal, n, v, posts, id, t) && w == v
    ensures PcInv(wal, n, w, posts, id, t.(pc := Try(job, attempt + 1, error)))
  {
    var t' := t.(pc := Try(job, attempt + 1, error));
    assert AtEvent(wal, n, t', job) && NothingSkipped(wal, n, t', job);
  }

  lemma TerminalKeeps(wal: seq<Record>, n: nat, v: View, w: View, posts: seq<Post>, id: string, t: Task)
    requires n <= |wal| && Increasing(wal) && t.pc.LogTerminal?
    requires PcInv(wal, n, v, posts, id, t)
    requires CursorOf(t) < t.pc.job.scanned && w.cursor == t.pc.job.scanned
    requires w.delivered == v.delivered + (if t.pc.delivered then 1 else 0)
    requires w.dead == v.dead + (if t.pc.delivered then 0 else 1)
    ensures PcInv(wal, n, w, posts, id, t.(pc := Settle(t.pc.job, t.pc.delivered, t.pc.error)))
  {
  }

  lemma SettleKeeps(wal: seq<Record>, n: nat, v: View, posts: seq<Post>, id: string, t: Task, job: Job, t': Task)
    requires n <= |wal| && Increasing(wal) && t.pc.Settle? && t.pc.job == job
    requires PcInv(wal, n, v, posts, id, t)
    requires t' == t.(status := SettledStatus(t.status, job.scanned, t.pc.delivered, t.pc.error),
                      pc := Scan(job.(i := job.i + 1)))
    ensures CursorOf(t') == job.scanned && CursorOf(t) < job.scanned
    ensures PcInv(wal, n, v, posts, id, t')
  {
    EventAt(wal, n, job, job.i);
    JobMoved(wal, n, job, job.(i := job.i + 1));
  }

  lemma CheckpointKeeps(wal: seq<Record>, n: nat, v: View, w: View, posts: seq<Post>, id: string, t: Task, job: Job)
    requires n <= |wal| && t.pc == LogCheckpoint(job)
    requires PcInv(wal, n, v, posts, id, t)
    requires w.cursor == Max(v.cursor, job.scanned) && w.delivered == v.delivered && w.dead == v.dead
    ensures PcInv(wal, n, w, posts, id, t.(pc := Adopt(job)))
  {
  }

  // ------------------------------------------------------------ whole tasks

  /** Moving on within a batch touches nothing but the program counter's own invariant. */
  lemma PcMoved(wal: seq<Record>, n: nat, heard: nat, v: View, w: View, posts: seq<Post>, posts': seq<Post>, id: string,
                t: Task, t': Task)
    requires heard <= n <= |wal| && TaskInv(wal, n, heard, v, posts, id, t)
    requires t' == t.(pc := t'.pc) && PcInv(wal, n, w, posts', id, t')
    requires HasJob(t.pc) && HasJob(t'.pc)
    requires t'.pc.job.batch == t.pc.job.batch && t'.pc.job.full == t.pc.job.full
    ensures TaskInv(wal, n, heard, w, posts', id, t')
  {
  }

  /** As above, with a cursor that moved forward to a committed event. */
  lemma CursorMoved(wal: seq<Record>, n: nat, heard: nat, v: View, posts: seq<Post>, id: string, t: Task, t': Task)
    requires heard <= n <= |wal| && Increasing(wal) && TaskInv(wal, n, heard, v, posts, id, t)
    requires t' == t.(pc := t'.pc, status := t'.status) && PcInv(wal, n, v, posts, id, t')
    requires HasJob(t.pc) && HasJob(t'.pc)
    requires t'.pc.job.batch == t.pc.job.batch && t'.pc.job.full == t.pc.job.full
    requires CursorOf(t) <= CursorOf(t') && Within(wal, n, CursorOf(t'))
    ensures TaskInv(wal, n, heard, v, posts, id, t')
  {
    UpToMonotone(wal, n, CursorOf(t), CursorOf(t'));
  }

  lemma LoadKeeps(wal: seq<Record>, n: nat, heard: nat, v: View, posts: seq<Post>, id: string, t: Task)
    requires heard <= n <= |wal| && Increasing(wal) && t.pc.Load?
    requires TaskInv(wal, n, heard, v, posts, id, t)
    ensures TaskInv(wal, n, heard, v, posts, id, LoadStep(wal, n, t))
    ensures LoadStep(wal, n, t).pc != Idle(true)
  {
    var cursor := CursorOf(t);
    var u := UpTo(wal, n, cursor);
    var m := Min(u + REPLAY_BATCH, n);
    ReadIsSlice(wal, IndexAt(wal, n, t.offset).value, n, cursor, REPLAY_BATCH);
    var t' := LoadStep(wal, n, t);
    if u == m {
      IndexAtBoundary(wal, n, n);
    } else {
      LoadedJob(wal, n, u, m, cursor, t');
      assert InStep(t', v);
    }
  }

  lemma LoadedJob(wal: seq<Record>, n: nat, u: nat, m: nat, cursor: nat, t: Task)
    requires u < m <= n <= |wal| && Increasing(wal) && u == UpTo(wal, n, CursorOf(t))
    requires t.pc == Scan(Job(Events(wal, u, m), 0, cursor, m - u == REPLAY_BATCH, Pos(wal, m)))
    ensures JobInv(wal, n, t.pc.job) && Base(wal, n, t.pc.job) == u
    ensures NothingSkipped(wal, n, t, t.pc.job)
  {
    UpToOfRecord(wal, n, u);
    assert Events(wal, u, m)[0] == wal[u].event;
  }

  lemma MoveOffsetKeeps(wal: seq<Record>, n: nat, heard: nat, v: View, posts: seq<Post>, id: string, t: Task, job: Job)
    requires heard <= n <= |wal| && Increasing(wal) && t.pc == MoveOffset(job)
    requires TaskInv(wal, n, heard, v, posts, id, t)
    ensures TaskInv(wal, n, heard, v, posts, id, TaskStep(wal, n, id, t, Go).value.task.value)
  {
    hide UpTo, Due, Pos, Registered, IndexAt, Fails, ReadFrom, Relevant;
    EventAt(wal, n, job, job.i - 1);
    IndexAtBoundary(wal, n, Base(wal, n, job) + |job.batch|);
  }

  /** A failed read or append leaves everything but the reported error as it was. */
  lemma FailureKeeps(wal: seq<Record>, n: nat, heard: nat, v: View, posts: seq<Post>, id: string, t: Task,
                     error: Option<string>)
    requires heard <= n <= |wal| && TaskInv(wal, n, heard, v, posts, id, t)
    requires InStep(t, v)
    ensures TaskInv(wal, n, heard, v, posts, id, Failed(t, error).value.task.value)
  {
  }

  lemma IdleKeeps(wal: seq<Record>, n: nat, heard: nat, v: View, posts: seq<Post>, id: string, t: Task, choice: Choice,
                  e: Effect)
    requires heard <= n <= |wal| && t.pc.Idle?
    requires TaskInv(wal, n, heard, v, posts, id, t)
    requires Some(e) == TaskStep(wal, n, id, t, choice)
    ensures e.task.Some? ==> TaskInv(wal, n, heard, v, posts, id, e.task.value)
    ensures e.log == [] && e.posts == []
  {
  }

  // ------------------------------------------------------------ records

  lemma EarnedAt(wal: seq<Record>, n: nat, posts: seq<Post>, id: string, job: Job, i: nat, r: DeliveryRecord)
    requires n <= |wal| && Increasing(wal) && JobInv(wal, n, job) && i < |job.batch|
    requires r.seqNo == job.batch[i].seqNo && r.id == id
    requires match r.state
             case Delivered => Post(id, r.seqNo, true) in posts
             case DeadLetter => Oversize(job.batch[i]) || MAX_ATTEMPTS <= Fails(posts, id, r.seqNo)
             case Retry => 1 <= Fails(posts, id, r.seqNo)
             case Checkpoint => true
    ensures Earned(wal, n, posts, r)
  {
    EventAt(wal, n, job, i);
  }

  // ------------------------------------------------------------ one step

  /** What one worker step must re-establish for its own hook. */
  ghost predicate Kept(wal: seq<Record>, n: nat, heard: nat, log: seq<DeliveryRecord>, posts: seq<Post>, id: string,
                       e: Effect)
    requires heard <= n <= |wal|
  {
    && (e.task.Some? ==> TaskInv(wal, n, heard, ViewOf(log + e.log, id), posts + e.posts, id, e.task.value))
    && LogInv(wal, n, log + e.log, id)
    && (e.log == [] || (|e.log| == 1 && e.log[0].id == id && Earned(wal, n, posts, e.log[0])))
    && (e.posts == [] || (e.log == [] && |e.posts| == 1 && e.posts[0].id == id))
  }

  lemma ScanStepKeeps(wal: seq<Record>, n: nat, heard: nat, v: View, posts: seq<Post>, id: string, t: Task, job: Job)
    requires heard <= n <= |wal| && Increasing(wal) && t.pc == Scan(job)
    requires TaskInv(wal, n, heard, v, posts, id, t)
    ensures TaskInv(wal, n, heard, v, posts, id, ScanStep(t, job))
  {
    hide UpTo, Due, Pos, Registered, IndexAt, Fails, ReadFrom, Relevant;
    ScanKeeps(wal, n, v, posts, id, t, job);
    PcMoved(wal, n, heard, v, v, posts, posts, id, t, ScanStep(t, job));
  }

  lemma SettleStepKeeps(wal: seq<Record>, n: nat, heard: nat, v: View, posts: seq<Post>, id: string, t: Task, t': Task)
    requires heard <= n <= |wal| && Increasing(wal) && t.pc.Settle?
    requires TaskInv(wal, n, heard, v, posts, id, t)
    requires To(t') == TaskStep(wal, n, id, t, Go)
    ensures TaskInv(wal, n, heard, v, posts, id, t')
  {
    hide UpTo, Due, Pos, Registered, IndexAt, Fails, ReadFrom, Relevant;
    SettleKeeps(wal, n, v, posts, id, t, t.pc.job, t');
    EventAt(wal, n, t.pc.job, t.pc.job.i);
    CursorMoved(wal, n, heard, v, posts, id, t, t');
  }

  lemma AdoptStepKeeps(wal: seq<Record>, n: nat, heard: nat, v: View, posts: seq<Post>, id: string, t: Task, t': Task)
    requires heard <= n <= |wal| && Increasing(wal) && t.pc.Adopt?
    requires TaskInv(wal, n, heard, v, posts, id, t)
    requires To(t') == TaskStep(wal, n, id, t, Go)
    ensures TaskInv(wal, n, heard, v, posts, id, t')
  {
    hide UpTo, Due, Pos, Registered, IndexAt, Fails, ReadFrom, Relevant;
    EventAt(wal, n, t.pc.job, t.pc.job.i - 1);
    CursorMoved(wal, n, heard, v, posts, id, t, t');
  }

  /** The ways a step that appends nothing and posts nothing keeps the invariant. */
  lemma QuietKeeps(wal: seq<Record>, n: nat, heard: nat, v: View, posts: seq<Post>, id: string, t: Task, choice: Choice,
                   e: Effect)
    requires heard <= n <= |wal| && Increasing(wal)
    requires TaskInv(wal, n, heard, v, posts, id, t)
    requires Some(e) == TaskStep(wal, n, id, t, choice) && e.log == [] && e.posts == []
    ensures e.task.Some? ==> TaskInv(wal, n, heard, v, posts, id, e.task.value)
  {
    hide UpTo, Due, Pos, Registered, IndexAt, Fails, ReadFrom, Relevant;
    if choice.Done? && !choice.ok {
      FailureKeeps(wal, n, heard, v, posts, id, t, choice.error);
    } else {
      match t.pc {
        case Idle(_) => IdleKeeps(wal, n, heard, v, posts, id, t, choice, e);
        case Load => LoadKeeps(wal, n, heard, v, posts, id, t);
        case Scan(job) => ScanStepKeeps(wal, n, heard, v, posts, id, t, job);
        case Settle(job, _, _) =>
          SettleStepKeeps(wal, n, heard, v, posts, id, t, e.task.value);
        case Adopt(job) =>
          AdoptStepKeeps(wal, n, heard, v, posts, id, t, e.task.value);
        case MoveOffset(job) => MoveOffsetKeeps(wal, n, heard, v, posts, id, t, job);
        case _ => assert false;
      }
    }
  }

  lemma PostKeeps(wal: seq<Record>, n: nat, heard: nat, v: View, posts: seq<Post>, id: string, t: Task, choice: Choice,
                  e: Effect)
    requires heard <= n <= |wal| && t.pc.Try?
    requires TaskInv(wal, n, heard, v, posts, id, t)
    requires Some(e) == TaskStep(wal, n, id, t, choice)
    ensures e.task.Some? && e.log == [] && |e.posts| == 1 && e.posts[0].id == id
    ensures TaskInv(wal, n, heard, v, posts + e.posts, id, e.task.value)
  {
    hide UpTo, Due, Pos, Registered, IndexAt, ReadFrom, Relevant, Oversize;
    var t' := e.task.value;
    TryKeeps(wal, n, v, posts, id, t, t.pc.job, t.pc.attempt, e.posts[0], t'.pc, t.pc.error);
    PcMoved(wal, n, heard, v, v, posts, posts + [e.posts[0]], id, t, t');
    assert e.posts == [e.posts[0]];
  }

  lemma RetryLogged(wal: seq<Record>, n: nat, heard: nat, log: seq<DeliveryRecord>, posts: seq<Post>, id: string,
                    t: Task, e: Effect)
    requires heard <= n <= |wal| && Increasing(wal) && t.pc.LogRetry?
    requires TaskInv(wal, n, heard, ViewOf(log, id), posts, id, t) && LogInv(wal, n, log, id)
    requires Some(e) == TaskStep(wal, n, id, t, Done(true, None))
    ensures Kept(wal, n, heard, log, posts, id, e)
  {
    hide UpTo, Due, Pos, Registered, IndexAt, Fails, ReadFrom, Relevant, Terminals, Cursor, CountOf;
    var job, v, w := t.pc.job, ViewOf(log, id), ViewOf(log + [e.log[0]], id);
    ViewOfAppend(log, e.log[0], id);
    assert w == v;
    RetryKeeps(wal, n, v, w, posts, id, t, job, t.pc.attempt, t.pc.error);
    PcMoved(wal, n, heard, v, w, posts, posts, id, t, e.task.value);
    EarnedAt(wal, n, posts, id, job, job.i, e.log[0]);
    assert e.log == [e.log[0]] && posts + e.posts == posts;
  }

  lemma TerminalLogged(wal: seq<Record>, n: nat, heard: nat, log: seq<DeliveryRecord>, posts: seq<Post>, id: string,
                       t: Task, e: Effect)
    requires heard <= n <= |wal| && Increasing(wal) && t.pc.LogTerminal?
    requires TaskInv(wal, n, heard, ViewOf(log, id), posts, id, t) && LogInv(wal, n, log, id)
    requires Some(e) == TaskStep(wal, n, id, t, Done(true, None))
    ensures Kept(wal, n, heard, log, posts, id, e)
  {
    hide UpTo, Due, Pos, Registered, IndexAt, Fails, ReadFrom, Relevant, Terminals, Cursor, CountOf;
    var job, v, w := t.pc.job, ViewOf(log, id), ViewOf(log + [e.log[0]], id);
    ViewOfAppend(log, e.log[0], id);
    SettledOneMore(wal, n, t, job, v, w);
    TerminalKeeps(wal, n, v, w, posts, id, t);
    PcMoved(wal, n, heard, v, w, posts, posts, id, t, e.task.value);
    EarnedAt(wal, n, posts, id, job, job.i, e.log[0]);
    assert e.log == [e.log[0]] && posts + e.posts == posts;
  }

  lemma CheckpointLogged(wal: seq<Record>, n: nat, heard: nat, log: seq<DeliveryRecord>, posts: seq<Post>, id: string,
                         t: Task, e: Effect)
    requires heard <= n <= |wal| && Increasing(wal) && t.pc.LogCheckpoint?
    requires TaskInv(wal, n, heard, ViewOf(log, id), posts, id, t) && LogInv(wal, n, log, id)
    requires Some(e) == TaskStep(wal, n, id, t, Done(true, None))
    ensures Kept(wal, n, heard, log, posts, id, e)
  {
    hide UpTo, Due, Pos, Registered, IndexAt, Fails, ReadFrom, Relevant, Terminals, Cursor, CountOf;
    var job, v, w := t.pc.job, ViewOf(log, id), ViewOf(log + [e.log[0]], id);
    ViewOfAppend(log, e.log[0], id);
    SettledCheckpoint(wal, n, t, job, v, w);
    CheckpointKeeps(wal, n, v, w, posts, id, t, job);
    PcMoved(wal, n, heard, v, w, posts, posts, id, t, e.task.value);
    EarnedAt(wal, n, posts, id, job, job.i - 1, e.log[0]);
    assert e.log == [e.log[0]] && posts + e.posts == posts;
  }

  lemma OwnStepKeeps(wal: seq<Record>, n: nat, heard: nat, log: seq<DeliveryRecord>, posts: seq<Post>, id: string,
                     t: Task, choice: Choice, e: Effect)
    requires heard <= n <= |wal| && Increasing(wal)
    requires TaskInv(wal, n, heard, ViewOf(log, id), posts, id, t) && LogInv(wal, n, log, id)
    requires Some(e) == TaskStep(wal, n, id, t, choice)
    ensures Kept(wal, n, heard, log, posts, id, e)
  {
    hide UpTo, Due, Pos, Registered, IndexAt, Fails, ReadFrom, Relevant, Terminals, Cursor, CountOf;
    assert log + [] == log && posts + [] == posts;
    if t.pc.Try? {
      PostKeeps(wal, n, heard, ViewOf(log, id), posts, id, t, choice, e);
    } else if e.log == [] {
      QuietPosts(wal, n, id, t, choice, e);
      QuietKeeps(wal, n, heard, ViewOf(log, id), posts, id, t, choice, e);
    } else {
      OnlyAppendsLog(wal, n, id, t, choice, e);
      if t.pc.LogRetry? {
        RetryLogged(wal, n, heard, log, posts, id, t, e);
      } else if t.pc.LogTerminal? {
        TerminalLogged(wal, n, heard, log, posts, id, t, e);
      } else {
        CheckpointLogged(wal, n, heard, log, posts, id, t, e);
      }
    }
  }

  /** A record appears only when one of the three appends succeeds. */
  lemma OnlyAppendsLog(wal: seq<Record>, n: nat, id: string, t: Task, choice: Choice, e: Effect)
    requires n <= |wal| && Some(e) == TaskStep(wal, n, id, t, choice) && e.log != []
    ensures t.pc.LogRetry? || t.pc.LogTerminal? || t.pc.LogCheckpoint?
    ensures Some(e) == TaskStep(wal, n, id, t, Done(true, None))
  {
  }

  lemma QuietPosts(wal: seq<Record>, n: nat, id: string, t: Task, choice: Choice, e: Effect)
    requires n <= |wal| && Some(e) == TaskStep(wal, n, id, t, choice) && !t.pc.Try?
    ensures e.posts == []
  {
  }
}
