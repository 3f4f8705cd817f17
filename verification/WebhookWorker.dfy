/** The webhook worker's code (`replay_hook` and the task around it,
    crates/vidarax-api/src/delivery.rs), run against a host that interleaves
    the writer, the coordinator and the other workers before every effect.
    Each statement is shown to be a step of the delivery protocol, so what is
    proved of every run holds of the code; a crash is the run stopping here. */
module WebhookWorker {
  import opened Wrappers
  import opened Timeline
  import opened DeliveryLog
  import opened DeliveryProtocol
  import opened DeliveryInvariant
  import opened DeliverySafety

  /** The same task but for signals others may raise. */
  predicate SameButSignals(t: Task, u: Task) {
    u == t.(token := u.token, stopping := u.stopping)
  }

  predicate Appends(pc: Pc) { pc.LogRetry? || pc.LogTerminal? || pc.LogCheckpoint? }

  function RecordFor(pc: Pc, id: string): DeliveryRecord
    requires Appends(pc)
  {
    match pc
    case LogRetry(job, _, error) => DeliveryRecord(id, job.scanned, Retry, error)
    case LogTerminal(job, delivered, error) =>
      DeliveryRecord(id, job.scanned, if delivered then Delivered else DeadLetter, error)
    case LogCheckpoint(job) => DeliveryRecord(id, job.scanned, Checkpoint, None)
  }

  function AfterAppend(pc: Pc): Pc
    requires Appends(pc)
  {
    match pc
    case LogRetry(job, attempt, error) => Try(job, attempt + 1, error)
    case LogTerminal(job, delivered, error) => Settle(job, delivered, error)
    case LogCheckpoint(job) => Adopt(job)
  }

  function AfterPost(pc: Pc, ok: bool, error: Option<string>): Pc
    requires pc.Try?
  {
    if ok then LogTerminal(pc.job, true, pc.error)
    else if pc.attempt < MAX_ATTEMPTS then LogRetry(pc.job, pc.attempt, error)
    else LogTerminal(pc.job, false, error)
  }

  predicate Silent(pc: Pc) { pc.Scan? || pc.Settle? || pc.Adopt? || pc.MoveOffset? }

  function AfterSilent(t: Task): Task
    requires Silent(t.pc)
  {
    match t.pc
    case Scan(job) => ScanStep(t, job)
    case Settle(job, delivered, error) =>
      t.(status := SettledStatus(t.status, job.scanned, delivered, error), pc := Scan(job.(i := job.i + 1)))
    case Adopt(job) => t.(status := t.status.(last := job.scanned), pc := MoveOffset(job))
    case MoveOffset(job) => t.(offset := job.next, pc := if job.full then Load else Idle(false))
  }

  function Broken(t: Task, error: Option<string>): Task {
    t.(pc := Idle(true), status := t.status.(lastError := error))
  }

  lemma OthersKeepTask(s: State, a: Action, id: string)
    requires Inv(s) && id in s.tasks && Enabled(s, a) && !a.Crash? && !(a.Work? && a.id == id)
    ensures var s' := Do(s, a);
            && id in s'.tasks && SameButSignals(s.tasks[id], s'.tasks[id])
            && s.wal <= s'.wal && s.committed <= s'.committed <= |s'.wal|
  {
    hide TaskInv, LogInv, Earned, TaskStep;
    if a.Activate? {
      assert HookInv(s, a.id);
    }
  }

  /** How many steps of a run are a task's own. */
  function Turns(actions: seq<Action>, id: string): nat {
    if actions == [] then 0 else Turns(actions[..|actions| - 1], id) + Turn(actions[|actions| - 1], id)
  }

  function Turn(a: Action, id: string): nat { if a.Work? && a.id == id then 1 else 0 }

  lemma TurnTaken(actions: seq<Action>, a: Action, id: string)
    ensures Turns(actions + [a], id) == Turns(actions, id) + Turn(a, id)
  {
    assert (actions + [a])[..|actions|] == actions;
  }

  ghost predicate Covers(wal: seq<Record>, n: nat, last: nat) {
    n <= |wal| && forall k :: 0 <= k < n ==> wal[k].event.seqNo <= last
  }

  /** What a worker may rely on about a batch: it moves the cursor forward, and
      one that is not full reaches the published end. */
  ghost predicate GoodBatch(wal: seq<Record>, n: nat, cursor: nat, r: ReadResult) {
    && r.Batch?
    && (r.events == [] ==> Covers(wal, n, cursor))
    && (r.events != [] ==>
          var last := r.events[|r.events| - 1].seqNo;
          cursor < last <= U64_MAX && (|r.events| != REPLAY_BATCH ==> Covers(wal, n, last)))
  }

  lemma ReadIsGood(wal: seq<Record>, n: nat, offset: nat, cursor: nat)
    requires n <= |wal| && Increasing(wal) && OffsetInv(wal, n, offset, cursor)
    requires forall k :: 0 <= k < |wal| ==> wal[k].event.seqNo <= U64_MAX
    ensures GoodBatch(wal, n, cursor, ReadFrom(wal, cursor, REPLAY_BATCH, offset, Pos(wal, n)))
  {
    hide ReadFrom, IndexAt, Pos, UpTo;
    var u := UpTo(wal, n, cursor);
    var m := Min(u + REPLAY_BATCH, n);
    ReadIsSlice(wal, IndexAt(wal, n, offset).value, n, cursor, REPLAY_BATCH);
    UpToSplits(wal, n, cursor);
    if u < m {
      assert Events(wal, u, m)[m - u - 1] == wal[m - 1].event;
      if m - u != REPLAY_BATCH {
        assert m == n;
      }
    }
  }

  lemma OffsetIsABoundary(wal: seq<Record>, n: nat, offset: nat, cursor: nat)
    requires n <= |wal| && Increasing(wal) && OffsetInv(wal, n, offset, cursor)
    ensures offset <= Pos(wal, n) && IndexAt(wal, |wal|, offset).Some?
  {
    var j := IndexAt(wal, n, offset).value;
    PosGrows(wal, j, n);
    IndexAtBoundary(wal, |wal|, j);
  }

  /** Everything outside one worker: the files, the network and the other tasks. */
  class Host {
    const id: string
    const decode: Decoder
    var world: State
    ghost var states: seq<State>
    ghost var actions: seq<Action>

    constructor (id: string, ghost states: seq<State>, ghost actions: seq<Action>, world: State, decode: Decoder)
      requires IsRun(states, actions) && states[|actions|] == world && id in world.tasks
      ensures Valid() && this.id == id && this.world == world && this.states == states && this.actions == actions
    {
      this.id, this.world, this.decode := id, world, decode;
      this.states, this.actions := states, actions;
    }

    ghost predicate Valid()
      reads this
    {
      IsRun(states, actions) && states[|actions|] == world && id in world.tasks
    }

    ghost function Mine(): Task
      reads this
      requires Valid()
    {
      world.tasks[id]
    }

    /** This run continues an earlier one without a crash in between. */
    ghost predicate Continues(states0: seq<State>, actions0: seq<Action>)
      reads this
    {
      && states0 <= states && actions0 <= actions && Turns(actions0, id) <= Turns(actions, id)
      && forall k :: |actions0| <= k < |actions| ==> !actions[k].Crash?
    }

    method Take(a: Action)
      requires Valid() && Sane(world) && Enabled(world, a) && !a.Crash? && id in Do(world, a).tasks
      modifies this
      ensures Valid() && world == Do(old(world), a)
      ensures Continues(old(states), old(actions)) && Turns(actions, id) == Turns(old(actions), id) + Turn(a, id)
    {
      hide Do, Enabled, Step, Turns;
      RunExtends(states, actions, a);
      TurnTaken(actions, a, id);
      states := states + [Do(world, a)];
      actions := actions + [a];
      world := Do(world, a);
    }

    lemma Reached()
      requires Valid()
      ensures Inv(world)
    {
      RunKeeps(states, actions, |actions|);
    }

    /** Any number of steps of anyone else. */
    method Others()
      requires Valid()
      modifies this
      ensures Valid() && Continues(old(states), old(actions))
      ensures SameButSignals(old(Mine()), Mine())
      ensures old(world.wal) <= world.wal && old(world.committed) <= world.committed <= |world.wal|
    {
      hide Do, Enabled, Inv, IsRun, Turns;
      Reached();
      SaneNow();
      var rounds: nat := *;
      while rounds > 0
        invariant Valid() && Continues(old(states), old(actions))
        invariant SameButSignals(old(Mine()), Mine())
        invariant old(world.wal) <= world.wal && old(world.committed) <= world.committed <= |world.wal|
      {
        var a: Action := *;
        Reached();
        SaneNow();
        if Enabled(world, a) && !a.Crash? && !(a.Work? && a.id == id) {
          OthersKeepTask(world, a, id);
          Take(a);
        }
        rounds := rounds - 1;
      }
    }

    lemma SaneNow()
      requires Inv(world)
      ensures Sane(world)
    {
    }

    /** One step of this worker. */
    method Work(choice: Choice)
      requires Valid() && Sane(world)
      requires TaskStep(world.wal, world.committed, id, Mine(), choice).Some?
      requires TaskStep(world.wal, world.committed, id, Mine(), choice).value.task.Some?
      modifies this
      ensures Valid() && Continues(old(states), old(actions)) && Turns(actions, id) == Turns(old(actions), id) + 1
      ensures Some(Mine()) == TaskStep(old(world.wal), old(world.committed), id, old(Mine()), choice).value.task
      ensures world.wal == old(world.wal) && world.committed == old(world.committed)
      ensures world.log == old(world.log)
              + TaskStep(old(world.wal), old(world.committed), id, old(Mine()), choice).value.log
    {
      hide TaskStep, Turns;
      Take(Action.Work(id, choice));
    }

    /** A step no one else can see the middle of. */
    method Silently()
      requires Valid() && Silent(Mine().pc)
      modifies this
      ensures Valid() && Continues(old(states), old(actions))
      ensures Mine() == AfterSilent(old(Mine()))
      ensures world.wal == old(world.wal) && world.committed == old(world.committed)
    {
      hide IsRun, Inv, Turns;
      Reached();
      SaneNow();
      Work(Go);
    }

    /** Load the published end and read the timeline, or fail to. */
    method Read(cursor: nat, offset: nat) returns (r: Option<ReadResult>, error: Option<string>)
      requires Valid() && Mine().pc.Load? && cursor == CursorOf(Mine()) && offset == Mine().offset
      modifies this
      ensures Valid() && Continues(old(states), old(actions)) && Turns(actions, id) > Turns(old(actions), id)
      ensures old(world.wal) <= world.wal && old(world.committed) <= world.committed <= |world.wal|
      ensures match r
              case None => SameButSignals(Broken(old(Mine()), error), Mine())
              case Some(result) =>
                && result == ReadFrom(world.wal, cursor, REPLAY_BATCH, offset, Pos(world.wal, world.committed))
                && SameButSignals(LoadStep(world.wal, world.committed, old(Mine())), Mine())
                && GoodBatch(world.wal, world.committed, cursor, result)
    {
      hide IsRun, Inv, ReadFrom, ReadWith, GoodBatch, Turns;
      Others();
      Reached();
      SaneNow();
      ReadableNow();
      var fails: bool := *;
      if fails {
        error := *;
        Work(Done(false, error));
        r := None;
      } else {
        var result := ReadEventsAfterFromUpTo(world.wal, cursor, REPLAY_BATCH, offset,
                                              Pos(world.wal, world.committed), decode);
        Work(Done(true, None));
        r, error := Some(result), None;
      }
    }

    lemma Bounds()
      requires Valid()
      ensures world.committed <= |world.wal|
    {
      Reached();
    }

    /** The select after a replay lets the worker go round again. */
    method Resume(choice: Choice)
      requires Valid() && Mine().pc.Idle?
      requires (choice.Wake? && Mine().token) || (choice.Tick? && Mine().pc.failed)
      modifies this
      ensures Valid() && Continues(old(states), old(actions)) && Turns(actions, id) > Turns(old(actions), id)
      ensures SameButSignals(old(Mine()).(pc := Load), Mine())
      ensures world.wal == old(world.wal) && world.committed == old(world.committed)
    {
      hide IsRun, Inv, Turns;
      Reached();
      SaneNow();
      Work(choice);
    }

    lemma ReadableNow()
      requires Valid() && Inv(world)
      ensures world.committed <= |world.wal|
      ensures GoodBatch(world.wal, world.committed, CursorOf(Mine()),
                        ReadFrom(world.wal, CursorOf(Mine()), REPLAY_BATCH, Mine().offset,
                                 Pos(world.wal, world.committed)))
      ensures ReadWith(world.wal, CursorOf(Mine()), REPLAY_BATCH, Mine().offset, Pos(world.wal, world.committed),
                       decode)
              == ReadFrom(world.wal, CursorOf(Mine()), REPLAY_BATCH, Mine().offset, Pos(world.wal, world.committed))
    {
      assert TaskInv(world.wal, world.committed, world.heard, ViewOf(world.log, id), world.posts, id, Mine());
      ReadIsGood(world.wal, world.committed, Mine().offset, CursorOf(Mine()));
      OffsetIsABoundary(world.wal, world.committed, Mine().offset, CursorOf(Mine()));
      BoundaryNeedsNoDecoder(world.wal, CursorOf(Mine()), REPLAY_BATCH, Mine().offset,
                             Pos(world.wal, world.committed), decode);
    }

    /** POST the current event; the endpoint decides. */
    method PostEvent() returns (ok: bool, error: Option<string>)
      requires Valid() && Mine().pc.Try?
      modifies this
      ensures Valid() && Continues(old(states), old(actions))
      ensures old(world.wal) <= world.wal && old(world.committed) <= world.committed <= |world.wal|
      ensures SameButSignals(old(Mine()).(pc := AfterPost(old(Mine()).pc, ok, error)), Mine())
    {
      hide IsRun, Inv, Turns;
      Others();
      Reached();
      SaneNow();
      ok, error := *, *;
      Work(Done(ok, error));
    }

    /** Append one record to the shared log, or fail leaving it as it was. */
    method Append(r: DeliveryRecord) returns (ok: bool, error: Option<string>)
      requires Valid() && Appends(Mine().pc) && r == RecordFor(Mine().pc, id)
      modifies this
      ensures Valid() && Continues(old(states), old(actions))
      ensures old(world.wal) <= world.wal && old(world.committed) <= world.committed <= |world.wal|
      ensures if ok then SameButSignals(old(Mine()).(pc := AfterAppend(old(Mine()).pc)), Mine())
              else SameButSignals(Broken(old(Mine()), error), Mine())
      ensures ok ==> world.log != [] && world.log[|world.log| - 1] == r
    {
      hide IsRun, Inv, Turns;
      Others();
      Reached();
      SaneNow();
      ok, error := *, *;
      ghost var t := Mine();
      Work(Done(ok, error));
    }
  }

  /** Where a task stands when observation ends. */
  datatype Standing = Observed | Parked | Stopped

  /** The worker task of one hook. `status` is shared under a lock that only
      this task writes through; `walOffset` is a local of the task. */
  class HookWorker {
    const id: string
    const config: Config
    var status: Status
    var walOffset: nat

    constructor (id: string, config: Config, restored: Status)
      ensures this.id == id && this.config == config && status == restored && walOffset == 0
    {
      this.id, this.config, status, walOffset := id, config, restored, 0;
    }

    /** This worker is the host's task, standing at `pc`. */
    ghost predicate At(host: Host, pc: Pc)
      reads this, host
    {
      && host.id == id && host.Valid()
      && SameButSignals(Task(config, status, walOffset, false, false, pc), host.Mine())
    }

    /** Replays committed events past the cursor until a batch comes back short.
        On success everything committed when the call began is behind the
        cursor; on failure the last batch is left to be read again from its old
        offset. */
    method ReplayHook(host: Host) returns (ok: bool, error: Option<string>)
      requires At(host, Load)
      modifies this, host
      ensures At(host, if ok then Idle(false) else Idle(true))
      ensures host.Continues(old(host.states), old(host.actions))
      ensures Turns(host.actions, id) > Turns(old(host.actions), id)
      ensures old(host.world.wal) <= host.world.wal && old(host.world.committed) <= host.world.committed
      ensures ok ==> old(host.world.committed) <= |host.world.wal|
                     && Covers(host.world.wal, old(host.world.committed), CursorOf(host.Mine()))
    {
      hide IsRun, ReadFrom, WebhookMatches, Turns;
      while true
        invariant At(host, Load)
        invariant host.Continues(old(host.states), old(host.actions))
        invariant old(host.world.wal) <= host.world.wal && old(host.world.committed) <= host.world.committed
        decreases U64_MAX - Max(status.last, config.registered)
      {
        var cursor := Max(status.last, config.registered);
        var read, failure := host.Read(cursor, walOffset);
        ghost var seen := host.world.committed;
        if read.None? {
          status := status.(lastError := failure);
          return false, failure;
        }
        var batch, next := read.value.events, read.value.next;
        if batch == [] {
          walOffset := next;
          return true, None;
        }
        var full := |batch| == REPLAY_BATCH;
        ok, error := SettleBatch(host, batch, cursor, full, next);
        if !ok {
          return;
        }
        if !full {
          return;
        }
      }
    }

    /** The loop over one batch, its checkpoint, and only then the offset. */
    method SettleBatch(host: Host, batch: seq<Event>, cursor: nat, full: bool, next: nat)
      returns (ok: bool, error: Option<string>)
      requires batch != [] && At(host, Scan(Job(batch, 0, cursor, full, next)))
      modifies this, host
      ensures host.Continues(old(host.states), old(host.actions))
      ensures old(host.world.wal) <= host.world.wal
              && old(host.world.committed) <= host.world.committed <= |host.world.wal|
      ensures if !ok then At(host, Idle(true))
              else
                && At(host, if full then Load else Idle(false))
                && status.last == batch[|batch| - 1].seqNo && walOffset == next
    {
      hide IsRun, ReadFrom, WebhookMatches, Turns;
      host.Bounds();
      var scanned := cursor;
      for i := 0 to |batch|
        invariant At(host, Scan(Job(batch, i, scanned, full, next)))
        invariant i > 0 ==> scanned == batch[i - 1].seqNo
        invariant host.Continues(old(host.states), old(host.actions))
        invariant old(host.world.wal) <= host.world.wal
                  && old(host.world.committed) <= host.world.committed <= |host.world.wal|
      {
        var event := batch[i];
        scanned := event.seqNo;
        host.Silently();
        if event.run != config.run || !WebhookMatches(config, event) {
          continue;
        }
        ok, error := SettleEvent(host, Job(batch, i, scanned, full, next));
        if !ok {
          return;
        }
      }
      ok, error := FinishBatch(host, Job(batch, |batch|, scanned, full, next));
    }

    /** The checkpoint is saved and adopted before the offset moves. */
    method FinishBatch(host: Host, job: Job) returns (ok: bool, error: Option<string>)
      requires job.i == |job.batch| && At(host, Scan(job)) && host.world.committed <= |host.world.wal|
      modifies this, host
      ensures host.Continues(old(host.states), old(host.actions))
      ensures old(host.world.wal) <= host.world.wal
              && old(host.world.committed) <= host.world.committed <= |host.world.wal|
      ensures if !ok then At(host, Idle(true))
              else
                && At(host, if job.full then Load else Idle(false))
                && status.last == job.scanned && walOffset == job.next
    {
      hide IsRun, Turns;
      host.Silently();
      ok, error := host.Append(DeliveryRecord(id, job.scanned, Checkpoint, None));
      if !ok {
        status := status.(lastError := error);
        return;
      }
      status := status.(last := job.scanned);
      host.Silently();
      walOffset := job.next;
      host.Silently();
    }

    /** Up to three POSTs of one event, with a retry record after each failure but the last. */
    method Attempt(host: Host, job: Job) returns (ok: bool, delivered: bool, lastError: Option<string>)
      requires At(host, Try(job, 1, None)) && host.world.committed <= |host.world.wal|
      modifies this, host
      ensures host.Continues(old(host.states), old(host.actions))
      ensures old(host.world.wal) <= host.world.wal
      ensures old(host.world.committed) <= host.world.committed <= |host.world.wal|
      ensures At(host, if ok then LogTerminal(job, delivered, lastError) else Idle(true))
    {
      hide IsRun, Turns;
      var attempt := 1;
      delivered, lastError := false, None;
      while attempt <= MAX_ATTEMPTS && !delivered
        invariant 1 <= attempt <= MAX_ATTEMPTS + 1
        invariant At(host, if delivered then LogTerminal(job, true, lastError)
                           else if attempt <= MAX_ATTEMPTS then Try(job, attempt, lastError)
                           else LogTerminal(job, false, lastError))
        invariant host.Continues(old(host.states), old(host.actions))
        invariant old(host.world.wal) <= host.world.wal
        invariant old(host.world.committed) <= host.world.committed <= |host.world.wal|
        decreases MAX_ATTEMPTS + 1 - attempt, !delivered
      {
        var error;
        ok, error := host.PostEvent();
        if ok {
          delivered := true;
        } else {
          lastError := error;
          if attempt < MAX_ATTEMPTS {
            ok, error := host.Append(DeliveryRecord(id, job.scanned, Retry, lastError));
            if !ok {
              status := status.(lastError := error);
              return;
            }
          }
          attempt := attempt + 1;
        }
      }
      ok := true;
    }

    /** The attempts at one event, then its terminal record, then the status. */
    method SettleEvent(host: Host, job: Job) returns (ok: bool, error: Option<string>)
      requires job.i < |job.batch| && Relevant(config, job.batch[job.i]) && job.scanned == job.batch[job.i].seqNo
      requires At(host, if Oversize(job.batch[job.i]) then LogTerminal(job, false, TOO_LARGE) else Try(job, 1, None))
      requires host.world.committed <= |host.world.wal|
      modifies this, host
      ensures host.Continues(old(host.states), old(host.actions))
      ensures old(host.world.wal) <= host.world.wal
      ensures old(host.world.committed) <= host.world.committed <= |host.world.wal|
      ensures At(host, if ok then Scan(job.(i := job.i + 1)) else Idle(true))
    {
      hide IsRun, Turns;
      var event := job.batch[job.i];
      var delivered, lastError: Option<string> := false, TOO_LARGE;
      if !Oversize(event) {
        ok, delivered, lastError := Attempt(host, job);
        if !ok {
          error := status.lastError;
          return;
        }
      }
      ok, error := host.Append(DeliveryRecord(id, event.seqNo, if delivered then Delivered else DeadLetter, lastError));
      if !ok {
        status := status.(lastError := error);
        return;
      }
      status :=
        if delivered then
          status.(last := event.seqNo, lastError := None, delivered := SaturatingAdd(status.delivered, 1))
        else status.(last := event.seqNo, lastError := lastError, deadLetters := SaturatingAdd(status.deadLetters, 1));
      host.Silently();
    }

    /** The task: replay, then wait for a stop, a wake, or after a failure a
        timer; observed for some number of rounds. Each round seen in full is at
        least a read and a resumption. If the task parks before that, with no
        token waiting, everything committed when it began is behind its cursor. */
    method Run(host: Host, rounds: nat) returns (standing: Standing)
      requires At(host, Load) && host.world.committed <= |host.world.wal|
      modifies this, host
      ensures host.Continues(old(host.states), old(host.actions))
      ensures Stands(host, standing, old(host.world.committed))
      ensures standing.Observed? ==> Turns(host.actions, id) >= Turns(old(host.actions), id) + 2 * rounds
      ensures !standing.Observed? ==> Turns(host.actions, id) > Turns(old(host.actions), id)
    {
      hide IsRun, Turns;
      for i := 0 to rounds
        invariant At(host, Load)
        invariant host.Continues(old(host.states), old(host.actions))
        invariant old(host.world.wal) <= host.world.wal && old(host.world.committed) <= host.world.committed
        invariant Turns(host.actions, id) >= Turns(old(host.actions), id) + 2 * i
      {
        standing := Round(host);
        if !standing.Observed? {
          return;
        }
      }
      standing := Observed;
    }

    /** Where the task stands: about to read, parked with no token and everything
        among the first `committed` records behind its cursor, or told to stop. */
    ghost predicate Stands(host: Host, standing: Standing, committed: nat)
      reads this, host
    {
      match standing
      case Observed => At(host, Load)
      case Stopped => (At(host, Idle(false)) || At(host, Idle(true))) && host.Mine().stopping
      case Parked =>
        && At(host, Idle(false)) && !host.Mine().token
        && Covers(host.world.wal, committed, CursorOf(host.Mine()))
    }

    method Round(host: Host) returns (standing: Standing)
      requires At(host, Load)
      modifies this, host
      ensures host.Continues(old(host.states), old(host.actions))
      ensures old(host.world.wal) <= host.world.wal && old(host.world.committed) <= host.world.committed
      ensures Stands(host, standing, old(host.world.committed))
      ensures Turns(host.actions, id) >= Turns(old(host.actions), id) + if standing.Observed? then 2 else 1
    {
      hide IsRun, Turns;
      var ok, _ := ReplayHook(host);
      host.Others();
      var stopped: bool := *;
      if stopped && host.world.tasks[id].stopping {
        return Stopped;
      }
      if host.world.tasks[id].token {
        host.Resume(Wake);
      } else if !ok {
        host.Resume(Tick);
      } else {
        return Parked;
      }
      standing := Observed;
    }
  }
}
