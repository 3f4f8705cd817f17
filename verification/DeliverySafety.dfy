/** Safety of webhook delivery over every run: exactly-once settlement, no lost
    wake-ups, offset reads that refine full scans, and restarts that agree
    with memory. */
module DeliverySafety {
  import opened Wrappers
  import opened Timeline
  import opened DeliveryLog
  import opened DeliveryProtocol
  import opened DeliveryInvariant
  import opened DeliverySteps

  // ------------------------------------------------------------ each step

  lemma StagedOnce(wal: seq<Record>, r: Record)
    requires RegisteredOnce(wal)
    requires forall id :: IsRegistration(r.event, id) ==> Registered(wal, |wal|, id) == None
    ensures RegisteredOnce(wal + [r])
  {
    var q := wal + [r];
    forall j, k, id | 0 <= j < k < |q| && IsRegistration(q[j].event, id)
      ensures !IsRegistration(q[k].event, id)
    {
      RegistrationFound(wal, |wal|, id, j);
      assert k < |wal| ==> q[k] == wal[k];
    }
  }

  /** A log file that differs only above the committed prefix, and a published
      end that does not move back, keep everything the invariant says of the log. */
  lemma LogsStable(s: State, s': State)
    requires Inv(s) && WalInv(s') && SameBelow(s.wal, s'.wal, s.committed) && s.committed <= s'.committed
    requires s'.log == s.log && s'.posts == s.posts
    ensures LogsOk(s') && RecordsOk(s')
  {
    forall id ensures LogInv(s'.wal, s'.committed, s.log, id) {
      assert LogInv(s.wal, s.committed, s.log, id);
      LogStable(s.wal, s'.wal, s.committed, s'.committed, s.log, id);
    }
    forall k | 0 <= k < |s.log| ensures Earned(s'.wal, s'.committed, s.posts, s.log[k]) {
      EarnedStable(s.wal, s'.wal, s.committed, s'.committed, s.posts, s.log[k]);
    }
  }

  lemma TasksStable(s: State, s': State)
    requires Inv(s) && WalInv(s') && SameBelow(s.wal, s'.wal, s.committed) && s.committed <= s'.committed
    requires s'.log == s.log && s'.posts == s.posts && s'.tasks == s.tasks && s'.heard == s.heard
    ensures TasksOk(s')
  {
    forall id | id in s.tasks
      ensures TaskInv(s'.wal, s'.committed, s.heard, ViewOf(s.log, id), s.posts, id, s.tasks[id])
    {
      TaskStable(s.wal, s'.wal, s.committed, s'.committed, s.heard, ViewOf(s.log, id), s.posts, id, s.tasks[id]);
    }
  }

  lemma StagedHook(s: State, r: Record, id: string)
    requires WalInv(s) && id in s.hooks && HookInv(s, id) && MayStage(s, r)
    ensures HookInv(Do(s, Stage(r)), id)
  {
    RegisteredOfPrefix(s.wal, s.wal + [r], |s.wal|, id);
  }

  lemma StageKeepsWal(s: State, r: Record)
    requires Inv(s) && MayStage(s, r)
    ensures WalInv(Do(s, Stage(r)))
  {
    hide TaskInv, LogInv, Earned, HookInv, Registered;
    StagedOnce(s.wal, r);
  }

  lemma StageKeepsHooks(s: State, r: Record)
    requires Inv(s) && MayStage(s, r)
    ensures Sane(Do(s, Stage(r))) && HooksOk(Do(s, Stage(r)))
  {
    hide TaskInv, LogInv, Earned, HookInv, Registered, MayStage, IsRegistration;
    forall id | id in s.hooks ensures HookInv(Do(s, Stage(r)), id) {
      StagedHook(s, r, id);
    }
  }

  lemma StageKeeps(s: State, r: Record)
    requires Inv(s) && MayStage(s, r)
    ensures Inv(Do(s, Stage(r)))
  {
    hide TaskInv, LogInv, Earned, HookInv, Registered, MayStage;
    var s' := Do(s, Stage(r));
    StageKeepsWal(s, r);
    StageKeepsHooks(s, r);
    LogsStable(s, s');
    TasksStable(s, s');
  }

  lemma CommitKeeps(s: State)
    requires Inv(s)
    ensures Inv(Do(s, Commit))
  {
    var s' := Do(s, Commit);
    LogsStable(s, s');
    TasksStable(s, s');
    forall id | id in s.hooks ensures HookInv(s', id) {
      assert HookInv(s, id);
    }
  }

  /** A task is woken, or the one notification consumed is not of its run. */
  lemma HeardTask(wal: seq<Record>, n: nat, heard: nat, later: nat, v: View, posts: seq<Post>, id: string, t: Task,
                  woken: bool)
    requires heard <= later <= n <= |wal| && TaskInv(wal, n, heard, v, posts, id, t)
    requires !woken && !t.stopping ==> later == heard + 1 && wal[heard].event.run != t.config.run
    ensures TaskInv(wal, n, later, v, posts, id, if woken then t.(token := true) else t)
  {
    TokenIrrelevant(wal, n, v, posts, id, t);
  }

  lemma TokenIrrelevant(wal: seq<Record>, n: nat, v: View, posts: seq<Post>, id: string, t: Task)
    requires n <= |wal| && PcInv(wal, n, v, posts, id, t)
    ensures PcInv(wal, n, v, posts, id, t.(token := true))
  {
  }

  lemma HearWakes(s: State, id: string)
    requires Inv(s) && s.heard < s.notified && id in s.tasks
    ensures Do(s, Hear).heard <= s.committed
    ensures TaskInv(s.wal, s.committed, Do(s, Hear).heard, ViewOf(s.log, id), s.posts, id, Woken(s)[id])
  {
    hide TaskInv, LogInv, Earned, ViewOf, Registered;
    if !s.tasks[id].stopping {
      assert HookInv(s, id);
    }
    HeardTask(s.wal, s.committed, s.heard, Do(s, Hear).heard, ViewOf(s.log, id), s.posts, id, s.tasks[id],
              Wakes(s, id));
  }

  lemma HearKeepsHooks(s: State)
    requires Inv(s) && s.heard < s.notified
    ensures Sane(Do(s, Hear)) && HooksOk(Do(s, Hear))
  {
    hide TaskInv, LogInv, Earned, ViewOf, Registered;
    forall id | id in s.hooks ensures HookInv(Do(s, Hear), id) {
      assert HookInv(s, id);
    }
  }

  lemma HearKeeps(s: State)
    requires Inv(s) && s.heard < s.notified
    ensures Inv(Do(s, Hear))
  {
    hide TaskInv, LogInv, Earned, ViewOf, Registered, TaskStep;
    var s' := Do(s, Hear);
    assert TasksOk(s') by {
      forall id | id in s'.tasks
        ensures TaskInv(s.wal, s.committed, s'.heard, ViewOf(s.log, id), s.posts, id, s'.tasks[id])
      {
        HearWakes(s, id);
      }
    }
    assert HooksOk(s') by {
      HearKeepsHooks(s);
    }
    assert WalInv(s');
    assert LogsOk(s') && RecordsOk(s') by {
      LogsStable(s, s');
    }
  }

  lemma ReserveKeeps(s: State, id: string, config: Config)
    requires Inv(s) && Enabled(s, Reserve(id, config))
    ensures Inv(Do(s, Reserve(id, config)))
  {
    hide TaskInv, Earned, UpTo, Due, Pos, Registered, IndexAt, Fails, ReadFrom, TaskStep, Configs;
    var s' := Do(s, Reserve(id, config));
    assert HooksOk(s') by {
      RegisteredStays(s.wal, s.committed, |s.wal|, id);
      assert LogInv(s.wal, s.committed, s.log, id);
      assert HookInv(s', id);
      forall other | other in s.hooks ensures HookInv(s', other) {
        assert HookInv(s, other);
      }
    }
    LogsStable(s, s');
    TasksStable(s, s');
  }

  lemma ActivatedTask(s: State, id: string, config: Config)
    requires Inv(s) && Registered(s.wal, s.committed, id) == Some(config) && ViewOf(s.log, id) == BLANK
    ensures TaskInv(s.wal, s.committed, s.heard, ViewOf(s.log, id), s.posts, id,
                    NewTask(config, FRESH.(last := config.registered)))
  {
    assert LogInv(s.wal, s.committed, s.log, id);
    IndexAtBoundary(s.wal, s.committed, 0);
  }

  lemma ActivateKeepsHooks(s: State, id: string)
    requires Inv(s) && Enabled(s, Activate(id))
    ensures Sane(Do(s, Activate(id))) && HooksOk(Do(s, Activate(id)))
  {
    hide LogInv, TaskInv, Earned, UpTo, Due, Registered, TaskStep, ViewOf;
    var s' := Do(s, Activate(id));
    assert s'.hooks.Keys == s.hooks.Keys;
    assert |s'.hooks| == |s'.hooks.Keys| == |s.hooks.Keys|;
    assert HookInv(s, id);
    RegisteredStays(s.wal, s.committed, |s.wal|, id);
    forall other | other in s'.hooks ensures HookInv(s', other) {
      assert HookInv(s, other);
    }
  }

  lemma ActivateKeeps(s: State, id: string)
    requires Inv(s) && Enabled(s, Activate(id))
    ensures Inv(Do(s, Activate(id)))
  {
    hide LogInv, TaskInv, Earned, UpTo, Due, Registered, TaskStep, ViewOf, NewTask;
    var s' := Do(s, Activate(id));
    var config := Registered(s.wal, s.committed, id).value;
    ActivateKeepsHooks(s, id);
    assert HookInv(s, id);
    RegisteredStays(s.wal, s.committed, |s.wal|, id);
    assert s'.tasks[id] == NewTask(config, FRESH.(last := config.registered));
    LogsStable(s, s');
    assert TasksOk(s') by {
      ActivatedTask(s, id, config);
    }
  }

  lemma StoppedTask(wal: seq<Record>, n: nat, heard: nat, v: View, posts: seq<Post>, id: string, t: Task)
    requires heard <= n <= |wal| && TaskInv(wal, n, heard, v, posts, id, t)
    ensures TaskInv(wal, n, heard, v, posts, id, t.(stopping := true))
  {
  }

  lemma RemoveKeeps(s: State, id: string)
    requires Inv(s) && id in s.hooks
    ensures Inv(Do(s, Remove(id)))
  {
    hide LogInv, TaskInv, Earned, ViewOf, UpTo, Due, Pos, Registered, IndexAt, Fails, ReadFrom, TaskStep, Configs;
    var s' := Do(s, Remove(id));
    LogsStable(s, s');
    assert HooksOk(s') by {
      assert s'.hooks.Keys == s.hooks.Keys - {id};
      assert |s'.hooks| == |s'.hooks.Keys| <= |s.hooks.Keys| == |s.hooks|;
      forall other | other in s'.hooks ensures HookInv(s', other) {
        assert HookInv(s, other);
      }
    }
    assert TasksOk(s') by {
      if id in s.tasks {
        StoppedTask(s.wal, s.committed, s.heard, ViewOf(s.log, id), s.posts, id, s.tasks[id]);
      }
    }
  }

  lemma OthersKeep(s: State, e: Effect, id: string, other: string)
    requires Inv(s) && other != id
    requires Kept(s.wal, s.committed, s.heard, s.log, s.posts, id, e)
    ensures ViewOf(s.log + e.log, other) == ViewOf(s.log, other)
    ensures LogInv(s.wal, s.committed, s.log + e.log, other)
    ensures other in s.tasks ==>
      TaskInv(s.wal, s.committed, s.heard, ViewOf(s.log + e.log, other), s.posts + e.posts, other, s.tasks[other])
  {
    hide UpTo, Due, Pos, Registered, IndexAt, Fails, ReadFrom, TaskStep, Configs;
    assert s.log + [] == s.log && s.posts + [] == s.posts;
    assert LogInv(s.wal, s.committed, s.log, other);
    if e.log != [] {
      ViewOfAppend(s.log, e.log[0], other);
      assert e.log == [e.log[0]];
    }
    if e.posts != [] && other in s.tasks {
      TaskMorePosts(s.wal, s.committed, s.heard, ViewOf(s.log, other), s.posts, e.posts[0], other, s.tasks[other]);
      assert e.posts == [e.posts[0]];
    }
  }

  lemma EarnedAfter(s: State, e: Effect, id: string, k: nat)
    requires Inv(s) && Kept(s.wal, s.committed, s.heard, s.log, s.posts, id, e)
    requires k < |s.log + e.log|
    ensures Earned(s.wal, s.committed, s.posts + e.posts, (s.log + e.log)[k])
  {
    hide LogInv, TaskInv, HooksOk;
    assert s.posts + [] == s.posts;
    if e.posts != [] {
      EarnedMorePosts(s.wal, s.committed, s.posts, e.posts[0], s.log[k]);
      assert e.posts == [e.posts[0]];
    }
  }

  lemma WorkKeepsTasks(s: State, id: string, choice: Choice, e: Effect)
    requires Inv(s) && Enabled(s, Work(id, choice))
    requires Some(e) == TaskStep(s.wal, s.committed, id, s.tasks[id], choice)
    ensures Kept(s.wal, s.committed, s.heard, s.log, s.posts, id, e)
    ensures LogsOk(Do(s, Work(id, choice))) && TasksOk(Do(s, Work(id, choice)))
    ensures forall other :: other != id ==> ViewOf(s.log + e.log, other) == ViewOf(s.log, other)
  {
    hide LogInv, TaskInv, Earned, TaskStep, ViewOf, Registered;
    assert LogInv(s.wal, s.committed, s.log, id);
    OwnStepKeeps(s.wal, s.committed, s.heard, s.log, s.posts, id, s.tasks[id], choice, e);
    forall other | other != id
      ensures ViewOf(s.log + e.log, other) == ViewOf(s.log, other)
      ensures LogInv(s.wal, s.committed, s.log + e.log, other)
      ensures other in s.tasks ==>
        TaskInv(s.wal, s.committed, s.heard, ViewOf(s.log + e.log, other), s.posts + e.posts, other, s.tasks[other])
    {
      OthersKeep(s, e, id, other);
    }
  }

  lemma WorkKeepsHook(s: State, id: string, choice: Choice, other: string)
    requires Inv(s) && Enabled(s, Work(id, choice)) && other in s.hooks
    requires forall g :: g != id ==> ViewOf(Do(s, Work(id, choice)).log, g) == ViewOf(s.log, g)
    ensures HookInv(Do(s, Work(id, choice)), other)
  {
    assert HookInv(s, other);
    StoppingKept(s.wal, s.committed, id, s.tasks[id], choice,
                 TaskStep(s.wal, s.committed, id, s.tasks[id], choice).value);
  }

  lemma WorkKeeps(s: State, id: string, choice: Choice)
    requires Inv(s) && Enabled(s, Work(id, choice))
    ensures Inv(Do(s, Work(id, choice)))
  {
    hide LogInv, TaskInv, Earned, TaskStep, ViewOf, Registered;
    var s' := Do(s, Work(id, choice));
    var e := TaskStep(s.wal, s.committed, id, s.tasks[id], choice).value;
    WorkKeepsTasks(s, id, choice, e);
    assert HooksOk(s') by {
      StoppingKept(s.wal, s.committed, id, s.tasks[id], choice, e);
      forall other | other in s.hooks ensures HookInv(s', other) {
        WorkKeepsHook(s, id, choice, other);
      }
    }
    assert RecordsOk(s') by {
      forall k | 0 <= k < |s'.log| ensures Earned(s.wal, s.committed, s'.posts, s'.log[k]) {
        EarnedAfter(s, e, id, k);
      }
    }
  }

  lemma StoppingKept(wal: seq<Record>, n: nat, id: string, t: Task, choice: Choice, e: Effect)
    requires n <= |wal| && Some(e) == TaskStep(wal, n, id, t, choice)
    ensures e.task.Some? ==> e.task.value.stopping == t.stopping && e.task.value.config == t.config
    ensures e.task.None? ==> t.stopping
  {
  }

  lemma RestoredTask(s: State, m: nat, id: string)
    requires Inv(s) && s.committed <= m <= |s.wal| && id in Configs(s.wal, m)
    ensures var q := s.wal[..m];
            TaskInv(q, m, m, ViewOf(s.log, id), s.posts, id, NewTask(Configs(s.wal, m)[id], Recovered(s.log, id)))
  {
    var q := s.wal[..m];
    assert LogInv(s.wal, s.committed, s.log, id);
    LogStable(s.wal, q, s.committed, m, s.log, id);
    RestoredIsRegistered(s.wal, m, id);
    RegisteredOfPrefix(s.wal, q, m, id);
    IndexAtBoundary(q, m, 0);
  }

  lemma CrashKeeps(s: State, m: nat, restored: set<string>)
    requires Inv(s) && Enabled(s, Crash(m, restored))
    ensures Inv(Do(s, Crash(m, restored)))
  {
    hide LogInv, TaskInv, Earned, Registered, Recovered, UpTo, Due, Pos, IndexAt, Fails, ReadFrom, TaskStep, Configs;
    var s' := Do(s, Crash(m, restored));
    assert WalInv(s');
    LogsStable(s, s');
    assert TasksOk(s') by {
      forall id | id in s'.tasks ensures TaskInv(s'.wal, m, m, ViewOf(s.log, id), s.posts, id, s'.tasks[id]) {
        RestoredTask(s, m, id);
      }
    }
    assert HooksOk(s') by {
      assert s'.hooks.Keys == restored && |s'.hooks| == |s'.hooks.Keys|;
    }
  }

  lemma NotifyKeeps(s: State)
    requires Inv(s) && s.notified < s.committed
    ensures Inv(Do(s, Notify))
  {
    var s' := Do(s, Notify);
    LogsStable(s, s');
    TasksStable(s, s');
    forall id | id in s.hooks ensures HookInv(s', id) {
      assert HookInv(s, id);
    }
  }

  lemma StepKeeps(s: State, a: Action, s': State)
    requires Inv(s) && Step(s, a, s')
    ensures Inv(s')
  {
    match a {
      case Stage(r) => StageKeeps(s, r);
      case Commit => CommitKeeps(s);
      case Notify => NotifyKeeps(s);
      case Hear => HearKeeps(s);
      case Reserve(id, config) => ReserveKeeps(s, id, config);
      case Activate(id) => ActivateKeeps(s, id);
      case Remove(id) => RemoveKeeps(s, id);
      case Work(id, choice) => WorkKeeps(s, id, choice);
      case Crash(m, restored) => CrashKeeps(s, m, restored);
    }
  }

  lemma EmptyKeeps()
    ensures Inv(EMPTY)
  {
    forall id ensures LogInv(EMPTY.wal, EMPTY.committed, EMPTY.log, id) {
      UntouchedIsFresh(EMPTY.log, id);
    }
  }

  /** Every state of every run satisfies the invariant. */
  lemma {:induction false} RunKeeps(states: seq<State>, actions: seq<Action>, k: nat)
    requires IsRun(states, actions) && k < |states|
    ensures Inv(states[k])
  {
    hide Step, Inv;
    if k == 0 {
      EmptyKeeps();
    } else {
      RunKeeps(states, actions, k - 1);
      StepKeeps(states[k - 1], actions[k - 1], states[k]);
    }
  }

  /** A run goes on with any enabled action. */
  lemma RunExtends(states: seq<State>, actions: seq<Action>, a: Action)
    requires IsRun(states, actions) && Sane(states[|actions|]) && Enabled(states[|actions|], a)
    ensures IsRun(states + [Do(states[|actions|], a)], actions + [a])
  {
    hide Do, Enabled;
    var more, acts := states + [Do(states[|actions|], a)], actions + [a];
    forall k | 0 <= k < |acts| ensures Step(more[k], acts[k], more[k + 1]) {
      if k < |actions| {
        assert Step(states[k], actions[k], states[k + 1]);
      }
    }
  }
}
