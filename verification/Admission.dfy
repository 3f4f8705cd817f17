/** Admission control of the audio sidecar: a semaphore and two counters under a
    lock, with any number of threads between its lock sections
    (`Admission` and the request handler, scripts/audio_perception_server.py). */
module Admission {

  /** Where a thread is between the atomic sections of acquire and release. */
  datatype Phase =
    | Arriving      // about to try the semaphore
    | Entering      // holds a permit, not yet counted active
    | Crowded       // found no permit, about to join the queue
    | Waiting       // counted queued, waiting for a permit
    | Woken         // got a permit while queued, still counted queued
    | Expired       // timed out, still counted queued
    | Running       // counted active
    | Leaving       // no longer counted active, still holds its permit
    | Gone

  datatype Config = Config(limit: nat, maxQueued: nat)

  /** Permits left in the semaphore, the two counters, and every thread so far. */
  datatype State = State(free: int, active: int, queued: int, threads: seq<Phase>)

  datatype Action =
    | Spawn
    | TryAcquire(thread: nat)
    | CountIn(thread: nat)
    | Enqueue(thread: nat)
    | Wake(thread: nat)
    | Expire(thread: nat)
    | Dequeue(thread: nat)
    | CountOut(thread: nat)
    | GivePermit(thread: nat)

  predicate At(s: State, i: nat, p: Phase) { i < |s.threads| && s.threads[i] == p }

  predicate By(a: Action, i: nat) { !a.Spawn? && a.thread == i }

  predicate Enabled(s: State, a: Action) {
    match a
    case Spawn => true
    case TryAcquire(i) => At(s, i, Arriving)
    case CountIn(i) => At(s, i, Entering)
    case Enqueue(i) => At(s, i, Crowded)
    case Wake(i) => At(s, i, Waiting) && s.free > 0
    case Expire(i) => At(s, i, Waiting)
    case Dequeue(i) => At(s, i, Woken) || At(s, i, Expired)
    case CountOut(i) => At(s, i, Running)
    case GivePermit(i) => At(s, i, Leaving)
  }

  function Do(c: Config, s: State, a: Action): State
    requires Enabled(s, a)
  {
    match a
    case Spawn => s.(threads := s.threads + [Arriving])
    case TryAcquire(i) =>
      if s.free > 0 then s.(free := s.free - 1, threads := s.threads[i := Entering])
      else s.(threads := s.threads[i := Crowded])
    case CountIn(i) => s.(active := s.active + 1, threads := s.threads[i := Running])
    case Enqueue(i) =>
      if s.queued >= c.maxQueued then s.(threads := s.threads[i := Gone])
      else s.(queued := s.queued + 1, threads := s.threads[i := Waiting])
    case Wake(i) => s.(free := s.free - 1, threads := s.threads[i := Woken])
    case Expire(i) => s.(threads := s.threads[i := Expired])
    case Dequeue(i) =>
      if s.threads[i] == Woken then
        s.(queued := s.queued - 1, active := s.active + 1, threads := s.threads[i := Running])
      else s.(queued := s.queued - 1, threads := s.threads[i := Gone])
    case CountOut(i) => s.(active := s.active - 1, threads := s.threads[i := Leaving])
    case GivePermit(i) => s.(free := s.free + 1, threads := s.threads[i := Gone])
  }

  function Start(c: Config): State { State(c.limit, 0, 0, []) }

  ghost predicate IsRun(c: Config, states: seq<State>, actions: seq<Action>) {
    && |states| == |actions| + 1 && states[0] == Start(c)
    && forall k :: 0 <= k < |actions| ==>
         Enabled(states[k], actions[k]) && states[k + 1] == Do(c, states[k], actions[k])
  }

  // ------------------------------------------------------------ what the counters count

  predicate HasPermit(p: Phase) { p == Entering || p == Woken || p == Running || p == Leaving }

  predicate InQueue(p: Phase) { p == Waiting || p == Woken || p == Expired }

  /** Threads holding a permit, counted active, counted queued. */
  datatype Tally = Tally(permits: nat, running: nat, queued: nat)

  function One(b: bool): nat { if b then 1 else 0 }

  function Count(threads: seq<Phase>): Tally {
    if threads == [] then Tally(0, 0, 0)
    else
      var t, p := Count(threads[..|threads| - 1]), threads[|threads| - 1];
      Tally(t.permits + One(HasPermit(p)), t.running + One(p == Running), t.queued + One(InQueue(p)))
  }

  predicate Balanced(c: Config, s: State) {
    var t := Count(s.threads);
    && s.free >= 0 && s.free + t.permits == c.limit
    && s.active == t.running && s.queued == t.queued <= c.maxQueued
  }

  lemma {:induction false} CountChanges(threads: seq<Phase>, i: nat, p: Phase)
    requires i < |threads|
    ensures var t, u, q := Count(threads), Count(threads[i := p]), threads[i];
            && u.permits == t.permits - One(HasPermit(q)) + One(HasPermit(p))
            && u.running == t.running - One(q == Running) + One(p == Running)
            && u.queued == t.queued - One(InQueue(q)) + One(InQueue(p))
  {
    var n := |threads| - 1;
    if i == n {
      assert threads[i := p][..n] == threads[..n];
    } else {
      CountChanges(threads[..n], i, p);
      assert threads[i := p][..n] == threads[..n][i := p];
    }
  }

  lemma {:induction false} RunningHavePermits(threads: seq<Phase>)
    ensures Count(threads).running <= Count(threads).permits
  {
    if threads != [] {
      RunningHavePermits(threads[..|threads| - 1]);
    }
  }

  lemma CountSpawns(threads: seq<Phase>)
    ensures Count(threads + [Arriving]) == Count(threads)
  {
    assert (threads + [Arriving])[..|threads|] == threads;
  }

  lemma StepKeepsBalance(c: Config, s: State, a: Action)
    requires Balanced(c, s) && Enabled(s, a)
    ensures Balanced(c, Do(c, s, a))
  {
    hide Count;
    if a.Spawn? {
      CountSpawns(s.threads);
    } else {
      CountChanges(s.threads, a.thread, Do(c, s, a).threads[a.thread]);
    }
  }

  lemma {:induction false} RunKeepsBalance(c: Config, states: seq<State>, actions: seq<Action>, n: nat)
    requires IsRun(c, states, actions) && n < |states|
    ensures Balanced(c, states[n])
  {
    hide Enabled, Do;
    if n > 0 {
      RunKeepsBalance(c, states, actions, n - 1);
      StepKeepsBalance(c, states[n - 1], actions[n - 1]);
    }
  }

  /** However threads interleave: at most `limit` are active, at most `maxQueued`
      queued, and permits free and held always add up to `limit`. */
  lemma LimitsHold(c: Config, states: seq<State>, actions: seq<Action>, n: nat)
    requires IsRun(c, states, actions) && n < |states|
    ensures 0 <= states[n].active <= c.limit && 0 <= states[n].queued <= c.maxQueued
    ensures 0 <= states[n].free && states[n].free + Count(states[n].threads).permits == c.limit
  {
    hide Enabled, Do, Count;
    RunKeepsBalance(c, states, actions, n);
    RunningHavePermits(states[n].threads);
  }

  /** Once every thread has gone, or not begun, the counters are as at the start. */
  lemma QuiescenceRestores(c: Config, states: seq<State>, actions: seq<Action>, n: nat)
    requires IsRun(c, states, actions) && n < |states|
    requires forall i :: 0 <= i < |states[n].threads| ==>
               states[n].threads[i] == Gone || states[n].threads[i] == Arriving
    ensures states[n].(threads := []) == Start(c)
  {
    hide Enabled, Do;
    RunKeepsBalance(c, states, actions, n);
    NothingCounted(states[n].threads);
  }

  lemma {:induction false} NothingCounted(threads: seq<Phase>)
    requires forall i :: 0 <= i < |threads| ==> threads[i] == Gone || threads[i] == Arriving
    ensures Count(threads) == Tally(0, 0, 0)
  {
    if threads != [] {
      NothingCounted(threads[..|threads| - 1]);
    }
  }

  // ------------------------------------------------------------ one thread among the others

  lemma OthersLeaveMe(c: Config, s: State, a: Action, me: nat, mine: Phase)
    requires At(s, me, mine) && Enabled(s, a) && !By(a, me)
    ensures At(Do(c, s, a), me, mine)
  {
  }

  lemma {:induction false} SomeoneQueued(threads: seq<Phase>, me: nat)
    requires me < |threads| && InQueue(threads[me])
    ensures Count(threads).queued >= 1
  {
    if me < |threads| - 1 {
      SomeoneQueued(threads[..|threads| - 1], me);
    }
  }

  datatype Outcome = Admitted | QueueFull | TimedOut

  /** The shared counters, and the run they have been through. */
  class Gate {
    const c: Config
    var s: State
    ghost var states: seq<State>
    ghost var actions: seq<Action>

    ghost predicate Inv()
      reads this
    {
      IsRun(c, states, actions) && states[|actions|] == s
    }

    constructor (c: Config)
      ensures Inv() && this.c == c && s == Start(c)
    {
      this.c := c;
      s := Start(c);
      states, actions := [Start(c)], [];
    }

    /** This run goes on from an earlier one. */
    ghost predicate Continues(states0: seq<State>, actions0: seq<Action>)
      reads this
    {
      states0 <= states && actions0 <= actions
    }

    method Take(a: Action)
      requires Inv() && Enabled(s, a)
      modifies this
      ensures Inv() && s == Do(c, old(s), a)
      ensures states == old(states) + [s] && actions == old(actions) + [a]
    {
      hide Enabled, Do, Start;
      s := Do(c, s, a);
      states, actions := states + [s], actions + [a];
    }

    /** Whatever other threads do between two sections of this one. */
    method Others(me: nat, mine: Phase)
      requires Inv() && At(s, me, mine)
      modifies this
      ensures Inv() && At(s, me, mine) && Continues(old(states), old(actions))
    {
      var turns: nat := *;
      while turns > 0
        invariant Inv() && At(s, me, mine) && Continues(old(states), old(actions))
      {
        var a: Action := *;
        if Enabled(s, a) && !By(a, me) {
          OthersLeaveMe(c, s, a, me, mine);
          Take(a);
        }
        turns := turns - 1;
      }
    }

    /** Since then this thread took a step in a state with that many queued. */
    ghost predicate TookAt(from: nat, a: Action, queued: int)
      reads this
    {
      exists n :: from <= n < |actions| && n < |states| && actions[n] == a && states[n].queued >= queued
    }

    /** Acquire, with other threads between its lock sections: the caller holds a
        permit and is counted active exactly if it is admitted, and otherwise
        leaves no trace. It is admitted whenever a permit is free at once; it is
        turned away only when none was, and the queue was full as it came to it,
        or its wait for a permit ran out. */
    method Acquire(me: nat) returns (r: Outcome)
      requires Inv() && At(s, me, Arriving)
      modifies this
      ensures Inv() && At(s, me, if r == Admitted then Running else Gone)
      ensures Continues(old(states), old(actions))
      ensures old(s.free) > 0 ==> r == Admitted
      ensures r == QueueFull ==> TookAt(|old(actions)|, Enqueue(me), c.maxQueued)
      ensures r == TimedOut ==> TookAt(|old(actions)|, Expire(me), 1)
    {
      hide Inv, TookAt;
      Take(TryAcquire(me));
      if s.threads[me] == Entering {
        Others(me, Entering);
        Take(CountIn(me));
        return Admitted;
      }
      Others(me, Crowded);
      var queued := JoinQueue(me, |old(actions)|);
      if !queued {
        return QueueFull;
      }
      Others(me, Waiting);
      r := Wait(me, |old(actions)|);
    }

    /** Joins the queue unless it is full. */
    method JoinQueue(me: nat, ghost from: nat) returns (queued: bool)
      requires Inv() && At(s, me, Crowded) && from <= |actions|
      modifies this
      ensures Inv() && At(s, me, if queued then Waiting else Gone)
      ensures Continues(old(states), old(actions))
      ensures !queued ==> TookAt(from, Enqueue(me), c.maxQueued)
    {
      Take(Enqueue(me));
      queued := s.threads[me] == Waiting;
      if !queued {
        assert actions[|actions| - 1] == Enqueue(me) && states[|actions| - 1].queued >= c.maxQueued;
      }
    }

    /** Waits for a permit, or until the wait runs out. */
    method Wait(me: nat, ghost from: nat) returns (r: Outcome)
      requires Inv() && At(s, me, Waiting) && from <= |actions|
      modifies this
      ensures Inv() && r != QueueFull && At(s, me, if r == Admitted then Running else Gone)
      ensures Continues(old(states), old(actions))
      ensures r == TimedOut ==> TookAt(from, Expire(me), 1)
    {
      hide IsRun;
      var acquired: bool := *;
      ghost var n := |actions|;
      Waits(me);
      if acquired && s.free > 0 {
        Take(Wake(me));
        Others(me, Woken);
      } else {
        Take(Expire(me));
        Others(me, Expired);
      }
      assert actions[n] == (if s.threads[me] == Woken then Wake(me) else Expire(me)) && states[n].queued >= 1;
      r := if s.threads[me] == Woken then Admitted else TimedOut;
      Take(Dequeue(me));
      assert actions[n] == (if r == Admitted then Wake(me) else Expire(me)) && states[n].queued >= 1;
    }

    /** A thread that waits is counted queued. */
    lemma Waits(me: nat)
      requires Inv() && At(s, me, Waiting)
      ensures s.queued >= 1 && |states| == |actions| + 1 && states[|actions|] == s
    {
      RunKeepsBalance(c, states, actions, |actions|);
      SomeoneQueued(s.threads, me);
    }

    method Release(me: nat)
      requires Inv() && At(s, me, Running)
      modifies this
      ensures Inv() && At(s, me, Gone)
    {
      hide Inv;
      Take(CountOut(me));
      Others(me, Leaving);
      Take(GivePermit(me));
    }

    /** A request: admitted or not, and whatever its work does, its thread gives
        back all it took. */
    method Handle(me: nat) returns (r: Outcome)
      requires Inv() && At(s, me, Arriving)
      modifies this
      ensures Inv() && At(s, me, Gone)
    {
      hide Inv;
      r := Acquire(me);
      if r == Admitted {
        Others(me, Running);
        Release(me);
      }
    }
  }
}
