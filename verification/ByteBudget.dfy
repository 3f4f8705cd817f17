/** The byte budget of the embedding sidecar: handler threads reserve, read and
    submit images, one batcher thread takes and releases them
    (`MicroBatcher` and `EmbeddingRequestHandler.handle`, scripts/embedding_server.py). */
module ByteBudget {

  const MAX_IMAGE_BYTES: nat := 10 * 1024 * 1024

  function Sum(sizes: seq<nat>): nat {
    if sizes == [] then 0 else Sum(sizes[..|sizes| - 1]) + sizes[|sizes| - 1]
  }

  /** The release clamps at zero. */
  function Released(queued: nat, bytes: nat): nat { if bytes >= queued then 0 else queued - bytes }

  /** A bounded queue; a capacity of 0 is no bound. */
  predicate Full(capacity: nat, length: nat) { capacity > 0 && length >= capacity }

  // ------------------------------------------------------------ threads, one lock section at a time

  /** Where a handler is; from Reading to GivingBack it holds reserved bytes. */
  datatype Handler =
    | Idle
    | Reading(bytes: nat)
    | Submitting(bytes: nat)
    | GivingBack(bytes: nat, closing: bool)
    | Waiting
    | Closed

  /** The batcher collects a batch, infers it, then releases it. */
  datatype State = State(queuedBytes: nat, handlers: seq<Handler>, work: seq<nat>, batch: seq<nat>, collecting: bool)

  datatype Config = Config(capacity: nat, budget: nat, batchSize: nat)

  datatype Action =
    | Connect
    | Reserve(handler: nat, bytes: nat)
    | Read(handler: nat)
    | ReadFails(handler: nat)
    | Submit(handler: nat)
    | GiveBack(handler: nat)
    | Respond(handler: nat)
    | Leave(handler: nat)
    | TakeFirst
    | TakeMore
    | Infer
    | ReleaseBatch

  predicate Enabled(c: Config, s: State, a: Action) {
    match a
    case Connect => true
    case Reserve(i, bytes) => i < |s.handlers| && s.handlers[i] == Idle && 0 < bytes <= MAX_IMAGE_BYTES
    case Read(i) => i < |s.handlers| && s.handlers[i].Reading?
    case ReadFails(i) => i < |s.handlers| && s.handlers[i].Reading?
    case Submit(i) => i < |s.handlers| && s.handlers[i].Submitting?
    case GiveBack(i) => i < |s.handlers| && s.handlers[i].GivingBack?
    case Respond(i) => i < |s.handlers| && s.handlers[i] == Waiting
    case Leave(i) => i < |s.handlers| && s.handlers[i] == Idle
    case TakeFirst => s.batch == [] && s.work != []
    case TakeMore => s.collecting && s.batch != [] && |s.batch| < c.batchSize && s.work != []
    case Infer => s.collecting && s.batch != []
    case ReleaseBatch => !s.collecting && s.batch != []
  }

  function Do(c: Config, s: State, a: Action): State
    requires Enabled(c, s, a)
  {
    match a
    case Connect => s.(handlers := s.handlers + [Idle])
    case Reserve(i, bytes) =>
      if s.queuedBytes + bytes > c.budget then s.(handlers := s.handlers[i := Closed])
      else s.(queuedBytes := s.queuedBytes + bytes, handlers := s.handlers[i := Reading(bytes)])
    case Read(i) => s.(handlers := s.handlers[i := Submitting(s.handlers[i].bytes)])
    case ReadFails(i) => s.(handlers := s.handlers[i := GivingBack(s.handlers[i].bytes, true)])
    case Submit(i) =>
      if Full(c.capacity, |s.work|) then s.(handlers := s.handlers[i := GivingBack(s.handlers[i].bytes, false)])
      else s.(work := s.work + [s.handlers[i].bytes], handlers := s.handlers[i := Waiting])
    case GiveBack(i) =>
      s.(queuedBytes := Released(s.queuedBytes, s.handlers[i].bytes),
         handlers := s.handlers[i := if s.handlers[i].closing then Closed else Idle])
    case Respond(i) => s.(handlers := s.handlers[i := Idle])
    case Leave(i) => s.(handlers := s.handlers[i := Closed])
    case TakeFirst => s.(batch := [s.work[0]], work := s.work[1..], collecting := true)
    case TakeMore => s.(batch := s.batch + [s.work[0]], work := s.work[1..])
    case Infer => s.(collecting := false)
    case ReleaseBatch => s.(queuedBytes := Released(s.queuedBytes, Sum(s.batch)), batch := [])
  }

  const START: State := State(0, [], [], [], false)

  ghost predicate IsRun(c: Config, states: seq<State>, actions: seq<Action>) {
    && |states| == |actions| + 1 && states[0] == START
    && forall k :: 0 <= k < |actions| ==>
         Enabled(c, states[k], actions[k]) && states[k + 1] == Do(c, states[k], actions[k])
  }

  // ------------------------------------------------------------ the ledger

  function Holds(h: Handler): nat {
    if h.Reading? || h.Submitting? || h.GivingBack? then h.bytes else 0
  }

  function Held(handlers: seq<Handler>): nat {
    if handlers == [] then 0 else Held(handlers[..|handlers| - 1]) + Holds(handlers[|handlers| - 1])
  }

  /** Every counted byte is held by a handler, queued, or in the batch. */
  predicate Balanced(c: Config, s: State) {
    && s.queuedBytes == Held(s.handlers) + Sum(s.work) + Sum(s.batch) <= c.budget
    && (c.capacity > 0 ==> |s.work| <= c.capacity)
  }

  lemma {:induction false} HeldChanges(handlers: seq<Handler>, i: nat, h: Handler)
    requires i < |handlers|
    ensures Held(handlers[i := h]) == Held(handlers) - Holds(handlers[i]) + Holds(h)
    ensures Held(handlers) >= Holds(handlers[i])
  {
    var n := |handlers| - 1;
    if i == n {
      assert handlers[i := h][..n] == handlers[..n];
    } else {
      HeldChanges(handlers[..n], i, h);
      assert handlers[i := h][..n] == handlers[..n][i := h];
    }
  }

  lemma {:induction false} SumTakes(sizes: seq<nat>)
    requires sizes != []
    ensures Sum(sizes) == sizes[0] + Sum(sizes[1..])
  {
    if |sizes| > 1 {
      SumTakes(sizes[..|sizes| - 1]);
      assert sizes[..|sizes| - 1][1..] == sizes[1..][..|sizes| - 2];
    } else {
      assert sizes[..0] == [] && sizes[1..] == [];
    }
  }

  lemma SumAdds(sizes: seq<nat>, x: nat)
    ensures Sum(sizes + [x]) == Sum(sizes) + x
  {
    assert (sizes + [x])[..|sizes|] == sizes;
  }

  lemma StepKeepsBalance(c: Config, s: State, a: Action)
    requires Balanced(c, s) && Enabled(c, s, a)
    ensures Balanced(c, Do(c, s, a))
  {
    hide Sum, Held;
    SumOfNone();
    if a.Connect? {
      HeldConnects(s.handlers);
    } else if a.TakeFirst? {
      SumTakes(s.work);
      SumAdds([], s.work[0]);
      assert [] + [s.work[0]] == [s.work[0]];
    } else if a.TakeMore? {
      SumTakes(s.work);
      SumAdds(s.batch, s.work[0]);
    } else if !a.ReleaseBatch? && !a.Infer? {
      HeldChanges(s.handlers, a.handler, Do(c, s, a).handlers[a.handler]);
      if a.Submit? {
        SumAdds(s.work, s.handlers[a.handler].bytes);
      }
    }
  }

  lemma HeldConnects(handlers: seq<Handler>)
    ensures Held(handlers + [Idle]) == Held(handlers)
  {
    assert (handlers + [Idle])[..|handlers|] == handlers;
  }

  lemma SumOfNone()
    ensures Sum([]) == 0
  {
  }

  /** In every interleaving of handlers and the batcher, the counter is exactly
      the bytes held, queued and being inferred, and within the budget. */
  lemma {:induction false} LedgerIsExact(c: Config, states: seq<State>, actions: seq<Action>, n: nat)
    requires IsRun(c, states, actions) && n < |states|
    ensures Balanced(c, states[n])
  {
    hide Enabled, Do, Sum, Held;
    if n == 0 {
      StartIsBalanced(c);
    } else {
      LedgerIsExact(c, states, actions, n - 1);
      StepKeepsBalance(c, states[n - 1], actions[n - 1]);
    }
  }

  lemma StartIsBalanced(c: Config)
    ensures Balanced(c, START)
  {
  }

  /** So no release ever reaches the clamp: it gives back no more than is counted. */
  lemma ClampNeverActs(c: Config, states: seq<State>, actions: seq<Action>, n: nat)
    requires IsRun(c, states, actions) && n < |actions|
    ensures actions[n].GiveBack? ==> Holds(states[n].handlers[actions[n].handler]) <= states[n].queuedBytes
    ensures actions[n].ReleaseBatch? ==> Sum(states[n].batch) <= states[n].queuedBytes
  {
    hide Do, Sum, Held;
    LedgerIsExact(c, states, actions, n);
    if actions[n].GiveBack? {
      HeldChanges(states[n].handlers, actions[n].handler, Idle);
    }
  }

  /** With no request in hand and nothing queued or batched, the whole budget is free. */
  lemma QuietMeansFree(c: Config, states: seq<State>, actions: seq<Action>, n: nat)
    requires IsRun(c, states, actions) && n < |states|
    requires states[n].work == [] && states[n].batch == []
    requires forall i :: 0 <= i < |states[n].handlers| ==> Holds(states[n].handlers[i]) == 0
    ensures states[n].queuedBytes == 0
  {
    hide Enabled, Do;
    LedgerIsExact(c, states, actions, n);
    NoneHeld(states[n].handlers);
  }

  lemma {:induction false} NoneHeld(handlers: seq<Handler>)
    requires forall i :: 0 <= i < |handlers| ==> Holds(handlers[i]) == 0
    ensures Held(handlers) == 0
  {
    if handlers != [] {
      NoneHeld(handlers[..|handlers| - 1]);
    }
  }

  // ------------------------------------------------------------ the code of the threads

  /** Whose turn an action is: the batcher's, or that of one handler. */
  datatype Thread = Batcher | HandlerThread(handler: nat)

  predicate By(a: Action, t: Thread) {
    if a.TakeFirst? || a.TakeMore? || a.Infer? || a.ReleaseBatch? then t.Batcher?
    else !a.Connect? && t == HandlerThread(a.handler)
  }

  /** What a thread may rely on while others run: its own place does not move,
      and nobody else takes from the queue while it is the batcher. */
  predicate MineKept(t: Thread, before: State, after: State) {
    match t
    case Batcher => after.batch == before.batch && after.collecting == before.collecting && before.work <= after.work
    case HandlerThread(i) => i < |before.handlers| ==> i < |after.handlers| && after.handlers[i] == before.handlers[i]
  }

  lemma OthersLeaveMine(c: Config, s: State, a: Action, t: Thread)
    requires Enabled(c, s, a) && !By(a, t)
    ensures MineKept(t, s, Do(c, s, a))
  {
  }

  datatype Response = BadLength | Overloaded | Disconnected | QueueFull | Answered

  class MicroBatcher {
    const c: Config
    var queuedBytes: nat
    var work: seq<nat>
    var handlers: seq<Handler>   // where each handler thread is
    var batch: seq<nat>          // the batcher thread's batch
    var collecting: bool
    ghost var states: seq<State>
    ghost var actions: seq<Action>

    function Now(): State
      reads this
    {
      State(queuedBytes, handlers, work, batch, collecting)
    }

    ghost predicate Inv()
      reads this
    {
      IsRun(c, states, actions) && states[|actions|] == Now()
    }

    constructor (c: Config)
      ensures Inv() && this.c == c && Now() == START
    {
      this.c := c;
      queuedBytes, work, handlers, batch, collecting := 0, [], [], [], false;
      states, actions := [START], [];
    }

    ghost method Record(a: Action, before: State)
      requires IsRun(c, states, actions) && states[|actions|] == before
      requires Enabled(c, before, a) && Now() == Do(c, before, a)
      modifies this`states, this`actions
      ensures Inv()
    {
      hide Enabled, Do;
      states, actions := states + [Now()], actions + [a];
    }

    method Take(a: Action)
      requires Inv() && Enabled(c, Now(), a)
      modifies this
      ensures Inv() && Now() == Do(c, old(Now()), a)
    {
      hide Enabled, Do;
      ghost var before := Now();
      var next := Do(c, Now(), a);
      queuedBytes, work, handlers, batch, collecting := next.queuedBytes, next.work, next.handlers, next.batch,
        next.collecting;
      Record(a, before);
    }

    /** Whatever the other threads do between two sections of this one. */
    method Others(t: Thread)
      requires Inv()
      modifies this
      ensures Inv() && MineKept(t, old(Now()), Now())
    {
      hide Enabled, Do;
      var turns: nat := *;
      while turns > 0
        invariant Inv() && MineKept(t, old(Now()), Now())
      {
        var a: Action := *;
        if Enabled(c, Now(), a) && !By(a, t) {
          OthersLeaveMine(c, Now(), a, t);
          Take(a);
        }
        turns := turns - 1;
      }
    }

    method Reserve(me: nat, jpegBytes: nat) returns (ok: bool)
      requires Inv() && Enabled(c, Now(), Action.Reserve(me, jpegBytes))
      modifies this
      ensures Inv() && Now() == Do(c, old(Now()), Action.Reserve(me, jpegBytes))
      ensures ok <==> handlers[me] == Reading(jpegBytes)
      ensures ok <==> old(queuedBytes) + jpegBytes <= c.budget
      ensures queuedBytes == old(queuedBytes) + if ok then jpegBytes else 0
    {
      ghost var before := Now();
      if queuedBytes + jpegBytes > c.budget {
        ok, handlers := false, handlers[me := Closed];
      } else {
        queuedBytes := queuedBytes + jpegBytes;
        ok, handlers := true, handlers[me := Reading(jpegBytes)];
      }
      Record(Action.Reserve(me, jpegBytes), before);
    }

    method Release(released: nat)
      modifies this`queuedBytes
      ensures queuedBytes == Released(old(queuedBytes), released)
    {
      queuedBytes := if released >= queuedBytes then 0 else queuedBytes - released;
    }

    /** Gives a handler's bytes back, after a failed read or a full queue. */
    method GiveBackMine(me: nat)
      requires Inv() && me < |handlers| && handlers[me].GivingBack?
      modifies this
      ensures Inv() && Now() == Do(c, old(Now()), GiveBack(me))
    {
      ghost var before := Now();
      Release(handlers[me].bytes);
      handlers := handlers[me := if handlers[me].closing then Closed else Idle];
      Record(GiveBack(me), before);
    }

    /** Queues a reserved item, or gives its bytes back when the queue is full,
        other threads running in between. */
    method SubmitReserved(me: nat) returns (ok: bool)
      requires Inv() && me < |handlers| && handlers[me].Submitting?
      modifies this
      ensures Inv() && me < |handlers| && handlers[me] == if ok then Waiting else Idle
      ensures ok <==> c.capacity == 0 || |old(work)| < c.capacity
      ensures ok ==> work == old(work) + [old(handlers[me].bytes)]
    {
      ghost var before := Now();
      if Full(c.capacity, |work|) {
        handlers := handlers[me := GivingBack(handlers[me].bytes, false)];
        Record(Submit(me), before);
        Others(HandlerThread(me));
        GiveBackMine(me);
        return false;
      }
      work := work + [handlers[me].bytes];
      handlers := handlers[me := Waiting];
      Record(Submit(me), before);
      ok := true;
    }

    /** One request on a connection: whatever the client, the queue and the other
        threads do, the handler ends holding no bytes, idle for the next request
        or closed, and the ledger is as the run left it. */
    method Handle(me: nat, jpegBytes: nat) returns (r: Response)
      requires Inv() && me < |handlers| && handlers[me] == Idle
      modifies this
      ensures Inv() && me < |handlers|
      ensures handlers[me] == if r == BadLength || r == Overloaded || r == Disconnected then Closed else Idle
      ensures r == BadLength <==> jpegBytes == 0 || jpegBytes > 10_485_760
    {
      hide Inv;
      if jpegBytes == 0 || jpegBytes > MAX_IMAGE_BYTES {
        Take(Leave(me));
        return BadLength;
      }
      var ok := Reserve(me, jpegBytes);
      if !ok {
        return Overloaded;
      }
      r := Serve(me);
    }

    /** The rest of a request whose bytes are reserved. */
    method Serve(me: nat) returns (r: Response)
      requires Inv() && me < |handlers| && handlers[me].Reading?
      modifies this
      ensures Inv() && me < |handlers| && r != BadLength && r != Overloaded
      ensures handlers[me] == if r == Disconnected then Closed else Idle
    {
      hide Inv;
      Others(HandlerThread(me));
      var arrived: bool := *;
      if !arrived {
        Take(ReadFails(me));
        Others(HandlerThread(me));
        GiveBackMine(me);
        return Disconnected;
      }
      Take(Read(me));
      Others(HandlerThread(me));
      var ok := SubmitReserved(me);
      if !ok {
        return QueueFull;
      }
      Others(HandlerThread(me));
      Take(Respond(me));
      r := Answered;
    }

    /** Takes a batch from the front of the queue as long as the wait and the
        batch size allow; others may only add behind it. */
    method Collect()
      requires Inv() && batch == [] && work != []
      modifies this
      ensures Inv() && collecting && batch != [] && |batch| <= (if c.batchSize > 1 then c.batchSize else 1)
      ensures old(work) <= batch + work
    {
      hide Inv;
      Take(TakeFirst);
      var more := true;
      while more && |batch| < c.batchSize
        invariant Inv() && collecting && batch != [] && old(work) <= batch + work
        invariant |batch| <= (if c.batchSize > 1 then c.batchSize else 1)
        decreases c.batchSize - |batch|, more
      {
        Others(Batcher);
        var timedOut: bool := *;
        if timedOut || work == [] {
          more := false;
        } else {
          Take(TakeMore);
        }
      }
    }

    /** One turn of the batcher with something queued: it collects a batch in
        queue order, infers it, and releases exactly its bytes. */
    method Turn() returns (taken: seq<nat>, ghost before: State)
      requires Inv() && batch == [] && work != []
      modifies this
      ensures Inv() && batch == []
      ensures taken != [] && |taken| <= (if c.batchSize > 1 then c.batchSize else 1) && old(work) <= taken + work
      ensures Balanced(c, before) && before.batch == taken && Sum(taken) <= before.queuedBytes
      ensures queuedBytes == before.queuedBytes - Sum(taken)
    {
      hide Inv, Held;
      Collect();
      Others(Batcher);
      Take(Infer);
      Others(Batcher);
      taken, before := batch, Now();
      BalancedNow();
      var total := 0;
      for i := 0 to |batch|
        invariant total == Sum(batch[..i])
      {
        assert batch[..i + 1][..i] == batch[..i];
        total := total + batch[i];
      }
      assert batch[..|batch|] == batch;
      ReleaseTaken(total);
    }

    lemma BalancedNow()
      requires Inv()
      ensures Balanced(c, Now())
    {
      LedgerIsExact(c, states, actions, |actions|);
    }

    method ReleaseTaken(total: nat)
      requires Inv() && batch != [] && !collecting && total == Sum(batch)
      modifies this
      ensures Inv() && Now() == Do(c, old(Now()), ReleaseBatch)
    {
      ghost var before := Now();
      Release(total);
      batch := [];
      Record(ReleaseBatch, before);
    }
  }
}
