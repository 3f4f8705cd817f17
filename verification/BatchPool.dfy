/** The bounded worker pool of a batch of inference requests
    (`infer_batch`, crates/vidarax-api/src/handlers.rs). */
module BatchPool {
  import opened Wrappers
  import opened Sorting

  const MAX_REQUESTS: nat := 256
  const MAX_PARALLEL: nat := 64
  const DEFAULT_PARALLEL: nat := 8

  /** What running one request comes to. */
  datatype Outcome = Answered(value: string) | Failed(code: string) | Panicked

  /** One entry of the response. */
  datatype Item = Item(index: nat, outcome: Outcome)

  /** One request: why it is not valid, if so, and what running it comes to. */
  datatype Request = Request(refusal: Option<string>, outcome: Outcome)

  datatype Response =
    | NoProvider
    | BadRequests
    | BadParallel
    | Refused(error: string)
    | WorkerPanicked
    | Completed(processed: nat, succeeded: nat, failed: nat, results: seq<Item>)

  /** Spawned tasks that have not been joined; the spawn history and the largest
      number in flight are kept to be reasoned about. */
  class JoinSet {
    var running: set<nat>
    ghost var spawned: seq<nat>
    ghost var peak: nat

    constructor ()
      ensures running == {} && spawned == [] && peak == 0
    {
      running, spawned, peak := {}, [], 0;
    }

    method Spawn(i: nat)
      modifies this
      ensures running == old(running) + {i} && spawned == old(spawned) + [i]
      ensures peak == if |running| > old(peak) then |running| else old(peak)
    {
      running := running + {i};
      spawned := spawned + [i];
      peak := if |running| > peak then |running| else peak;
    }

    /** Some running task finishes: any of them may be the first to. */
    method JoinNext() returns (i: nat)
      requires running != {}
      modifies this`running
      ensures i in old(running) && running == old(running) - {i}
    {
      i :| i in running;
      running := running - {i};
    }
  }

  // ------------------------------------------------------------ what the response says

  function Items(outcomes: seq<Outcome>): seq<Item> {
    seq(|outcomes|, i requires 0 <= i < |outcomes| => Item(i, outcomes[i]))
  }

  function Answers(outcomes: seq<Outcome>): nat {
    if outcomes == [] then 0
    else Answers(outcomes[..|outcomes| - 1]) + if outcomes[|outcomes| - 1].Answered? then 1 else 0
  }

  /** Filled slots, and those with an answer. */
  function Filled(ordered: seq<Option<Item>>): nat {
    if ordered == [] then 0
    else Filled(ordered[..|ordered| - 1]) + if ordered[|ordered| - 1].Some? then 1 else 0
  }

  function Right(ordered: seq<Option<Item>>): nat {
    if ordered == [] then 0
    else
      var last := ordered[|ordered| - 1];
      Right(ordered[..|ordered| - 1]) + if last.Some? && last.value.outcome.Answered? then 1 else 0
  }

  function Flatten(ordered: seq<Option<Item>>): seq<Item> {
    if ordered == [] then []
    else
      var last := ordered[|ordered| - 1];
      Flatten(ordered[..|ordered| - 1]) + if last.Some? then [last.value] else []
  }

  predicate ByIndex(a: Item, b: Item) { a.index <= b.index }

  lemma {:induction false} SlotFilled(ordered: seq<Option<Item>>, i: nat, x: Item)
    requires i < |ordered| && ordered[i] == None
    ensures Filled(ordered[i := Some(x)]) == Filled(ordered) + 1
    ensures Right(ordered[i := Some(x)]) == Right(ordered) + if x.outcome.Answered? then 1 else 0
  {
    var n := |ordered| - 1;
    if i == n {
      assert ordered[i := Some(x)][..n] == ordered[..n];
    } else {
      SlotFilled(ordered[..n], i, x);
      assert ordered[i := Some(x)][..n] == ordered[..n][i := Some(x)];
    }
  }

  lemma {:induction false} AllEmpty(ordered: seq<Option<Item>>)
    requires forall i :: 0 <= i < |ordered| ==> ordered[i] == None
    ensures Filled(ordered) == 0 && Right(ordered) == 0
  {
    if ordered != [] {
      AllEmpty(ordered[..|ordered| - 1]);
    }
  }

  ghost predicate AllFilled(ordered: seq<Option<Item>>, outcomes: seq<Outcome>) {
    |ordered| == |outcomes| && forall i :: 0 <= i < |ordered| ==> ordered[i] == Some(Item(i, outcomes[i]))
  }

  lemma {:induction false} FilledFlattens(ordered: seq<Option<Item>>, outcomes: seq<Outcome>)
    requires AllFilled(ordered, outcomes)
    ensures Flatten(ordered) == Items(outcomes)
    ensures Filled(ordered) == |outcomes| && Right(ordered) == Answers(outcomes)
  {
    if ordered == [] {
      assert Items(outcomes) == [];
    } else {
      var n := |ordered| - 1;
      FilledFlattens(ordered[..n], outcomes[..n]);
      assert Items(outcomes) == Items(outcomes[..n]) + [Item(n, outcomes[n])];
    }
  }

  lemma ItemsAreSorted(outcomes: seq<Outcome>)
    ensures Sort(ByIndex, Items(outcomes)) == Items(outcomes)
  {
    hide Sort;
    SortOfAscending(ByIndex, Items(outcomes));
  }

  // ------------------------------------------------------------ the pool

  ghost predicate Upto(spawned: seq<nat>, n: nat) {
    |spawned| == n && forall i :: 0 <= i < n ==> spawned[i] == i
  }

  /** The slots of joined tasks hold their results, the others nothing. */
  ghost predicate Joined(ordered: seq<Option<Item>>, outcomes: seq<Outcome>, running: set<nat>, next: nat) {
    |ordered| == |outcomes| && forall i :: 0 <= i < |ordered| ==>
      ordered[i] == if i < next && i !in running then Some(Item(i, outcomes[i])) else None
  }

  /** Tasks 0..next have been spawned once each, in order; what runs is among
      them and within the chunk, all of it while requests remain. */
  ghost predicate Flying(running: set<nat>, spawned: seq<nat>, peak: nat, next: nat, chunk: nat, total: nat) {
    && next <= total && Upto(spawned, next) && peak <= chunk
    && (forall i :: i in running ==> i < next)
    && |running| <= chunk && (next < total ==> |running| == chunk)
  }

  /** While the pool fills, everything spawned is running. */
  ghost predicate Filling(running: set<nat>, spawned: seq<nat>, peak: nat, next: nat, chunk: nat) {
    && next <= chunk && Upto(spawned, next) && peak <= chunk && |running| == next
    && forall i :: i in running <==> 0 <= i < next
  }

  ghost predicate CountsRight(ordered: seq<Option<Item>>, processed: nat, succeeded: nat, failed: nat) {
    processed == Filled(ordered) && succeeded == Right(ordered) && succeeded + failed == processed
  }

  ghost predicate NonePanicked(outcomes: seq<Outcome>, running: set<nat>, next: nat)
    requires next <= |outcomes|
  {
    forall i :: 0 <= i < next && i !in running ==> outcomes[i] != Panicked
  }

  lemma SlotRecorded(ordered: seq<Option<Item>>, outcomes: seq<Outcome>, running: set<nat>, next: nat, i: nat)
    requires Joined(ordered, outcomes, running, next) && i in running && i < next <= |outcomes|
    ensures i < |ordered| && ordered[i] == None
    ensures Joined(ordered[i := Some(Item(i, outcomes[i]))], outcomes, running - {i}, next)
  {
  }

  lemma SlotSpawned(ordered: seq<Option<Item>>, outcomes: seq<Outcome>, running: set<nat>, next: nat)
    requires Joined(ordered, outcomes, running, next)
    ensures Joined(ordered, outcomes, running + {next}, next + 1)
  {
  }

  lemma FlightSpawned(running: set<nat>, spawned: seq<nat>, peak: nat, next: nat, chunk: nat, total: nat, i: nat)
    requires Flying(running, spawned, peak, next, chunk, total) && i in running && next < total
    ensures var grown := running - {i} + {next};
            Flying(grown, spawned + [next], if |grown| > peak then |grown| else peak, next + 1, chunk, total)
  {
    assert |running - {i}| == |running| - 1;
    assert next !in running - {i};
  }

  function Limit(maxParallel: Option<nat>): nat {
    if maxParallel.Some? then maxParallel.value else DEFAULT_PARALLEL
  }

  predicate GoodSizes(requests: seq<Request>, limit: nat) {
    1 <= |requests| <= MAX_REQUESTS && 1 <= limit <= MAX_PARALLEL
  }

  predicate AllValid(requests: seq<Request>) {
    forall i :: 0 <= i < |requests| ==> requests[i].refusal == None
  }

  function Outcomes(requests: seq<Request>): seq<Outcome> {
    seq(|requests|, i requires 0 <= i < |requests| => requests[i].outcome)
  }

  /** Every refusal before anything is spawned; otherwise the pool's answer, the
      i-th result that of the i-th request. */
  method InferBatch(provider: bool, requests: seq<Request>, maxParallel: Option<nat>, tasks: JoinSet)
    returns (r: Response)
    requires tasks.running == {} && tasks.spawned == [] && tasks.peak == 0
    modifies tasks
    ensures r == NoProvider <==> !provider
    ensures r == BadRequests <==> provider && (|requests| == 0 || |requests| > 256)
    ensures var limit := if maxParallel.Some? then maxParallel.value else 8;
            var sized := provider && 1 <= |requests| <= 256;
            var valid := forall i :: 0 <= i < |requests| ==> requests[i].refusal == None;
            && (r == BadParallel <==> sized && !(1 <= limit <= 64))
            && (r.Refused? <==> sized && 1 <= limit <= 64 && !valid)
            && (r.WorkerPanicked? <==>
                  && sized && 1 <= limit <= 64 && valid
                  && exists i :: 0 <= i < |requests| && requests[i].outcome == Panicked)
            && tasks.peak <= limit
    ensures r.Refused? ==>
              exists i :: 0 <= i < |requests| && requests[i].refusal == Some(r.error)
                          && forall j :: 0 <= j < i ==> requests[j].refusal == None
    ensures !r.Completed? && !r.WorkerPanicked? ==> tasks.spawned == []
    ensures r.Completed? ==> tasks.running == {} && |tasks.spawned| == |requests|
                             && forall i :: 0 <= i < |requests| ==> tasks.spawned[i] == i
    ensures r.Completed? ==>
              && r.processed == |requests| == |r.results| && r.succeeded + r.failed == r.processed
              && r.succeeded == |Answered(requests)|
              && forall i :: 0 <= i < |requests| ==>
                   r.results[i].index == i && r.results[i].outcome == requests[i].outcome
  {
    hide Answers, Items, Outcomes, Answered;
    if !provider {
      return NoProvider;
    }
    var total := |requests|;
    if total == 0 || total > MAX_REQUESTS {
      return BadRequests;
    }
    var limit := if maxParallel.Some? then maxParallel.value else DEFAULT_PARALLEL;
    if !(1 <= limit <= MAX_PARALLEL) {
      return BadParallel;
    }
    for i := 0 to total
      invariant forall j :: 0 <= j < i ==> requests[j].refusal == None
    {
      if requests[i].refusal.Some? {
        return Refused(requests[i].refusal.value);
      }
    }
    OutcomesAre(requests);
    AnswersCounted(requests, total);
    assert requests[..total] == requests;
    r := RunPool(Outcomes(requests), limit, tasks);
  }

  /** The requests that were answered. */
  ghost function Answered(requests: seq<Request>): set<nat> {
    set i | 0 <= i < |requests| && requests[i].outcome.Answered?
  }

  lemma OutcomesAre(requests: seq<Request>)
    ensures |Outcomes(requests)| == |requests| == |Items(Outcomes(requests))|
    ensures forall i :: 0 <= i < |requests| ==> Outcomes(requests)[i] == requests[i].outcome
    ensures forall i :: 0 <= i < |requests| ==>
              Items(Outcomes(requests))[i].index == i && Items(Outcomes(requests))[i].outcome == requests[i].outcome
  {
  }

  lemma AnsweredGrows(requests: seq<Request>, x: Request)
    ensures Answered(requests + [x]) == Answered(requests) + if x.outcome.Answered? then {|requests|} else {}
    ensures |requests| !in Answered(requests)
    ensures Answers(Outcomes(requests + [x])) == Answers(Outcomes(requests)) + if x.outcome.Answered? then 1 else 0
  {
    forall i | 0 <= i < |requests| ensures (requests + [x])[i] == requests[i] {
    }
    assert Outcomes(requests + [x])[..|requests|] == Outcomes(requests);
  }

  lemma {:induction false} AnswersCounted(requests: seq<Request>, n: nat)
    requires n <= |requests|
    ensures Answers(Outcomes(requests[..n])) == |Answered(requests[..n])|
  {
    if n == 0 {
      assert Answered(requests[..n]) == {};
    } else {
      AnswersCounted(requests, n - 1);
      hide Answered, Answers, Outcomes;
      AnsweredGrows(requests[..n - 1], requests[n - 1]);
      assert requests[..n] == requests[..n - 1] + [requests[n - 1]];
    }
  }

  /** Spawns the first tasks. */
  method Fill(chunk: nat, tasks: JoinSet)
    requires tasks.running == {} && tasks.spawned == [] && tasks.peak == 0
    modifies tasks
    ensures Filling(tasks.running, tasks.spawned, tasks.peak, chunk, chunk)
  {
    for next := 0 to chunk
      invariant Filling(tasks.running, tasks.spawned, tasks.peak, next, chunk)
    {
      tasks.Spawn(next);
    }
  }

  method RunPool(outcomes: seq<Outcome>, limit: nat, tasks: JoinSet) returns (r: Response)
    requires outcomes != [] && limit >= 1
    requires tasks.running == {} && tasks.spawned == [] && tasks.peak == 0
    modifies tasks
    ensures tasks.peak <= limit
    ensures r.WorkerPanicked? || r.Completed?
    ensures r.WorkerPanicked? <==> exists i :: 0 <= i < |outcomes| && outcomes[i] == Panicked
    ensures r.Completed? ==> Upto(tasks.spawned, |outcomes|) && tasks.running == {}
    ensures r.Completed? ==>
              && r.processed == |outcomes| && r.succeeded == Answers(outcomes) && r.succeeded + r.failed == r.processed
              && r.results == Items(outcomes)
  {
    hide Filled, Right, Flatten, Sort, Answers, Items, Joined, Flying;
    var total := |outcomes|;
    var chunkSize := if limit <= total then limit else total;
    var processed, succeeded, failed := 0, 0, 0;
    var ordered: seq<Option<Item>> := seq(total, _ => None);
    AllEmpty(ordered);
    Fill(chunkSize, tasks);
    var next := chunkSize;
    Filled0(ordered, outcomes, tasks.running, tasks.spawned, tasks.peak, next);
    while tasks.running != {}
      invariant Flying(tasks.running, tasks.spawned, tasks.peak, next, chunkSize, total)
      invariant next <= total && Joined(ordered, outcomes, tasks.running, next)
      invariant NonePanicked(outcomes, tasks.running, next) && CountsRight(ordered, processed, succeeded, failed)
      decreases total - next, |tasks.running|
    {
      ghost var before, peak, spawned := tasks.running, tasks.peak, tasks.spawned;
      var index := tasks.JoinNext();
      InFlight(before, spawned, peak, next, chunkSize, total, index);
      if outcomes[index] == Panicked {
        return WorkerPanicked;
      }
      processed := processed + 1;
      SlotRecorded(ordered, outcomes, before, next, index);
      SlotFilled(ordered, index, Item(index, outcomes[index]));
      if outcomes[index].Answered? {
        succeeded := succeeded + 1;
      } else {
        failed := failed + 1;
      }
      ordered := ordered[index := Some(Item(index, outcomes[index]))];
      if next < total {
        FlightSpawned(before, spawned, peak, next, chunkSize, total, index);
        SlotSpawned(ordered, outcomes, tasks.running, next);
        tasks.Spawn(next);
        next := next + 1;
      }
    }
    Landed(ordered, outcomes, tasks.spawned, tasks.peak, next, chunkSize);
    FilledFlattens(ordered, outcomes);
    ItemsAreSorted(outcomes);
    r := Completed(processed, succeeded, failed, Sort(ByIndex, Flatten(ordered)));
  }

  /** The pool once filled, before anything is joined. */
  lemma Filled0(ordered: seq<Option<Item>>, outcomes: seq<Outcome>, running: set<nat>, spawned: seq<nat>, peak: nat,
                next: nat)
    requires Filling(running, spawned, peak, next, next) && next <= |outcomes| == |ordered|
    requires forall i :: 0 <= i < |ordered| ==> ordered[i] == None
    ensures Flying(running, spawned, peak, next, next, |outcomes|)
    ensures Joined(ordered, outcomes, running, next) && NonePanicked(outcomes, running, next)
  {
  }

  lemma InFlight(running: set<nat>, spawned: seq<nat>, peak: nat, next: nat, chunk: nat, total: nat, i: nat)
    requires Flying(running, spawned, peak, next, chunk, total) && i in running
    ensures i < next <= total && peak <= chunk && |running - {i}| < |running|
    ensures next == total ==> Flying(running - {i}, spawned, peak, next, chunk, total)
  {
    assert |running - {i}| == |running| - 1;
  }

  /** With nothing in flight every request was spawned and joined. */
  lemma Landed(ordered: seq<Option<Item>>, outcomes: seq<Outcome>, spawned: seq<nat>, peak: nat, next: nat, chunk: nat)
    requires Flying({}, spawned, peak, next, chunk, |outcomes|) && chunk > 0 && next <= |outcomes|
    requires Joined(ordered, outcomes, {}, next) && NonePanicked(outcomes, {}, next)
    ensures next == |outcomes| && Upto(spawned, next) && peak <= chunk && AllFilled(ordered, outcomes)
    ensures forall i :: 0 <= i < |outcomes| ==> outcomes[i] != Panicked
  {
  }
}
