/** Policy revisions as a fold of immutable events
    (crates/vidarax-api/src/policies.rs). */
module Policies {
  import opened Wrappers
  import opened Sorting

  datatype Status = Draft | Shadow | Canary | Active | Retired | RolledBack

  /** A restricted zone is carried as it was sent. */
  datatype Parameters = Parameters(restrictedZone: Option<string>)

  /** What an acknowledgement says about the live pipeline; absent fields read
      as no generation, not effective, nothing deferred. */
  datatype Application = Application(generation: Option<nat>, effective: bool, deferred: seq<string>)

  datatype Body =
    | Created(parent: Option<nat>, prompt: Option<string>, schema: Option<string>, parameters: Parameters)
    | DeployAcknowledged(revision: Option<nat>, status: Option<Status>, application: Application)
    | RollbackAcknowledged(target: Option<nat>, from: Option<nat>, application: Application)
    | Other

  datatype Event = Event(number: nat, ptsMs: nat, body: Body)

  datatype Policy = Policy(
    revision: nat, parent: Option<nat>, status: Status, prompt: Option<string>, schema: Option<string>,
    parameters: Parameters, createdMs: nat, updatedMs: nat,
    generation: Option<nat>, effective: bool, deferred: seq<string>)

  // ------------------------------------------------------------ the fold

  function Fresh(number: nat, ptsMs: nat, b: Body): Policy
    requires b.Created?
  {
    Policy(number, b.parent, Draft, b.prompt, b.schema, b.parameters, ptsMs, ptsMs, None, false, [])
  }

  /** Position of the first policy of a revision; the length when there is none. */
  function Find(policies: seq<Policy>, revision: nat): (k: nat)
    ensures k <= |policies|
    ensures k < |policies| ==> policies[k].revision == revision
    ensures forall j :: 0 <= j < k ==> policies[j].revision != revision
  {
    if policies == [] then 0
    else if policies[0].revision == revision then 0
    else 1 + Find(policies[1..], revision)
  }

  function RetiredIf(p: Policy, except: nat, ptsMs: nat): Policy {
    if p.revision != except && p.status == Active then
      p.(status := Retired, updatedMs := ptsMs, effective := false)
    else p
  }

  function Retire(policies: seq<Policy>, except: nat, ptsMs: nat): (r: seq<Policy>)
    ensures |r| == |policies|
  {
    seq(|policies|, k requires 0 <= k < |policies| => RetiredIf(policies[k], except, ptsMs))
  }

  function Acknowledged(p: Policy, status: Status, a: Application, ptsMs: nat): Policy {
    p.(status := status, updatedMs := ptsMs,
       generation := a.generation, effective := a.effective, deferred := a.deferred)
  }

  function Acknowledge(policies: seq<Policy>, revision: nat, status: Status, a: Application, ptsMs: nat)
    : (r: seq<Policy>)
    ensures |r| == |policies|
  {
    var k := Find(policies, revision);
    if k < |policies| then policies[k := Acknowledged(policies[k], status, a, ptsMs)] else policies
  }

  function Undo(policies: seq<Policy>, from: nat, ptsMs: nat): (r: seq<Policy>)
    ensures |r| == |policies|
  {
    var k := Find(policies, from);
    if k < |policies| then policies[k := policies[k].(status := RolledBack, updatedMs := ptsMs, effective := false)]
    else policies
  }

  function Apply(policies: seq<Policy>, e: Event): seq<Policy> {
    match e.body
    case Created(_, _, _, _) => policies + [Fresh(e.number, e.ptsMs, e.body)]
    case DeployAcknowledged(Some(revision), Some(status), a) =>
      var ready := if status == Active then Retire(policies, revision, e.ptsMs) else policies;
      Acknowledge(ready, revision, status, a, e.ptsMs)
    case RollbackAcknowledged(Some(revision), from, a) =>
      var undone := if from.Some? then Undo(policies, from.value, e.ptsMs) else policies;
      Acknowledge(Retire(undone, revision, e.ptsMs), revision, Active, a, e.ptsMs)
    case _ => policies
  }

  /** The policies after the first `n` events, in creation order. */
  function Fold(events: seq<Event>, n: nat): seq<Policy>
    requires n <= |events|
  {
    if n == 0 then [] else Apply(Fold(events, n - 1), events[n - 1])
  }

  predicate ByRevision(p: Policy, q: Policy) { p.revision <= q.revision }

  function Reconstruct(events: seq<Event>): seq<Policy> { Sort(ByRevision, Fold(events, |events|)) }

  // ------------------------------------------------------------ the fold, in place

  class PolicyTable {
    var policies: seq<Policy>

    constructor ()
      ensures policies == []
    {
      policies := [];
    }

    method FindRevision(revision: nat) returns (k: nat)
      ensures k == Find(policies, revision)
    {
      k := 0;
      while k < |policies| && policies[k].revision != revision
        invariant k <= |policies|
        invariant forall j :: 0 <= j < k ==> policies[j].revision != revision
      {
        k := k + 1;
      }
      FoundIs(policies, revision, k);
    }

    method RetireActive(except: nat, ptsMs: nat)
      modifies this
      ensures policies == Retire(old(policies), except, ptsMs)
    {
      var k := 0;
      while k < |policies|
        invariant k <= |policies| == |old(policies)|
        invariant forall j :: 0 <= j < k ==> policies[j] == RetiredIf(old(policies)[j], except, ptsMs)
        invariant policies[k..] == old(policies)[k..]
      {
        var p := policies[k];
        assert p == old(policies)[k];
        if p.revision != except && p.status == Active {
          policies := policies[k := p.(status := Retired, updatedMs := ptsMs, effective := false)];
        }
        k := k + 1;
      }
    }

    method ApplyAcknowledgement(revision: nat, status: Status, application: Application, ptsMs: nat)
      modifies this
      ensures policies == Acknowledge(old(policies), revision, status, application, ptsMs)
    {
      var k := FindRevision(revision);
      if k < |policies| {
        var p := policies[k];
        p := p.(status := status, updatedMs := ptsMs);
        p := p.(generation := application.generation, effective := application.effective,
                deferred := application.deferred);
        policies := policies[k := p];
      }
    }

    method RollBack(from: nat, ptsMs: nat)
      modifies this
      ensures policies == Undo(old(policies), from, ptsMs)
    {
      var k := FindRevision(from);
      if k < |policies| {
        policies := policies[k := policies[k].(status := RolledBack, updatedMs := ptsMs, effective := false)];
      }
    }

    method Replay(event: Event)
      modifies this
      ensures policies == Apply(old(policies), event)
    {
      hide Acknowledge, Retire, Undo;
      match event.body {
        case Created(parent, prompt, schema, parameters) =>
          policies := policies + [Policy(event.number, parent, Draft, prompt, schema, parameters,
                                         event.ptsMs, event.ptsMs, None, false, [])];
        case DeployAcknowledged(Some(revision), Some(status), application) =>
          if status == Active {
            RetireActive(revision, event.ptsMs);
          }
          ApplyAcknowledgement(revision, status, application, event.ptsMs);
        case RollbackAcknowledged(Some(revision), from, application) =>
          if from.Some? {
            RollBack(from.value, event.ptsMs);
          }
          RetireActive(revision, event.ptsMs);
          ApplyAcknowledgement(revision, Active, application, event.ptsMs);
        case _ =>
      }
    }

    method ReconstructPolicies(events: seq<Event>)
      requires policies == []
      modifies this
      ensures policies == Reconstruct(events)
    {
      for i := 0 to |events|
        invariant policies == Fold(events, i)
      {
        Replay(events[i]);
      }
      policies := Sort(ByRevision, policies);
    }
  }

  lemma {:induction false} FoundIs(policies: seq<Policy>, revision: nat, k: nat)
    requires k <= |policies| && (k < |policies| ==> policies[k].revision == revision)
    requires forall j :: 0 <= j < k ==> policies[j].revision != revision
    ensures k == Find(policies, revision)
  {
  }

  // ------------------------------------------------------------ at most one active policy

  /** Acknowledgements reach only the first policy of a revision. */
  ghost predicate FirstOfRevision(policies: seq<Policy>, k: nat)
    requires k < |policies|
  {
    forall j :: 0 <= j < k ==> policies[j].revision != policies[k].revision
  }

  ghost predicate OneActive(policies: seq<Policy>) {
    && (forall j, k :: 0 <= j < k < |policies| ==> !(policies[j].status == Active && policies[k].status == Active))
    && forall k :: 0 <= k < |policies| && policies[k].status == Active ==> FirstOfRevision(policies, k)
  }

  lemma RetireLeaves(policies: seq<Policy>, except: nat, ptsMs: nat)
    requires OneActive(policies)
    ensures var r := Retire(policies, except, ptsMs);
            OneActive(r) && forall k :: 0 <= k < |r| && r[k].status == Active ==> r[k].revision == except
  {
    var r := Retire(policies, except, ptsMs);
    forall k | 0 <= k < |r| && r[k].status == Active ensures FirstOfRevision(r, k) {
      assert FirstOfRevision(policies, k);
    }
  }

  lemma AcknowledgeKeeps(policies: seq<Policy>, revision: nat, status: Status, a: Application, ptsMs: nat)
    requires OneActive(policies)
    requires status == Active ==>
               forall k :: 0 <= k < |policies| && policies[k].status == Active ==> policies[k].revision == revision
    ensures OneActive(Acknowledge(policies, revision, status, a, ptsMs))
  {
    var r, f := Acknowledge(policies, revision, status, a, ptsMs), Find(policies, revision);
    forall k | 0 <= k < |r| && r[k].status == Active ensures FirstOfRevision(r, k) && (status == Active ==> k == f) {
      if k != f {
        assert FirstOfRevision(policies, k);
      }
    }
  }

  lemma UndoKeeps(policies: seq<Policy>, from: nat, ptsMs: nat)
    requires OneActive(policies)
    ensures OneActive(Undo(policies, from, ptsMs))
  {
    var r := Undo(policies, from, ptsMs);
    forall k | 0 <= k < |r| && r[k].status == Active ensures FirstOfRevision(r, k) {
      assert FirstOfRevision(policies, k);
    }
  }

  lemma ApplyKeepsOneActive(policies: seq<Policy>, e: Event)
    requires OneActive(policies)
    ensures OneActive(Apply(policies, e))
  {
    hide Retire, Acknowledge, Undo, OneActive;
    match e.body {
      case Created(_, _, _, _) =>
        DraftKeeps(policies, Fresh(e.number, e.ptsMs, e.body));
      case DeployAcknowledged(Some(revision), Some(status), a) =>
        RetireLeaves(policies, revision, e.ptsMs);
        AcknowledgeKeeps(if status == Active then Retire(policies, revision, e.ptsMs) else policies,
                         revision, status, a, e.ptsMs);
      case RollbackAcknowledged(Some(revision), from, a) =>
        var undone := if from.Some? then Undo(policies, from.value, e.ptsMs) else policies;
        if from.Some? {
          UndoKeeps(policies, from.value, e.ptsMs);
        }
        RetireLeaves(undone, revision, e.ptsMs);
        AcknowledgeKeeps(Retire(undone, revision, e.ptsMs), revision, Active, a, e.ptsMs);
      case _ =>
    }
  }

  lemma DraftKeeps(policies: seq<Policy>, p: Policy)
    requires OneActive(policies) && p.status == Draft
    ensures OneActive(policies + [p])
  {
    var r := policies + [p];
    forall k | 0 <= k < |r| && r[k].status == Active ensures FirstOfRevision(r, k) {
      assert FirstOfRevision(policies, k);
    }
  }

  lemma {:induction false} FoldHasOneActive(events: seq<Event>, n: nat)
    requires n <= |events|
    ensures OneActive(Fold(events, n))
  {
    hide OneActive, Apply;
    if n == 0 {
      assert OneActive([]) by { NothingActive(); }
    } else {
      FoldHasOneActive(events, n - 1);
      ApplyKeepsOneActive(Fold(events, n - 1), events[n - 1]);
    }
  }

  lemma NothingActive()
    ensures OneActive([])
  {
  }

  // ------------------------------------------------------------ sorting

  /** The reconstruction lists what the fold leaves, once each, by revision. */
  lemma ReconstructionPermutes(events: seq<Event>)
    ensures multiset(Reconstruct(events)) == multiset(Fold(events, |events|))
    ensures Ascending(ByRevision, Reconstruct(events))
  {
    hide Fold, Sort;
    SortPermutes(ByRevision, Fold(events, |events|));
    SortAscends(ByRevision, Fold(events, |events|));
  }

  predicate IsActive(p: Policy) { p.status == Active }

  function Actives(policies: seq<Policy>): nat { Count(IsActive, policies) }

  lemma {:induction false} ActivesOf(policies: seq<Policy>)
    requires OneActive(policies)
    ensures Actives(policies) <= 1
    ensures Actives(policies) == 1 <==> exists k :: 0 <= k < |policies| && policies[k].status == Active
  {
    if policies != [] {
      var front := policies[..|policies| - 1];
      forall k | 0 <= k < |front| && front[k].status == Active ensures FirstOfRevision(front, k) {
        assert FirstOfRevision(policies, k);
      }
      ActivesOf(front);
      assert front == [] || front[0] == policies[0];
      forall k | 0 <= k < |front| ensures front[k] == policies[k] {
      }
    }
  }

  /** Whatever events were written, and however they were interleaved, the
      reconstruction has at most one active policy. */
  lemma AtMostOneActive(events: seq<Event>)
    ensures Actives(Reconstruct(events)) <= 1
  {
    hide OneActive, Count, Sort;
    FoldHasOneActive(events, |events|);
    ActivesOf(Fold(events, |events|));
    CountOfSort(IsActive, ByRevision, Fold(events, |events|));
  }

  // ------------------------------------------------------------ revisions never change

  predicate SameTerms(p: Policy, q: Policy) {
    && p.revision == q.revision && p.parent == q.parent && p.prompt == q.prompt && p.schema == q.schema
    && p.parameters == q.parameters && p.createdMs == q.createdMs
  }

  /** The same policies as far as their terms go. */
  ghost predicate TermsAgree(policies: seq<Policy>, later: seq<Policy>) {
    |policies| == |later| && forall k :: 0 <= k < |policies| ==> SameTerms(policies[k], later[k])
  }

  lemma StepsKeepTerms(policies: seq<Policy>, r: nat, status: Status, a: Application, ptsMs: nat)
    ensures TermsAgree(policies, Retire(policies, r, ptsMs))
    ensures TermsAgree(policies, Undo(policies, r, ptsMs))
    ensures TermsAgree(policies, Acknowledge(policies, r, status, a, ptsMs))
  {
  }

  lemma TermsChain(x: seq<Policy>, y: seq<Policy>, z: seq<Policy>)
    requires TermsAgree(x, y) && TermsAgree(y, z)
    ensures TermsAgree(x, z)
  {
  }

  lemma AcknowledgedKeepsTerms(policies: seq<Policy>, e: Event)
    requires !e.body.Created?
    ensures TermsAgree(policies, Apply(policies, e))
  {
    hide Retire, Undo, Acknowledge, TermsAgree;
    TermsReflexive(policies);
    match e.body {
      case DeployAcknowledged(Some(revision), Some(status), a) =>
        var ready := if status == Active then Retire(policies, revision, e.ptsMs) else policies;
        StepsKeepTerms(policies, revision, status, a, e.ptsMs);
        StepsKeepTerms(ready, revision, status, a, e.ptsMs);
        TermsChain(policies, ready, Apply(policies, e));
      case RollbackAcknowledged(Some(revision), from, a) =>
        var undone := if from.Some? then Undo(policies, from.value, e.ptsMs) else policies;
        if from.Some? {
          StepsKeepTerms(policies, from.value, Active, a, e.ptsMs);
        }
        var retired := Retire(undone, revision, e.ptsMs);
        StepsKeepTerms(undone, revision, Active, a, e.ptsMs);
        StepsKeepTerms(retired, revision, Active, a, e.ptsMs);
        TermsChain(policies, undone, retired);
        TermsChain(policies, retired, Apply(policies, e));
      case _ =>
    }
  }

  lemma TermsReflexive(policies: seq<Policy>)
    ensures TermsAgree(policies, policies)
  {
  }

  lemma ApplyKeepsTerms(policies: seq<Policy>, e: Event)
    ensures var r := Apply(policies, e);
            && |r| == |policies| + (if e.body.Created? then 1 else 0)
            && (forall k :: 0 <= k < |policies| ==> SameTerms(policies[k], r[k]))
            && (e.body.Created? ==> r == policies + [Fresh(e.number, e.ptsMs, e.body)])
  {
    if !e.body.Created? {
      hide Apply;
      AcknowledgedKeepsTerms(policies, e);
    }
  }

  /** What a policy was created with, it keeps whatever events follow. */
  lemma {:induction false} TermsKept(events: seq<Event>, n: nat, m: nat, k: nat)
    requires n <= m <= |events| && k < |Fold(events, n)|
    ensures k < |Fold(events, m)| && SameTerms(Fold(events, n)[k], Fold(events, m)[k])
    decreases m
  {
    hide Apply;
    if n < m {
      TermsKept(events, n, m - 1, k);
      ApplyKeepsTerms(Fold(events, m - 1), events[m - 1]);
    }
  }

  lemma {:induction false} FoldOfPrefix(events: seq<Event>, more: seq<Event>, n: nat)
    requires n <= |events|
    ensures Fold(events + more, n) == Fold(events, n)
  {
    hide Apply;
    if n > 0 {
      FoldOfPrefix(events, more, n - 1);
    }
  }

  /** A revision once listed stays listed with the same parent, prompt, schema
      and parameters, whatever is appended. */
  lemma RevisionsAreImmutable(events: seq<Event>, more: seq<Event>, p: Policy)
    requires p in Reconstruct(events)
    ensures exists q :: q in Reconstruct(events + more) && SameTerms(p, q)
  {
    hide Apply, Sort;
    var n := |events|;
    ReconstructionPermutes(events);
    assert p in multiset(Fold(events, n));
    var k :| 0 <= k < |Fold(events, n)| && Fold(events, n)[k] == p;
    FoldOfPrefix(events, more, n);
    TermsKept(events + more, n, |events + more|, k);
    ReconstructionPermutes(events + more);
    var q := Fold(events + more, |events + more|)[k];
    assert q in multiset(Reconstruct(events + more));
  }

  // ------------------------------------------------------------ in terms of the events

  /** The events that create a revision with these terms. */
  ghost function Creations(events: seq<Event>, n: nat, t: Policy): set<nat>
    requires n <= |events|
  {
    set k | 0 <= k < n && events[k].number == t.revision && events[k].ptsMs == t.createdMs
            && events[k].body == Created(t.parent, t.prompt, t.schema, t.parameters)
  }

  /** The policies listed with these terms. */
  ghost function Listings(policies: seq<Policy>, t: Policy): set<nat> {
    set k | 0 <= k < |policies|
            && policies[k].revision == t.revision && policies[k].createdMs == t.createdMs
            && policies[k].parent == t.parent && policies[k].prompt == t.prompt
            && policies[k].schema == t.schema && policies[k].parameters == t.parameters
  }

  lemma CreationsGrow(events: seq<Event>, n: nat, t: Policy)
    requires n < |events|
    ensures var e := events[n];
            var created := e.body.Created? && SameTerms(t, Fresh(e.number, e.ptsMs, e.body));
            Creations(events, n + 1, t) == Creations(events, n, t) + if created then {n} else {}
    ensures n !in Creations(events, n, t)
  {
  }

  lemma {:induction false} CountAgrees(policies: seq<Policy>, later: seq<Policy>, t: Policy)
    requires |policies| == |later| && forall k :: 0 <= k < |policies| ==> SameTerms(policies[k], later[k])
    ensures Count(p => SameTerms(t, p), policies) == Count(p => SameTerms(t, p), later)
  {
    if policies != [] {
      var n := |policies| - 1;
      assert SameTerms(policies[n], later[n]);
      CountAgrees(policies[..n], later[..n], t);
    }
  }

  lemma {:induction false} FoldCounts(events: seq<Event>, n: nat, t: Policy)
    requires n <= |events|
    ensures Count(p => SameTerms(t, p), Fold(events, n)) == |Creations(events, n, t)|
  {
    hide Apply, Creations, SameTerms;
    if n == 0 {
      NothingCreated(events, t);
    } else {
      FoldCounts(events, n - 1, t);
      var before, e := Fold(events, n - 1), events[n - 1];
      ApplyKeepsTerms(before, e);
      CreationsGrow(events, n - 1, t);
      if e.body.Created? {
        var draft := Fresh(e.number, e.ptsMs, e.body);
        assert (before + [draft])[..|before|] == before;
      } else {
        CountAgrees(before, Fold(events, n), t);
      }
    }
  }

  lemma NothingCreated(events: seq<Event>, t: Policy)
    ensures Creations(events, 0, t) == {}
  {
  }

  /** Whatever the events, the reconstruction lists a revision with given terms as
      often as events created one with them: each creation once, unchanged. */
  lemma OnePolicyEach(events: seq<Event>, t: Policy)
    ensures |Listings(Reconstruct(events), t)| == |Creations(events, |events|, t)|
  {
    hide Apply, Creations, SameTerms, Sort, Fold;
    FoldCounts(events, |events|, t);
    CountOfSort(p => SameTerms(t, p), ByRevision, Fold(events, |events|));
    CountIsWhere(p => SameTerms(t, p), Reconstruct(events));
    ListingsAreWhere(Reconstruct(events), t);
  }

  lemma ListingsAreWhere(policies: seq<Policy>, t: Policy)
    ensures Listings(policies, t) == Where(p => SameTerms(t, p), policies)
  {
  }

  /** So a listed policy has the revision, terms and creation time of an event
      that created it. */
  lemma ListedWasCreated(events: seq<Event>, p: Policy)
    requires p in Reconstruct(events)
    ensures exists k :: 0 <= k < |events| && events[k].body.Created?
                        && p.revision == events[k].number && p.createdMs == events[k].ptsMs
                        && p.parent == events[k].body.parent && p.prompt == events[k].body.prompt
                        && p.schema == events[k].body.schema && p.parameters == events[k].body.parameters
  {
    hide Reconstruct;
    OnePolicyEach(events, p);
    var j :| 0 <= j < |Reconstruct(events)| && Reconstruct(events)[j] == p;
    assert j in Listings(Reconstruct(events), p);
    assert Creations(events, |events|, p) != {};
    var k :| k in Creations(events, |events|, p);
  }

  /** And every creation is listed. */
  lemma CreatedIsListed(events: seq<Event>, k: nat)
    requires k < |events| && events[k].body.Created?
    ensures exists p :: p in Reconstruct(events)
                        && p.revision == events[k].number && p.createdMs == events[k].ptsMs
                        && p.parent == events[k].body.parent && p.prompt == events[k].body.prompt
                        && p.schema == events[k].body.schema && p.parameters == events[k].body.parameters
  {
    hide Reconstruct;
    var b := events[k].body;
    var t := Policy(events[k].number, b.parent, Draft, b.prompt, b.schema, b.parameters, events[k].ptsMs, 0,
                    None, false, []);
    OnePolicyEach(events, t);
    assert k in Creations(events, |events|, t);
    assert Listings(Reconstruct(events), t) != {};
    var j :| j in Listings(Reconstruct(events), t);
    assert Reconstruct(events)[j] in Reconstruct(events);
  }

  /** What one event makes of the policy at position `k`: an acknowledgement
      reaches the first policy of its revision. */
  function Becomes(policies: seq<Policy>, e: Event, k: nat): Policy
    requires k < |policies|
  {
    var p := policies[k];
    match e.body
    case DeployAcknowledged(Some(revision), Some(status), a) =>
      if k == Find(policies, revision) then
        p.(status := status, updatedMs := e.ptsMs,
           generation := a.generation, effective := a.effective, deferred := a.deferred)
      else if status == Active && p.status == Active && p.revision != revision then
        p.(status := Retired, updatedMs := e.ptsMs, effective := false)
      else p
    case RollbackAcknowledged(Some(revision), from, a) =>
      if k == Find(policies, revision) then
        p.(status := Active, updatedMs := e.ptsMs,
           generation := a.generation, effective := a.effective, deferred := a.deferred)
      else if from.Some? && k == Find(policies, from.value) then
        p.(status := RolledBack, updatedMs := e.ptsMs, effective := false)
      else if p.status == Active && p.revision != revision then
        p.(status := Retired, updatedMs := e.ptsMs, effective := false)
      else p
    case _ => p
  }

  lemma FindAfter(policies: seq<Policy>, later: seq<Policy>, revision: nat)
    requires TermsAgree(policies, later)
    ensures Find(later, revision) == Find(policies, revision)
  {
  }

  lemma AppliedAt(policies: seq<Policy>, e: Event, k: nat)
    requires k < |policies|
    ensures k < |Apply(policies, e)| && Apply(policies, e)[k] == Becomes(policies, e, k)
  {
    hide Find;
    match e.body {
      case DeployAcknowledged(Some(revision), Some(status), a) =>
        StepsKeepTerms(policies, revision, status, a, e.ptsMs);
        FindAfter(policies, Retire(policies, revision, e.ptsMs), revision);
      case RollbackAcknowledged(Some(revision), from, a) =>
        var undone := policies;
        if from.Some? {
          undone := Undo(policies, from.value, e.ptsMs);
          StepsKeepTerms(policies, from.value, Active, a, e.ptsMs);
          FindAfter(policies, undone, revision);
        }
        StepsKeepTerms(undone, revision, Active, a, e.ptsMs);
        FindAfter(undone, Retire(undone, revision, e.ptsMs), revision);
      case _ =>
    }
  }

  /** Each event adds at most one draft at the end, and makes of every policy
      listed before what `Becomes` says. */
  lemma EventShows(events: seq<Event>, n: nat)
    requires n < |events|
    ensures var before, after, e := Fold(events, n), Fold(events, n + 1), events[n];
            && |after| == |before| + (if e.body.Created? then 1 else 0)
            && forall k :: 0 <= k < |before| ==> after[k] == Becomes(before, e, k)
  {
    hide Find, Becomes, Apply;
    var before, e := Fold(events, n), events[n];
    ApplyKeepsTerms(before, e);
    forall k | 0 <= k < |before| ensures Fold(events, n + 1)[k] == Becomes(before, e, k) {
      AppliedAt(before, e, k);
    }
  }

  /** A revision is created as a draft that is not live. */
  lemma CreatedAsDraft(events: seq<Event>, n: nat)
    requires n < |events| && events[n].body.Created?
    ensures var before, after := Fold(events, n), Fold(events, n + 1);
            && |after| == |before| + 1
            && var p := after[|before|];
               && p.status == Draft && p.updatedMs == events[n].ptsMs
               && p.generation == None && !p.effective && p.deferred == []
  {
  }
}
