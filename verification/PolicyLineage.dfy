/** Which revision a policy names as its parent, in any interleaving of handlers
    (`create_policy`, crates/vidarax-api/src/policies.rs). */
module PolicyLineage {
  import opened Wrappers
  import opened Policies
  import opened PolicyRollout
  import PolicyHistory

  /** The last event among the first `n` that creates a revision. */
  ghost predicate LastCreation(events: seq<Event>, n: nat, m: nat)
    requires n <= |events|
  {
    m < n && events[m].body.Created? && forall j :: m < j < n ==> !events[j].body.Created?
  }

  /** Event `n` names the revision created last before it, or none if it is the first. */
  ghost predicate ParentIsLast(events: seq<Event>, n: nat)
    requires n < |events| && events[n].body.Created?
  {
    match events[n].body.parent
    case None => forall j :: 0 <= j < n ==> !events[j].body.Created?
    case Some(parent) => exists m: nat :: LastCreation(events, n, m) && events[m].number == parent
  }

  /** The revisions form one line. */
  ghost predicate Chained(events: seq<Event>) {
    forall n :: 0 <= n < |events| && events[n].body.Created? ==> ParentIsLast(events, n)
  }

  ghost predicate SameParent(events: seq<Event>, i: nat, j: nat)
    requires i < |events| && j < |events|
  {
    events[i].body.Created? && events[j].body.Created? && events[i].body.parent == events[j].body.parent
  }

  /** No two creations name the same parent. */
  ghost predicate NoFork(events: seq<Event>) {
    forall i, j :: 0 <= i < j < |events| ==> !SameParent(events, i, j)
  }

  lemma {:induction false} LastListed(events: seq<Event>, n: nat)
    requires n <= |events|
    ensures LastRevision(Fold(events, n)) == None <==> forall j :: 0 <= j < n ==> !events[j].body.Created?
    ensures LastRevision(Fold(events, n)).Some? ==>
              exists m: nat :: LastCreation(events, n, m) && events[m].number == LastRevision(Fold(events, n)).value
  {
    hide Apply;
    if n > 0 {
      LastListed(events, n - 1);
      ApplyKeepsTerms(Fold(events, n - 1), events[n - 1]);
      if events[n - 1].body.Created? {
        assert LastCreation(events, n, n - 1);
      } else if LastRevision(Fold(events, n - 1)).Some? {
        var m: nat :| LastCreation(events, n - 1, m) && events[m].number == LastRevision(Fold(events, n - 1)).value;
        assert LastCreation(events, n, m);
      }
    }
  }

  // ------------------------------------------------------------ what any interleaving keeps

  /** No parent, or one that an event among the first `n` created. */
  ghost predicate Rooted(events: seq<Event>, n: nat, parent: Option<nat>)
    requires n <= |events|
  {
    parent.Some? ==> exists m :: 0 <= m < n && events[m].body.Created? && events[m].number == parent.value
  }

  /** A prompt that is not empty, or a restricted zone. */
  predicate HasContent(prompt: Option<string>, parameters: Parameters) {
    prompt != Some("") && (prompt.Some? || parameters.restrictedZone.Some?)
  }

  ghost predicate AllRooted(events: seq<Event>) {
    forall n :: 0 <= n < |events| && events[n].body.Created? ==>
      Rooted(events, n, events[n].body.parent) && HasContent(events[n].body.prompt, events[n].body.parameters)
  }

  ghost predicate TasksRooted(events: seq<Event>, tasks: seq<Task>) {
    forall i :: 0 <= i < |tasks| && tasks[i].Creating? ==>
      Rooted(events, |events|, tasks[i].parent) && HasContent(tasks[i].prompt, tasks[i].parameters)
  }

  ghost predicate Lineal(w: World) {
    Increasing(w.events) && AllRooted(w.events) && TasksRooted(w.events, w.tasks)
  }

  lemma RootedStays(events: seq<Event>, e: Event, n: nat, parent: Option<nat>)
    requires n <= |events| && Rooted(events, n, parent)
    ensures Rooted(events + [e], n, parent) && Rooted(events + [e], |events| + 1, parent)
  {
    if parent.Some? {
      var m :| 0 <= m < n && events[m].body.Created? && events[m].number == parent.value;
      assert (events + [e])[m] == events[m];
    }
  }

  lemma RootsGrow(events: seq<Event>, e: Event, tasks: seq<Task>)
    requires AllRooted(events) && TasksRooted(events, tasks)
    requires e.body.Created? ==>
               Rooted(events, |events|, e.body.parent) && HasContent(e.body.prompt, e.body.parameters)
    ensures AllRooted(events + [e]) && TasksRooted(events + [e], tasks)
  {
    hide Rooted;
    var more := events + [e];
    forall n | 0 <= n < |more| && more[n].body.Created? ensures Rooted(more, n, more[n].body.parent) {
      RootedStays(events, e, n, more[n].body.parent);
    }
    forall i | 0 <= i < |tasks| && tasks[i].Creating? ensures Rooted(more, |more|, tasks[i].parent) {
      RootedStays(events, e, |events|, tasks[i].parent);
    }
  }

  lemma ReplaceKeeps(events: seq<Event>, tasks: seq<Task>, i: nat, next: Option<Task>)
    requires TasksRooted(events, tasks) && i < |tasks| && (next.Some? ==> !next.value.Creating?)
    ensures TasksRooted(events, Replace(tasks, i, next))
  {
    hide Rooted;
    var r := Replace(tasks, i, next);
    forall k | 0 <= k < |r| && r[k].Creating?
      ensures Rooted(events, |events|, r[k].parent) && HasContent(r[k].prompt, r[k].parameters)
    {
      assert r[k] in tasks;
    }
  }

  lemma BegunRooted(w: World, t: Task)
    requires Lineal(w) && t.Creating? && Admits(Reconstruct(w.events), t)
    ensures Rooted(w.events, |w.events|, t.parent) && HasContent(t.prompt, t.parameters)
  {
    hide Fold, Reconstruct;
    ReconstructIsFold(w.events);
    LastListed(w.events, |w.events|);
  }

  lemma StepKeepsLineal(w: World, a: Action, v: World)
    requires Lineal(w) && Step(w, a, v)
    ensures Lineal(v)
  {
    hide AllRooted, TasksRooted, Rooted, Admits, Replace, Outcome;
    match a {
      case Begin(t) =>
        TaskAdded(w, t);
      case Append(i, e, next) =>
        IncreasingGrows(w.events, e);
        WrittenRooted(w, i, e.body, next);
        RootsGrow(w.events, e, w.tasks);
        ReplaceKeeps(w.events + [e], w.tasks, i, next);
      case GiveUp(i) =>
        ReplaceKeeps(w.events, w.tasks, i, None);
      case Foreign(e) =>
        IncreasingGrows(w.events, e);
        RootsGrow(w.events, e, w.tasks);
    }
  }

  lemma TaskAdded(w: World, t: Task)
    requires Lineal(w) && Admits(Reconstruct(w.events), t)
    ensures TasksRooted(w.events, w.tasks + [t])
  {
    hide Rooted, Admits;
    if t.Creating? {
      BegunRooted(w, t);
    }
  }

  lemma WrittenRooted(w: World, i: nat, body: Body, next: Option<Task>)
    requires Lineal(w) && i < |w.tasks| && Writes(w.tasks[i], body, next)
    ensures body.Created? ==> Rooted(w.events, |w.events|, body.parent) && HasContent(body.prompt, body.parameters)
    ensures next.Some? ==> !next.value.Creating?
  {
    hide Rooted, AllRooted, Increasing;
  }

  /** In every interleaving, a policy's parent is none or a revision created before,
      and it has a prompt that is not empty, or a restricted zone. */
  lemma {:induction false} RunIsLineal(worlds: seq<World>, actions: seq<Action>, n: nat)
    requires IsRun(worlds, actions) && n < |worlds|
    ensures Lineal(worlds[n])
  {
    hide Step, Lineal;
    if n == 0 {
      NothingIsLineal();
    } else {
      RunIsLineal(worlds, actions, n - 1);
      StepKeepsLineal(worlds[n - 1], actions[n - 1], worlds[n]);
    }
  }

  lemma NothingIsLineal()
    ensures Lineal(World([], []))
  {
  }

  // ------------------------------------------------------------ one line or a fork

  lemma ParentsDiffer(events: seq<Event>, i: nat, j: nat)
    requires Increasing(events) && i < j < |events| && events[i].body.Created? && events[j].body.Created?
    requires ParentIsLast(events, i) && ParentIsLast(events, j)
    ensures events[i].body.parent != events[j].body.parent
  {
    if events[i].body.parent.Some? && events[j].body.parent.Some? {
      var m: nat :| LastCreation(events, i, m) && events[m].number == events[i].body.parent.value;
      var n: nat :| LastCreation(events, j, n) && events[n].number == events[j].body.parent.value;
      assert m < i <= n;
    }
  }

  lemma ChainHasNoFork(events: seq<Event>)
    requires Increasing(events) && Chained(events)
    ensures NoFork(events)
  {
    hide ParentIsLast;
    forall i, j | 0 <= i < j < |events| ensures !SameParent(events, i, j) {
      if events[i].body.Created? && events[j].body.Created? {
        ParentsDiffer(events, i, j);
      }
    }
  }

  /** The first creation after event `k`, up to `m`. */
  lemma {:induction false} NextCreation(events: seq<Event>, k: nat, m: nat) returns (j: nat)
    requires k < m < |events| && events[k].body.Created? && events[m].body.Created?
    ensures k < j <= m && events[j].body.Created? && LastCreation(events, j, k)
    decreases m
  {
    if p :| k < p < m && events[p].body.Created? {
      j := NextCreation(events, k, p);
    } else {
      j := m;
    }
  }

  lemma FirstCreation(events: seq<Event>, m: nat) returns (j: nat)
    requires m < |events| && events[m].body.Created?
    ensures j <= m && events[j].body.Created? && forall p :: 0 <= p < j ==> !events[p].body.Created?
    decreases m
  {
    if p :| 0 <= p < m && events[p].body.Created? {
      j := FirstCreation(events, p);
    } else {
      j := m;
    }
  }

  lemma NumbersDiffer(events: seq<Event>, j: nat, k: nat)
    requires Increasing(events) && j < |events| && k < |events| && events[j].number == events[k].number
    ensures j == k
  {
  }

  lemma {:induction false} NoForkIsChain(events: seq<Event>, n: nat)
    requires Increasing(events) && AllRooted(events) && NoFork(events)
    requires n < |events| && events[n].body.Created?
    ensures ParentIsLast(events, n)
    decreases n
  {
    hide Increasing, NoFork, AllRooted, ParentIsLast;
    assert Rooted(events, n, events[n].body.parent) by { RootOf(events, n); }
    if events[n].body.parent.None? {
      if m :| 0 <= m < n && events[m].body.Created? {
        var first := FirstCreation(events, m);
        RootOf(events, first);
        NoForkHere(events, first, n);
        assert false;
      }
      NamesNone(events, n);
    } else {
      var k :| 0 <= k < n && events[k].body.Created? && events[k].number == events[n].body.parent.value;
      if p :| k < p < n && events[p].body.Created? {
        var j := NextCreation(events, k, p);
        NoForkIsChain(events, j);
        NamesLast(events, j, k);
        NoForkHere(events, j, n);
        assert false;
      }
      NamedLast(events, n, k);
    }
  }

  lemma RootOf(events: seq<Event>, n: nat)
    requires AllRooted(events) && n < |events| && events[n].body.Created?
    ensures Rooted(events, n, events[n].body.parent)
  {
  }

  lemma NoForkHere(events: seq<Event>, i: nat, j: nat)
    requires NoFork(events) && i < j < |events| && events[i].body.Created? && events[j].body.Created?
    ensures events[i].body.parent != events[j].body.parent
  {
    assert !SameParent(events, i, j);
  }

  lemma NamesNone(events: seq<Event>, n: nat)
    requires n < |events| && events[n].body.Created? && events[n].body.parent.None?
    requires forall j :: 0 <= j < n ==> !events[j].body.Created?
    ensures ParentIsLast(events, n)
  {
  }

  lemma NamesLast(events: seq<Event>, j: nat, k: nat)
    requires j < |events| && events[j].body.Created? && ParentIsLast(events, j) && LastCreation(events, j, k)
    ensures events[j].body.parent == Some(events[k].number)
  {
    if events[j].body.parent.Some? {
      var m: nat :| LastCreation(events, j, m) && events[m].number == events[j].body.parent.value;
      assert m == k;
    }
  }

  lemma NamedLast(events: seq<Event>, n: nat, k: nat)
    requires k < n < |events| && events[n].body.Created? && events[k].body.Created?
    requires events[n].body.parent == Some(events[k].number)
    requires forall p :: k < p < n ==> !events[p].body.Created?
    ensures ParentIsLast(events, n)
  {
    assert LastCreation(events, n, k);
  }

  /** In every interleaving of handlers the revisions form one line, each naming
      the one created last before it, if and only if no two name the same parent. */
  lemma LineExactly(worlds: seq<World>, actions: seq<Action>, i: nat)
    requires IsRun(worlds, actions) && i < |worlds|
    ensures Chained(worlds[i].events) <==> NoFork(worlds[i].events)
  {
    hide IsRun, Increasing, AllRooted, NoFork, ParentIsLast;
    RunIsLineal(worlds, actions, i);
    var events := worlds[i].events;
    if Chained(events) {
      ChainHasNoFork(events);
    }
    if NoFork(events) {
      forall n | 0 <= n < |events| && events[n].body.Created? ensures ParentIsLast(events, n) {
        NoForkIsChain(events, n);
      }
    }
  }

  /** With handlers run one at a time they do form one line. */
  lemma SerialParentsChain(worlds: seq<World>, actions: seq<Action>, i: nat)
    requires IsSerialRun(worlds, actions) && i < |worlds|
    ensures Chained(worlds[i].events)
  {
    hide IsSerialRun, PolicyHistory.StillAdmitted, Fold;
    PolicyHistory.SerialRunIsOrdered(worlds, actions, i);
    var events := worlds[i].events;
    forall n | 0 <= n < |events| && events[n].body.Created? ensures ParentIsLast(events, n) {
      assert PolicyHistory.GuardedAt(Fold(events, n), events[n].body);
      LastListed(events, n);
    }
  }

  function Creator(prompt: string): Task { Creating(None, Some(prompt), None, Parameters(None)) }

  function Creation(number: nat, prompt: string): Event {
    Event(number, 0, Created(None, Some(prompt), None, Parameters(None)))
  }

  lemma BothBegin()
    ensures PolicyHistory.Reaches(World([], [Creator("a"), Creator("b")]))
  {
    var w0, w1, w2 := World([], []), World([], [Creator("a")]), World([], [Creator("a"), Creator("b")]);
    assert IsRun([w0], []) && [w0][0] == w0;
    assert PolicyHistory.Reaches(w0);
    hide PolicyHistory.Reaches;
    assert Reconstruct([]) == [];
    PolicyHistory.ReachesNext(w0, Begin(Creator("a")), w1);
    PolicyHistory.ReachesNext(w1, Begin(Creator("b")), w2);
  }

  /** Two handlers that both read an empty history create a fork. */
  lemma OverlappingCreationsFork()
    ensures exists w :: PolicyHistory.Reaches(w) && !NoFork(w.events)
  {
    hide PolicyHistory.Reaches, NoFork;
    BothBegin();
    var a, b := Creation(1, "a"), Creation(2, "b");
    var w3, w4 := World([a], [Creator("b")]), World([a, b], []);
    assert Replace([Creator("a"), Creator("b")], 0, None) == [Creator("b")] && Replace([Creator("b")], 0, None) == [];
    assert [] + [a] == [a] && [a] + [b] == [a, b];
    PolicyHistory.ReachesNext(World([], [Creator("a"), Creator("b")]), Append(0, a, None), w3);
    PolicyHistory.ReachesNext(w3, Append(0, b, None), w4);
    ForkHere([a, b]);
  }

  lemma ForkHere(events: seq<Event>)
    requires |events| == 2 && SameParent(events, 0, 1)
    ensures !NoFork(events)
  {
  }
}
