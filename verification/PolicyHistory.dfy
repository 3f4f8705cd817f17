/** What the status of a policy says about its past, for handlers that overlap
    and for handlers that do not (crates/vidarax-api/src/policies.rs). */
module PolicyHistory {
  import opened Wrappers
  import opened Sorting
  import opened Policies
  import opened PolicyRollout

  /** The status of the policy at position `k` after `n` events. */
  function StatusAt(events: seq<Event>, n: nat, k: nat): Option<Status>
    requires n <= |events|
  {
    if k < |Fold(events, n)| then Some(Fold(events, n)[k].status) else None
  }

  ghost predicate Was(events: seq<Event>, n: nat, k: nat, s: Status)
    requires n <= |events|
  {
    exists m :: 0 <= m < n && StatusAt(events, m, k) == Some(s)
  }

  /** A canary at some point, and a shadow before that. */
  ghost predicate Climbed(events: seq<Event>, n: nat, k: nat)
    requires n <= |events|
  {
    exists b :: 0 <= b < n && StatusAt(events, b, k) == Some(Canary) && Was(events, b, k, Shadow)
  }

  // ------------------------------------------------------------ what a handler has read

  ghost predicate ReadAt(events: seq<Event>, m: nat, k: nat, revision: nat, s: Status)
    requires m <= |events|
  {
    k < |Fold(events, m)| && Fold(events, m)[k].revision == revision && Fold(events, m)[k].status == s
  }

  /** Some handler may have read this status of the revision among the first `n` events. */
  ghost predicate ReadBy(events: seq<Event>, n: nat, revision: nat, s: Status)
    requires n <= |events|
  {
    exists m, k :: 0 <= m <= n && 0 <= k && ReadAt(events, m, k, revision, s)
  }

  /** The one status a stage may be entered from. */
  function Before(stage: Status): Status {
    match stage
    case Shadow => Draft
    case Canary => Shadow
    case _ => Canary
  }

  predicate Stage(s: Status) { s == Shadow || s == Canary || s == Active }

  /** An acknowledgement rests on what its handler read at some earlier point. */
  ghost predicate SourcedBy(events: seq<Event>, n: nat, body: Body)
    requires n <= |events|
  {
    match body
    case DeployAcknowledged(revision, status, _) =>
      && revision.Some? && status.Some? && Stage(status.value)
      && ReadBy(events, n, revision.value, Before(status.value))
    case RollbackAcknowledged(revision, from, _) =>
      && revision.Some? && from.Some? && revision != from && ReadBy(events, n, from.value, Active)
      && (ReadBy(events, n, revision.value, Retired) || ReadBy(events, n, revision.value, RolledBack))
    case _ => true
  }

  ghost predicate Sourced(events: seq<Event>) {
    forall i :: 0 <= i < |events| ==> SourcedBy(events, i, events[i].body)
  }

  ghost predicate TaskSourced(events: seq<Event>, t: Task) {
    match t
    case Creating(_, _, _, _) => true
    case Activating(p, stage, _) => Stage(stage) && ReadBy(events, |events|, p.revision, Before(stage))
    case RollingBack(p, current, _) =>
      && p.revision != current.revision && ReadBy(events, |events|, current.revision, Active)
      && (ReadBy(events, |events|, p.revision, Retired) || ReadBy(events, |events|, p.revision, RolledBack))
  }

  ghost predicate TasksSourced(events: seq<Event>, tasks: seq<Task>) {
    forall i :: 0 <= i < |tasks| ==> TaskSourced(events, tasks[i])
  }

  ghost predicate Rests(w: World) {
    Increasing(w.events) && Sourced(w.events) && TasksSourced(w.events, w.tasks)
  }

  lemma {:induction false} ReadStays(events: seq<Event>, more: seq<Event>, n: nat, m: nat, revision: nat, s: Status)
    requires n <= |events| && n <= m <= |events + more| && ReadBy(events, n, revision, s)
    ensures ReadBy(events + more, m, revision, s)
  {
    hide Fold;
    var at, k :| 0 <= at <= n && 0 <= k && ReadAt(events, at, k, revision, s);
    FoldOfPrefix(events, more, at);
    assert ReadAt(events + more, at, k, revision, s);
  }

  lemma {:induction false} SourcedStays(events: seq<Event>, more: seq<Event>, n: nat, body: Body)
    requires n <= |events| && SourcedBy(events, n, body)
    ensures SourcedBy(events + more, n, body)
  {
    hide ReadBy;
    match body {
      case DeployAcknowledged(Some(r), Some(status), _) =>
        ReadStays(events, more, n, n, r, Before(status));
      case RollbackAcknowledged(Some(r), Some(f), _) =>
        ReadStays(events, more, n, n, f, Active);
        ReadStays(events, more, n, n, r, if ReadBy(events, n, r, Retired) then Retired else RolledBack);
      case _ =>
    }
  }

  lemma {:induction false} TaskStaysSourced(events: seq<Event>, e: Event, t: Task)
    requires TaskSourced(events, t)
    ensures TaskSourced(events + [e], t)
  {
    hide ReadBy;
    var n := |events|;
    match t {
      case Creating(_, _, _, _) =>
      case Activating(p, stage, _) =>
        ReadStays(events, [e], n, n + 1, p.revision, Before(stage));
      case RollingBack(p, current, _) =>
        ReadStays(events, [e], n, n + 1, current.revision, Active);
        ReadStays(events, [e], n, n + 1, p.revision,
                  if ReadBy(events, n, p.revision, Retired) then Retired else RolledBack);
    }
  }

  lemma {:induction false} SourcedGrows(events: seq<Event>, e: Event)
    requires Sourced(events) && SourcedBy(events, |events|, e.body)
    ensures Sourced(events + [e])
  {
    hide SourcedBy;
    var more := events + [e];
    forall i | 0 <= i < |more| ensures SourcedBy(more, i, more[i].body) {
      if i < |events| {
        assert more[i] == events[i];
      }
      SourcedStays(events, [e], i, more[i].body);
    }
  }

  lemma {:induction false} TasksStaySourced(events: seq<Event>, e: Event, tasks: seq<Task>)
    requires TasksSourced(events, tasks)
    ensures TasksSourced(events + [e], tasks)
  {
    hide TaskSourced;
    forall i | 0 <= i < |tasks| ensures TaskSourced(events + [e], tasks[i]) {
      TaskStaysSourced(events, e, tasks[i]);
    }
  }

  lemma {:induction false} ReplaceSourced(events: seq<Event>, tasks: seq<Task>, i: nat, next: Option<Task>)
    requires TasksSourced(events, tasks) && i < |tasks| && (next.Some? ==> TaskSourced(events, next.value))
    ensures TasksSourced(events, Replace(tasks, i, next))
  {
    hide TaskSourced;
  }

  lemma {:induction false} ReadNow(events: seq<Event>, k: nat)
    requires k < |Fold(events, |events|)|
    ensures var p := Fold(events, |events|)[k]; ReadBy(events, |events|, p.revision, p.status)
  {
    hide Fold;
    assert ReadAt(events, |events|, k, Fold(events, |events|)[k].revision, Fold(events, |events|)[k].status);
  }

  lemma {:induction false} AdmittedIsSourced(events: seq<Event>, t: Task)
    requires Increasing(events) && Admits(Reconstruct(events), t)
    ensures TaskSourced(events, t)
  {
    hide Fold, Find, FindActive, ReadBy, Reconstruct;
    ReconstructIsFold(events);
    var policies := Fold(events, |events|);
    if !t.Creating? {
      ReadNow(events, Find(policies, t.policy.revision));
      if t.RollingBack? {
        ReadNow(events, FindActive(policies));
      }
    }
  }

  lemma {:induction false} WritesSourced(events: seq<Event>, t: Task, body: Body, next: Option<Task>)
    requires TaskSourced(events, t) && Writes(t, body, next)
    ensures SourcedBy(events, |events|, body) && (next.Some? ==> TaskSourced(events, next.value))
  {
    hide ReadBy, ApplyPolicy;
  }

  lemma {:induction false} StepRests(w: World, a: Action, v: World)
    requires Rests(w) && Step(w, a, v)
    ensures Rests(v)
  {
    hide Writes, Sourced, SourcedBy, TaskSourced, Increasing, Later, Admits, Replace;
    match a {
      case Begin(t) =>
        AdmittedIsSourced(w.events, t);
      case Append(i, e, next) =>
        IncreasingGrows(w.events, e);
        WritesSourced(w.events, w.tasks[i], e.body, next);
        SourcedGrows(w.events, e);
        ReplaceSourced(w.events, w.tasks, i, next);
        TasksStaySourced(w.events, e, Replace(w.tasks, i, next));
      case GiveUp(i) =>
        ReplaceSourced(w.events, w.tasks, i, None);
      case Foreign(e) =>
        IncreasingGrows(w.events, e);
        assert SourcedBy(w.events, |w.events|, e.body) by { OtherIsSourced(w.events); }
        SourcedGrows(w.events, e);
        TasksStaySourced(w.events, e, w.tasks);
    }
  }

  lemma OtherIsSourced(events: seq<Event>)
    ensures SourcedBy(events, |events|, Other)
  {
  }

  /** In every interleaving each acknowledgement rests on what its handler read
      at some earlier point. */
  lemma {:induction false} RunRests(worlds: seq<World>, actions: seq<Action>, n: nat)
    requires IsRun(worlds, actions) && n < |worlds|
    ensures Rests(worlds[n])
  {
    hide Step, Rests;
    if n == 0 {
      assert Rests(World([], [])) by { NothingRests(); }
    } else {
      RunRests(worlds, actions, n - 1);
      StepRests(worlds[n - 1], actions[n - 1], worlds[n]);
    }
  }

  lemma NothingRests()
    ensures Rests(World([], []))
  {
  }

  // ------------------------------------------------------------ one policy through one event

  /** The policy at position `k` had this status at or before `n`. */
  ghost predicate Had(events: seq<Event>, n: nat, k: nat, s: Status)
    requires n <= |events|
  {
    exists m :: 0 <= m <= n && StatusAt(events, m, k) == Some(s)
  }

  /** What was read of a revision was the status at the position it is found at. */
  lemma {:induction false} ReadIsHad(events: seq<Event>, n: nat, revision: nat, s: Status)
    requires Increasing(events) && n <= |events| && ReadBy(events, n, revision, s)
    ensures Find(Fold(events, n), revision) < |Fold(events, n)|
    ensures Had(events, n, Find(Fold(events, n), revision), s)
  {
    hide Fold, Find;
    var m, k :| 0 <= m <= n && 0 <= k && ReadAt(events, m, k, revision, s);
    TermsKept(events, m, n, k);
    FoldIsDistinct(events, n);
    FoundAt(Fold(events, n), k);
    assert StatusAt(events, m, k) == Some(s);
  }

  /** How the status of a policy may have come about. */
  ghost predicate Explained(events: seq<Event>, n: nat, k: nat, was: Status, now: Status)
    requires n <= |events|
  {
    || now == was
    || (Stage(now) && Had(events, n, k, Before(now)))
    || (now == Retired && was == Active)
    || (now == RolledBack && Had(events, n, k, Active))
    || (now == Active && (Had(events, n, k, Retired) || Had(events, n, k, RolledBack)))
  }

  /** A shadow or canary acknowledgement of a revision that is or was active. */
  ghost predicate Regresses(events: seq<Event>, i: nat)
    requires i < |events|
  {
    match events[i].body
    case DeployAcknowledged(Some(r), Some(s), _) =>
      var policies := Fold(events, i);
      var k := Find(policies, r);
      && (s == Shadow || s == Canary) && k < |policies|
      && (policies[k].status == Active || policies[k].status == Retired || policies[k].status == RolledBack)
    case _ => false
  }

  lemma {:induction false} StatusStep(events: seq<Event>, n: nat, k: nat)
    requires Increasing(events) && Sourced(events) && n < |events| && StatusAt(events, n, k).Some?
    ensures StatusAt(events, n + 1, k).Some?
    ensures var was, now := StatusAt(events, n, k).value, StatusAt(events, n + 1, k).value;
            && Explained(events, n, k, was, now)
            && ((now == Shadow || now == Canary) && (was == Active || was == Retired || was == RolledBack) ==>
                  Regresses(events, n))
  {
    hide Apply, Find, Had, ReadBy;
    var policies, e := Fold(events, n), events[n];
    AppliedAt(policies, e, k);
    assert SourcedBy(events, n, e.body);
    match e.body {
      case DeployAcknowledged(Some(r), Some(s), _) =>
        ReadIsHad(events, n, r, Before(s));
      case RollbackAcknowledged(Some(r), Some(f), _) =>
        ReadIsHad(events, n, f, Active);
        ReadIsHad(events, n, r, if ReadBy(events, n, r, Retired) then Retired else RolledBack);
      case _ =>
    }
  }

  lemma {:induction false} StatusStarts(events: seq<Event>, n: nat, k: nat)
    requires n < |events| && StatusAt(events, n, k).None?
    ensures StatusAt(events, n + 1, k).None? || StatusAt(events, n + 1, k) == Some(Draft)
  {
    hide Apply;
    ApplyKeepsTerms(Fold(events, n), events[n]);
  }

  lemma {:induction false} HadIsWas(events: seq<Event>, n: nat, k: nat, s: Status)
    requires n < |events|
    ensures Had(events, n, k, s) <==> Was(events, n + 1, k, s)
    ensures Was(events, n, k, s) ==> Was(events, n + 1, k, s)
    ensures Was(events, n + 1, k, s) ==> Was(events, n, k, s) || StatusAt(events, n, k) == Some(s)
    ensures Climbed(events, n, k) ==> Climbed(events, n + 1, k)
  {
    hide StatusAt;
    if Had(events, n, k, s) {
      var m :| 0 <= m <= n && StatusAt(events, m, k) == Some(s);
      assert 0 <= m < n + 1;
    }
    if Was(events, n + 1, k, s) {
      var m :| 0 <= m < n + 1 && StatusAt(events, m, k) == Some(s);
      assert 0 <= m <= n;
    }
    if Climbed(events, n, k) {
      var b :| 0 <= b < n && StatusAt(events, b, k) == Some(Canary) && Was(events, b, k, Shadow);
      assert 0 <= b < n + 1;
    }
  }

  // ------------------------------------------------------------ any interleaving

  lemma {:induction false} CanaryWasShadow(events: seq<Event>, n: nat, k: nat)
    requires Increasing(events) && Sourced(events) && n <= |events| && StatusAt(events, n, k) == Some(Canary)
    ensures Was(events, n, k, Shadow)
  {
    hide StatusAt, Was, Had, Climbed, Sourced, Increasing, Regresses;
    if n == 0 {
      NothingAt(events, k);
    } else {
      HadIsWas(events, n - 1, k, Shadow);
      if StatusAt(events, n - 1, k).None? {
        StatusStarts(events, n - 1, k);
      } else {
        StatusStep(events, n - 1, k);
        if StatusAt(events, n - 1, k) == Some(Canary) {
          CanaryWasShadow(events, n - 1, k);
        }
      }
    }
  }

  lemma NothingAt(events: seq<Event>, k: nat)
    ensures StatusAt(events, 0, k) == None
  {
  }

  /** A retired or rolled back policy was active before. */
  lemma {:induction false} FormerWasActive(events: seq<Event>, n: nat, k: nat)
    requires Increasing(events) && Sourced(events) && n <= |events|
    requires StatusAt(events, n, k) == Some(Retired) || StatusAt(events, n, k) == Some(RolledBack)
    ensures Was(events, n, k, Active)
  {
    hide StatusAt, Was, Had, Climbed, Sourced, Increasing, Regresses;
    if n == 0 {
      NothingAt(events, k);
    } else {
      HadIsWas(events, n - 1, k, Active);
      if StatusAt(events, n - 1, k).None? {
        StatusStarts(events, n - 1, k);
      } else {
        StatusStep(events, n - 1, k);
        if StatusAt(events, n - 1, k) == StatusAt(events, n, k) {
          FormerWasActive(events, n - 1, k);
        } else if StatusAt(events, n - 1, k) == Some(Active) {
          assert Had(events, n - 1, k, Active) by { HadNow(events, n - 1, k); }
        }
      }
    }
  }

  lemma HadNow(events: seq<Event>, n: nat, k: nat)
    requires n <= |events| && StatusAt(events, n, k).Some?
    ensures Had(events, n, k, StatusAt(events, n, k).value)
  {
  }

  lemma {:induction false} ActiveHasClimbed(events: seq<Event>, n: nat, k: nat)
    requires Increasing(events) && Sourced(events) && n <= |events| && StatusAt(events, n, k) == Some(Active)
    ensures Climbed(events, n, k)
    decreases n
  {
    hide StatusAt, Sourced, Increasing, Regresses;
    if n == 0 {
      NothingAt(events, k);
    } else if StatusAt(events, n - 1, k).None? {
      StatusStarts(events, n - 1, k);
    } else {
      StatusStep(events, n - 1, k);
      if StatusAt(events, n - 1, k) == Some(Active) {
        ActiveHasClimbed(events, n - 1, k);
        HadIsWas(events, n - 1, k, Active);
      } else if Had(events, n - 1, k, Canary) {
        var m :| 0 <= m <= n - 1 && StatusAt(events, m, k) == Some(Canary);
        CanaryWasShadow(events, m, k);
      } else {
        var m :| 0 <= m <= n - 1
                 && (StatusAt(events, m, k) == Some(Retired) || StatusAt(events, m, k) == Some(RolledBack));
        FormerWasActive(events, m, k);
        var a :| 0 <= a < m && StatusAt(events, a, k) == Some(Active);
        ActiveHasClimbed(events, a, k);
        ClimbStays(events, a, n, k);
      }
    }
  }

  lemma {:induction false} ClimbStays(events: seq<Event>, a: nat, n: nat, k: nat)
    requires a <= n <= |events| && Climbed(events, a, k)
    ensures Climbed(events, n, k)
  {
    hide StatusAt;
    var b :| 0 <= b < a && StatusAt(events, b, k) == Some(Canary) && Was(events, b, k, Shadow);
    assert 0 <= b < n;
  }

  /** In every interleaving of handlers, an active policy was a canary before,
      and a shadow before that. */
  lemma ActiveClimbed(worlds: seq<World>, actions: seq<Action>, i: nat, n: nat, k: nat)
    requires IsRun(worlds, actions) && i < |worlds| && n <= |worlds[i].events|
    requires StatusAt(worlds[i].events, n, k) == Some(Active)
    ensures Climbed(worlds[i].events, n, k)
  {
    hide IsRun, StatusAt, Climbed, Sourced, Increasing;
    RunRests(worlds, actions, i);
    ActiveHasClimbed(worlds[i].events, n, k);
  }

  /** Retired or rolled back exactly when active before and not now. */
  ghost predicate RemembersActive(events: seq<Event>, n: nat, k: nat)
    requires n <= |events|
  {
    var s := StatusAt(events, n, k);
    s == Some(Retired) || s == Some(RolledBack) <==> Was(events, n, k, Active) && s != Some(Active)
  }

  ghost predicate AllRemembered(events: seq<Event>) {
    forall n, k :: 0 <= n <= |events| && 0 <= k ==> RemembersActive(events, n, k)
  }

  ghost predicate NoneRegresses(events: seq<Event>) {
    forall i :: 0 <= i < |events| ==> !Regresses(events, i)
  }

  lemma {:induction false} ActiveRemembered(events: seq<Event>, n: nat, k: nat)
    requires Increasing(events) && Sourced(events) && NoneRegresses(events) && n <= |events|
    ensures RemembersActive(events, n, k)
  {
    hide StatusAt, Was, Had, Climbed, Sourced, Increasing, Regresses;
    if StatusAt(events, n, k) == Some(Retired) || StatusAt(events, n, k) == Some(RolledBack) {
      FormerWasActive(events, n, k);
    } else if n == 0 {
      NeverWas(events, k);
    } else {
      ActiveRemembered(events, n - 1, k);
      HadIsWas(events, n - 1, k, Active);
      if StatusAt(events, n - 1, k).Some? {
        StatusStep(events, n - 1, k);
        StatusNotDraftAgain(events, n - 1, k);
      }
    }
  }

  lemma NeverWas(events: seq<Event>, k: nat)
    ensures !Was(events, 0, k, Active)
  {
  }

  lemma {:induction false} StatusNotDraftAgain(events: seq<Event>, n: nat, k: nat)
    requires Increasing(events) && Sourced(events) && n < |events| && StatusAt(events, n, k).Some?
    ensures StatusAt(events, n + 1, k) == Some(Draft) ==> StatusAt(events, n, k) == Some(Draft)
  {
    hide StatusAt, Had, Sourced, Increasing, Regresses;
    StatusStep(events, n, k);
  }

  lemma {:induction false} RegressForgets(events: seq<Event>, i: nat)
    requires Increasing(events) && Sourced(events) && i < |events| && Regresses(events, i)
    ensures exists n, k :: 0 <= n <= |events| && 0 <= k && !RemembersActive(events, n, k)
  {
    hide Fold, Apply, Find, Sourced;
    var policies, e := Fold(events, i), events[i];
    var k := Find(policies, e.body.revision.value);
    AppliedAt(policies, e, k);
    FoldStep(events, i);
    assert StatusAt(events, i + 1, k) == Some(e.body.status.value);
    HadIsWas(events, i, k, Active);
    if policies[k].status == Active {
      HadNow(events, i, k);
    } else {
      FormerWasActive(events, i, k);
    }
    assert !RemembersActive(events, i + 1, k);
  }

  lemma FoldStep(events: seq<Event>, n: nat)
    requires n < |events|
    ensures Fold(events, n + 1) == Apply(Fold(events, n), events[n])
  {
    hide Apply;
  }

  /** In every interleaving of handlers: retired or rolled back means active
      before and not now, at every point and for every policy, if and only if no
      shadow or canary acknowledgement is ever appended for a revision that is
      active, retired or rolled back at that moment. */
  lemma HistoryExactly(worlds: seq<World>, actions: seq<Action>, i: nat)
    requires IsRun(worlds, actions) && i < |worlds|
    ensures AllRemembered(worlds[i].events) <==> NoneRegresses(worlds[i].events)
  {
    hide IsRun, Sourced, Increasing, RemembersActive, Regresses;
    RunRests(worlds, actions, i);
    var events := worlds[i].events;
    if NoneRegresses(events) {
      forall n, k | 0 <= n <= |events| && 0 <= k ensures RemembersActive(events, n, k) {
        ActiveRemembered(events, n, k);
      }
    } else {
      var j :| 0 <= j < |events| && Regresses(events, j);
      RegressForgets(events, j);
    }
  }

  // ------------------------------------------------------------ the rollback guard

  /** While no acknowledgement regresses, the rollback guard accepts exactly a
      revision that was active and is not, while another is. */
  lemma RollbackAcceptsFormer(worlds: seq<World>, actions: seq<Action>, i: nat, revision: nat)
    requires IsRun(worlds, actions) && i < |worlds| && NoneRegresses(worlds[i].events)
    ensures var events := worlds[i].events;
            var n, policies := |events|, Reconstruct(events);
            RollbackGuard(policies, revision).Ok?
            <==> Actives(policies) == 1 && exists k :: 0 <= k < |policies| && policies[k].revision == revision
                                             && Was(events, n, k, Active) && policies[k].status != Active
  {
    hide IsRun, Was, Sourced, Actives, StatusAt, RollbackGuard, OneActive, Distinct, Find, Apply, Regresses;
    var events := worlds[i].events;
    var n := |events|;
    RunRests(worlds, actions, i);
    ReconstructIsFold(events);
    FoldIsDistinct(events, n);
    FoldHasOneActive(events, n);
    var policies := Fold(events, n);
    RollbackGuardAccepts(policies, revision);
    forall k | 0 <= k < |policies|
      ensures policies[k].status == Retired || policies[k].status == RolledBack
              <==> Was(events, n, k, Active) && policies[k].status != Active
    {
      ActiveRemembered(events, n, k);
      StatusIs(events, n, k);
    }
  }

  lemma StatusIs(events: seq<Event>, n: nat, k: nat)
    requires n <= |events| && k < |Fold(events, n)|
    ensures StatusAt(events, n, k) == Some(Fold(events, n)[k].status)
  {
  }

  lemma RollbackGuardAccepts(policies: seq<Policy>, revision: nat)
    requires Distinct(policies) && OneActive(policies)
    ensures RollbackGuard(policies, revision).Ok?
            <==> Actives(policies) == 1 && exists k :: 0 <= k < |policies| && policies[k].revision == revision
                                             && (policies[k].status == Retired || policies[k].status == RolledBack)
  {
    hide OneActive, Actives, Find, FindActive;
    ActivesOf(policies);
    if k :| 0 <= k < |policies| && policies[k].revision == revision {
      FoundAt(policies, k);
    }
  }

  // ------------------------------------------------------------ one handler at a time

  /** What a guard promised of the state an acknowledgement is appended to. */
  ghost predicate GuardedAt(policies: seq<Policy>, body: Body) {
    match body
    case Created(parent, prompt, _, parameters) => CreateGuard(policies, parent, prompt, parameters).Ok?
    case DeployAcknowledged(revision, status, _) =>
      && revision.Some? && status.Some? && Find(policies, revision.value) < |policies|
      && ValidPromotion(policies[Find(policies, revision.value)].status, status.value)
    case RollbackAcknowledged(revision, from, _) =>
      && revision.Some? && from.Some?
      && Find(policies, revision.value) < |policies| && Find(policies, from.value) < |policies|
      && policies[Find(policies, from.value)].status == Active && from != revision
      && (policies[Find(policies, revision.value)].status == Retired
          || policies[Find(policies, revision.value)].status == RolledBack)
    case Other => true
  }

  ghost predicate Guarded(events: seq<Event>) {
    forall i :: 0 <= i < |events| ==> GuardedAt(Fold(events, i), events[i].body)
  }

  /** The handler's guard still holds when it acknowledges, because only its
      own request was appended since. */
  ghost predicate StillAdmitted(w: World) {
    |w.tasks| <= 1 && forall i :: 0 <= i < |w.tasks| ==> Admits(Fold(w.events, |w.events|), w.tasks[i])
  }

  ghost predicate Ordered(w: World) {
    Increasing(w.events) && Guarded(w.events) && StillAdmitted(w)
  }

  lemma GuardedGrows(events: seq<Event>, e: Event)
    requires Guarded(events) && GuardedAt(Fold(events, |events|), e.body)
    ensures Guarded(events + [e])
  {
    hide Fold, GuardedAt;
    var more := events + [e];
    forall i | 0 <= i < |more| ensures GuardedAt(Fold(more, i), more[i].body) {
      FoldOfPrefix(events, [e], i);
      if i < |events| {
        assert more[i] == events[i];
      }
    }
  }

  lemma WritesGuarded(policies: seq<Policy>, t: Task, body: Body, next: Option<Task>)
    requires Distinct(policies) && Admits(policies, t) && Writes(t, body, next)
    ensures GuardedAt(policies, body)
    ensures next.Some? ==> Admits(policies, next.value) && body == Other
  {
    hide Find, FindActive;
    if t.RollingBack? && body != Other {
      FoundAt(policies, FindActive(policies));
    }
  }

  lemma SerialStepKeepsOrdered(w: World, a: Action, v: World)
    requires Ordered(w) && SerialStep(w, a, v)
    ensures Ordered(v)
  {
    hide Writes, Guarded, GuardedAt, Increasing, Later, Admits, Apply;
    var policies := Fold(w.events, |w.events|);
    ReconstructIsFold(w.events);
    match a {
      case Begin(t) =>
      case Append(i, e, next) =>
        FoldIsDistinct(w.events, |w.events|);
        IncreasingGrows(w.events, e);
        WritesGuarded(policies, w.tasks[i], e.body, next);
        GuardedGrows(w.events, e);
        FoldGrows(w.events, e);
        if next.Some? {
          assert Apply(policies, e) == policies by { OtherChangesNothing(policies, e); }
        }
      case GiveUp(i) =>
      case Foreign(e) =>
        IncreasingGrows(w.events, e);
        assert GuardedAt(policies, e.body) by { OtherIsGuarded(policies); }
        GuardedGrows(w.events, e);
        FoldGrows(w.events, e);
        OtherChangesNothing(policies, e);
    }
  }

  lemma OtherChangesNothing(policies: seq<Policy>, e: Event)
    requires e.body == Other
    ensures Apply(policies, e) == policies
  {
  }

  lemma OtherIsGuarded(policies: seq<Policy>)
    ensures GuardedAt(policies, Other)
  {
  }

  lemma {:induction false} SerialRunIsOrdered(worlds: seq<World>, actions: seq<Action>, n: nat)
    requires IsSerialRun(worlds, actions) && n < |worlds|
    ensures Ordered(worlds[n])
  {
    hide SerialStep, Ordered;
    if n == 0 {
      assert Ordered(World([], [])) by { NothingIsOrdered(); }
    } else {
      SerialRunIsOrdered(worlds, actions, n - 1);
      SerialStepKeepsOrdered(worlds[n - 1], actions[n - 1], worlds[n]);
    }
  }

  lemma NothingIsOrdered()
    ensures Ordered(World([], []))
  {
  }

  /** With handlers run one at a time no acknowledgement regresses. */
  lemma SerialNeverRegresses(worlds: seq<World>, actions: seq<Action>, i: nat)
    requires IsSerialRun(worlds, actions) && i < |worlds|
    ensures NoneRegresses(worlds[i].events) && IsRun(worlds, actions)
  {
    hide IsRun, GuardedAt, Regresses, Increasing, StillAdmitted;
    SerialRunIsOrdered(worlds, actions, i);
    SerialIsRun(worlds, actions);
    var events := worlds[i].events;
    forall j | 0 <= j < |events| ensures !Regresses(events, j) {
      GuardedNeverRegresses(events, j);
    }
  }

  lemma SerialIsRun(worlds: seq<World>, actions: seq<Action>)
    requires IsSerialRun(worlds, actions)
    ensures IsRun(worlds, actions)
  {
    hide Step;
    forall i | 0 <= i < |actions| ensures Step(worlds[i], actions[i], worlds[i + 1]) {
      assert SerialStep(worlds[i], actions[i], worlds[i + 1]);
    }
  }

  lemma GuardedNeverRegresses(events: seq<Event>, j: nat)
    requires j < |events| && GuardedAt(Fold(events, j), events[j].body)
    ensures !Regresses(events, j)
  {
    hide Fold, Find;
  }

  /** With handlers run one at a time, a policy is retired or rolled back
      exactly when it was active before and is not now. */
  lemma FormerlyActiveExactly(worlds: seq<World>, actions: seq<Action>, i: nat, n: nat, k: nat)
    requires IsSerialRun(worlds, actions) && i < |worlds| && n <= |worlds[i].events|
    ensures var events := worlds[i].events;
            (StatusAt(events, n, k) == Some(Retired) || StatusAt(events, n, k) == Some(RolledBack))
            <==> Was(events, n, k, Active) && StatusAt(events, n, k) != Some(Active)
  {
    hide IsSerialRun, IsRun, StatusAt, Was, NoneRegresses;
    SerialNeverRegresses(worlds, actions, i);
    HistoryExactly(worlds, actions, i);
    assert RemembersActive(worlds[i].events, n, k);
  }

  /** And the rollback guard accepts exactly a revision that was active and is
      not, while another is. */
  lemma RollbackAcceptsExactly(worlds: seq<World>, actions: seq<Action>, i: nat, revision: nat)
    requires IsSerialRun(worlds, actions) && i < |worlds|
    ensures var events := worlds[i].events;
            var n, policies := |events|, Reconstruct(events);
            RollbackGuard(policies, revision).Ok?
            <==> Actives(policies) == 1 && exists k :: 0 <= k < |policies| && policies[k].revision == revision
                                             && Was(events, n, k, Active) && policies[k].status != Active
  {
    hide IsSerialRun, IsRun, Was, NoneRegresses, Actives, RollbackGuard, Reconstruct;
    SerialNeverRegresses(worlds, actions, i);
    RollbackAcceptsFormer(worlds, actions, i, revision);
  }

  // ------------------------------------------------------------ handlers that overlap

  ghost predicate Reaches(w: World) {
    exists worlds, actions :: IsRun(worlds, actions) && worlds[|actions|] == w
  }

  lemma {:induction false} ReachesNext(w: World, a: Action, v: World)
    requires Reaches(w) && Step(w, a, v)
    ensures Reaches(v)
  {
    hide Step;
    var worlds, actions :| IsRun(worlds, actions) && worlds[|actions|] == w;
    assert IsRun(worlds + [v], actions + [a]);
  }

  function Sample(s: Status): Policy {
    Policy(1, None, s, Some("p"), None, Parameters(None), 0, 0, None, false, [])
  }

  function Plain(): Application { Application(None, false, []) }

  function Promotion(number: nat, stage: Status): (r: seq<Event>)
    ensures |r| == 2
  {
    [Event(number, 0, Other), Event(number + 1, 0, DeployAcknowledged(Some(1), Some(stage), Plain()))]
  }

  ghost predicate Ends(events: seq<Event>, number: nat) { events != [] && events[|events| - 1].number == number }

  lemma {:induction false} PromotionFolds(events: seq<Event>, from: Status, stage: Status, number: nat)
    requires Fold(events, |events|) == [Sample(from)] && stage != Draft
    ensures Fold(events + Promotion(number, stage), |events| + 2) == [Sample(stage)]
  {
    var other, ack := Promotion(number, stage)[0], Promotion(number, stage)[1];
    FoldGrows(events, other);
    FoldGrows(events + [other], ack);
    assert events + Promotion(number, stage) == events + [other] + [ack];
    var ps := [Sample(from)];
    assert Apply(ps, other) == ps;
    assert Find(ps, 1) == 0 && Find(Retire(ps, 1, 0), 1) == 0;
    assert Apply(ps, ack) == [Sample(stage)];
  }

  /** A handler that read the policy at status `read` requests and acknowledges. */
  lemma {:induction false} Acknowledges(events: seq<Event>, tasks: seq<Task>, i: nat, read: Status, stage: Status,
                                        number: nat)
    requires Reaches(World(events, tasks)) && Ends(events, number) && i < |tasks|
    requires tasks[i] == Activating(Sample(read), stage, false)
    ensures Reaches(World(events + Promotion(number + 1, stage), Replace(tasks, i, None)))
    ensures Ends(events + Promotion(number + 1, stage), number + 2)
  {
    hide Reaches;
    var other, ack := Promotion(number + 1, stage)[0], Promotion(number + 1, stage)[1];
    var t := Activating(Sample(read), stage, true);
    var tasks2 := Replace(tasks, i, Some(t));
    assert ApplyPolicy(None, Sample(read), stage == Active, None) == Ok(Plain());
    ReachesNext(World(events, tasks), Append(i, other, Some(t)), World(events + [other], tasks2));
    assert Replace(tasks2, i, None) == Replace(tasks, i, None);
    assert Writes(t, ack.body, None);
    ReachesNext(World(events + [other], tasks2), Append(i, ack, None),
                World(events + [other] + [ack], Replace(tasks, i, None)));
    assert events + Promotion(number + 1, stage) == events + [other] + [ack];
  }

  lemma {:induction false} BeginsActivating(events: seq<Event>, tasks: seq<Task>, read: Status, stage: Status)
    requires Reaches(World(events, tasks)) && Fold(events, |events|) == [Sample(read)] && ValidPromotion(read, stage)
    ensures Reaches(World(events, tasks + [Activating(Sample(read), stage, false)]))
  {
    hide Reaches;
    var ps := [Sample(read)];
    assert Find(ps, 1) == 0;
    assert Sort(ByRevision, ps) == ps by { SortOfAscending(ByRevision, ps); }
    var task := Activating(Sample(read), stage, false);
    ReachesNext(World(events, tasks), Begin(task), World(events, tasks + [task]));
  }

  lemma {:induction false} Promotes(events: seq<Event>, task: Task, read: Status, stage: Status, number: nat)
    requires Reaches(World(events, [task])) && Ends(events, number)
    requires Fold(events, |events|) == [Sample(read)] && ValidPromotion(read, stage)
    ensures Reaches(World(events + Promotion(number + 1, stage), [task]))
    ensures Ends(events + Promotion(number + 1, stage), number + 2)
    ensures Fold(events + Promotion(number + 1, stage), |events| + 2) == [Sample(stage)]
  {
    hide Reaches, Fold;
    BeginsActivating(events, [task], read, stage);
    var tasks := [task] + [Activating(Sample(read), stage, false)];
    Acknowledges(events, tasks, 1, read, stage, number);
    assert Replace(tasks, 1, None) == [task];
    PromotionFolds(events, read, stage, number + 1);
  }

  function FirstEvent(): Event { Event(1, 0, Created(None, Some("p"), None, Parameters(None))) }

  /** The creation, and a handler that has read the draft and means to shadow it. */
  lemma {:induction false} SlowHandlerBegins(slow: Task)
    requires slow == Activating(Sample(Draft), Shadow, false)
    ensures Reaches(World([FirstEvent()], [slow])) && Ends([FirstEvent()], 1)
    ensures Fold([FirstEvent()], 1) == [Sample(Draft)]
  {
    var creating := Creating(None, Some("p"), None, Parameters(None));
    var w0, w1 := World([], []), World([], [creating]);
    assert IsRun([w0], []) && [w0][0] == w0;
    assert Reconstruct([]) == [];
    assert Some("p") != Some("");
    ReachesNext(w0, Begin(creating), w1);
    assert [] + [FirstEvent()] == [FirstEvent()] && Replace([creating], 0, None) == [];
    ReachesNext(w1, Append(0, FirstEvent(), None), World([FirstEvent()], []));
    FoldGrows([], FirstEvent());
    assert [] + [Sample(Draft)] == [Sample(Draft)];
    BeginsActivating([FirstEvent()], [], Draft, Shadow);
    assert [] + [slow] == [slow];
  }

  lemma StatusOf(events: seq<Event>, n: nat, s: Status)
    requires n <= |events| && Fold(events, n) == [Sample(s)]
    ensures StatusAt(events, n, 0) == Some(s)
  {
  }

  /** Overlapping handlers break the history: a handler that read the draft may
      acknowledge its shadow stage after others took the policy to active, which
      leaves it a shadow that was active. */
  lemma {:induction false} OverlappingHandlersForget()
    ensures exists w ::
              Reaches(w) && Was(w.events, |w.events|, 0, Active) && StatusAt(w.events, |w.events|, 0) == Some(Shadow)
  {
    hide Reaches, Fold, Promotion, StatusAt;
    var slow := Activating(Sample(Draft), Shadow, false);
    SlowHandlerBegins(slow);
    var e1 := [FirstEvent()];
    Promotes(e1, slow, Draft, Shadow, 1);
    var e2 := e1 + Promotion(2, Shadow);
    Promotes(e2, slow, Shadow, Canary, 3);
    var e3 := e2 + Promotion(4, Canary);
    Promotes(e3, slow, Canary, Active, 5);
    var e4 := e3 + Promotion(6, Active);
    Acknowledges(e4, [slow], 0, Draft, Shadow, 7);
    var e5 := e4 + Promotion(8, Shadow);
    PromotionFolds(e4, Active, Shadow, 8);
    FoldOfPrefix(e4, Promotion(8, Shadow), |e4|);
    StatusOf(e5, |e4|, Active);
    StatusOf(e5, |e5|, Shadow);
    assert Was(e5, |e5|, 0, Active);
    assert Reaches(World(e5, Replace([slow], 0, None)));
  }
}
