/** The policy handlers over one run's events: each reads the events, checks a
    guard, appends a request, applies the policy to the live pipeline, and
    appends an acknowledgement (crates/vidarax-api/src/policies.rs). */
module PolicyRollout {
  import opened Wrappers
  import opened Sorting
  import opened Policies

  // ------------------------------------------------------------ applying a policy

  datatype DeploymentError =
    | ExpectedGenerationRequired
    | StaleGeneration(expected: nat, current: nat)
    | GenerationClosed
    | AcknowledgementTimeout

  /** A live session: its generation, and what it answers to a prompt update. */
  datatype Update = Acked | Closed | TimedOut
  datatype Live = Live(generation: nat, update: Update)

  function DeferredFields(p: Policy): seq<string> {
    if p.parameters.restrictedZone.Some? then ["parameters.restricted_zone"] else []
  }

  function ApplyPolicy(live: Option<Live>, p: Policy, applyLive: bool, expected: Option<nat>)
    : Result<Application, DeploymentError>
  {
    match live
    case None => Ok(Application(None, false, DeferredFields(p)))
    case Some(session) =>
      if !applyLive then Ok(Application(Some(session.generation), false, DeferredFields(p)))
      else if expected.None? then Err(ExpectedGenerationRequired)
      else if expected.value != session.generation then Err(StaleGeneration(expected.value, session.generation))
      else if p.prompt.Some? && session.update == Closed then Err(GenerationClosed)
      else if p.prompt.Some? && session.update == TimedOut then Err(AcknowledgementTimeout)
      else
        Ok(Application(Some(session.generation), p.prompt.Some? && DeferredFields(p) == [], DeferredFields(p)))
  }

  /** A policy is reported effective exactly when it was meant to go live, the
      caller named the live generation, that generation took the prompt, and
      nothing of the policy is deferred. */
  lemma EffectiveExactly(live: Option<Live>, p: Policy, applyLive: bool, expected: Option<nat>)
    ensures var r := ApplyPolicy(live, p, applyLive, expected);
            r.Ok? && r.value.effective <==>
            && applyLive && live.Some? && expected == Some(live.value.generation)
            && p.prompt.Some? && live.value.update == Acked && p.parameters.restrictedZone.None?
    ensures var r := ApplyPolicy(live, p, applyLive, expected);
            r.Ok? ==>
              && r.value.deferred == (if p.parameters.restrictedZone.Some? then ["parameters.restricted_zone"] else [])
              && r.value.generation == if live.Some? then Some(live.value.generation) else None
    ensures ApplyPolicy(live, p, applyLive, expected).Err? <==>
              && live.Some? && applyLive
              && (expected != Some(live.value.generation) || (p.prompt.Some? && live.value.update != Acked))
  {
  }

  // ------------------------------------------------------------ guards

  datatype Refusal = StaleParent | Empty | InvalidStage | NotFound | NotAllowed | NoActive | AlreadyActive | NeverActive

  predicate ValidPromotion(from: Status, to: Status) {
    (from == Draft && to == Shadow) || (from == Shadow && to == Canary) || (from == Canary && to == Active)
  }

  function LastRevision(policies: seq<Policy>): Option<nat> {
    if policies == [] then None else Some(policies[|policies| - 1].revision)
  }

  function CreateGuard(policies: seq<Policy>, parent: Option<nat>, prompt: Option<string>, parameters: Parameters)
    : Result<(), Refusal>
  {
    if prompt.None? && parameters.restrictedZone.None? then Err(Empty)
    else if prompt == Some("") then Err(Empty)
    else if parent != LastRevision(policies) then Err(StaleParent)
    else Ok(())
  }

  function ActivateGuard(policies: seq<Policy>, revision: nat, stage: Status): Result<Policy, Refusal> {
    if stage != Shadow && stage != Canary && stage != Active then Err(InvalidStage)
    else
      var k := Find(policies, revision);
      if k == |policies| then Err(NotFound)
      else if !ValidPromotion(policies[k].status, stage) then Err(NotAllowed)
      else Ok(policies[k])
  }

  /** Position of the first active policy; the length when there is none. */
  function FindActive(policies: seq<Policy>): (k: nat)
    ensures k <= |policies|
    ensures k < |policies| ==> policies[k].status == Active
    ensures forall j :: 0 <= j < k ==> policies[j].status != Active
  {
    if policies == [] || policies[0].status == Active then 0 else 1 + FindActive(policies[1..])
  }

  /** The rollback target and the active policy it replaces. */
  function RollbackGuard(policies: seq<Policy>, revision: nat): Result<(Policy, Policy), Refusal> {
    var k, c := Find(policies, revision), FindActive(policies);
    if k == |policies| then Err(NotFound)
    else if c == |policies| then Err(NoActive)
    else if policies[c].revision == revision then Err(AlreadyActive)
    else if policies[k].status != Retired && policies[k].status != RolledBack then Err(NeverActive)
    else Ok((policies[k], policies[c]))
  }

  // ------------------------------------------------------------ handlers as steps

  /** A handler past its guard, with the policy it read then. */
  datatype Task =
    | Creating(parent: Option<nat>, prompt: Option<string>, schema: Option<string>, parameters: Parameters)
    | Activating(policy: Policy, stage: Status, requested: bool)
    | RollingBack(policy: Policy, current: Policy, requested: bool)

  datatype World = World(events: seq<Event>, tasks: seq<Task>)

  predicate Admits(policies: seq<Policy>, t: Task) {
    match t
    case Creating(parent, prompt, _, parameters) => CreateGuard(policies, parent, prompt, parameters).Ok?
    case Activating(p, stage, _) => ActivateGuard(policies, p.revision, stage) == Ok(p)
    case RollingBack(p, current, _) => RollbackGuard(policies, p.revision) == Ok((p, current))
  }

  predicate Unrequested(t: Task) { t.Creating? || !t.requested }

  /** Appending `body` is the next thing the handler may do, which leaves it at `next`. */
  ghost predicate Writes(t: Task, body: Body, next: Option<Task>) {
    match t
    case Creating(parent, prompt, schema, parameters) =>
      body == Created(parent, prompt, schema, parameters) && next == None
    case Activating(p, stage, false) => body == Other && next == Some(Activating(p, stage, true))
    case Activating(p, stage, true) =>
      && next == None
      && Outcome(p, stage == Active, body,
                 DeployAcknowledged(Some(p.revision), Some(stage), Application(None, false, [])))
    case RollingBack(p, current, false) => body == Other && next == Some(RollingBack(p, current, true))
    case RollingBack(p, current, true) =>
      && next == None
      && Outcome(p, true, body,
                 RollbackAcknowledged(Some(p.revision), Some(current.revision), Application(None, false, [])))
  }

  /** Either a rejection, or the acknowledgement carrying what applying the policy gave. */
  ghost predicate Outcome(p: Policy, applyLive: bool, body: Body, acknowledgement: Body)
    requires acknowledgement.DeployAcknowledged? || acknowledgement.RollbackAcknowledged?
  {
    || body == Other
    || exists live, expected ::
         && ApplyPolicy(live, p, applyLive, expected).Ok?
         && body == acknowledgement.(application := ApplyPolicy(live, p, applyLive, expected).value)
  }

  /** One writer hands out increasing sequence numbers. */
  predicate Later(events: seq<Event>, e: Event) {
    events == [] || events[|events| - 1].number < e.number
  }

  function Replace(tasks: seq<Task>, i: nat, next: Option<Task>): seq<Task>
    requires i < |tasks|
  {
    tasks[..i] + (if next.Some? then [next.value] else []) + tasks[i + 1..]
  }

  datatype Action =
    | Begin(task: Task)
    | Append(handler: nat, event: Event, next: Option<Task>)
    | GiveUp(handler: nat)
    | Foreign(event: Event)

  ghost predicate Step(w: World, a: Action, v: World) {
    match a
    case Begin(t) => Unrequested(t) && Admits(Reconstruct(w.events), t) && v == w.(tasks := w.tasks + [t])
    case Append(i, e, next) =>
      && i < |w.tasks| && Later(w.events, e) && Writes(w.tasks[i], e.body, next)
      && v == World(w.events + [e], Replace(w.tasks, i, next))
    case GiveUp(i) => i < |w.tasks| && v == w.(tasks := Replace(w.tasks, i, None))
    case Foreign(e) => Later(w.events, e) && e.body == Other && v == w.(events := w.events + [e])
  }

  /** Handlers run one at a time. */
  ghost predicate SerialStep(w: World, a: Action, v: World) {
    Step(w, a, v) && (a.Begin? ==> w.tasks == [])
  }

  ghost predicate IsRun(worlds: seq<World>, actions: seq<Action>) {
    && |worlds| == |actions| + 1 && worlds[0] == World([], [])
    && forall i :: 0 <= i < |actions| ==> Step(worlds[i], actions[i], worlds[i + 1])
  }

  ghost predicate IsSerialRun(worlds: seq<World>, actions: seq<Action>) {
    && |worlds| == |actions| + 1 && worlds[0] == World([], [])
    && forall i :: 0 <= i < |actions| ==> SerialStep(worlds[i], actions[i], worlds[i + 1])
  }

  // ------------------------------------------------------------ sequence numbers

  ghost predicate Increasing(events: seq<Event>) {
    forall i, j :: 0 <= i < j < |events| ==> events[i].number < events[j].number
  }

  /** Revisions strictly ascend, so each is found where it is. */
  ghost predicate Distinct(policies: seq<Policy>) {
    forall j, k :: 0 <= j < k < |policies| ==> policies[j].revision < policies[k].revision
  }

  lemma {:induction false} FoldIsDistinct(events: seq<Event>, n: nat)
    requires Increasing(events) && n <= |events|
    ensures Distinct(Fold(events, n))
    ensures forall k :: 0 <= k < |Fold(events, n)| ==> n > 0 && Fold(events, n)[k].revision <= events[n - 1].number
  {
    hide Apply;
    if n > 0 {
      FoldIsDistinct(events, n - 1);
      ApplyKeepsTerms(Fold(events, n - 1), events[n - 1]);
    }
  }

  lemma FoundAt(policies: seq<Policy>, k: nat)
    requires Distinct(policies) && k < |policies|
    ensures Find(policies, policies[k].revision) == k
  {
  }

  lemma ReconstructIsFold(events: seq<Event>)
    requires Increasing(events)
    ensures Reconstruct(events) == Fold(events, |events|)
  {
    FoldIsDistinct(events, |events|);
    SortOfAscending(ByRevision, Fold(events, |events|));
  }

  lemma FoldGrows(events: seq<Event>, e: Event)
    ensures Fold(events + [e], |events|) == Fold(events, |events|)
    ensures Fold(events + [e], |events| + 1) == Apply(Fold(events, |events|), e)
  {
    FoldOfPrefix(events, [e], |events|);
  }

  lemma IncreasingGrows(events: seq<Event>, e: Event)
    requires Increasing(events) && Later(events, e)
    ensures Increasing(events + [e])
  {
  }

  // ------------------------------------------------------------ effective policies, any interleaving

  /** Everything an effective policy claims. */
  predicate Earned(p: Policy) { p.prompt.Some? && p.parameters.restrictedZone.None? }

  ghost predicate HonestAt(policies: seq<Policy>, body: Body) {
    match body
    case DeployAcknowledged(Some(r), Some(status), a) =>
      a.effective ==>
        && status == Active && a.deferred == []
        && (Find(policies, r) < |policies| ==> Earned(policies[Find(policies, r)]))
    case RollbackAcknowledged(Some(r), _, a) =>
      a.effective ==> a.deferred == [] && (Find(policies, r) < |policies| ==> Earned(policies[Find(policies, r)]))
    case _ => true
  }

  ghost predicate Honest(events: seq<Event>) {
    forall i :: 0 <= i < |events| ==> HonestAt(Fold(events, i), events[i].body)
  }

  predicate Justified(p: Policy) { p.effective ==> p.status == Active && Earned(p) && p.deferred == [] }

  lemma BecomesJustified(policies: seq<Policy>, e: Event, k: nat)
    requires k < |policies| && Justified(policies[k]) && HonestAt(policies, e.body)
    ensures Justified(Becomes(policies, e, k))
  {
    hide Find;
  }

  lemma {:induction false} FoldIsJustified(events: seq<Event>, n: nat)
    requires n <= |events| && Honest(events)
    ensures forall k :: 0 <= k < |Fold(events, n)| ==> Justified(Fold(events, n)[k])
  {
    hide Apply, Justified, HonestAt, Becomes;
    if n > 0 {
      FoldIsJustified(events, n - 1);
      var policies, e := Fold(events, n - 1), events[n - 1];
      ApplyKeepsTerms(policies, e);
      forall k | 0 <= k < |Fold(events, n)| ensures Justified(Fold(events, n)[k]) {
        if k < |policies| {
          AppliedAt(policies, e, k);
          BecomesJustified(policies, e, k);
        } else {
          FreshIsJustified(e);
        }
      }
    }
  }

  lemma FreshIsJustified(e: Event)
    requires e.body.Created?
    ensures Justified(Fresh(e.number, e.ptsMs, e.body))
  {
  }

  /** The policy a handler read is still there with the same terms. */
  ghost predicate Remembers(events: seq<Event>, p: Policy) {
    exists k :: 0 <= k < |Fold(events, |events|)| && SameTerms(p, Fold(events, |events|)[k])
  }

  ghost predicate TaskSound(events: seq<Event>, t: Task) { t.Creating? || Remembers(events, t.policy) }

  ghost predicate TasksSound(events: seq<Event>, tasks: seq<Task>) {
    forall i :: 0 <= i < |tasks| ==> TaskSound(events, tasks[i])
  }

  ghost predicate Sound(w: World) {
    Increasing(w.events) && Honest(w.events) && TasksSound(w.events, w.tasks)
  }

  lemma StillRemembers(events: seq<Event>, e: Event, p: Policy)
    requires Remembers(events, p)
    ensures Remembers(events + [e], p)
  {
    hide Apply;
    var k :| 0 <= k < |Fold(events, |events|)| && SameTerms(p, Fold(events, |events|)[k]);
    FoldGrows(events, e);
    TermsKept(events + [e], |events|, |events| + 1, k);
  }

  lemma TasksStillSound(events: seq<Event>, e: Event, tasks: seq<Task>)
    requires TasksSound(events, tasks)
    ensures TasksSound(events + [e], tasks)
  {
    hide Remembers;
    forall i | 0 <= i < |tasks| ensures TaskSound(events + [e], tasks[i]) {
      if !tasks[i].Creating? {
        StillRemembers(events, e, tasks[i].policy);
      }
    }
  }

  lemma ReplaceSound(events: seq<Event>, tasks: seq<Task>, i: nat, next: Option<Task>)
    requires TasksSound(events, tasks) && i < |tasks| && (next.Some? ==> TaskSound(events, next.value))
    ensures TasksSound(events, Replace(tasks, i, next))
  {
    hide TaskSound;
  }

  lemma HonestGrows(events: seq<Event>, e: Event)
    requires Honest(events) && HonestAt(Fold(events, |events|), e.body)
    ensures Honest(events + [e])
  {
    hide Fold, HonestAt;
    var more := events + [e];
    forall i | 0 <= i < |more| ensures HonestAt(Fold(more, i), more[i].body) {
      FoldOfPrefix(events, [e], i);
      if i < |events| {
        assert more[i] == events[i];
      }
    }
  }

  lemma WritesHonestly(events: seq<Event>, t: Task, body: Body, next: Option<Task>)
    requires Increasing(events) && TaskSound(events, t) && Writes(t, body, next)
    ensures HonestAt(Fold(events, |events|), body)
    ensures next.Some? ==> TaskSound(events, next.value)
  {
    hide Apply, Find, ApplyPolicy;
    if !t.Creating? && body != Other {
      var applyLive := t.RollingBack? || t.stage == Active;
      var live, expected :| ApplyPolicy(live, t.policy, applyLive, expected).Ok?
                            && body.application == ApplyPolicy(live, t.policy, applyLive, expected).value;
      EffectiveExactly(live, t.policy, applyLive, expected);
      var policies := Fold(events, |events|);
      var k :| 0 <= k < |policies| && SameTerms(t.policy, policies[k]);
      FoldIsDistinct(events, |events|);
      FoundAt(policies, k);
    }
  }

  lemma StepKeepsSound(w: World, a: Action, v: World)
    requires Sound(w) && Step(w, a, v)
    ensures Sound(v)
  {
    hide Writes, Honest, Increasing, Later, TaskSound, HonestAt, Replace, Admits, Apply;
    match a {
      case Begin(t) =>
        BegunSound(w, t);
      case Append(i, e, next) =>
        IncreasingGrows(w.events, e);
        WritesHonestly(w.events, w.tasks[i], e.body, next);
        HonestGrows(w.events, e);
        ReplaceSound(w.events, w.tasks, i, next);
        TasksStillSound(w.events, e, Replace(w.tasks, i, next));
      case GiveUp(i) =>
        ReplaceSound(w.events, w.tasks, i, None);
      case Foreign(e) =>
        IncreasingGrows(w.events, e);
        OtherIsHonest(w.events, e.body);
        HonestGrows(w.events, e);
        TasksStillSound(w.events, e, w.tasks);
    }
  }

  lemma OtherIsHonest(events: seq<Event>, body: Body)
    requires body == Other
    ensures HonestAt(Fold(events, |events|), body)
  {
  }

  lemma BegunSound(w: World, t: Task)
    requires Sound(w) && Admits(Reconstruct(w.events), t)
    ensures TasksSound(w.events, w.tasks + [t])
  {
    hide Apply, Honest;
    ReconstructIsFold(w.events);
    if !t.Creating? {
      var policies := Fold(w.events, |w.events|);
      assert SameTerms(t.policy, policies[Find(policies, t.policy.revision)]);
    }
  }

  lemma {:induction false} RunIsSound(worlds: seq<World>, actions: seq<Action>, n: nat)
    requires IsRun(worlds, actions) && n < |worlds|
    ensures Sound(worlds[n])
  {
    hide Step, Sound;
    if n == 0 {
      assert Sound(World([], [])) by { NothingIsSound(); }
    } else {
      RunIsSound(worlds, actions, n - 1);
      StepKeepsSound(worlds[n - 1], actions[n - 1], worlds[n]);
    }
  }

  lemma NothingIsSound()
    ensures Sound(World([], []))
  {
  }

  /** In every reachable state of any interleaving of handlers, a policy marked
      effective is active, has a prompt, and has nothing deferred. */
  lemma EffectiveMeansActive(worlds: seq<World>, actions: seq<Action>, n: nat, p: Policy)
    requires IsRun(worlds, actions) && n < |worlds|
    requires p in Reconstruct(worlds[n].events) && p.effective
    ensures p.status == Active && p.prompt.Some? && p.parameters.restrictedZone.None? && p.deferred == []
  {
    hide IsRun, Honest, Apply;
    RunIsSound(worlds, actions, n);
    ReconstructIsFold(worlds[n].events);
    FoldIsJustified(worlds[n].events, |worlds[n].events|);
  }
}
