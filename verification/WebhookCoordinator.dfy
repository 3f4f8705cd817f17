/** The coordinator's hook table: reservations, activation, removal and the
    capacity-1 wake channels (`run_coordinator` and `wake_*`,
    crates/vidarax-api/src/delivery.rs). Commands and notifications are handled
    one at a time, on the one thread the workers share; each is shown to be a
    step of the delivery protocol, or no step when it is refused. */
module WebhookCoordinator {
  import opened Wrappers
  import opened Timeline
  import opened DeliveryLog
  import opened DeliveryProtocol
  import opened DeliveryInvariant
  import opened DeliverySafety

  datatype Reply = Accepted | NoSecret | NoLog | LimitReached | Collision | AlreadyActive | NotReserved

  /** What a notification carries to the coordinator. */
  datatype Heard = Event(run: string) | Lag

  predicate Concerns(hook: Hook, heard: Heard) {
    hook.active && (heard.Lag? || hook.config.run == heard.run)
  }

  /** One unit per channel: a second send is coalesced with the first. */
  function AfterWake(hooks: map<string, Hook>, tokens: map<string, bool>, heard: Heard): map<string, bool> {
    map id | id in tokens :: tokens[id] || (id in hooks && Concerns(hooks[id], heard))
  }

  /** Bounded, and exactly the active hooks have a wake channel. */
  ghost predicate Bounded(hooks: map<string, Hook>, tokens: map<string, bool>) {
    |hooks| <= MAX_WEBHOOKS && forall id :: id in tokens <==> id in hooks && hooks[id].active
  }

  /** The table is the protocol's, and each channel holds its task's token. */
  ghost predicate Mirrors(s: State, hooks: map<string, Hook>, tokens: map<string, bool>) {
    hooks == s.hooks && forall id :: id in tokens ==> id in s.tasks && tokens[id] == s.tasks[id].token
  }

  /** An id no hook, task or registration ever had, as a random one is. */
  ghost predicate Unused(s: State, id: string) {
    id !in s.tasks && Registered(s.wal, |s.wal|, id) == None
  }

  lemma TableGrows(hooks: map<string, Hook>, id: string, hook: Hook)
    requires id !in hooks
    ensures hooks[id := hook].Keys == hooks.Keys + {id} && |hooks[id := hook]| == |hooks| + 1
  {
    var table := hooks[id := hook];
    assert table.Keys == hooks.Keys + {id} && |table| == |table.Keys| == |hooks.Keys| + 1;
  }

  lemma TableKeeps(hooks: map<string, Hook>, id: string, hook: Hook)
    requires id in hooks
    ensures |hooks[id := hook]| == |hooks|
  {
    var table := hooks[id := hook];
    assert table.Keys == hooks.Keys && |table| == |table.Keys| == |hooks.Keys|;
  }

  lemma TableShrinks(hooks: map<string, Hook>, id: string)
    ensures |hooks - {id}| <= |hooks|
  {
    var table := hooks - {id};
    assert table.Keys == hooks.Keys - {id};
    assert |table| == |table.Keys| <= |hooks.Keys| == |hooks|;
  }

  /** The first 64 of the restored hooks, in whatever order the map yields them. */
  method TakeUpTo64(restored: map<string, Config>) returns (hooks: map<string, Hook>)
    ensures hooks.Keys <= restored.Keys && forall id :: id in hooks ==> hooks[id] == Hook(restored[id], true)
    ensures |hooks| == Min(|restored|, MAX_WEBHOOKS)
  {
    hooks := map[];
    var left := restored.Keys;
    while left != {} && |hooks| < MAX_WEBHOOKS
      invariant left !! hooks.Keys && left <= restored.Keys && hooks.Keys <= restored.Keys
      invariant forall id :: id in hooks ==> hooks[id] == Hook(restored[id], true)
      invariant |hooks| <= MAX_WEBHOOKS && |hooks| + |left| == |restored|
      decreases left
    {
      var id :| id in left;
      TableGrows(hooks, id, Hook(restored[id], true));
      left := left - {id};
      hooks := hooks[id := Hook(restored[id], true)];
    }
  }

  /** The rest of the service: the writer, the workers and the files. */
  class Service {
    var world: State
    ghost var states: seq<State>
    ghost var actions: seq<Action>

    constructor ()
      ensures Valid() && world == EMPTY
    {
      world, states, actions := EMPTY, [EMPTY], [];
    }

    ghost predicate Valid()
      reads this
    {
      IsRun(states, actions) && states[|actions|] == world
    }

    lemma Reached()
      requires Valid()
      ensures Inv(world) && Sane(world)
    {
      RunKeeps(states, actions, |actions|);
    }

    method Take(a: Action)
      requires Valid() && Sane(world) && Enabled(world, a)
      modifies this
      ensures Valid() && world == Do(old(world), a)
      ensures states == old(states) + [world] && actions == old(actions) + [a]
    {
      hide Do, Enabled, Step;
      RunExtends(states, actions, a);
      states := states + [Do(world, a)];
      actions := actions + [a];
      world := Do(world, a);
    }

    /** Any number of steps of the writer and the workers. */
    method Others()
      requires Valid()
      modifies this
      ensures Valid() && old(states) <= states && old(actions) <= actions
      ensures world.hooks == old(world.hooks)
    {
      hide IsRun, Inv;
      var rounds: nat := *;
      while rounds > 0
        invariant Valid() && old(states) <= states && old(actions) <= actions
        invariant world.hooks == old(world.hooks)
      {
        var a: Action := *;
        Reached();
        if (a.Stage? || a.Commit? || a.Notify? || a.Work?) && Enabled(world, a) {
          OthersLeaveTable(world, a);
          Take(a);
        }
        rounds := rounds - 1;
      }
    }
  }

  lemma OthersLeaveTable(s: State, a: Action)
    requires Sane(s) && Enabled(s, a) && (a.Stage? || a.Commit? || a.Notify? || a.Work?)
    ensures Do(s, a).hooks == s.hooks
  {
    hide TaskStep;
  }

  lemma ActiveHasTask(s: State, id: string)
    requires Inv(s) && id in s.hooks
    ensures s.hooks[id].active ==> id in s.tasks
    ensures !s.hooks[id].active ==> id !in s.tasks
  {
    assert HookInv(s, id);
  }

  /** After a start every channel is empty. */
  lemma RestartMirrors(s: State, survivors: nat, hooks: map<string, Hook>)
    requires Sane(s) && s.committed <= survivors <= |s.wal| && |hooks| <= MAX_WEBHOOKS
    requires hooks.Keys <= Configs(s.wal, survivors).Keys
    requires forall id :: id in hooks ==> hooks[id] == Hook(Configs(s.wal, survivors)[id], true)
    ensures Enabled(s, Action.Crash(survivors, hooks.Keys))
    ensures Mirrors(Do(s, Action.Crash(survivors, hooks.Keys)), hooks, Emptied(hooks))
    ensures Bounded(hooks, Emptied(hooks))
  {
    hide Configs, Recovered, Registered;
    assert |hooks| == |hooks.Keys|;
    assert hooks == Restarted(s, survivors, hooks.Keys).hooks;
  }

  function Emptied(hooks: map<string, Hook>): map<string, bool> { map id | id in hooks :: false }

  lemma ActivationMirrors(s: State, id: string, hooks: map<string, Hook>, tokens: map<string, bool>)
    requires Sane(s) && Enabled(s, Action.Activate(id)) && Mirrors(s, hooks, tokens) && Bounded(hooks, tokens)
    ensures var config := s.hooks[id].config.(registered := Registered(s.wal, s.committed, id).value.registered);
            && Mirrors(Do(s, Action.Activate(id)), hooks[id := Hook(config, true)], tokens[id := false])
            && Bounded(hooks[id := Hook(config, true)], tokens[id := false])
  {
    hide Registered;
    var config := s.hooks[id].config.(registered := Registered(s.wal, s.committed, id).value.registered);
    TableKeeps(hooks, id, Hook(config, true));
  }

  lemma ReservationMirrors(s: State, id: string, config: Config, hooks: map<string, Hook>, tokens: map<string, bool>)
    requires Sane(s) && Enabled(s, Action.Reserve(id, config)) && Mirrors(s, hooks, tokens) && Bounded(hooks, tokens)
    ensures Mirrors(Do(s, Action.Reserve(id, config)), hooks[id := Hook(config, false)], tokens)
    ensures Bounded(hooks[id := Hook(config, false)], tokens)
  {
    hide Registered;
    TableGrows(hooks, id, Hook(config, false));
  }

  lemma RemovalMirrors(s: State, id: string, hooks: map<string, Hook>, tokens: map<string, bool>)
    requires Sane(s) && id in s.hooks && Mirrors(s, hooks, tokens) && Bounded(hooks, tokens)
    ensures Mirrors(Do(s, Action.Remove(id)), hooks - {id}, tokens - {id})
    ensures Bounded(hooks - {id}, tokens - {id})
  {
    TableShrinks(hooks, id);
  }

  lemma NothingRemoved(id: string, hooks: map<string, Hook>, tokens: map<string, bool>)
    requires Bounded(hooks, tokens) && id !in hooks
    ensures hooks - {id} == hooks && tokens - {id} == tokens
  {
  }

  lemma SameTable(s: State, hooks: map<string, Hook>, tokens: map<string, bool>)
    requires Mirrors(s, hooks, tokens)
    ensures hooks == s.hooks
  {
  }

  class Coordinator {
    const secret: bool
    const log: bool
    var hooks: map<string, Hook>
    var tokens: map<string, bool>

    ghost predicate Valid(service: Service)
      reads this, service
    {
      service.Valid() && Bounded(hooks, tokens) && Mirrors(service.world, hooks, tokens)
    }

    /** A start on what survived of the timeline. Up to 64 of the restored hooks
        get a task, and none without a secret or a delivery log. */
    constructor (secret: bool, log: bool, service: Service, survivors: nat, restored: map<string, Config>)
      requires service.Valid() && service.world.committed <= survivors <= |service.world.wal|
      requires restored == Configs(service.world.wal, survivors)
      modifies service
      ensures Valid(service) && this.secret == secret && this.log == log
      ensures hooks.Keys <= restored.Keys && forall id :: id in hooks ==> hooks[id] == Hook(restored[id], true)
      ensures |hooks| == if secret && log then Min(|restored|, 64) else 0
      ensures tokens == Emptied(hooks)
      ensures service.actions == old(service.actions) + [Action.Crash(survivors, hooks.Keys)]
    {
      hide IsRun, Inv, Configs, Do, Enabled, Mirrors, Bounded, Emptied;
      var taken := map[];
      if secret && log {
        taken := TakeUpTo64(restored);
      }
      this.secret, this.log := secret, log;
      hooks, tokens := taken, Emptied(taken);
      new;
      service.Reached();
      RestartMirrors(service.world, survivors, hooks);
      service.Take(Action.Crash(survivors, hooks.Keys));
    }

    /** While the coordinator waits, the writer and the workers go on; a worker
        that wakes empties its channel. */
    method Await(service: Service)
      requires Valid(service)
      modifies this`tokens, service
      ensures Valid(service) && old(service.states) <= service.states && old(service.actions) <= service.actions
    {
      hide IsRun, Inv;
      service.Others();
      service.Reached();
      forall id | id in tokens ensures id in service.world.tasks {
        ActiveHasTask(service.world, id);
      }
      tokens := map id | id in tokens :: service.world.tasks[id].token;
    }

    method Reserve(service: Service, id: string, config: Config) returns (reply: Reply)
      requires Valid(service) && (id !in hooks ==> Unused(service.world, id))
      modifies this`hooks, service
      ensures Valid(service)
      ensures reply == if !secret then NoSecret
                       else if !log then NoLog
                       else if |old(hooks)| >= 64 then LimitReached
                       else if id in old(hooks) then Collision
                       else Accepted
      ensures hooks == if reply.Accepted? then old(hooks)[id := Hook(config, false)] else old(hooks)
      ensures service.actions == old(service.actions) + if reply.Accepted? then [Action.Reserve(id, config)] else []
    {
      hide IsRun, Inv, Registered, Do;
      if !secret {
        return NoSecret;
      }
      if !log {
        return NoLog;
      }
      if |hooks| >= MAX_WEBHOOKS {
        return LimitReached;
      }
      if id in hooks {
        return Collision;
      }
      service.Reached();
      ReservationMirrors(service.world, id, config, hooks, tokens);
      hooks := hooks[id := Hook(config, false)];
      service.Take(Action.Reserve(id, config));
      reply := Accepted;
    }

    /** The caller has committed the registration under this sequence number. */
    method Activate(service: Service, id: string, registered: nat) returns (reply: Reply)
      requires Valid(service) && service.world.committed <= |service.world.wal|
      requires id in hooks && !hooks[id].active ==>
                 var config := Registered(service.world.wal, service.world.committed, id);
                 config.Some? && config.value.registered == registered
      modifies this, service
      ensures Valid(service)
      ensures reply == if id !in old(hooks) then NotReserved
                       else if old(hooks)[id].active then AlreadyActive
                       else Accepted
      ensures if reply.Accepted?
              then && hooks == old(hooks)[id := Hook(old(hooks)[id].config.(registered := registered), true)]
                   && tokens == old(tokens)[id := false]
              else hooks == old(hooks) && tokens == old(tokens)
      ensures service.actions == old(service.actions) + if reply.Accepted? then [Action.Activate(id)] else []
    {
      hide IsRun, Inv, Registered, Do, Bounded;
      if id !in hooks {
        return NotReserved;
      }
      if hooks[id].active {
        return AlreadyActive;
      }
      service.Reached();
      ActivationMirrors(service.world, id, hooks, tokens);
      hooks := hooks[id := Hook(hooks[id].config.(registered := registered), true)];
      tokens := tokens[id := false];
      service.Take(Action.Activate(id));
      reply := Accepted;
    }

    /** A hook goes with its channel, and its task is told to stop. */
    method Remove(service: Service, id: string)
      requires Valid(service)
      modifies this, service
      ensures Valid(service)
      ensures hooks == old(hooks) - {id} && tokens == old(tokens) - {id}
      ensures service.actions == old(service.actions) + if id in old(hooks) then [Action.Remove(id)] else []
    {
      hide IsRun, Inv, Do, Bounded, Mirrors;
      service.Reached();
      SameTable(service.world, hooks, tokens);
      if id in hooks {
        RemovalMirrors(service.world, id, hooks, tokens);
        hooks, tokens := hooks - {id}, tokens - {id};
        service.Take(Action.Remove(id));
      } else {
        NothingRemoved(id, hooks, tokens);
      }
    }

    method WakeHook(id: string)
      requires Bounded(hooks, tokens) && id in hooks
      modifies this`tokens
      ensures tokens == if hooks[id].active then old(tokens)[id := true] else old(tokens)
    {
      if hooks[id].active {
        tokens := tokens[id := true];
      }
    }

    /** Every hook the notification concerns ends with a token, whatever order
        the table is walked in, and no other channel changes. */
    method Wake(heard: Heard)
      requires Bounded(hooks, tokens)
      modifies this`tokens
      ensures Bounded(hooks, tokens) && tokens == AfterWake(hooks, old(tokens), heard)
      ensures forall id :: id in tokens ==>
                tokens[id] == (old(tokens[id]) || heard == Lag || heard == Heard.Event(hooks[id].config.run))
    {
      var left := hooks.Keys;
      while left != {}
        invariant Bounded(hooks, tokens) && left <= hooks.Keys && tokens.Keys == old(tokens).Keys
        invariant forall id :: id in tokens ==>
          tokens[id] == (old(tokens)[id] || (id !in left && Concerns(hooks[id], heard)))
        decreases left
      {
        var id :| id in left;
        left := left - {id};
        if heard.Lag? || hooks[id].config.run == heard.run {
          WakeHook(id);
        }
      }
    }

    /** The next notification, or the report that some were missed. */
    method Hear(service: Service)
      requires Valid(service) && service.world.heard < service.world.notified
      modifies this`tokens, service
      ensures Valid(service) && service.actions == old(service.actions) + [Action.Hear]
      ensures service.world.heard ==
                if old(service.world.notified) - old(service.world.heard) > 1024
                then old(service.world.notified) - 1024 else old(service.world.heard) + 1
    {
      hide IsRun, Inv, AfterWake;
      service.Reached();
      ghost var s, were := service.world, tokens;
      var lagged := Lagged(service.world.heard, service.world.notified);
      Wake(if lagged then Lag else Heard.Event(service.world.wal[service.world.heard].event.run));
      service.Take(Action.Hear);
      WakeMatchesProtocol(s, hooks, were);
    }
  }

  /** The table's wake rule is the protocol's. */
  lemma WakeMatchesProtocol(s: State, hooks: map<string, Hook>, tokens: map<string, bool>)
    requires s.heard < s.notified <= |s.wal| && Mirrors(s, hooks, tokens)
    ensures var heard := if Lagged(s.heard, s.notified) then Lag else Heard.Event(s.wal[s.heard].event.run);
            forall id :: id in tokens ==> id in s.tasks && AfterWake(hooks, tokens, heard)[id] == Woken(s)[id].token
  {
  }
}
