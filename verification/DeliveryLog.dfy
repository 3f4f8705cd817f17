/** Webhook configuration, event matching and the durable delivery log
    (crates/vidarax-api/src/delivery.rs). */
module DeliveryLog {
  import opened Wrappers
  import opened Timeline

  const MAX_WEBHOOK_BODY_BYTES: nat := 1024 * 1024

  datatype Config = Config(run: string, kinds: seq<string>, registered: nat)

  datatype Outcome = Retry | Delivered | DeadLetter | Checkpoint

  datatype DeliveryRecord = DeliveryRecord(id: string, seqNo: nat, state: Outcome, error: Option<string>)

  datatype Status = Status(last: nat, delivered: nat, deadLetters: nat, lastError: Option<string>)

  const FRESH: Status := Status(0, 0, 0, None)

  // ------------------------------------------------------------ matching

  predicate WebhookMatches(config: Config, event: Event) {
    && !("webhook_" <= event.kind)
    && ("trigger." <= event.kind ==> event.payload.webhookAction)
    && (config.kinds == [] || event.kind in config.kinds)
  }

  predicate Relevant(config: Config, event: Event) {
    event.run == config.run && WebhookMatches(config, event)
  }

  /** The sequence numbers a hook must settle among records a..b of the WAL. */
  function Due(config: Config, wal: seq<Record>, a: nat, b: nat): seq<nat>
    requires a <= b <= |wal|
  {
    if a == b then []
    else Due(config, wal, a, b - 1) + if Relevant(config, wal[b - 1].event) then [wal[b - 1].event.seqNo] else []
  }

  lemma {:induction false} DueSplits(config: Config, wal: seq<Record>, a: nat, b: nat, c: nat)
    requires a <= b <= c <= |wal|
    ensures Due(config, wal, a, c) == Due(config, wal, a, b) + Due(config, wal, b, c)
    decreases c
  {
    if b < c {
      DueSplits(config, wal, a, b, c - 1);
    }
  }

  lemma {:induction false} DueOfPrefix(config: Config, p: seq<Record>, q: seq<Record>, a: nat, b: nat)
    requires a <= b <= |p| && b <= |q| && forall k :: 0 <= k < b ==> p[k] == q[k]
    ensures Due(config, p, a, b) == Due(config, q, a, b)
    decreases b
  {
    if a < b {
      DueOfPrefix(config, p, q, a, b - 1);
    }
  }

  // ------------------------------------------------------------ registration

  predicate IsRegistration(e: Event, id: string) {
    e.kind == "webhook_registered" && e.payload.webhookId == Some(id) && e.payload.url.Some?
  }

  function ConfigOf(e: Event): Config {
    Config(e.run, e.payload.kinds, e.seqNo)
  }

  /** The first registration of a hook among the first `n` records. */
  function Registered(wal: seq<Record>, n: nat, id: string): Option<Config>
    requires n <= |wal|
  {
    if n == 0 then None
    else
      var earlier := Registered(wal, n - 1, id);
      if earlier.Some? then earlier
      else if IsRegistration(wal[n - 1].event, id) then Some(ConfigOf(wal[n - 1].event))
      else None
  }

  /** Hook ids are random and never reused: each is registered at most once. */
  ghost predicate RegisteredOnce(wal: seq<Record>) {
    forall j, k, id :: 0 <= j < k < |wal| && IsRegistration(wal[j].event, id) ==> !IsRegistration(wal[k].event, id)
  }

  function ConfigsAfter(configs: map<string, Config>, e: Event): map<string, Config> {
    if e.kind == "webhook_registered" then
      if e.payload.webhookId.Some? && e.payload.url.Some? then
        configs[e.payload.webhookId.value := ConfigOf(e)]
      else configs
    else if e.kind == "webhook_deleted" then
      if e.payload.webhookId.Some? then configs - {e.payload.webhookId.value} else configs
    else configs
  }

  function Configs(wal: seq<Record>, n: nat): map<string, Config>
    requires n <= |wal|
  {
    if n == 0 then map[] else ConfigsAfter(Configs(wal, n - 1), wal[n - 1].event)
  }

  method RestoreWebhookConfigs(wal: seq<Record>) returns (configs: map<string, Config>)
    ensures configs == Configs(wal, |wal|)
  {
    configs := map[];
    for i := 0 to |wal|
      invariant configs == Configs(wal, i)
    {
      var e := wal[i].event;
      if e.kind == "webhook_registered" {
        if e.payload.webhookId.None? {
          continue;
        }
        if e.payload.url.None? {
          continue;
        }
        configs := configs[e.payload.webhookId.value := ConfigOf(e)];
      } else if e.kind == "webhook_deleted" {
        if e.payload.webhookId.Some? {
          configs := configs - {e.payload.webhookId.value};
        }
      }
    }
  }

  /** A restored configuration is the one the hook was registered with,
      including the sequence number its deliveries start after. */
  lemma {:induction false} RestoredIsRegistered(wal: seq<Record>, n: nat, id: string)
    requires n <= |wal| && RegisteredOnce(wal)
    requires id in Configs(wal, n)
    ensures Registered(wal, n, id) == Some(Configs(wal, n)[id])
  {
    if id in Configs(wal, n - 1) {
      RestoredIsRegistered(wal, n - 1, id);
    }
    if IsRegistration(wal[n - 1].event, id) && Registered(wal, n - 1, id).Some? {
      var k := RegisteredWithin(wal, n - 1, id);
      assert false;
    }
  }

  /** A hook is restored exactly when its registration is in the log and no
      deletion of it comes later. */
  lemma {:induction false} RestoredUnlessDeleted(wal: seq<Record>, n: nat, id: string)
    requires n <= |wal|
    ensures id in Configs(wal, n) <==>
            exists k :: 0 <= k < n && IsRegistration(wal[k].event, id)
                        && forall m :: k < m < n ==>
                             !(wal[m].event.kind == "webhook_deleted" && wal[m].event.payload.webhookId == Some(id))
  {
    if n > 0 {
      RestoredUnlessDeleted(wal, n - 1, id);
      if IsRegistration(wal[n - 1].event, id) {
        assert id in Configs(wal, n);
      }
    }
  }

  lemma {:induction false} RegisteredOfPrefix(p: seq<Record>, q: seq<Record>, n: nat, id: string)
    requires n <= |p| && n <= |q| && forall k :: 0 <= k < n ==> p[k] == q[k]
    ensures Registered(p, n, id) == Registered(q, n, id)
  {
    if n > 0 {
      RegisteredOfPrefix(p, q, n - 1, id);
    }
  }

  lemma {:induction false} RegisteredStays(wal: seq<Record>, m: nat, n: nat, id: string)
    requires m <= n <= |wal|
    ensures Registered(wal, m, id).Some? ==> Registered(wal, n, id) == Registered(wal, m, id)
    decreases n
  {
    if m < n {
      RegisteredStays(wal, m, n - 1, id);
    }
  }

  lemma {:induction false} RegistrationFound(wal: seq<Record>, n: nat, id: string, k: nat)
    requires k < n <= |wal| && IsRegistration(wal[k].event, id)
    ensures Registered(wal, n, id).Some?
  {
    if k < n - 1 {
      RegistrationFound(wal, n - 1, id, k);
    }
  }

  /** A registration's own sequence number is that of a record in the log. */
  lemma {:induction false} RegisteredWithin(wal: seq<Record>, n: nat, id: string) returns (k: nat)
    requires n <= |wal| && Registered(wal, n, id).Some?
    ensures k < n && IsRegistration(wal[k].event, id)
    ensures wal[k].event.seqNo == Registered(wal, n, id).value.registered
  {
    if Registered(wal, n - 1, id).Some? {
      k := RegisteredWithin(wal, n - 1, id);
    } else {
      k := n - 1;
    }
  }

  // ------------------------------------------------------------ delivery log

  predicate Terminal(state: Outcome) { state.Delivered? || state.DeadLetter? }

  /** The sequence numbers of a hook's delivered and dead_letter records, in log order. */
  function Terminals(log: seq<DeliveryRecord>, id: string): seq<nat> {
    if log == [] then []
    else
      var r := log[|log| - 1];
      Terminals(log[..|log| - 1], id) + if r.id == id && Terminal(r.state) then [r.seqNo] else []
  }

  /** The largest sequence number a hook has durably settled or checkpointed. */
  function Cursor(log: seq<DeliveryRecord>, id: string): nat {
    if log == [] then 0
    else
      var r := log[|log| - 1];
      var earlier := Cursor(log[..|log| - 1], id);
      if r.id == id && !r.state.Retry? then Max(earlier, r.seqNo) else earlier
  }

  function CountOf(log: seq<DeliveryRecord>, id: string, state: Outcome): nat {
    if log == [] then 0
    else
      var r := log[|log| - 1];
      CountOf(log[..|log| - 1], id, state) + if r.id == id && r.state == state then 1 else 0
  }

  /** The error of the hook's last dead_letter record. */
  function LastDeadError(log: seq<DeliveryRecord>, id: string): Option<string> {
    if log == [] then None
    else
      var r := log[|log| - 1];
      if r.id == id && r.state.DeadLetter? then r.error else LastDeadError(log[..|log| - 1], id)
  }

  function Sat(n: nat): nat { SaturatingAdd(n, 0) }

  /** What a restart recovers for one hook. */
  function Recovered(log: seq<DeliveryRecord>, id: string): Status {
    Status(Cursor(log, id), Sat(CountOf(log, id, Delivered)), Sat(CountOf(log, id, DeadLetter)), LastDeadError(log, id))
  }

  ghost predicate Untouched(log: seq<DeliveryRecord>, id: string) {
    forall k :: 0 <= k < |log| ==> log[k].id != id
  }

  lemma RecoveredAppend(log: seq<DeliveryRecord>, r: DeliveryRecord)
    ensures forall id :: Untouched(log + [r], id) <==> Untouched(log, id) && id != r.id
    ensures forall id :: id != r.id ==> Recovered(log + [r], id) == Recovered(log, id)
    ensures Recovered(log + [r], r.id) == Absorb(Recovered(log, r.id), r)
  {
    var after := log + [r];
    assert after[..|log|] == log && after[|log|] == r;
    assert forall k :: 0 <= k < |log| ==> after[k] == log[k];
  }

  /** One record's effect on the status it belongs to. */
  function Absorb(s: Status, r: DeliveryRecord): Status {
    match r.state
    case Delivered => s.(last := Max(s.last, r.seqNo), delivered := SaturatingAdd(s.delivered, 1))
    case DeadLetter =>
      s.(last := Max(s.last, r.seqNo), deadLetters := SaturatingAdd(s.deadLetters, 1), lastError := r.error)
    case Checkpoint => s.(last := Max(s.last, r.seqNo))
    case Retry => s
  }

  method LoadDeliveryState(log: seq<DeliveryRecord>) returns (states: map<string, Status>)
    ensures forall id :: id in states <==> !Untouched(log, id)
    ensures forall id :: id in states ==> states[id] == Recovered(log, id)
  {
    states := map[];
    for i := 0 to |log|
      invariant forall id :: id in states <==> !Untouched(log[..i], id)
      invariant forall id :: id in states ==> states[id] == Recovered(log[..i], id)
    {
      var r := log[i];
      var state := if r.id in states then states[r.id] else FRESH;
      match r.state {
        case Delivered =>
          state := state.(last := Max(state.last, r.seqNo), delivered := SaturatingAdd(state.delivered, 1));
        case DeadLetter =>
          state := state.(last := Max(state.last, r.seqNo), deadLetters := SaturatingAdd(state.deadLetters, 1),
                          lastError := r.error);
        case Checkpoint =>
          state := state.(last := Max(state.last, r.seqNo));
        case Retry =>
      }
      RecoveredAppend(log[..i], r);
      assert log[..i + 1] == log[..i] + [r];
      if Untouched(log[..i], r.id) {
        UntouchedIsFresh(log[..i], r.id);
      }
      states := states[r.id := state];
    }
    assert log[..|log|] == log;
  }

  lemma {:induction false} UntouchedIsFresh(log: seq<DeliveryRecord>, id: string)
    requires Untouched(log, id)
    ensures Recovered(log, id) == FRESH && Terminals(log, id) == []
    ensures forall state :: CountOf(log, id, state) == 0
  {
    if log != [] {
      UntouchedIsFresh(log[..|log| - 1], id);
    }
  }

  /** Terminal records are exactly the delivered and dead_letter counts together. */
  lemma {:induction false} TerminalsCounted(log: seq<DeliveryRecord>, id: string)
    ensures |Terminals(log, id)| == CountOf(log, id, Delivered) + CountOf(log, id, DeadLetter)
  {
    if log != [] {
      TerminalsCounted(log[..|log| - 1], id);
    }
  }

  /** The error a worker shows after its last terminal record: cleared by a
      delivery, set by a dead letter. */
  function LiveError(log: seq<DeliveryRecord>, id: string): Option<string> {
    if log == [] then None
    else
      var r := log[|log| - 1];
      if r.id == id && r.state.DeadLetter? then r.error
      else if r.id == id && r.state.Delivered? then None
      else LiveError(log[..|log| - 1], id)
  }

  function EndsDelivered(log: seq<DeliveryRecord>, id: string): bool {
    if log == [] then false
    else
      var r := log[|log| - 1];
      if r.id == id && Terminal(r.state) then r.state.Delivered? else EndsDelivered(log[..|log| - 1], id)
  }

  /** Of the log alone: the fold never clears an error on a delivery, so the
      recovered error is that of the hook's last terminal record exactly when that
      was not a delivery, or no dead letter left an error to begin with. */
  lemma {:induction false} RestartErrorAgrees(log: seq<DeliveryRecord>, id: string)
    ensures Recovered(log, id).lastError == LiveError(log, id)
            <==> !EndsDelivered(log, id) || LastDeadError(log, id) == None
    ensures EndsDelivered(log, id) ==> LiveError(log, id) == None
  {
    if log != [] {
      RestartErrorAgrees(log[..|log| - 1], id);
    }
  }

  lemma StaleErrorAfterRestart(id: string, error: string)
    ensures var log := [DeliveryRecord(id, 1, DeadLetter, Some(error)), DeliveryRecord(id, 2, Delivered, None)];
            Recovered(log, id).lastError == Some(error) && LiveError(log, id) == None
  {
    var first := [DeliveryRecord(id, 1, DeadLetter, Some(error))];
    var log := first + [DeliveryRecord(id, 2, Delivered, None)];
    assert log == [DeliveryRecord(id, 1, DeadLetter, Some(error)), DeliveryRecord(id, 2, Delivered, None)];
    assert log[..|log| - 1] == first;
    assert LastDeadError(first, id) == Some(error);
  }
}
