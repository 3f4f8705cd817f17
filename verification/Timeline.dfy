/** The timeline write-ahead log and its bounded cursor reader
    (crates/vidarax-core/src/timeline.rs).

    The file is a sequence of complete records, each `size` bytes long. One
    writer gives strictly increasing sequence numbers. Readers see a byte
    limit, `end`, that the writer publishes after a successful sync. */
module Timeline {
  import opened Wrappers

  /** How many events the broadcast ring keeps, and how many a replay reads at a time. */
  const BROADCAST_CAP: nat := 1024
  const REPLAY_BATCH: nat := 256

  /** The parts of an event's JSON payload that event delivery looks at.
      `bytes` is the length of the event's serialized CloudEvents envelope. */
  datatype Payload = Payload(
    webhookId: Option<string>,
    url: Option<string>,
    kinds: seq<string>,
    webhookAction: bool,
    bytes: nat)

  datatype Event = Event(seqNo: nat, run: string, kind: string, payload: Payload)

  datatype Record = Record(event: Event, size: nat)

  /** What a bounded read returns: the batch and the byte position just past
      the last record examined, or a refusal. */
  datatype ReadResult = Batch(events: seq<Event>, next: nat) | Corrupt

  ghost predicate Increasing(wal: seq<Record>) {
    && (forall k :: 0 <= k < |wal| ==> wal[k].size > 0)
    && (forall j, k :: 0 <= j < k < |wal| ==> wal[j].event.seqNo < wal[k].event.seqNo)
  }

  /** The byte position at which record `k` starts. */
  function Pos(wal: seq<Record>, k: nat): nat
    requires k <= |wal|
  {
    if k == 0 then 0 else Pos(wal, k - 1) + wal[k - 1].size
  }

  /** The number of leading records, among the first `n`, at or below a cursor. */
  function UpTo(wal: seq<Record>, n: nat, cursor: nat): (u: nat)
    requires n <= |wal|
    ensures u <= n
  {
    if n == 0 then 0
    else if wal[n - 1].event.seqNo <= cursor then n
    else UpTo(wal, n - 1, cursor)
  }

  /** The events of records a..b. */
  function Events(wal: seq<Record>, a: nat, b: nat): (es: seq<Event>)
    requires a <= b <= |wal|
    ensures |es| == b - a
    ensures forall k :: 0 <= k < b - a ==> es[k] == wal[a + k].event
  {
    seq(b - a, k requires 0 <= k < b - a => wal[a + k].event)
  }

  /** The record, among the first `n`, that starts at byte `pos`; `n` itself when
      `pos` is just past them. */
  function IndexAt(wal: seq<Record>, n: nat, pos: nat): (r: Option<nat>)
    requires n <= |wal|
    ensures r.Some? ==> r.value <= n && Pos(wal, r.value) == pos
  {
    if pos == Pos(wal, n) then Some(n)
    else if n == 0 then None
    else IndexAt(wal, n - 1, pos)
  }

  /** Everything newer than `after` in the first `n` records, at most `limit`
      of them: what a reader is meant to see. */
  function Newer(wal: seq<Record>, n: nat, after: nat, limit: nat): seq<Event>
    requires n <= |wal|
  {
    if n == 0 then []
    else
      var rest := Newer(wal, n - 1, after, limit);
      if |rest| < limit && wal[n - 1].event.seqNo > after then rest + [wal[n - 1].event] else rest
  }

  // ---------------------------------------------------------------- reader

  /** Records are examined from index `k`, at byte `pos`, until the limit, the
      published end, or a record that would cross it. */
  function ScanFrom(wal: seq<Record>, k: nat, pos: nat, after: nat, limit: nat, end: nat): ReadResult
    requires k <= |wal|
    decreases |wal| - k
  {
    if limit == 0 || pos == end then Batch([], pos)
    else if k == |wal| || pos + wal[k].size > end then Corrupt
    else if wal[k].event.seqNo > after then
      Onto([wal[k].event], ScanFrom(wal, k + 1, pos + wal[k].size, after, limit - 1, end))
    else
      ScanFrom(wal, k + 1, pos + wal[k].size, after, limit, end)
  }

  /** The read as a function, from a record boundary. An offset beyond the
      published end restarts at zero. */
  function ReadFrom(wal: seq<Record>, after: nat, limit: nat, offset: nat, end: nat): ReadResult {
    ReadWith(wal, after, limit, offset, end, _ => None)
  }

  /** What decoding the rest of a record from a byte inside it would give. */
  type Decoder = nat -> Option<Event>

  /** The read from any offset. Inside a record, the rest of the line is decoded
      like a record of its own. */
  function ReadWith(wal: seq<Record>, after: nat, limit: nat, offset: nat, end: nat, decode: Decoder): ReadResult {
    if limit == 0 then Batch([], Min(offset, end))
    else if end > Pos(wal, |wal|) then Corrupt
    else
      var start := if offset <= end then offset else 0;
      match IndexAt(wal, |wal|, start)
      case Some(k) => ScanFrom(wal, k, start, after, limit, end)
      case None => ScanFragment(wal, start, after, limit, end, decode)
  }

  function ScanFragment(wal: seq<Record>, start: nat, after: nat, limit: nat, end: nat, decode: Decoder): ReadResult
    requires limit > 0
  {
    var k := RecordAt(wal, |wal|, start);
    if start == end then Batch([], start)
    else if k == |wal| || Pos(wal, k + 1) > end || decode(start).None? then Corrupt
    else
      var e, next := decode(start).value, Pos(wal, k + 1);
      if e.seqNo > after then Onto([e], ScanFrom(wal, k + 1, next, after, limit - 1, end))
      else ScanFrom(wal, k + 1, next, after, limit, end)
  }

  /** The record that a byte belongs to. */
  function RecordAt(wal: seq<Record>, n: nat, pos: nat): (k: nat)
    requires n <= |wal|
    ensures k <= n
  {
    if n == 0 || Pos(wal, n - 1) <= pos then Max(n - 1, 0) else RecordAt(wal, n - 1, pos)
  }

  /** At a record boundary no fragment is ever decoded. */
  lemma BoundaryNeedsNoDecoder(wal: seq<Record>, after: nat, limit: nat, offset: nat, end: nat, decode: Decoder)
    requires IndexAt(wal, |wal|, if offset <= end then offset else 0).Some?
    ensures ReadWith(wal, after, limit, offset, end, decode) == ReadFrom(wal, after, limit, offset, end)
  {
  }

  function Onto(out: seq<Event>, r: ReadResult): ReadResult {
    match r
    case Corrupt => Corrupt
    case Batch(events, next) => Batch(out + events, next)
  }

  lemma OntoOne(out: seq<Event>, e: Event, r: ReadResult)
    ensures Onto(out + [e], r) == Onto(out, Onto([e], r))
  {
    if r.Batch? {
      assert out + [e] + r.events == out + ([e] + r.events);
    }
  }

  /** The reader's loop over one open file. */
  method ReadEventsAfterFromUpTo(wal: seq<Record>, after: nat, limit: nat, offset: nat, end: nat, decode: Decoder)
    returns (r: ReadResult)
    ensures r == ReadWith(wal, after, limit, offset, end, decode)
  {
    if limit == 0 {
      return Batch([], Min(offset, end));
    }
    if end > Pos(wal, |wal|) {
      return Corrupt;
    }
    var start := if offset <= end then offset else 0;
    var at := IndexAt(wal, |wal|, start);
    var k := if at.Some? then at.value else RecordAt(wal, |wal|, start);
    var out: seq<Event> := [];
    var next: nat := start;
    if at.None? && start != end {
      if k == |wal| || Pos(wal, k + 1) > end || decode(start).None? {
        return Corrupt;
      }
      next := Pos(wal, k + 1);
      k := k + 1;
      if decode(start).value.seqNo > after {
        out := [decode(start).value];
      }
    }
    while |out| < limit
      invariant k <= |wal| && |out| <= limit
      invariant ReadWith(wal, after, limit, offset, end, decode)
                == Onto(out, ScanFrom(wal, k, next, after, limit - |out|, end))
      decreases |wal| - k
    {
      if k == |wal| {
        if next != end {
          return Corrupt;
        }
        break;
      }
      if next == end {
        break;
      }
      if next + wal[k].size > end {
        return Corrupt;
      }
      if wal[k].event.seqNo > after {
        OntoOne(out, wal[k].event, ScanFrom(wal, k + 1, next + wal[k].size, after, limit - |out| - 1, end));
        out := out + [wal[k].event];
      }
      next := next + wal[k].size;
      k := k + 1;
    }
    assert out + [] == out;
    return Batch(out, next);
  }

  // ---------------------------------------------------------------- lemmas

  lemma {:induction false} UpToSplits(wal: seq<Record>, n: nat, cursor: nat)
    requires Increasing(wal) && n <= |wal|
    ensures forall k :: 0 <= k < n ==> (k < UpTo(wal, n, cursor) <==> wal[k].event.seqNo <= cursor)
  {
    if n > 0 && wal[n - 1].event.seqNo > cursor {
      UpToSplits(wal, n - 1, cursor);
    }
  }

  lemma UpToIs(wal: seq<Record>, n: nat, cursor: nat, u: nat)
    requires Increasing(wal) && u <= n <= |wal|
    requires u > 0 ==> wal[u - 1].event.seqNo <= cursor
    requires u < n ==> wal[u].event.seqNo > cursor
    ensures UpTo(wal, n, cursor) == u
  {
    UpToSplits(wal, n, cursor);
  }

  lemma UpToOfRecord(wal: seq<Record>, n: nat, k: nat)
    requires Increasing(wal) && k < n <= |wal|
    ensures UpTo(wal, n, wal[k].event.seqNo) == k + 1
  {
    UpToIs(wal, n, wal[k].event.seqNo, k + 1);
  }

  lemma UpToMonotone(wal: seq<Record>, n: nat, a: nat, b: nat)
    requires Increasing(wal) && a <= b && n <= |wal|
    ensures UpTo(wal, n, a) <= UpTo(wal, n, b)
  {
    UpToSplits(wal, n, a);
    UpToSplits(wal, n, b);
  }

  lemma {:induction false} PosGrows(wal: seq<Record>, j: nat, k: nat)
    requires Increasing(wal) && j <= k <= |wal|
    ensures Pos(wal, j) + (k - j) <= Pos(wal, k)
    decreases k
  {
    if j < k {
      PosGrows(wal, j, k - 1);
    }
  }

  lemma {:induction false} PosOfPrefix(a: seq<Record>, b: seq<Record>, k: nat)
    requires k <= |a| && k <= |b| && a[..k] == b[..k]
    ensures Pos(a, k) == Pos(b, k)
  {
    if k > 0 {
      assert a[..k][k - 1] == a[k - 1] && b[..k][k - 1] == b[k - 1];
      assert a[..k - 1] == a[..k][..k - 1] && b[..k - 1] == b[..k][..k - 1];
      PosOfPrefix(a, b, k - 1);
    }
  }

  lemma {:induction false} IndexAtBoundary(wal: seq<Record>, n: nat, j: nat)
    requires Increasing(wal) && j <= n <= |wal|
    ensures IndexAt(wal, n, Pos(wal, j)) == Some(j)
  {
    PosGrows(wal, j, n);
    if j < n {
      IndexAtBoundary(wal, n - 1, j);
    }
  }

  /** Scanning from a record at or before the split `u` gives the contiguous
      run of records from `u`, cut at the limit and at the published end. */
  lemma {:induction false} ScanIsSlice(wal: seq<Record>, j: nat, u: nat, n: nat, after: nat, limit: nat)
    requires Increasing(wal) && j <= u <= n <= |wal| && limit > 0
    requires forall k :: 0 <= k < n ==> (k < u <==> wal[k].event.seqNo <= after)
    ensures var m := Min(u + limit, n);
            ScanFrom(wal, j, Pos(wal, j), after, limit, Pos(wal, n)) == Batch(Events(wal, u, m), Pos(wal, m))
    decreases u - j
  {
    PosGrows(wal, j, n);
    if j < u {
      PosGrows(wal, j + 1, n);
      ScanIsSlice(wal, j + 1, u, n, after, limit);
    } else {
      TakeIsSlice(wal, u, n, after, limit);
    }
  }

  lemma EventsCons(wal: seq<Record>, a: nat, b: nat)
    requires a < b <= |wal|
    ensures Events(wal, a, b) == [wal[a].event] + Events(wal, a + 1, b)
  {
  }

  lemma {:induction false} TakeIsSlice(wal: seq<Record>, j: nat, n: nat, after: nat, limit: nat)
    requires Increasing(wal) && j <= n <= |wal|
    requires forall k :: j <= k < n ==> wal[k].event.seqNo > after
    ensures var m := Min(j + limit, n);
            ScanFrom(wal, j, Pos(wal, j), after, limit, Pos(wal, n)) == Batch(Events(wal, j, m), Pos(wal, m))
    decreases limit
  {
    PosGrows(wal, j, n);
    if j < n && limit > 0 {
      PosGrows(wal, j + 1, n);
      TakeIsSlice(wal, j + 1, n, after, limit - 1);
      var m := Min(j + limit, n);
      var rest := Events(wal, j + 1, m);
      assert ScanFrom(wal, j + 1, Pos(wal, j) + wal[j].size, after, limit - 1, Pos(wal, n)) == Batch(rest, Pos(wal, m));
      EventsCons(wal, j, m);
    }
  }

  /** A read at a record boundary at or before the cursor never fails and
      returns the records right after the cursor, whatever the offset. */
  lemma ReadIsSlice(wal: seq<Record>, j: nat, n: nat, after: nat, limit: nat)
    requires Increasing(wal) && n <= |wal| && limit > 0
    requires j <= UpTo(wal, n, after)
    ensures var u := UpTo(wal, n, after);
            var m := Min(u + limit, n);
            ReadFrom(wal, after, limit, Pos(wal, j), Pos(wal, n)) == Batch(Events(wal, u, m), Pos(wal, m))
  {
    PosGrows(wal, j, n);
    PosGrows(wal, n, |wal|);
    IndexAtBoundary(wal, |wal|, j);
    UpToSplits(wal, n, after);
    ScanIsSlice(wal, j, UpTo(wal, n, after), n, after, limit);
  }

  /** Reading from a remembered offset refines a full scan: the same batch and
      the same next position as a read from the start of the file. */
  lemma OffsetRefinesFullScan(wal: seq<Record>, j: nat, n: nat, after: nat, limit: nat)
    requires Increasing(wal) && j <= n <= |wal|
    requires forall k :: 0 <= k < j ==> wal[k].event.seqNo <= after
    ensures ReadFrom(wal, after, limit, Pos(wal, j), Pos(wal, n)).Batch?
    ensures limit > 0 ==>
      ReadFrom(wal, after, limit, Pos(wal, j), Pos(wal, n)) == ReadFrom(wal, after, limit, 0, Pos(wal, n))
  {
    if limit > 0 {
      UpToSplits(wal, n, after);
      assert j > 0 ==> wal[j - 1].event.seqNo <= after;
      ReadIsSlice(wal, j, n, after, limit);
      ReadIsSlice(wal, 0, n, after, limit);
    }
  }

  /** A read returns exactly the first `limit` committed events newer than the
      cursor, picked record by record over the whole committed prefix. */
  lemma ReadIsNewer(wal: seq<Record>, j: nat, n: nat, after: nat, limit: nat)
    requires Increasing(wal) && j <= n <= |wal| && limit > 0
    requires forall k :: 0 <= k < j ==> wal[k].event.seqNo <= after
    ensures ReadFrom(wal, after, limit, Pos(wal, j), Pos(wal, n)).Batch?
    ensures ReadFrom(wal, after, limit, Pos(wal, j), Pos(wal, n)).events == Newer(wal, n, after, limit)
  {
    OffsetRefinesFullScan(wal, j, n, after, limit);
    ReadIsSlice(wal, 0, n, after, limit);
    UpToSplits(wal, n, after);
    SliceIsNewer(wal, n, UpTo(wal, n, after), after, limit);
  }

  lemma {:induction false} SliceIsNewer(wal: seq<Record>, n: nat, u: nat, after: nat, limit: nat)
    requires u <= n <= |wal|
    requires forall k :: 0 <= k < n ==> (k < u <==> wal[k].event.seqNo <= after)
    ensures Events(wal, u, Min(u + limit, n)) == Newer(wal, n, after, limit)
    decreases n
  {
    if n > 0 {
      if u == n {
        SliceIsNewer(wal, n - 1, n - 1, after, limit);
      } else {
        SliceIsNewer(wal, n - 1, u, after, limit);
        if u + limit >= n {
          assert Events(wal, u, n - 1) + [wal[n - 1].event] == Events(wal, u, n);
        }
      }
    }
  }
}
