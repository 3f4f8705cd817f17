/** Cutting each live audio track into bounded windows
    (`TrackAccumulator` and the aggregation loop, crates/vidarax-api/src/live_audio.rs). */
module AudioWindows {
  import opened Wrappers
  import opened LiveAudio
  import OpusWindow

  const MIN_WINDOW_MS: nat := 250

  datatype Window = Window(track: nat, sourceStartMs: nat, frames: seq<Frame>)

  /** The value of one accumulator. */
  datatype Track = Track(anchor: u32, start: u32, clockRate: u32, last: Option<u16>, frames: seq<Frame>)

  function Ms(ticks: u32, clockRate: u32): nat {
    if clockRate == 0 then 0 else SaturatingMul(ticks, 1_000) / clockRate
  }

  function Opened(f: Frame): Track { Track(f.timestamp, f.timestamp, f.clockRate, f.sequence, [f]) }

  function Pushed(t: Track, f: Frame): Track {
    t.(start := if t.frames == [] then f.timestamp else t.start, last := f.sequence, frames := t.frames + [f])
  }

  predicate Follows(last: Option<u16>, next: Option<u16>) {
    last.Some? && next.Some? ==> NextSequence(last.value) == next.value
  }

  predicate Accepts(t: Track, f: Frame) { t.clockRate == f.clockRate && Follows(t.last, f.sequence) }

  function DurationMs(t: Track): nat {
    if t.frames == [] then 0 else Ms(WrapSub(t.frames[|t.frames| - 1].timestamp, t.start), t.clockRate)
  }

  function SourceStartMs(t: Track): nat { Ms(WrapSub(t.start, t.anchor), t.clockRate) }

  function Taken(t: Track): Window {
    Window(if t.frames == [] then 0 else t.frames[0].track, SourceStartMs(t), t.frames)
  }

  function Drained(t: Track): Track { t.(frames := []) }

  class TrackAccumulator {
    var anchorTimestamp: u32
    var windowStartTimestamp: u32
    var clockRate: u32
    var lastSequenceNumber: Option<u16>
    var frames: seq<Frame>
    ghost const owner: nat

    ghost function Value(): Track
      reads this
    {
      Track(anchorTimestamp, windowStartTimestamp, clockRate, lastSequenceNumber, frames)
    }

    constructor (frame: Frame)
      ensures Value() == Opened(frame) && owner == frame.track
    {
      owner := frame.track;
      anchorTimestamp := frame.timestamp;
      windowStartTimestamp := frame.timestamp;
      clockRate := frame.clockRate;
      lastSequenceNumber := frame.sequence;
      frames := [frame];
    }

    method Push(frame: Frame)
      modifies this
      ensures Value() == Pushed(old(Value()), frame)
    {
      if frames == [] {
        windowStartTimestamp := frame.timestamp;
      }
      lastSequenceNumber := frame.sequence;
      frames := frames + [frame];
    }

    method Duration() returns (ms: nat)
      ensures ms == DurationMs(Value())
    {
      if frames == [] || clockRate == 0 {
        return 0;
      }
      ms := SaturatingMul(WrapSub(frames[|frames| - 1].timestamp, windowStartTimestamp), 1_000) / clockRate;
    }

    method TakeWindow() returns (window: Window)
      modifies this
      ensures window == Taken(old(Value())) && Value() == Drained(old(Value()))
    {
      var taken := frames;
      frames := [];
      var sourceStart :=
        if clockRate == 0 then 0
        else SaturatingMul(WrapSub(windowStartTimestamp, anchorTimestamp), 1_000) / clockRate;
      window := Window(if taken == [] then 0 else taken[0].track, sourceStart, taken);
    }
  }

  // ------------------------------------------------------------ what happens to one track

  /** Why a window was taken, and what became of it. */
  datatype Cause = Threshold | Stale | Flush
  datatype Fate = Queued | Refused | Discarded

  /** One taken window: its frames start at index `from` of the track's frames,
      and the accumulator it came from was opened at index `anchor`. */
  datatype Entry = Entry(track: nat, window: Window, from: nat, anchor: nat, cause: Cause, fate: Fate)

  datatype Story = Story(track: Track, anchor: nat, received: seq<Frame>, entries: seq<Entry>)

  predicate Valid(f: Frame) { f.clockRate != 0 && f.data != [] }

  function Sent(sent: bool): Fate { if sent then Queued else Refused }

  /** How many of the track's frames have been taken. */
  function Covered(entries: seq<Entry>): nat {
    if entries == [] then 0 else entries[|entries| - 1].from + |entries[|entries| - 1].window.frames|
  }

  function Begun(f: Frame): Story { Story(Opened(f), 0, [f], []) }

  function Next(s: Story, track: nat, cause: Cause, fate: Fate): Entry {
    Entry(track, Taken(s.track), Covered(s.entries), s.anchor, cause, fate)
  }

  function Emitted(s: Story, e: Entry): Story { s.(track := Drained(s.track), entries := s.entries + [e]) }

  function Reopened(s: Story, f: Frame): Story { Story(Opened(f), |s.received|, s.received + [f], s.entries) }

  function Extended(s: Story, f: Frame): Story { s.(track := Pushed(s.track, f), received := s.received + [f]) }

  // ------------------------------------------------------------ invariant of one track

  /** The next frame of an unbroken RTP stream: the same track and clock, and the
      next sequence number in 16 bits when both are known. */
  predicate Linked(f: Frame, g: Frame) {
    && f.track == g.track && f.clockRate == g.clockRate
    && (f.sequence.Some? && g.sequence.Some? ==>
          g.sequence.value == if f.sequence.value == 65535 then 0 else f.sequence.value + 1)
  }

  /** Frames a..b are one unbroken stretch. */
  ghost predicate Unbroken(received: seq<Frame>, a: nat, b: nat) {
    && a <= b <= |received|
    && (forall i :: a <= i < b ==> Valid(received[i]))
    && forall i :: a < i < b ==> Linked(received[i - 1], received[i])
  }

  /** Index `i` is where a stretch starts: the frame before it is not continued. */
  predicate Opens(received: seq<Frame>, i: nat) {
    i == 0 || (i < |received| && !Linked(received[i - 1], received[i]))
  }

  /** The time from the first to the last of some frames. */
  function LastsMs(frames: seq<Frame>): nat {
    if frames == [] then 0
    else Ms(WrapSub(frames[|frames| - 1].timestamp, frames[0].timestamp), frames[0].clockRate)
  }

  ghost predicate RightLength(cause: Cause, frames: seq<Frame>, windowMs: nat) {
    match cause
    case Threshold => frames != [] && LastsMs(frames) >= windowMs && LastsMs(frames[..|frames| - 1]) < windowMs
    case Stale => LastsMs(frames) < windowMs
    case Flush => 250 <= LastsMs(frames) < windowMs
  }

  ghost predicate RightPlace(e: Entry, received: seq<Frame>) {
    && e.anchor <= e.from <= e.from + |e.window.frames| <= |received|
    && e.window.frames == received[e.from..e.from + |e.window.frames|]
    && Unbroken(received, e.anchor, e.from + |e.window.frames|) && Opens(received, e.anchor)
    && (e.cause == Stale ==> 0 < e.from + |e.window.frames| && Opens(received, e.from + |e.window.frames|))
  }

  ghost predicate RightStart(e: Entry, received: seq<Frame>)
    requires RightPlace(e, received)
  {
    e.window.frames != [] ==>
      && e.window.track == e.window.frames[0].track == e.track
      && e.window.sourceStartMs == Ms(WrapSub(received[e.from].timestamp, received[e.anchor].timestamp),
                                      received[e.anchor].clockRate)
  }

  ghost predicate GoodEntry(e: Entry, received: seq<Frame>, windowMs: nat) {
    && RightPlace(e, received) && RightStart(e, received)
    && RightLength(e.cause, e.window.frames, windowMs)
    && (e.fate == Discarded <==> e.cause == Stale && |e.window.frames| <= 1)
  }

  /** Windows follow each other with no gap and no overlap. */
  ghost predicate Chained(entries: seq<Entry>) {
    forall i :: 0 <= i < |entries| ==> entries[i].from == Covered(entries[..i])
  }

  ghost predicate Tracks(s: Story, track: nat) {
    && s.anchor < |s.received| && Unbroken(s.received, s.anchor, |s.received|) && Opens(s.received, s.anchor)
    && s.received[s.anchor].track == track
    && s.track.anchor == s.received[s.anchor].timestamp && s.track.clockRate == s.received[s.anchor].clockRate
    && s.track.last == s.received[|s.received| - 1].sequence
    && (s.track.frames != [] ==> s.track.start == s.track.frames[0].timestamp)
  }

  ghost predicate Buffers(s: Story) {
    && s.anchor <= Covered(s.entries) <= |s.received|
    && s.track.frames == s.received[Covered(s.entries)..]
  }

  ghost predicate GoodEntries(entries: seq<Entry>, received: seq<Frame>, windowMs: nat) {
    && Chained(entries)
    && forall i :: 0 <= i < |entries| ==> GoodEntry(entries[i], received, windowMs)
  }

  ghost predicate StaleAt(entries: seq<Entry>, i: nat) {
    exists k :: 0 <= k < |entries| && entries[k].cause == Stale && entries[k].from + |entries[k].window.frames| == i
  }

  /** Wherever a new stretch starts, a stale window ended. */
  ghost predicate BreaksTold(received: seq<Frame>, entries: seq<Entry>) {
    forall i :: 0 < i < |received| && Opens(received, i) ==> StaleAt(entries, i)
  }

  ghost predicate Good(s: Story, track: nat, windowMs: nat) {
    && Tracks(s, track) && Buffers(s) && GoodEntries(s.entries, s.received, windowMs)
    && DurationMs(s.track) < windowMs && BreaksTold(s.received, s.entries)
  }

  lemma StaleStays(entries: seq<Entry>, e: Entry, i: nat)
    requires StaleAt(entries, i)
    ensures StaleAt(entries + [e], i)
  {
    var k :| 0 <= k < |entries| && entries[k].cause == Stale && entries[k].from + |entries[k].window.frames| == i;
    assert (entries + [e])[k] == entries[k];
  }

  lemma BreaksKept(received: seq<Frame>, entries: seq<Entry>, e: Entry)
    requires BreaksTold(received, entries)
    ensures BreaksTold(received, entries + [e])
  {
    hide Opens, StaleAt;
    forall i | 0 < i < |received| && Opens(received, i) ensures StaleAt(entries + [e], i) {
      StaleStays(entries, e, i);
    }
  }

  /** A frame that continues the last one starts no stretch. */
  lemma BreaksContinued(received: seq<Frame>, entries: seq<Entry>, f: Frame)
    requires BreaksTold(received, entries) && received != [] && Linked(received[|received| - 1], f)
    ensures BreaksTold(received + [f], entries)
  {
    hide StaleAt, Linked;
    forall i | 0 < i < |received| + 1 && Opens(received + [f], i) ensures StaleAt(entries, i) {
      assert i < |received| ==> Opens(received, i);
    }
  }

  lemma BreaksRestarted(received: seq<Frame>, entries: seq<Entry>, f: Frame, e: Entry)
    requires BreaksTold(received, entries) && e.cause == Stale && e.from + |e.window.frames| == |received|
    ensures BreaksTold(received + [f], entries + [e])
  {
    hide StaleAt, Linked;
    assert StaleAt(entries + [e], |received|) by { StaleLast(entries, e); }
    forall i | 0 < i < |received| + 1 && Opens(received + [f], i) ensures StaleAt(entries + [e], i) {
      if i < |received| {
        assert Opens(received, i);
        StaleStays(entries, e, i);
      }
    }
  }

  lemma StaleLast(entries: seq<Entry>, e: Entry)
    requires e.cause == Stale
    ensures StaleAt(entries + [e], e.from + |e.window.frames|)
  {
    assert (entries + [e])[|entries|] == e;
  }

  lemma BegunIsGood(f: Frame, windowMs: nat)
    requires Valid(f) && windowMs > 0
    ensures Good(Begun(f), f.track, windowMs)
  {
  }

  lemma {:induction false} SameClock(received: seq<Frame>, a: nat, i: nat, b: nat)
    requires Unbroken(received, a, b) && a <= i < b
    ensures received[i].clockRate == received[a].clockRate && received[i].track == received[a].track
    decreases i
  {
    if a < i {
      SameClock(received, a, i - 1, b);
      assert Linked(received[i - 1], received[i]);
    }
  }

  /** Once the buffer starts where the window starts, its duration is that of its frames. */
  lemma DurationIsLength(s: Story, track: nat)
    requires Tracks(s, track) && Buffers(s)
    ensures DurationMs(s.track) == LastsMs(s.track.frames)
  {
    if s.track.frames != [] {
      SameClock(s.received, s.anchor, Covered(s.entries), |s.received|);
    }
  }

  lemma EntryKept(e: Entry, received: seq<Frame>, f: Frame, windowMs: nat)
    requires GoodEntry(e, received, windowMs)
    ensures GoodEntry(e, received + [f], windowMs)
  {
    hide LastsMs, Ms;
    var end := e.from + |e.window.frames|;
    assert (received + [f])[e.from..end] == received[e.from..end];
    assert Unbroken(received + [f], e.anchor, end);
  }

  lemma EntriesKept(entries: seq<Entry>, received: seq<Frame>, f: Frame, windowMs: nat)
    requires GoodEntries(entries, received, windowMs)
    ensures GoodEntries(entries, received + [f], windowMs)
  {
    hide GoodEntry;
    forall i | 0 <= i < |entries| ensures GoodEntry(entries[i], received + [f], windowMs) {
      EntryKept(entries[i], received, f, windowMs);
    }
  }

  lemma EntriesExtended(entries: seq<Entry>, received: seq<Frame>, e: Entry, windowMs: nat)
    requires GoodEntries(entries, received, windowMs) && GoodEntry(e, received, windowMs) && e.from == Covered(entries)
    ensures GoodEntries(entries + [e], received, windowMs)
  {
    hide GoodEntry, Covered;
    var more := entries + [e];
    assert more[..|entries|] == entries;
    forall i | 0 <= i < |more| ensures more[i].from == Covered(more[..i]) {
      if i < |entries| {
        assert more[..i] == entries[..i];
      }
    }
  }

  lemma NextIsGood(s: Story, track: nat, cause: Cause, fate: Fate, windowMs: nat)
    requires Tracks(s, track) && Buffers(s) && RightLength(cause, s.track.frames, windowMs)
    requires cause != Stale && fate != Discarded
    ensures GoodEntry(Next(s, track, cause, fate), s.received, windowMs)
  {
    hide RightLength, Ms;
    if s.track.frames != [] {
      SameClock(s.received, s.anchor, Covered(s.entries), |s.received|);
    }
  }

  lemma EmittedIsGood(s: Story, track: nat, cause: Cause, fate: Fate, windowMs: nat)
    requires Tracks(s, track) && Buffers(s) && GoodEntries(s.entries, s.received, windowMs) && windowMs > 0
    requires RightLength(cause, s.track.frames, windowMs) && cause != Stale && fate != Discarded
    requires BreaksTold(s.received, s.entries)
    ensures Good(Emitted(s, Next(s, track, cause, fate)), track, windowMs)
  {
    hide GoodEntries, RightLength, Unbroken, Opens, BreaksTold;
    BreaksKept(s.received, s.entries, Next(s, track, cause, fate));
    var e := Next(s, track, cause, fate);
    NextIsGood(s, track, cause, fate, windowMs);
    EntriesExtended(s.entries, s.received, e, windowMs);
  }

  /** The frame that was not accepted opens a new stretch. */
  lemma RefusedOpens(s: Story, track: nat, f: Frame)
    requires Tracks(s, track) && !Accepts(s.track, f)
    ensures Opens(s.received + [f], |s.received|)
  {
    SameClock(s.received, s.anchor, |s.received| - 1, |s.received|);
  }

  lemma StaleIsGood(s: Story, track: nat, f: Frame, fate: Fate, windowMs: nat)
    requires Tracks(s, track) && Buffers(s) && LastsMs(s.track.frames) < windowMs && !Accepts(s.track, f)
    requires fate == Discarded <==> |s.track.frames| <= 1
    ensures GoodEntry(Next(s, track, Stale, fate), s.received + [f], windowMs)
  {
    hide LastsMs, Ms, Accepts, Linked;
    var e, more := Next(s, track, Stale, fate), s.received + [f];
    RefusedOpens(s, track, f);
    assert e.from + |e.window.frames| == |s.received|;
    assert more[e.from..|s.received|] == s.received[e.from..];
    assert Unbroken(more, e.anchor, |s.received|);
    if s.track.frames != [] {
      SameClock(s.received, s.anchor, e.from, |s.received|);
    }
  }

  lemma RestartedIsGood(s: Story, track: nat, f: Frame, fate: Fate, windowMs: nat)
    requires Good(s, track, windowMs) && !Accepts(s.track, f) && Valid(f) && f.track == track
    requires fate == Discarded <==> |s.track.frames| <= 1
    ensures Good(Reopened(Emitted(s, Next(s, track, Stale, fate)), f), track, windowMs)
  {
    hide GoodEntries, GoodEntry, Accepts, LastsMs, Linked, DurationMs, BreaksTold;
    var e, more := Next(s, track, Stale, fate), s.received + [f];
    BreaksRestarted(s.received, s.entries, f, e);
    DurationIsLength(s, track);
    EntriesKept(s.entries, s.received, f, windowMs);
    StaleIsGood(s, track, f, fate, windowMs);
    EntriesExtended(s.entries, more, e, windowMs);
    RefusedOpens(s, track, f);
    assert Covered(s.entries + [e]) == |s.received|;
    assert DurationMs(Opened(f)) == 0 by { OneFrameLasts0(f); }
  }

  lemma OneFrameLasts0(f: Frame)
    ensures DurationMs(Opened(f)) == 0
  {
  }

  lemma ExtendedIsSound(s: Story, track: nat, f: Frame, windowMs: nat)
    requires Good(s, track, windowMs) && Valid(f) && f.track == track && Accepts(s.track, f)
    ensures var x := Extended(s, f);
            && Tracks(x, track) && Buffers(x) && GoodEntries(x.entries, x.received, windowMs)
            && x.track.frames == s.track.frames + [f] && LastsMs(s.track.frames) < windowMs
            && BreaksTold(x.received, x.entries)
  {
    hide GoodEntries, Covered, LastsMs, DurationMs, BreaksTold;
    SameClock(s.received, s.anchor, |s.received| - 1, |s.received|);
    BreaksContinued(s.received, s.entries, f);
    EntriesKept(s.entries, s.received, f, windowMs);
    DurationIsLength(s, track);
    StretchGrows(s.received, s.anchor, f, track);
  }

  lemma StretchGrows(received: seq<Frame>, a: nat, f: Frame, track: nat)
    requires a < |received| && Unbroken(received, a, |received|) && received[a].track == track
    requires Valid(f) && f.track == track && f.clockRate == received[a].clockRate
    requires Follows(received[|received| - 1].sequence, f.sequence)
    requires Opens(received, a)
    ensures Unbroken(received + [f], a, |received| + 1) && Opens(received + [f], a)
  {
    SameClock(received, a, |received| - 1, |received|);
  }

  /** A stale window of one frame or none is not sent. */
  function StaleFate(frames: seq<Frame>, sent: bool): Fate { if |frames| <= 1 then Discarded else Sent(sent) }

  /** One valid frame, seen by the track it belongs to. */
  function Received(s: Story, f: Frame, windowMs: nat, sent: bool): Story {
    if !Accepts(s.track, f) then Reopened(Emitted(s, Next(s, f.track, Stale, StaleFate(s.track.frames, sent))), f)
    else
      var x := Extended(s, f);
      if DurationMs(x.track) >= windowMs then Emitted(x, Next(x, f.track, Threshold, Sent(sent))) else x
  }

  /** The end of the stream. */
  function Flushed(s: Story, track: nat, sent: bool): Story {
    if DurationMs(s.track) >= MIN_WINDOW_MS then Emitted(s, Next(s, track, Flush, Sent(sent))) else s
  }

  lemma ReceivedIsGood(s: Story, track: nat, f: Frame, sent: bool, windowMs: nat)
    requires Good(s, track, windowMs) && Valid(f) && f.track == track
    ensures Good(Received(s, f, windowMs, sent), track, windowMs)
    ensures Received(s, f, windowMs, sent).received == s.received + [f]
  {
    hide Tracks, Buffers, GoodEntries, DurationMs, LastsMs, BreaksTold;
    if !Accepts(s.track, f) {
      RestartedIsGood(s, track, f, StaleFate(s.track.frames, sent), windowMs);
    } else {
      var x := Extended(s, f);
      ExtendedIsSound(s, track, f, windowMs);
      DurationIsLength(x, track);
      if DurationMs(x.track) >= windowMs {
        assert x.track.frames[..|x.track.frames| - 1] == s.track.frames;
        EmittedIsGood(x, track, Threshold, Sent(sent), windowMs);
      }
    }
  }

  lemma FlushedIsGood(s: Story, track: nat, sent: bool, windowMs: nat)
    requires Good(s, track, windowMs)
    ensures Good(Flushed(s, track, sent), track, windowMs)
    ensures DurationMs(Flushed(s, track, sent).track) < 250
  {
    hide Tracks, Buffers, GoodEntries, LastsMs, BreaksTold;
    DurationIsLength(s, track);
    if DurationMs(s.track) >= MIN_WINDOW_MS {
      EmittedIsGood(s, track, Flush, Sent(sent), windowMs);
    }
  }

  // ------------------------------------------------------------ all tracks

  /** The valid frames of one track, in arrival order. */
  function OfTrack(input: seq<Frame>, track: nat): seq<Frame> {
    if input == [] then []
    else
      var f := input[|input| - 1];
      OfTrack(input[..|input| - 1], track) + if Valid(f) && f.track == track then [f] else []
  }

  function Invalid(input: seq<Frame>): nat {
    if input == [] then 0
    else Invalid(input[..|input| - 1]) + if Valid(input[|input| - 1]) then 0 else 1
  }

  /** The entries of one track in the log of all taken windows. */
  function EntriesOf(log: seq<Entry>, track: nat): seq<Entry> {
    if log == [] then []
    else
      var e := log[|log| - 1];
      EntriesOf(log[..|log| - 1], track) + if e.track == track then [e] else []
  }

  /** The windows of the log handed to the analysis queue. */
  function QueuedIn(log: seq<Entry>): seq<Window> {
    if log == [] then []
    else
      var e := log[|log| - 1];
      QueuedIn(log[..|log| - 1]) + if e.fate == Queued then [e.window] else []
  }

  function RefusedIn(log: seq<Entry>): nat {
    if log == [] then 0
    else RefusedIn(log[..|log| - 1]) + if log[|log| - 1].fate == Refused then 1 else 0
  }

  lemma LogGrows(log: seq<Entry>, e: Entry)
    ensures QueuedIn(log + [e]) == QueuedIn(log) + if e.fate == Queued then [e.window] else []
    ensures RefusedIn(log + [e]) == RefusedIn(log) + if e.fate == Refused then 1 else 0
  {
    assert (log + [e])[..|log|] == log;
  }

  lemma EntriesGrow(log: seq<Entry>, news: seq<Entry>, t: nat)
    requires |news| <= 1
    ensures EntriesOf(log + news, t) == EntriesOf(log, t) + if news != [] && news[0].track == t then news else []
  {
    if news == [] {
      assert log + news == log;
    } else {
      assert news == [news[0]];
      assert (log + news)[..|log|] == log;
    }
  }

  lemma InputGrows(input: seq<Frame>, f: Frame, t: nat)
    ensures OfTrack(input + [f], t) == OfTrack(input, t) + if Valid(f) && f.track == t then [f] else []
    ensures Invalid(input + [f]) == Invalid(input) + if Valid(f) then 0 else 1
  {
    assert (input + [f])[..|input|] == input;
  }

  function ReceivedAt(stories: map<nat, Story>, t: nat): seq<Frame> {
    if t in stories then stories[t].received else []
  }

  function EntriesAt(stories: map<nat, Story>, t: nat): seq<Entry> {
    if t in stories then stories[t].entries else []
  }

  /** The story of one track accounts for its every frame seen and every window taken. */
  ghost predicate Told(stories: map<nat, Story>, seen: seq<Frame>, log: seq<Entry>, windowMs: nat, t: nat) {
    && ReceivedAt(stories, t) == OfTrack(seen, t) && EntriesAt(stories, t) == EntriesOf(log, t)
    && (t in stories ==> Good(stories[t], t, windowMs))
  }

  ghost predicate Balanced(stories: map<nat, Story>, seen: seq<Frame>, log: seq<Entry>, windowMs: nat) {
    forall t: nat :: Told(stories, seen, log, windowMs, t)
  }

  /** One track's new story, with the entry it added if any, keeps the balance. */
  lemma Booked(stories: map<nat, Story>, seen: seq<Frame>, log: seq<Entry>, f: Frame, s: Story, news: seq<Entry>,
               windowMs: nat)
    requires Balanced(stories, seen, log, windowMs) && Valid(f) && Good(s, f.track, windowMs)
    requires |news| <= 1 && (news != [] ==> news[0].track == f.track)
    requires s.received == ReceivedAt(stories, f.track) + [f]
    requires s.entries == EntriesAt(stories, f.track) + news
    ensures Balanced(stories[f.track := s], seen + [f], log + news, windowMs)
  {
    hide Good, OfTrack, EntriesOf, Valid;
    var newStories, newSeen, newLog := stories[f.track := s], seen + [f], log + news;
    forall t: nat ensures Told(newStories, newSeen, newLog, windowMs, t) {
      assert Told(stories, seen, log, windowMs, t);
      InputGrows(seen, f, t);
      EntriesGrow(log, news, t);
    }
  }

  lemma StoryIsGood(stories: map<nat, Story>, seen: seq<Frame>, log: seq<Entry>, windowMs: nat, t: nat)
    requires Balanced(stories, seen, log, windowMs) && t in stories
    ensures Good(stories[t], t, windowMs)
  {
    hide Good;
    assert Told(stories, seen, log, windowMs, t);
  }

  /** An entry that ends a track's stream keeps the balance. */
  lemma Closed(stories: map<nat, Story>, seen: seq<Frame>, log: seq<Entry>, track: nat, s: Story, news: seq<Entry>,
               windowMs: nat)
    requires Balanced(stories, seen, log, windowMs) && track in stories && Good(s, track, windowMs)
    requires |news| <= 1 && (news != [] ==> news[0].track == track)
    requires s.received == stories[track].received && s.entries == stories[track].entries + news
    ensures Balanced(stories[track := s], seen, log + news, windowMs)
  {
    hide Good, OfTrack, EntriesOf;
    var newStories, newLog := stories[track := s], log + news;
    forall t: nat ensures Told(newStories, seen, newLog, windowMs, t) {
      assert Told(stories, seen, log, windowMs, t);
      EntriesGrow(log, news, t);
    }
  }

  lemma FlushBalances(stories: map<nat, Story>, seen: seq<Frame>, log: seq<Entry>, more: seq<Entry>, windowMs: nat,
                      t: nat, sent: bool)
    requires windowMs > 0 && Balanced(stories, seen, log, windowMs) && t in stories
    requires more == log || (|more| == |log| + 1 && log <= more && more[|log|].track == t)
    requires Flushed(stories[t], t, sent).entries == stories[t].entries + more[|log|..]
    requires Flushed(stories[t], t, sent).received == stories[t].received
    ensures Balanced(stories[t := Flushed(stories[t], t, sent)], seen, more, windowMs)
    ensures DurationMs(Flushed(stories[t], t, sent).track) < 250
  {
    hide Balanced, Good, OfTrack, Flushed, DurationMs;
    StoryIsGood(stories, seen, log, windowMs, t);
    FlushedIsGood(stories[t], t, sent, windowMs);
    Closed(stories, seen, log, t, Flushed(stories[t], t, sent), more[|log|..], windowMs);
    assert log + more[|log|..] == more;
  }

  lemma Ignored(stories: map<nat, Story>, seen: seq<Frame>, log: seq<Entry>, f: Frame, windowMs: nat)
    requires Balanced(stories, seen, log, windowMs) && !Valid(f)
    ensures Balanced(stories, seen + [f], log, windowMs)
  {
    hide Good, OfTrack, EntriesOf, Valid;
    var newSeen := seen + [f];
    forall t: nat ensures Told(stories, newSeen, log, windowMs, t) {
      assert Told(stories, seen, log, windowMs, t);
      InputGrows(seen, f, t);
    }
  }

  lemma ValuesOfUpdate(m: map<nat, TrackAccumulator>, k: nat, v: TrackAccumulator)
    ensures m[k := v].Values <= m.Values + {v}
  {
  }

  class Aggregator {
    const windowMs: nat
    var tracks: map<nat, TrackAccumulator>
    var queue: seq<Window>
    var drops: nat
    ghost var stories: map<nat, Story>
    ghost var seen: seq<Frame>
    ghost var log: seq<Entry>

    ghost predicate Repr()
      reads this, tracks.Values
    {
      && tracks.Keys == stories.Keys
      && forall t :: t in tracks ==> tracks[t].owner == t && tracks[t].Value() == stories[t].track
    }

    ghost predicate Counted()
      reads this
    {
      queue == QueuedIn(log) && drops == Invalid(seen) + RefusedIn(log)
    }

    ghost predicate Inv()
      reads this, tracks.Values
    {
      windowMs > 0 && tracks.Keys == stories.Keys && Repr() && Counted() && Balanced(stories, seen, log, windowMs)
    }

    constructor (ms: nat)
      requires ms > 0
      ensures Inv() && windowMs == ms && seen == [] && fresh(tracks.Values)
    {
      windowMs := ms;
      tracks, queue, drops := map[], [], 0;
      stories, seen, log := map[], [], [];
    }

    /** Offers a window to the bounded queue; it may be full or closed. */
    method TrySend(window: Window, ghost e: Entry) returns (sent: bool)
      requires e.window == window
      modifies this`queue, this`drops, this`log
      ensures log == old(log) + [e.(fate := Sent(sent))]
      ensures old(Counted()) ==> Counted()
    {
      sent := *;
      if sent {
        queue := queue + [window];
      } else {
        drops := drops + 1;
      }
      LogGrows(log, e.(fate := Sent(sent)));
      log := log + [e.(fate := Sent(sent))];
    }

    /** Ends one accumulator's stretch: the window is queued if it has more
        than one frame, and forgotten otherwise. */
    method Stop(t: nat, ghost s: Story) returns (ghost sent: bool)
      requires t in tracks && tracks[t].Value() == s.track
      modifies tracks[t], this`queue, this`drops, this`log
      ensures log == old(log) + [Next(s, t, Stale, StaleFate(s.track.frames, sent))]
      ensures tracks[t].Value() == Drained(s.track)
      ensures old(Counted()) ==> Counted()
    {
      var stale := tracks[t].TakeWindow();
      if |stale.frames| > 1 {
        sent := TrySend(stale, Next(s, t, Stale, Queued));
      } else {
        sent := false;
        LogGrows(log, Next(s, t, Stale, Discarded));
        log := log + [Next(s, t, Stale, Discarded)];
      }
    }

    method Ignore(frame: Frame)
      requires Inv() && !Valid(frame)
      modifies this`drops, this`seen
      ensures Inv() && seen == old(seen) + [frame]
    {
      hide Balanced, QueuedIn, RefusedIn, OfTrack;
      Ignored(stories, seen, log, frame, windowMs);
      InputGrows(seen, frame, 0);
      drops := drops + 1;
      seen := seen + [frame];
    }

    method Open(frame: Frame)
      requires Inv() && Valid(frame) && frame.track !in tracks
      modifies this`tracks, this`stories, this`seen
      ensures Inv() && fresh(tracks.Values - old(tracks.Values)) && seen == old(seen) + [frame]
    {
      hide Balanced, Good, QueuedIn, RefusedIn, OfTrack, Opened, Valid, Invalid, TrackAccumulator.Value;
      var entered := new TrackAccumulator(frame);
      BegunIsGood(frame, windowMs);
      Booked(stories, seen, log, frame, Begun(frame), [], windowMs);
      InputGrows(seen, frame, 0);
      assert log + [] == log;
      ValuesOfUpdate(tracks, frame.track, entered);
      tracks, stories, seen := tracks[frame.track := entered], stories[frame.track := Begun(frame)], seen + [frame];
    }

    /** Records what a valid frame did to its track. */
    ghost method Tell(frame: Frame, s: Story, before: seq<Entry>)
      requires Balanced(stories, seen, before, windowMs) && Valid(frame) && Good(s, frame.track, windowMs)
      requires before <= log && |log| <= |before| + 1 && (log != before ==> log[|before|].track == frame.track)
      requires s.received == ReceivedAt(stories, frame.track) + [frame]
      requires s.entries == EntriesAt(stories, frame.track) + log[|before|..]
      modifies this`stories, this`seen
      ensures Balanced(stories, seen, log, windowMs)
      ensures stories == old(stories)[frame.track := s] && seen == old(seen) + [frame]
      ensures Invalid(seen) == Invalid(old(seen))
    {
      hide Balanced, Good, OfTrack;
      Booked(stories, seen, before, frame, s, log[|before|..], windowMs);
      assert before + log[|before|..] == log;
      InputGrows(seen, frame, 0);
      stories, seen := stories[frame.track := s], seen + [frame];
    }

    method Replace(frame: Frame, ghost s: Story) returns (ghost after: Story)
      requires frame.track in tracks && tracks[frame.track].Value() == s.track && !Accepts(s.track, frame)
      modifies tracks[frame.track], this`tracks, this`queue, this`drops, this`log
      ensures exists sent :: after == Received(s, frame, windowMs, sent)
      ensures frame.track in tracks && fresh(tracks[frame.track])
              && tracks == old(tracks)[frame.track := tracks[frame.track]]
      ensures tracks[frame.track].Value() == after.track && tracks[frame.track].owner == frame.track
      ensures |log| == |old(log)| + 1 && old(log) <= log && log[|old(log)|].track == frame.track
      ensures after.entries == s.entries + log[|old(log)|..]
      ensures old(Counted()) ==> Counted()
    {
      hide QueuedIn, RefusedIn, Opened, Drained, Accepts, Taken;
      ghost var sent := Stop(frame.track, s);
      var entered := new TrackAccumulator(frame);
      tracks := tracks[frame.track := entered];
      after := Received(s, frame, windowMs, sent);
    }

    /** A frame its track's accumulator does not accept opens a new stretch. */
    method Restart(frame: Frame)
      requires Inv() && Valid(frame) && frame.track in tracks
      requires !Accepts(stories[frame.track].track, frame)
      modifies this, tracks[frame.track]
      ensures Inv() && fresh(tracks.Values - old(tracks.Values)) && seen == old(seen) + [frame]
    {
      hide Balanced, Good, QueuedIn, RefusedIn, OfTrack, Received, Accepts, Valid, Invalid, TrackAccumulator.Value;
      ghost var s, before := stories[frame.track], log;
      StoryIsGood(stories, seen, log, windowMs, frame.track);
      ghost var after := Replace(frame, s);
      ghost var sent :| after == Received(s, frame, windowMs, sent);
      ReceivedIsGood(s, frame.track, frame, sent, windowMs);
      ValuesOfUpdate(old(tracks), frame.track, tracks[frame.track]);
      Tell(frame, after, before);
    }

    /** Takes the window of an accumulator and offers it to the queue. */
    method Emit(t: nat, ghost s: Story, cause: Cause) returns (ghost sent: bool)
      requires t in tracks && tracks[t].Value() == s.track
      modifies tracks[t], this`queue, this`drops, this`log
      ensures log == old(log) + [Next(s, t, cause, Sent(sent))]
      ensures tracks[t].Value() == Drained(s.track)
      ensures old(Counted()) ==> Counted()
    {
      var window := tracks[t].TakeWindow();
      sent := TrySend(window, Next(s, t, cause, Queued));
    }

    /** An accepted frame joins its track's window, which is taken once long enough. */
    method Grow(frame: Frame, ghost s: Story) returns (ghost after: Story)
      requires frame.track in tracks && tracks[frame.track].Value() == s.track && Accepts(s.track, frame)
      modifies tracks[frame.track], this`queue, this`drops, this`log
      ensures exists sent :: after == Received(s, frame, windowMs, sent)
      ensures tracks[frame.track].Value() == after.track
      ensures log == old(log) || (|log| == |old(log)| + 1 && old(log) <= log && log[|old(log)|].track == frame.track)
      ensures after.entries == s.entries + log[|old(log)|..]
      ensures old(Counted()) ==> Counted()
    {
      hide QueuedIn, RefusedIn, Pushed, Drained, Accepts, Taken, DurationMs;
      tracks[frame.track].Push(frame);
      var duration := tracks[frame.track].Duration();
      ghost var sent := true;
      if duration >= windowMs {
        sent := Emit(frame.track, Extended(s, frame), Threshold);
      }
      after := Received(s, frame, windowMs, sent);
    }

    method Extend(frame: Frame)
      requires Inv() && Valid(frame) && frame.track in tracks
      requires Accepts(stories[frame.track].track, frame)
      modifies tracks[frame.track], this`queue, this`drops, this`log, this`stories, this`seen
      ensures Inv() && seen == old(seen) + [frame]
    {
      hide Balanced, Good, QueuedIn, RefusedIn, OfTrack, Received, Accepts, Valid, Invalid, TrackAccumulator.Value;
      ghost var s, before := stories[frame.track], log;
      StoryIsGood(stories, seen, log, windowMs, frame.track);
      ghost var after := Grow(frame, s);
      ghost var sent :| after == Received(s, frame, windowMs, sent);
      ReceivedIsGood(s, frame.track, frame, sent, windowMs);
      Tell(frame, after, before);
    }

    /** One turn of the loop. */
    method Receive(frame: Frame)
      requires Inv()
      modifies this, tracks.Values
      ensures Inv() && fresh(tracks.Values - old(tracks.Values)) && seen == old(seen) + [frame]
    {
      hide Balanced, QueuedIn, RefusedIn;
      if frame.clockRate == 0 || frame.data == [] {
        Ignore(frame);
        return;
      }
      if frame.track !in tracks {
        Open(frame);
        return;
      }
      var accumulator := tracks[frame.track];
      assert accumulator.Value() == stories[frame.track].track;
      if !(accumulator.clockRate == frame.clockRate && Follows(accumulator.lastSequenceNumber, frame.sequence)) {
        Restart(frame);
      } else {
        Extend(frame);
      }
    }

    method Drain(t: nat, ghost s: Story) returns (ghost after: Story)
      requires t in tracks && tracks[t].Value() == s.track
      modifies tracks[t], this`queue, this`drops, this`log
      ensures exists sent :: after == Flushed(s, t, sent)
      ensures tracks[t].Value() == after.track
      ensures log == old(log) || (|log| == |old(log)| + 1 && old(log) <= log && log[|old(log)|].track == t)
      ensures after.entries == s.entries + log[|old(log)|..] && after.received == s.received
      ensures old(Counted()) ==> Counted()
    {
      hide QueuedIn, RefusedIn, Drained, Taken, DurationMs;
      ghost var sent := true;
      var duration := tracks[t].Duration();
      if duration >= MIN_WINDOW_MS {
        sent := Emit(t, s, Flush);
      }
      after := Flushed(s, t, sent);
    }

    /** The end of the stream, for one track: a window of at least 250 ms is offered. */
    method FlushTrack(t: nat)
      requires Inv() && t in tracks
      modifies tracks[t], this`queue, this`drops, this`log, this`stories
      ensures Inv() && stories.Keys == old(stories).Keys
      ensures DurationMs(stories[t].track) < 250
      ensures forall u :: u in stories && u != t ==> stories[u] == old(stories)[u]
    {
      hide Balanced, Good, QueuedIn, RefusedIn, OfTrack, Flushed, DurationMs, Invalid, TrackAccumulator.Value;
      ghost var s, before := stories[t], log;
      ghost var after := Drain(t, s);
      ghost var sent :| after == Flushed(s, t, sent);
      FlushBalances(stories, seen, before, log, windowMs, t, sent);
      stories := stories[t := after];
    }

    /** The end of the stream, for every track in whatever order the map yields. */
    method Finish()
      requires Inv()
      modifies this, tracks.Values
      ensures Inv() && seen == old(seen)
      ensures forall t :: t in stories ==> DurationMs(stories[t].track) < 250
    {
      hide Balanced, Repr, Counted, DurationMs;
      var left := tracks.Keys;
      while left != {}
        invariant Inv() && seen == old(seen) && tracks == old(tracks) && left <= tracks.Keys
        invariant forall t :: t in stories && t !in left ==> DurationMs(stories[t].track) < 250
      {
        var t :| t in left;
        FlushTrack(t);
        left := left - {t};
      }
    }

    /** The aggregation loop over everything received until the channel closes. */
    method Run(input: seq<Frame>)
      requires Inv() && seen == []
      modifies this, tracks.Values
      ensures Inv() && seen == input
      ensures forall t :: t in stories ==> DurationMs(stories[t].track) < 250
    {
      hide Balanced, Repr, Counted, DurationMs;
      for i := 0 to |input|
        invariant Inv() && seen == input[..i] && fresh(tracks.Values - old(tracks.Values))
      {
        Receive(input[i]);
      }
      Finish();
    }
  }

  // ------------------------------------------------------------ what the windows of a track are

  /** The frames of consecutive windows, joined. */
  function Joined(entries: seq<Entry>): seq<Frame> {
    if entries == [] then [] else Joined(entries[..|entries| - 1]) + entries[|entries| - 1].window.frames
  }

  lemma {:induction false} JoinedIsPrefix(entries: seq<Entry>, received: seq<Frame>, windowMs: nat)
    requires GoodEntries(entries, received, windowMs)
    ensures Covered(entries) <= |received| && Joined(entries) == received[..Covered(entries)]
  {
    hide GoodEntry;
    if entries != [] {
      var n := |entries| - 1;
      var e := entries[n];
      assert forall i :: 0 <= i < n ==> entries[..n][..i] == entries[..i];
      JoinedIsPrefix(entries[..n], received, windowMs);
      PlaceOf(e, received, windowMs);
      assert entries[n].from == Covered(entries[..n]);
      assert received[..e.from] + received[e.from..Covered(entries)] == received[..Covered(entries)];
    }
  }

  lemma PlaceOf(e: Entry, received: seq<Frame>, windowMs: nat)
    requires GoodEntry(e, received, windowMs)
    ensures e.anchor <= e.from <= e.from + |e.window.frames| <= |received|
    ensures e.window.frames == received[e.from..e.from + |e.window.frames|]
  {
  }

  /** Every valid frame of a track, in order, is in exactly one taken window
      (queued, refused or discarded) or still buffered. */
  lemma FramesConserved(stories: map<nat, Story>, seen: seq<Frame>, log: seq<Entry>, windowMs: nat, t: nat)
    requires Balanced(stories, seen, log, windowMs) && t in stories
    ensures Joined(EntriesOf(log, t)) + stories[t].track.frames == OfTrack(seen, t)
  {
    hide Tracks, GoodEntries, DurationMs, OfTrack, EntriesOf;
    assert Told(stories, seen, log, windowMs, t);
    JoinedIsPrefix(stories[t].entries, stories[t].received, windowMs);
  }

  /** The frames of a track are those received for it with a clock and with data,
      each as often as it came. */
  lemma {:induction false} FramesOfTrack(input: seq<Frame>, t: nat, f: Frame)
    ensures multiset(OfTrack(input, t))[f]
            == if f.track == t && f.clockRate > 0 && |f.data| > 0 then multiset(input)[f] else 0
  {
    hide Valid, OfTrack, Invalid;
    if input == [] {
      NothingOfTrack(t);
    } else {
      var n := |input| - 1;
      FramesOfTrack(input[..n], t, f);
      ValidIs(input[n]);
      assert input == input[..n] + [input[n]];
      InputGrows(input[..n], input[n], t);
    }
  }

  lemma NothingOfTrack(t: nat)
    ensures OfTrack([], t) == []
  {
  }

  lemma ValidIs(f: Frame)
    ensures Valid(f) <==> f.clockRate > 0 && |f.data| > 0
  {
  }

  /** Where frames without a clock or without data came. */
  ghost function Unusable(input: seq<Frame>): set<nat> {
    set i | 0 <= i < |input| && (input[i].clockRate == 0 || |input[i].data| == 0)
  }

  lemma UnusableGrows(input: seq<Frame>, f: Frame)
    ensures Unusable(input + [f]) == Unusable(input) + if Valid(f) then {} else {|input|}
    ensures |input| !in Unusable(input)
  {
    forall i | 0 <= i < |input| + 1 ensures i < |input| ==> (input + [f])[i] == input[i] {
    }
  }

  /** The frames ignored are those. */
  lemma {:induction false} InvalidCounted(input: seq<Frame>)
    ensures Invalid(input) == |Unusable(input)|
  {
    if input == [] {
      assert Unusable(input) == {};
    } else {
      var n := |input| - 1;
      InvalidCounted(input[..n]);
      hide Unusable, Valid;
      UnusableGrows(input[..n], input[n]);
      assert input == input[..n] + [input[n]];
    }
  }

  /** Where windows were refused by the queue. */
  ghost function Refusals(log: seq<Entry>): set<nat> {
    set i | 0 <= i < |log| && log[i].fate == Refused
  }

  lemma RefusalsGrow(log: seq<Entry>, e: Entry)
    ensures Refusals(log + [e]) == Refusals(log) + if e.fate == Refused then {|log|} else {}
    ensures |log| !in Refusals(log)
  {
    forall i | 0 <= i < |log| + 1 ensures i < |log| ==> (log + [e])[i] == log[i] {
    }
  }

  /** The windows counted as dropped are those. */
  lemma {:induction false} RefusedCounted(log: seq<Entry>)
    ensures RefusedIn(log) == |Refusals(log)|
  {
    if log == [] {
      assert Refusals(log) == {};
    } else {
      var n := |log| - 1;
      RefusedCounted(log[..n]);
      hide Refusals;
      RefusalsGrow(log[..n], log[n]);
      assert log == log[..n] + [log[n]];
    }
  }

  /** With true clock readings for a track's frames, how long each taken window
      lasts: a threshold window reaches the window length with its last frame and
      not before, a stale one never does, and a flushed one lasts 250 ms or more. */
  lemma WindowsLast(s: Story, track: nat, windowMs: nat, ticks: seq<int>, k: nat)
    requires Good(s, track, windowMs) && k < |s.entries| && s.entries[k].window.frames != []
    requires Clocked(s.received, ticks) && InOrder(ticks)
    requires var e := s.entries[k];
             e.from + |e.window.frames| <= |ticks| && ticks[e.from + |e.window.frames| - 1] - ticks[e.from] < TWO_32
    ensures var e := s.entries[k];
            var from, last := e.from, e.from + |e.window.frames| - 1;
            var rate := s.received[from].clockRate;
            && rate > 0
            && var total := (ticks[last] - ticks[from]) * 1_000 / rate;
               match e.cause
               case Threshold =>
                 total >= windowMs && (last > from ==> (ticks[last - 1] - ticks[from]) * 1_000 / rate < windowMs)
               case Stale => total < windowMs
               case Flush => 250 <= total < windowMs
  {
    hide Tracks, Buffers, WrapSub, LastsMs, BreaksTold, GoodEntry, Clocked, InOrder;
    var e := s.entries[k];
    PlaceOf(e, s.received, windowMs);
    LengthOf(e, s.received, windowMs);
    ElapsesForward(ticks, e.from, e.from + |e.window.frames|);
    var n := |e.window.frames|;
    LastsElapsed(s.received, ticks, e.from, e.from + n);
    if n > 1 {
      LastsElapsed(s.received, ticks, e.from, e.from + n - 1);
      WithoutLast(s.received, e.from, e.from + n);
    }
  }

  lemma WithoutLast(frames: seq<Frame>, a: nat, b: nat)
    requires a < b <= |frames|
    ensures frames[a..b][..b - a - 1] == frames[a..b - 1]
  {
  }

  lemma LengthOf(e: Entry, received: seq<Frame>, windowMs: nat)
    requires GoodEntry(e, received, windowMs) && e.window.frames != []
    ensures e.from < |received| && received[e.from].clockRate > 0 && RightLength(e.cause, e.window.frames, windowMs)
  {
    hide RightLength;
  }

  lemma ElapsesForward(ticks: seq<int>, a: nat, b: nat)
    requires InOrder(ticks) && a < b <= |ticks|
    ensures b - a > 1 ==> ticks[b - 2] <= ticks[b - 1]
  {
  }

  lemma StartOf(e: Entry, received: seq<Frame>, windowMs: nat)
    requires GoodEntry(e, received, windowMs) && e.window.frames != []
    ensures e.anchor <= e.from < |received| && received[e.anchor].clockRate > 0
    ensures e.window.sourceStartMs == Ms(WrapSub(received[e.from].timestamp, received[e.anchor].timestamp),
                                         received[e.anchor].clockRate)
  {
    hide RightLength, Ms, WrapSub;
  }

  /** What some frames last is the true elapsed time, rounded down to a millisecond. */
  lemma LastsElapsed(received: seq<Frame>, ticks: seq<int>, a: nat, b: nat)
    requires a < b <= |received| && Clocked(received, ticks) && InOrder(ticks) && received[a].clockRate > 0
    requires ticks[b - 1] - ticks[a] < TWO_32
    ensures LastsMs(received[a..b]) == (ticks[b - 1] - ticks[a]) * 1_000 / received[a].clockRate
  {
    hide WrapSub;
    WrapSubIsElapsed(ticks[a], ticks[b - 1]);
    MsWraps(ticks[b - 1] - ticks[a], received[a].clockRate);
  }

  /** With true clock readings for a track's frames, a window's start is the
      elapsed time since its stretch began, rounded down to a millisecond,
      exactly while that is below 2^32 ticks. */
  lemma SourceStartIsElapsed(s: Story, track: nat, windowMs: nat, ticks: seq<int>, k: nat)
    requires Good(s, track, windowMs) && k < |s.entries| && s.entries[k].window.frames != []
    requires Clocked(s.received, ticks) && InOrder(ticks)
    ensures var e := s.entries[k];
            var elapsed := ticks[e.from] - ticks[e.anchor];
            && elapsed >= 0 && s.received[e.anchor].clockRate > 0
            && (e.window.sourceStartMs == elapsed * 1_000 / s.received[e.anchor].clockRate <==> elapsed < TWO_32)
  {
    hide Tracks, Buffers, GoodEntry, WrapSub, Ms, BreaksTold;
    var e := s.entries[k];
    StartOf(e, s.received, windowMs);
    var elapsed, rate := ticks[e.from] - ticks[e.anchor], s.received[e.anchor].clockRate;
    WrapSubIsElapsed(ticks[e.anchor], ticks[e.from]);
    MsWraps(elapsed, rate);
  }

  lemma MsWraps(elapsed: nat, rate: u32)
    requires rate > 0
    ensures Ms(elapsed % TWO_32, rate) == elapsed * 1_000 / rate <==> elapsed < TWO_32
  {
    var low := elapsed % TWO_32;
    assert SaturatingMul(low, 1_000) == low * 1_000;
    if elapsed >= TWO_32 {
      assert elapsed >= low + TWO_32;
      Apart(low * 1_000, elapsed * 1_000, rate);
    }
  }

  lemma Apart(a: nat, b: nat, d: nat)
    requires d > 0 && a + d <= b
    ensures a / d < b / d
  {
    var q := a / d;
    assert b >= d * (q + 1);
  }

  lemma QueuedIsUnbroken(e: Entry, received: seq<Frame>, windowMs: nat)
    requires GoodEntry(e, received, windowMs) && e.fate == Queued && windowMs > 0
    ensures var frames := e.window.frames;
            && frames != [] && (forall i :: 0 <= i < |frames| ==> frames[i].data != [])
            && forall i :: 0 < i < |frames| ==> Linked(frames[i - 1], frames[i])
  {
    hide Linked, WrapSub, Opens, RightStart, Ms;
    var frames := e.window.frames;
    forall i | 0 <= i < |frames| ensures frames[i].data != [] && (i > 0 ==> Linked(frames[i - 1], frames[i])) {
      assert frames[i] == received[e.from + i] && Valid(received[e.from + i]);
      if i > 0 {
        assert frames[i - 1] == received[e.from + i - 1];
      }
    }
  }

  /** A queued window is one unbroken stretch of frames with data: one track, one
      clock, and known sequence numbers consecutive in 16 bits. So its Ogg stream
      carries each frame's data and ends with the last-page flag. */
  lemma QueuedWindowsEncodeWhole(s: Story, track: nat, windowMs: nat, k: nat)
    requires Good(s, track, windowMs) && k < |s.entries| && s.entries[k].fate == Queued && windowMs > 0
    ensures var frames := s.entries[k].window.frames;
            && frames != [] && (forall i :: 0 <= i < |frames| ==> frames[i].data != [])
            && (forall i :: 0 < i < |frames| ==>
                  var f, g := frames[i - 1], frames[i];
                  && f.track == g.track && f.clockRate == g.clockRate
                  && (f.sequence.Some? && g.sequence.Some? ==>
                        g.sequence.value == if f.sequence.value == 65535 then 0 else f.sequence.value + 1))
            && |OpusWindow.DataOf(frames)| == |frames|
            && forall i :: 0 <= i < |frames| ==> OpusWindow.DataOf(frames)[i] == frames[i].data
  {
    hide Tracks, Buffers, GoodEntry, BreaksTold;
    QueuedIsUnbroken(s.entries[k], s.received, windowMs);
    AllKept(s.entries[k].window.frames, |s.entries[k].window.frames|);
  }

  lemma {:induction false} OfTrackHas(input: seq<Frame>, track: nat)
    ensures forall i :: 0 <= i < |OfTrack(input, track)| ==> OfTrack(input, track)[i].track == track
  {
    if input != [] {
      OfTrackHas(input[..|input| - 1], track);
    }
  }

  lemma StaleIsBreak(entries: seq<Entry>, received: seq<Frame>, windowMs: nat, i: nat)
    requires GoodEntries(entries, received, windowMs) && BreaksTold(received, entries) && 0 < i < |received|
    ensures StaleAt(entries, i) <==> !Linked(received[i - 1], received[i])
  {
    hide Linked, RightStart, RightLength, Unbroken, Chained;
    if StaleAt(entries, i) {
      var k :| 0 <= k < |entries| && entries[k].cause == Stale && entries[k].from + |entries[k].window.frames| == i;
      assert GoodEntry(entries[k], received, windowMs);
      assert Opens(received, i);
    }
  }

  /** Between two valid frames of a track a window ends as stale if and only if
      their clock rates differ, or both sequence numbers are known and the second
      is not the next one in 16 bits. */
  lemma StaleExactlyAtGaps(stories: map<nat, Story>, seen: seq<Frame>, log: seq<Entry>, windowMs: nat, t: nat, i: nat)
    requires Balanced(stories, seen, log, windowMs) && 0 < i < |OfTrack(seen, t)|
    ensures var f, g := OfTrack(seen, t)[i - 1], OfTrack(seen, t)[i];
            StaleAt(EntriesOf(log, t), i) <==>
            || f.clockRate != g.clockRate
            || (f.sequence.Some? && g.sequence.Some?
                && g.sequence.value != if f.sequence.value == 65535 then 0 else f.sequence.value + 1)
  {
    hide Tracks, Buffers, DurationMs, OfTrack, EntriesOf, GoodEntries, BreaksTold, StaleAt;
    assert Told(stories, seen, log, windowMs, t);
    OfTrackHas(seen, t);
    var received, entries := OfTrack(seen, t), EntriesOf(log, t);
    StaleIsBreak(entries, received, windowMs, i);
  }

  lemma {:induction false} AllKept(frames: seq<Frame>, n: nat)
    requires n <= |frames| && forall i :: 0 <= i < n ==> frames[i].data != []
    ensures |OpusWindow.Kept(frames, n)| == n && forall i :: 0 <= i < n ==> OpusWindow.Kept(frames, n)[i] == i
  {
    if n > 0 {
      AllKept(frames, n - 1);
    }
  }
}
