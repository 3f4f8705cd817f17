/** Joining detected speech into groups for transcription
    (`_group_speech_ranges`, scripts/audio_perception_server.py). */
module SpeechGroups {
  import opened Wrappers
  import opened Sorting

  const ASR_MAX_GROUP_MS: int := 20_000
  const ASR_GROUP_GAP_MS: int := 1_000
  const ASR_CONTEXT_MS: int := 300
  const ASR_MIN_SEGMENT_MS: int := 250

  datatype Range = Range(start: int, end: int, confidence: real)

  function Louder(a: real, b: real): real { if a >= b then a else b }

  /** Tuple order. */
  predicate Le(a: Range, b: Range) {
    a.start < b.start || (a.start == b.start && (a.end < b.end || (a.end == b.end && a.confidence <= b.confidence)))
  }

  function Clip(r: Range, duration: int): Range {
    var start := Max(0, Min(r.start, duration));
    Range(start, Max(start, Min(r.end, duration)), r.confidence)
  }

  predicate LongEnough(r: Range) { r.end - r.start >= ASR_MIN_SEGMENT_MS }

  /** The clipped ranges that are long enough, in order. */
  function Kept(sorted: seq<Range>, duration: int): seq<Range> {
    if sorted == [] then []
    else
      var r := Clip(sorted[|sorted| - 1], duration);
      Kept(sorted[..|sorted| - 1], duration) + if LongEnough(r) then [r] else []
  }

  predicate Joins(group: Range, r: Range) {
    r.start - group.end <= ASR_GROUP_GAP_MS && r.end - group.start <= ASR_MAX_GROUP_MS
  }

  function Joined(group: Range, r: Range): Range { Range(group.start, r.end, Louder(group.confidence, r.confidence)) }

  /** The groups of the first `n` kept ranges. */
  function Groups(kept: seq<Range>, n: nat): (g: seq<Range>)
    requires n <= |kept|
    ensures n > 0 ==> g != []
  {
    if n == 0 then []
    else
      var g, r := Groups(kept, n - 1), kept[n - 1];
      if g != [] && Joins(g[|g| - 1], r) then g[|g| - 1 := Joined(g[|g| - 1], r)] else g + [r]
  }

  function Padded(g: Range, duration: int): Range {
    Range(Max(0, g.start - ASR_CONTEXT_MS), Min(duration, g.end + ASR_CONTEXT_MS), g.confidence)
  }

  lemma {:induction false} KeptGrows(sorted: seq<Range>, i: nat, duration: int)
    requires i < |sorted|
    ensures var r := Clip(sorted[i], duration);
            Kept(sorted[..i + 1], duration) == Kept(sorted[..i], duration) + if LongEnough(r) then [r] else []
  {
    assert sorted[..i + 1][..i] == sorted[..i];
  }

  lemma {:induction false} GroupsOfPrefix(kept: seq<Range>, more: seq<Range>, n: nat)
    requires n <= |kept|
    ensures Groups(kept + more, n) == Groups(kept, n)
  {
    if n > 0 {
      GroupsOfPrefix(kept, more, n - 1);
    }
  }

  lemma NothingKept(duration: int)
    ensures Kept([], duration) == [] && Groups([], 0) == []
  {
  }

  lemma GroupsStep(kept: seq<Range>, r: Range)
    ensures var g := Groups(kept, |kept|);
            Groups(kept + [r], |kept| + 1) ==
            if g != [] && Joins(g[|g| - 1], r) then g[|g| - 1 := Joined(g[|g| - 1], r)] else g + [r]
  {
    GroupsOfPrefix(kept, [r], |kept|);
  }

  method GroupSpeechRanges(ranges: seq<Range>, duration: int) returns (padded: seq<Range>)
    ensures var kept := Kept(Sort(Le, ranges), duration);
            var groups := Groups(kept, |kept|);
            && |padded| == |groups|
            && forall k :: 0 <= k < |groups| ==>
                 && padded[k].start == Max(0, groups[k].start - 300)
                 && padded[k].end == Min(duration, groups[k].end + 300)
                 && padded[k].confidence == groups[k].confidence
  {
    hide Groups, Kept, Sort;
    var sorted := Sort(Le, ranges);
    NothingKept(duration);
    var grouped: seq<Range> := [];
    ghost var kept := [];
    for i := 0 to |sorted|
      invariant kept == Kept(sorted[..i], duration) && grouped == Groups(kept, |kept|)
    {
      KeptGrows(sorted, i, duration);
      var start := Max(0, Min(sorted[i].start, duration));
      var end := Max(start, Min(sorted[i].end, duration));
      if end - start < ASR_MIN_SEGMENT_MS {
        continue;
      }
      var r := Range(start, end, sorted[i].confidence);
      GroupsStep(kept, r);
      kept := kept + [r];
      if grouped != [] && start - grouped[|grouped| - 1].end <= ASR_GROUP_GAP_MS
        && end - grouped[|grouped| - 1].start <= ASR_MAX_GROUP_MS {
        var previous := grouped[|grouped| - 1];
        grouped := grouped[|grouped| - 1 := Range(previous.start, end, Louder(previous.confidence, r.confidence))];
      } else {
        grouped := grouped + [r];
      }
    }
    assert sorted[..|sorted|] == sorted;
    padded := [];
    for k := 0 to |grouped|
      invariant |padded| == k && forall j :: 0 <= j < k ==> padded[j] == Padded(grouped[j], duration)
    {
      padded := padded + [Padded(grouped[k], duration)];
    }
  }

  // ------------------------------------------------------------ what sorting gives

  /** No two detected ranges overlap, as voice activity detection gives them. */
  ghost predicate Disjoint(ranges: seq<Range>) {
    && (forall r :: r in ranges ==> r.start <= r.end)
    && forall a, b :: a in ranges && b in ranges ==> a == b || a.end <= b.start || b.end <= a.start
  }

  /** Starts and ends both go forward. */
  ghost predicate Forward(s: seq<Range>) {
    && (forall i :: 0 <= i < |s| ==> s[i].start <= s[i].end)
    && forall i, j :: 0 <= i < j < |s| ==> s[i].start <= s[j].start && s[i].end <= s[j].end
  }

  lemma DisjointGoesForward(ranges: seq<Range>)
    requires Disjoint(ranges)
    ensures Forward(Sort(Le, ranges))
  {
    hide Sort;
    SortAscends(Le, ranges);
    SortMembers(Le, ranges);
    var s := Sort(Le, ranges);
    forall i, j | 0 <= i < j < |s| ensures s[i].start <= s[j].start && s[i].end <= s[j].end {
      assert s[i] in s && s[j] in s && Le(s[i], s[j]);
    }
  }

  ghost predicate ClippedFrom(r: Range, sorted: seq<Range>, duration: int) {
    exists i :: 0 <= i < |sorted| && r == Clip(sorted[i], duration)
  }

  lemma {:induction false} KeptAreClipped(sorted: seq<Range>, duration: int)
    ensures forall k :: 0 <= k < |Kept(sorted, duration)| ==> ClippedFrom(Kept(sorted, duration)[k], sorted, duration)
  {
    hide Clip, LongEnough;
    if sorted != [] {
      var n := |sorted| - 1;
      KeptAreClipped(sorted[..n], duration);
      var front, kept := Kept(sorted[..n], duration), Kept(sorted, duration);
      forall k | 0 <= k < |kept| ensures ClippedFrom(kept[k], sorted, duration) {
        if k < |front| {
          assert ClippedFrom(front[k], sorted[..n], duration);
          var i :| 0 <= i < n && front[k] == Clip(sorted[..n][i], duration);
          assert kept[k] == Clip(sorted[i], duration);
        } else {
          assert kept[k] == Clip(sorted[n], duration);
        }
      }
    }
  }

  lemma ClipIsMonotone(a: Range, b: Range, duration: int)
    requires a.start <= b.start && a.end <= b.end
    ensures Clip(a, duration).start <= Clip(b, duration).start && Clip(a, duration).end <= Clip(b, duration).end
    ensures Clip(a, duration).start <= Clip(a, duration).end
  {
  }

  lemma {:induction false} KeptGoesForward(sorted: seq<Range>, duration: int)
    requires Forward(sorted)
    ensures Forward(Kept(sorted, duration))
  {
    hide Clip, LongEnough;
    if sorted != [] {
      var n := |sorted| - 1;
      KeptGoesForward(sorted[..n], duration);
      KeptAreClipped(sorted[..n], duration);
      var front, last := Kept(sorted[..n], duration), Clip(sorted[n], duration);
      ClipIsMonotone(sorted[n], sorted[n], duration);
      forall k | 0 <= k < |front| ensures front[k].start <= last.start && front[k].end <= last.end {
        assert ClippedFrom(front[k], sorted[..n], duration);
        var i :| 0 <= i < n && front[k] == Clip(sorted[..n][i], duration);
        ClipIsMonotone(sorted[i], sorted[n], duration);
      }
    }
  }

  /** A range as the recording cuts it. */
  ghost predicate Cuts(r: Range, x: Range, duration: int) {
    && r.confidence == x.confidence
    && r.start == (if x.start < 0 || duration < 0 then 0 else if x.start > duration then duration else x.start)
    && r.end == (if x.end <= r.start || duration <= r.start then r.start
                 else if x.end > duration then duration else x.end)
  }

  lemma CutsIs(r: Range, x: Range, duration: int)
    ensures Cuts(r, x, duration) <==> r == Clip(x, duration)
  {
  }

  /** Kept are the ranges that last 250 ms or more within the recording, cut to it,
      whatever order they were detected in, and no others. */
  lemma KeptExactly(ranges: seq<Range>, duration: int, r: Range)
    ensures r in Kept(Sort(Le, ranges), duration)
            <==> r.end - r.start >= 250 && exists x :: x in ranges && Cuts(r, x, duration)
  {
    hide Sort, Kept, Clip, Cuts;
    SortMembers(Le, ranges);
    forall x ensures Cuts(r, x, duration) <==> r == Clip(x, duration) {
      CutsIs(r, x, duration);
    }
    KeptMembers(Sort(Le, ranges), duration, r);
  }

  lemma {:induction false} KeptMembers(sorted: seq<Range>, duration: int, r: Range)
    ensures r in Kept(sorted, duration)
            <==> r.end - r.start >= 250 && exists x :: x in sorted && r == Clip(x, duration)
  {
    hide Clip;
    if sorted != [] {
      var n := |sorted| - 1;
      KeptMembers(sorted[..n], duration, r);
      assert sorted == sorted[..n] + [sorted[n]];
      assert forall x :: x in sorted <==> x in sorted[..n] || x == sorted[n];
    }
  }

  // ------------------------------------------------------------ coverage

  ghost predicate Within(r: Range, g: Range) { g.start <= r.start && r.end <= g.end && r.confidence <= g.confidence }

  ghost predicate WithinSome(r: Range, groups: seq<Range>) {
    exists i :: 0 <= i < |groups| && Within(r, groups[i])
  }

  /** Every kept range lies in some group. */
  ghost predicate Covers(groups: seq<Range>, kept: seq<Range>, n: nat)
    requires n <= |kept|
  {
    forall k :: 0 <= k < n ==> WithinSome(kept[k], groups)
  }

  ghost predicate LastEnds(groups: seq<Range>, kept: seq<Range>, n: nat)
    requires n <= |kept|
  {
    n > 0 ==>
      && groups != [] && groups[|groups| - 1].end == kept[n - 1].end
      && groups[|groups| - 1].start <= kept[n - 1].start
  }

  lemma {:induction false} GroupsCover(kept: seq<Range>, n: nat)
    requires Forward(kept) && n <= |kept|
    ensures Covers(Groups(kept, n), kept, n) && LastEnds(Groups(kept, n), kept, n)
  {
    if n > 0 {
      GroupsCover(kept, n - 1);
      var g, r, h := Groups(kept, n - 1), kept[n - 1], Groups(kept, n);
      forall k | 0 <= k < n ensures exists i :: 0 <= i < |h| && Within(kept[k], h[i]) {
        if k == n - 1 {
          assert Within(r, h[|h| - 1]);
        } else {
          var i :| 0 <= i < |g| && Within(kept[k], g[i]);
          assert Within(kept[k], h[i]);
        }
      }
    }
  }

  /** Padding widens a group by 300 ms at each end, or as far as the recording goes. */
  lemma PaddingWidens(g: Range, duration: int)
    requires 0 <= g.start && g.end <= duration
    ensures var p := Padded(g, duration);
            && Within(g, p) && 0 <= p.start && p.end <= duration && p.confidence == g.confidence
            && (if g.start >= 300 then g.start - p.start == 300 else p.start == 0)
            && (if g.end + 300 <= duration then p.end - g.end == 300 else p.end == duration)
  {
  }

  // ------------------------------------------------------------ fewest groups

  /** Ranges a..b may be one group: one range, or gaps of at most a second and
      a span of at most twenty. */
  ghost predicate Legal(kept: seq<Range>, a: nat, b: nat)
    requires a < b <= |kept|
  {
    b == a + 1
    || ((forall i :: a < i < b ==> kept[i].start - kept[i - 1].end <= 1_000)
        && kept[b - 1].end - kept[a].start <= 20_000)
  }

  /** The first `n` ranges split into consecutive legal runs that start at
      `starts`: the last run is legal and the others split what comes before it. */
  ghost predicate LegalSplit(kept: seq<Range>, starts: seq<nat>, n: nat)
    requires n <= |kept|
  {
    if starts == [] then n == 0
    else
      var a := starts[|starts| - 1];
      a < n && Legal(kept, a, n) && LegalSplit(kept, starts[..|starts| - 1], a)
  }

  /** The runs the groups are made of. */
  function Starts(kept: seq<Range>, n: nat): (s: seq<nat>)
    requires n <= |kept|
    ensures |s| == |Groups(kept, n)|
  {
    if n == 0 then []
    else
      var g := Groups(kept, n - 1);
      if g != [] && Joins(g[|g| - 1], kept[n - 1]) then Starts(kept, n - 1) else Starts(kept, n - 1) + [n - 1]
  }

  /** The last group runs from the start of its first range to the end of its last. */
  lemma {:induction false} LastGroup(kept: seq<Range>, n: nat)
    requires 0 < n <= |kept|
    ensures var g, s := Groups(kept, n), Starts(kept, n);
            && s != [] && s[|s| - 1] < n
            && g[|g| - 1].start == kept[s[|s| - 1]].start && g[|g| - 1].end == kept[n - 1].end
  {
    if n > 1 {
      LastGroup(kept, n - 1);
    }
  }

  lemma RunJoins(kept: seq<Range>, a: nat, n: nat)
    requires a < n < |kept| && Legal(kept, a, n)
    requires kept[n].start - kept[n - 1].end <= 1_000 && kept[n].end - kept[a].start <= 20_000
    ensures Legal(kept, a, n + 1)
  {
  }

  /** The groups are themselves a legal split. */
  lemma {:induction false} StartsLegal(kept: seq<Range>, n: nat)
    requires n <= |kept|
    ensures LegalSplit(kept, Starts(kept, n), n)
  {
    hide Legal;
    if n > 0 {
      StartsLegal(kept, n - 1);
      var before, s := Starts(kept, n - 1), Starts(kept, n);
      if s == before {
        LastGroup(kept, n - 1);
        RunJoins(kept, s[|s| - 1], n - 1);
      } else {
        Alone(kept, n - 1);
        assert s[..|s| - 1] == before;
      }
    }
  }

  lemma Alone(kept: seq<Range>, a: nat)
    requires a < |kept|
    ensures Legal(kept, a, a + 1)
  {
  }

  lemma LegalShrinks(kept: seq<Range>, a: nat, n: nat)
    requires Forward(kept) && a < n < |kept| && Legal(kept, a, n + 1)
    ensures Legal(kept, a, n) && MayJoin(kept, a, n)
  {
  }

  /** Whether range `n` may join a group that starts at `a` and ends just before it. */
  ghost predicate MayJoin(kept: seq<Range>, a: nat, n: nat)
    requires a < n < |kept|
  {
    kept[n].start - kept[n - 1].end <= 1_000 && kept[n].end - kept[a].start <= 20_000
  }

  lemma StartsStep(kept: seq<Range>, n: nat)
    requires 0 < n < |kept|
    ensures var before := Starts(kept, n);
            && before != [] && before[|before| - 1] < n
            && Starts(kept, n + 1) == if MayJoin(kept, before[|before| - 1], n) then before else before + [n]
  {
    LastGroup(kept, n);
  }

  lemma LaterStartJoins(kept: seq<Range>, a: nat, b: nat, n: nat)
    requires Forward(kept) && a <= b < n < |kept| && MayJoin(kept, a, n)
    ensures MayJoin(kept, b, n)
  {
  }

  lemma FirstStarts(kept: seq<Range>)
    requires kept != []
    ensures Starts(kept, 0) == [] && Starts(kept, 1) == [0]
  {
  }

  /** Dropping the last range of a legal split leaves a legal split. */
  lemma LastRun(kept: seq<Range>, split: seq<nat>, n: nat)
    requires 0 < n <= |kept| && Forward(kept) && LegalSplit(kept, split, n)
    ensures split != [] && split[|split| - 1] < n
    ensures split[|split| - 1] == n - 1 ==> LegalSplit(kept, split[..|split| - 1], n - 1)
    ensures split[|split| - 1] < n - 1 ==> LegalSplit(kept, split, n - 1) && MayJoin(kept, split[|split| - 1], n - 1)
  {
    hide Legal, MayJoin;
    var a := split[|split| - 1];
    if a < n - 1 {
      LegalShrinks(kept, a, n - 1);
    }
  }

  /** Greedy stays ahead: any legal split has at least as many runs, and with
      equally many its last run starts no later. */
  lemma {:induction false} GreedyStaysAhead(kept: seq<Range>, split: seq<nat>, n: nat)
    requires n <= |kept| && Forward(kept) && LegalSplit(kept, split, n)
    ensures |Starts(kept, n)| <= |split|
    ensures n > 0 && |Starts(kept, n)| == |split| ==> split[|split| - 1] <= Starts(kept, n)[|split| - 1]
    decreases n
  {
    hide Legal, LegalSplit, Starts, MayJoin, Forward;
    if n == 0 {
      assert Starts(kept, 0) == [] by { NoStarts(kept); }
    } else {
      LastRun(kept, split, n);
      var a := split[|split| - 1];
      if a == n - 1 {
        GreedyStaysAhead(kept, split[..|split| - 1], n - 1);
      } else {
        GreedyStaysAhead(kept, split, n - 1);
      }
      if n == 1 {
        FirstStarts(kept);
      } else {
        StartsStep(kept, n - 1);
        var before := Starts(kept, n - 1);
        var b := before[|before| - 1];
        if a < n - 1 && |before| == |split| {
          LaterStartJoins(kept, a, b, n - 1);
        }
      }
    }
  }

  lemma NoStarts(kept: seq<Range>)
    ensures Starts(kept, 0) == []
  {
  }

  /** For disjoint speech, in any order, the groups cover every kept range, form
      a legal split, and no legal split has fewer. */
  lemma GroupsAreFewest(ranges: seq<Range>, duration: int, split: seq<nat>)
    requires Disjoint(ranges)
    ensures var kept := Kept(Sort(Le, ranges), duration);
            && Covers(Groups(kept, |kept|), kept, |kept|)
            && LegalSplit(kept, Starts(kept, |kept|), |kept|)
            && (LegalSplit(kept, split, |kept|) ==> |Groups(kept, |kept|)| <= |split|)
  {
    hide Sort, Kept, Groups, Starts, LegalSplit, Covers, Forward;
    var kept := Kept(Sort(Le, ranges), duration);
    DisjointGoesForward(ranges);
    KeptGoesForward(Sort(Le, ranges), duration);
    GroupsCover(kept, |kept|);
    StartsLegal(kept, |kept|);
    if LegalSplit(kept, split, |kept|) {
      GreedyStaysAhead(kept, split, |kept|);
    }
  }

  /** Nested speech is not covered: the group's end is overwritten by that of
      the range inside. */
  lemma NestedSpeechIsLost()
    ensures var kept := [Range(0, 5_000, 0.5), Range(1_000, 2_000, 0.5)];
            Groups(kept, 2) == [Range(0, 2_000, 0.5)] && !Covers(Groups(kept, 2), kept, 2)
  {
    var kept := [Range(0, 5_000, 0.5), Range(1_000, 2_000, 0.5)];
    assert Groups(kept, 1) == [kept[0]];
    assert Groups(kept, 2) == [Range(0, 2_000, 0.5)];
    assert !Within(kept[0], Groups(kept, 2)[0]);
  }
}
