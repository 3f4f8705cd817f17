/** Which ranges the groups cover, for any detected speech
    (`_group_speech_ranges`, scripts/audio_perception_server.py). */
module SpeechCoverage {
  import opened Wrappers
  import opened Sorting
  import opened SpeechGroups

  // ------------------------------------------------------------ runs

  /** Where run `i` ends: at the start of the next, or of the ranges. */
  function RunEnd(s: seq<nat>, i: nat, n: nat): nat
    requires i < |s|
  {
    if i + 1 < |s| then s[i + 1] else n
  }

  predicate RunAt(s: seq<nat>, n: nat, i: nat)
    requires i < |s|
  {
    s[i] < RunEnd(s, i, n) <= n
  }

  ghost predicate RunsForward(s: seq<nat>, n: nat) {
    && (n > 0 ==> s != []) && (s != [] ==> s[0] == 0)
    && forall i :: 0 <= i < |s| ==> RunAt(s, n, i)
  }

  /** The run that range `k` was put into. */
  function RunOf(s: seq<nat>, k: nat): (i: nat)
    ensures s != [] ==> i < |s|
  {
    if s == [] then 0
    else if s[|s| - 1] <= k || |s| == 1 then |s| - 1
    else RunOf(s[..|s| - 1], k)
  }

  lemma RunFacts(s: seq<nat>, n: nat, i: nat)
    requires RunsForward(s, n) && i < |s|
    ensures s[i] < RunEnd(s, i, n) <= n && (i + 1 < |s| ==> RunEnd(s, i, n) == s[i + 1])
  {
    assert RunAt(s, n, i);
  }

  lemma {:induction false} RunsAscend(s: seq<nat>, n: nat, i: nat, j: nat)
    requires RunsForward(s, n) && i < j < |s|
    ensures RunEnd(s, i, n) <= s[j]
    decreases j
  {
    hide RunsForward, RunEnd;
    RunFacts(s, n, i);
    RunFacts(s, n, j - 1);
    if i + 1 < j {
      RunsAscend(s, n, i, j - 1);
    }
  }

  lemma RunsOfFront(s: seq<nat>, n: nat)
    requires RunsForward(s, n) && |s| > 1
    ensures var front, m := s[..|s| - 1], s[|s| - 1];
            RunsForward(front, m) && forall i :: 0 <= i < |front| ==> RunEnd(front, i, m) == RunEnd(s, i, n)
  {
    var front, m := s[..|s| - 1], s[|s| - 1];
    forall i | 0 <= i < |front| ensures RunAt(front, m, i) && RunEnd(front, i, m) == RunEnd(s, i, n) {
      RunFacts(s, n, i);
      RunsAscend(s, n, i, |s| - 1);
    }
  }

  lemma {:induction false} RunOfIs(s: seq<nat>, n: nat, k: nat)
    requires RunsForward(s, n) && k < n
    ensures var i := RunOf(s, k); i < |s| && s[i] <= k < RunEnd(s, i, n) <= n
  {
    hide RunAt;
    var last := |s| - 1;
    RunFacts(s, n, last);
    if s[last] > k && last > 0 {
      RunsOfFront(s, n);
      RunOfIs(s[..last], s[last], k);
    }
  }

  lemma RunUnique(s: seq<nat>, n: nat, i: nat, k: nat)
    requires RunsForward(s, n) && i < |s| && s[i] <= k < RunEnd(s, i, n)
    ensures RunOf(s, k) == i
  {
    hide RunOf, RunEnd, RunsForward;
    RunFacts(s, n, i);
    RunOfIs(s, n, k);
    var j := RunOf(s, k);
    if j < i {
      RunsAscend(s, n, j, i);
    } else if i < j {
      RunsAscend(s, n, i, j);
    }
  }

  // ------------------------------------------------------------ the shape of the groups

  ghost predicate Loudest(kept: seq<Range>, a: nat, b: nat, confidence: real) {
    forall k :: a <= k < b <= |kept| ==> kept[k].confidence <= confidence
  }

  ghost predicate Attained(kept: seq<Range>, a: nat, b: nat, confidence: real) {
    exists k :: a <= k < b <= |kept| && kept[k].confidence == confidence
  }

  /** Group `i` is a legal run, from the start of its first range to the end of
      its last, and as loud as the loudest of them. */
  ghost predicate GroupAt(kept: seq<Range>, s: seq<nat>, g: seq<Range>, n: nat, i: nat)
    requires n <= |kept| && i < |s| && RunAt(s, n, i)
  {
    var end := RunEnd(s, i, n);
    && i < |g| && Legal(kept, s[i], end)
    && g[i].start == kept[s[i]].start && g[i].end == kept[end - 1].end
    && Loudest(kept, s[i], end, g[i].confidence) && Attained(kept, s[i], end, g[i].confidence)
  }

  /** The group before could not take the first range of run `i`. */
  ghost predicate BreakAt(kept: seq<Range>, s: seq<nat>, i: nat)
    requires i < |s|
  {
    i > 0 ==> s[i - 1] < s[i] < |kept| && !MayJoin(kept, s[i - 1], s[i])
  }

  ghost predicate Shaped(kept: seq<Range>, s: seq<nat>, g: seq<Range>, n: nat) {
    && n <= |kept| && RunsForward(s, n) && |g| == |s|
    && (forall i :: 0 <= i < |s| ==> GroupAt(kept, s, g, n, i))
    && forall i :: 0 <= i < |s| ==> BreakAt(kept, s, i)
  }

  lemma GroupFacts(kept: seq<Range>, s: seq<nat>, g: seq<Range>, n: nat, i: nat)
    requires Shaped(kept, s, g, n) && i < |s|
    ensures |g| == |s| && s[i] < RunEnd(s, i, n) <= n <= |kept| && Legal(kept, s[i], RunEnd(s, i, n))
    ensures g[i].start == kept[s[i]].start && g[i].end == kept[RunEnd(s, i, n) - 1].end
    ensures forall k :: s[i] <= k < RunEnd(s, i, n) ==> kept[k].confidence <= g[i].confidence
    ensures Attained(kept, s[i], RunEnd(s, i, n), g[i].confidence)
  {
    hide Legal, BreakAt, Attained;
    RunFacts(s, n, i);
    assert GroupAt(kept, s, g, n, i);
  }

  lemma BreakFacts(kept: seq<Range>, s: seq<nat>, g: seq<Range>, n: nat, i: nat)
    requires Shaped(kept, s, g, n) && 0 < i < |s|
    ensures s[i - 1] < s[i] == RunEnd(s, i - 1, n) < |kept| && !MayJoin(kept, s[i - 1], s[i])
  {
    hide MayJoin, GroupAt;
    RunFacts(s, n, i - 1);
    assert BreakAt(kept, s, i);
  }

  lemma AttainedGrows(kept: seq<Range>, a: nat, n: nat, confidence: real)
    requires n < |kept| && a <= n && Attained(kept, a, n, confidence)
    ensures Attained(kept, a, n + 1, Louder(confidence, kept[n].confidence))
  {
    var k :| a <= k < n && kept[k].confidence == confidence;
    assert a <= k < n + 1 <= |kept| && a <= n < n + 1;
  }

  lemma AttainedAlone(kept: seq<Range>, n: nat)
    requires n < |kept|
    ensures Attained(kept, n, n + 1, kept[n].confidence)
  {
  }

  lemma JoinShapesAt(kept: seq<Range>, s: seq<nat>, g: seq<Range>, n: nat, i: nat)
    requires n < |kept| && Shaped(kept, s, g, n) && i < |s| && Joins(g[|g| - 1], kept[n])
    ensures RunAt(s, n + 1, i) && GroupAt(kept, s, g[|g| - 1 := Joined(g[|g| - 1], kept[n])], n + 1, i)
  {
    hide Legal, Shaped, Attained;
    GroupFacts(kept, s, g, n, i);
    if i == |s| - 1 {
      RunJoins(kept, s[i], n);
      AttainedGrows(kept, s[i], n, g[i].confidence);
    }
  }

  lemma JoinShapes(kept: seq<Range>, s: seq<nat>, g: seq<Range>, n: nat)
    requires n < |kept| && Shaped(kept, s, g, n) && s != [] && Joins(g[|g| - 1], kept[n])
    ensures Shaped(kept, s, g[|g| - 1 := Joined(g[|g| - 1], kept[n])], n + 1)
  {
    hide GroupAt, BreakAt, Joins, Joined, RunAt;
    var h, m := g[|g| - 1 := Joined(g[|g| - 1], kept[n])], n + 1;
    forall i | 0 <= i < |s| ensures RunAt(s, m, i) && GroupAt(kept, s, h, m, i) {
      JoinShapesAt(kept, s, g, n, i);
    }
  }

  lemma OpenShapesAt(kept: seq<Range>, s: seq<nat>, g: seq<Range>, n: nat, i: nat)
    requires n < |kept| && Shaped(kept, s, g, n) && (s != [] ==> !Joins(g[|g| - 1], kept[n])) && i <= |s|
    ensures RunAt(s + [n], n + 1, i) && GroupAt(kept, s + [n], g + [kept[n]], n + 1, i)
    ensures BreakAt(kept, s + [n], i)
  {
    hide Legal, Shaped, Attained;
    assert |g| == |s| by { ShapesMatch(kept, s, g, n); }
    if i < |s| {
      GroupFacts(kept, s, g, n, i);
      if i > 0 {
        BreakFacts(kept, s, g, n, i);
      }
    } else {
      Alone(kept, n);
      AttainedAlone(kept, n);
      if i > 0 {
        GroupFacts(kept, s, g, n, i - 1);
      }
    }
  }

  lemma ShapesMatch(kept: seq<Range>, s: seq<nat>, g: seq<Range>, n: nat)
    requires Shaped(kept, s, g, n)
    ensures |g| == |s| && (s != [] ==> s[0] == 0) && (n > 0 ==> s != [])
  {
  }

  lemma OpenShapes(kept: seq<Range>, s: seq<nat>, g: seq<Range>, n: nat)
    requires n < |kept| && Shaped(kept, s, g, n) && (s != [] ==> !Joins(g[|g| - 1], kept[n]))
    ensures Shaped(kept, s + [n], g + [kept[n]], n + 1)
  {
    hide GroupAt, BreakAt, Joins, RunAt;
    var t, h, m := s + [n], g + [kept[n]], n + 1;
    ShapesMatch(kept, s, g, n);
    forall i | 0 <= i < |t| ensures RunAt(t, m, i) && GroupAt(kept, t, h, m, i) && BreakAt(kept, t, i) {
      OpenShapesAt(kept, s, g, n, i);
    }
    assert t[0] == 0;
  }

  lemma {:induction false} GroupsAreShaped(kept: seq<Range>, n: nat)
    requires n <= |kept|
    ensures Shaped(kept, Starts(kept, n), Groups(kept, n), n)
  {
    hide Shaped, Joins, Joined;
    if n == 0 {
      NothingShaped(kept);
    } else {
      GroupsAreShaped(kept, n - 1);
      var s, g := Starts(kept, n - 1), Groups(kept, n - 1);
      if g != [] && Joins(g[|g| - 1], kept[n - 1]) {
        JoinShapes(kept, s, g, n - 1);
      } else {
        OpenShapes(kept, s, g, n - 1);
      }
    }
  }

  lemma NothingShaped(kept: seq<Range>)
    ensures Shaped(kept, Starts(kept, 0), Groups(kept, 0), 0)
  {
  }

  // ------------------------------------------------------------ a range and its own group

  /** Range `k` ends after the last range of its run. */
  ghost predicate Outlasts(kept: seq<Range>, s: seq<nat>, k: nat)
    requires RunsForward(s, |kept|) && k < |kept|
  {
    RunOfIs(s, |kept|, k);
    kept[k].end > kept[RunEnd(s, RunOf(s, k), |kept|) - 1].end
  }

  ghost predicate StartsForward(kept: seq<Range>) {
    forall i, j :: 0 <= i <= j < |kept| ==> kept[i].start <= kept[j].start
  }

  /** A kept range lies in the group it was put into if and only if it does not
      end after the last range of its run. */
  lemma OwnGroupCovers(kept: seq<Range>, k: nat)
    requires StartsForward(kept) && k < |kept|
    ensures var n, s := |kept|, Starts(kept, |kept|);
            && RunsForward(s, n) && RunOf(s, k) < |Groups(kept, n)|
            && (Within(kept[k], Groups(kept, n)[RunOf(s, k)]) <==> !Outlasts(kept, s, k))
  {
    hide Groups, Starts, Legal, RunOf, GroupAt, BreakAt, RunAt, RunEnd;
    var n, s := |kept|, Starts(kept, |kept|);
    GroupsAreShaped(kept, n);
    RunOfIs(s, n, k);
    GroupFacts(kept, s, Groups(kept, n), n, RunOf(s, k));
  }

  /** Everything about a range and its own group. */
  lemma OwnFacts(kept: seq<Range>, s: seq<nat>, g: seq<Range>, k: nat)
    requires Shaped(kept, s, g, |kept|) && k < |kept|
    ensures RunsForward(s, |kept|) && |s| == |g|
    ensures var r := RunOf(s, k);
            && r < |s| && s[r] <= k < RunEnd(s, r, |kept|) <= |kept|
            && g[r].start == kept[s[r]].start && g[r].end == kept[RunEnd(s, r, |kept|) - 1].end
            && (Outlasts(kept, s, k) <==> kept[k].end > g[r].end)
  {
    hide RunOf, GroupAt, BreakAt, RunAt, RunEnd, Legal;
    RunOfIs(s, |kept|, k);
    GroupFacts(kept, s, g, |kept|, RunOf(s, k));
  }

  /** The first range of a run belongs to it. */
  lemma FirstOfRun(kept: seq<Range>, s: seq<nat>, g: seq<Range>, i: nat)
    requires Shaped(kept, s, g, |kept|) && i < |s|
    ensures s[i] < |kept| && RunOf(s, s[i]) == i
  {
    hide RunOf, GroupAt, BreakAt, RunAt;
    RunFacts(s, |kept|, i);
    RunUnique(s, |kept|, i, s[i]);
  }

  // ------------------------------------------------------------ any group

  /** In time, whatever the confidence. */
  predicate Spans(r: Range, g: Range) { g.start <= r.start && r.end <= g.end }

  ghost predicate Spanned(kept: seq<Range>, g: seq<Range>, k: nat)
    requires k < |kept|
  {
    exists i :: 0 <= i < |g| && Spans(kept[k], g[i])
  }

  ghost predicate AllSpanned(kept: seq<Range>, g: seq<Range>) {
    forall k :: 0 <= k < |kept| ==> Spanned(kept, g, k)
  }

  /** Group `i` is one range of more than twenty seconds. */
  ghost predicate LongAlone(s: seq<nat>, g: seq<Range>, n: nat, i: nat)
    requires i < |s| == |g|
  {
    RunEnd(s, i, n) == s[i] + 1 && g[i].end - g[i].start > 20_000
  }

  ghost predicate InLongRange(kept: seq<Range>, s: seq<nat>, g: seq<Range>, k: nat)
    requires |s| == |g| && k < |kept|
  {
    exists i :: 0 <= i < |g| && LongAlone(s, g, |kept|, i) && Spans(kept[k], g[i])
  }

  lemma FoundLong(kept: seq<Range>, s: seq<nat>, g: seq<Range>, k: nat, i: nat)
    requires i < |s| == |g| && k < |kept| && LongAlone(s, g, |kept|, i) && Spans(kept[k], g[i])
    ensures InLongRange(kept, s, g, k)
  {
  }

  /** What spans a range that starts no later and ends no earlier spans this one. */
  lemma LongSpansEarlier(kept: seq<Range>, s: seq<nat>, g: seq<Range>, f: nat, k: nat)
    requires |s| == |g| && f < |kept| && k < |kept| && InLongRange(kept, s, g, f)
    requires kept[f].start <= kept[k].start && kept[k].end <= kept[f].end
    ensures InLongRange(kept, s, g, k)
  {
    var i :| 0 <= i < |g| && LongAlone(s, g, |kept|, i) && Spans(kept[f], g[i]);
    FoundLong(kept, s, g, k, i);
  }

  /** A group of more than one range, or of a short one, lasts at most twenty seconds. */
  lemma ShortOrAlone(kept: seq<Range>, s: seq<nat>, g: seq<Range>, i: nat)
    requires Shaped(kept, s, g, |kept|) && i < |s| && |s| == |g|
    ensures LongAlone(s, g, |kept|, i) || g[i].end - g[i].start <= 20_000
  {
    hide GroupAt, BreakAt, RunAt, RunEnd;
    GroupFacts(kept, s, g, |kept|, i);
  }

  /** What sorting and clipping leave of any ranges: starts forward from zero on,
      every range long enough, and ends forward among equal starts after zero. */
  ghost predicate Orderly(kept: seq<Range>) {
    && StartsForward(kept)
    && (forall i :: 0 <= i < |kept| ==> 0 <= kept[i].start && LongEnough(kept[i]))
    && forall i, j :: 0 <= i < j < |kept| && kept[i].start == kept[j].start > 0 ==> kept[i].end <= kept[j].end
  }

  lemma ClipKeepsOrder(a: Range, b: Range, duration: int)
    requires Le(a, b) && LongEnough(Clip(a, duration)) && LongEnough(Clip(b, duration))
    ensures 0 <= Clip(a, duration).start <= Clip(b, duration).start
    ensures Clip(a, duration).start == Clip(b, duration).start > 0 ==> Clip(a, duration).end <= Clip(b, duration).end
  {
  }

  lemma OrderlyGrows(front: seq<Range>, last: Range)
    requires Orderly(front) && 0 <= last.start && LongEnough(last)
    requires forall k :: 0 <= k < |front| ==>
               front[k].start <= last.start && (front[k].start == last.start > 0 ==> front[k].end <= last.end)
    ensures Orderly(front + [last])
  {
    hide LongEnough;
  }

  lemma {:induction false} KeptIsOrderly(sorted: seq<Range>, duration: int)
    requires Ascending(Le, sorted)
    ensures Orderly(Kept(sorted, duration))
  {
    hide Clip, LongEnough, Le, Orderly;
    if sorted == [] {
      assert Orderly([]) by { NothingOrderly(); }
    } else {
      var n := |sorted| - 1;
      KeptIsOrderly(sorted[..n], duration);
      KeptAreClipped(sorted[..n], duration);
      var front, last := Kept(sorted[..n], duration), Clip(sorted[n], duration);
      if LongEnough(last) {
        assert Le(sorted[n], sorted[n]) by { LeItself(sorted[n]); }
        ClipKeepsOrder(sorted[n], sorted[n], duration);
        forall k | 0 <= k < |front|
          ensures front[k].start <= last.start && (front[k].start == last.start > 0 ==> front[k].end <= last.end)
        {
          OrderlyIsLong(front, k);
          assert ClippedFrom(front[k], sorted[..n], duration);
          var i :| 0 <= i < n && front[k] == Clip(sorted[..n][i], duration);
          ClipKeepsOrder(sorted[i], sorted[n], duration);
        }
        OrderlyGrows(front, last);
        assert Kept(sorted, duration) == front + [last];
      } else {
        assert Kept(sorted, duration) == front;
      }
    }
  }

  lemma OrderlyIsLong(kept: seq<Range>, k: nat)
    requires Orderly(kept) && k < |kept|
    ensures 0 <= kept[k].start && LongEnough(kept[k])
  {
    hide LongEnough;
  }

  lemma NothingOrderly()
    ensures Orderly([])
  {
  }

  lemma LeItself(r: Range)
    ensures Le(r, r)
  {
  }

  /** The first range of the run after group `j` starts before `k` and ends after it. */
  lemma NextOutlasts(kept: seq<Range>, s: seq<nat>, g: seq<Range>, k: nat, j: nat) returns (f: nat)
    requires Shaped(kept, s, g, |kept|) && Orderly(kept) && |s| == |g|
    requires k < |kept| && j < RunOf(s, k) < |s| && Spans(kept[k], g[j]) && !LongAlone(s, g, |kept|, j)
    ensures j + 1 < |s| && f == s[j + 1] && f < |kept| && RunOf(s, f) == j + 1
    ensures kept[f].start <= kept[k].start && kept[k].end < kept[f].end
  {
    hide RunOf, Shaped, RunEnd, LongAlone, Legal;
    OwnFacts(kept, s, g, k);
    f := s[j + 1];
    if j + 1 < RunOf(s, k) {
      OwnAscend(kept, s, g, j + 1, RunOf(s, k));
    }
    FirstOfRun(kept, s, g, j + 1);
    GroupFacts(kept, s, g, |kept|, j);
    BreakFacts(kept, s, g, |kept|, j + 1);
    ShortOrAlone(kept, s, g, j);
    assert LongEnough(kept[k]) && kept[f].start <= kept[k].start;
  }

  lemma OwnAscend(kept: seq<Range>, s: seq<nat>, g: seq<Range>, i: nat, j: nat)
    requires Shaped(kept, s, g, |kept|) && i < j < |s|
    ensures s[i] < RunEnd(s, i, |kept|) <= s[j] < |kept|
  {
    hide GroupAt, BreakAt, RunAt, RunEnd;
    RunFacts(s, |kept|, i);
    RunFacts(s, |kept|, j);
    RunsAscend(s, |kept|, i, j);
  }

  /** A range lost from its own group and in the time of an earlier one lies in a
      range of more than twenty seconds, if every range is spanned at all. */
  lemma {:induction false} EarlierIsLong(kept: seq<Range>, s: seq<nat>, g: seq<Range>, k: nat, j: nat, top: int)
    requires Shaped(kept, s, g, |kept|) && Orderly(kept) && AllSpanned(kept, g) && |s| == |g|
    requires forall i :: 0 <= i < |kept| ==> kept[i].end <= top
    requires k < |kept| && RunsForward(s, |kept|) && Outlasts(kept, s, k)
    requires j < RunOf(s, k) < |s| && Spans(kept[k], g[j])
    ensures InLongRange(kept, s, g, k)
    decreases top - kept[k].end, |s| - j
  {
    hide RunOf, Shaped, Orderly, InLongRange, Outlasts, RunsForward, AllSpanned, LongAlone;
    if LongAlone(s, g, |kept|, j) {
      FoundLong(kept, s, g, k, j);
    } else {
      var f := NextOutlasts(kept, s, g, k, j);
      if Outlasts(kept, s, f) {
        OutlastingIsLong(kept, s, g, f, top);
        LongSpansEarlier(kept, s, g, f, k);
      } else {
        NextSpans(kept, s, g, k, f);
        EarlierIsLong(kept, s, g, k, j + 1, top);
      }
    }
  }

  /** The run of a range that is not lost spans what the range spans. */
  lemma NextSpans(kept: seq<Range>, s: seq<nat>, g: seq<Range>, k: nat, f: nat)
    requires Shaped(kept, s, g, |kept|) && k < |kept| && f < |kept| && RunsForward(s, |kept|)
    requires Outlasts(kept, s, k) && !Outlasts(kept, s, f) && RunOf(s, f) < |s| == |g| && f == s[RunOf(s, f)]
    requires kept[f].start <= kept[k].start && kept[k].end < kept[f].end
    ensures Spans(kept[k], g[RunOf(s, f)]) && RunOf(s, k) != RunOf(s, f)
  {
    hide RunOf, Shaped, Outlasts, RunEnd, RunsForward;
    OwnFacts(kept, s, g, k);
    OwnFacts(kept, s, g, f);
  }

  /** If every kept range is spanned by some group, one that ends after the last
      of its run lies in a range of more than twenty seconds. */
  lemma {:induction false} OutlastingIsLong(kept: seq<Range>, s: seq<nat>, g: seq<Range>, k: nat, top: int)
    requires Shaped(kept, s, g, |kept|) && Orderly(kept) && AllSpanned(kept, g) && |s| == |g|
    requires forall i :: 0 <= i < |kept| ==> kept[i].end <= top
    requires k < |kept| && RunsForward(s, |kept|) && Outlasts(kept, s, k)
    ensures InLongRange(kept, s, g, k)
    decreases top - kept[k].end, |s| + 1
  {
    hide RunOf, Shaped, Orderly, InLongRange, Outlasts, RunsForward, LongAlone, RunEnd;
    assert Spanned(kept, g, k);
    var j :| 0 <= j < |g| && Spans(kept[k], g[j]);
    OwnFacts(kept, s, g, k);
    if LongAlone(s, g, |kept|, j) {
      FoundLong(kept, s, g, k, j);
    } else if j < RunOf(s, k) {
      EarlierIsLong(kept, s, g, k, j, top);
    } else {
      var f := LaterStartsAtZero(kept, s, g, k, j);
      if Outlasts(kept, s, f) {
        OutlastingIsLong(kept, s, g, f, top);
        LongSpansEarlier(kept, s, g, f, k);
      } else {
        LongFirst(kept, s, g, f);
        FoundLong(kept, s, g, k, RunOf(s, f));
      }
    }
  }

  /** A group after its own spans a lost range only if both start at zero; then
      the next run begins with more than twenty seconds. */
  lemma LaterStartsAtZero(kept: seq<Range>, s: seq<nat>, g: seq<Range>, k: nat, j: nat) returns (f: nat)
    requires Shaped(kept, s, g, |kept|) && Orderly(kept) && k < |kept| && RunsForward(s, |kept|) && Outlasts(kept, s, k)
    requires RunOf(s, k) < j < |s| == |g| && Spans(kept[k], g[j]) && !LongAlone(s, g, |kept|, j)
    ensures f < |kept| && RunOf(s, f) < |s| && f == s[RunOf(s, f)]
    ensures kept[f].start == 0 == kept[k].start && kept[f].end > 20_000 && kept[k].end < kept[f].end
  {
    hide RunOf, Shaped, RunEnd, LongAlone, Legal, Outlasts, RunsForward;
    var n, r := |kept|, RunOf(s, k);
    OwnFacts(kept, s, g, k);
    OwnAscend(kept, s, g, r, j);
    if r + 1 < j {
      OwnAscend(kept, s, g, r + 1, j);
    }
    f := s[r + 1];
    FirstOfRun(kept, s, g, r + 1);
    BreakFacts(kept, s, g, n, r + 1);
    GroupFacts(kept, s, g, n, j);
    ShortOrAlone(kept, s, g, j);
    var last := RunEnd(s, r, n) - 1;
    assert kept[k].start <= kept[last].start <= kept[f].start <= kept[s[j]].start;
    assert kept[s[r]].start <= kept[k].start && LongEnough(kept[last]);
    assert k < last && kept[k].start == kept[last].start == 0;
  }

  /** A run that begins with more than twenty seconds, not lost, is that range alone. */
  lemma LongFirst(kept: seq<Range>, s: seq<nat>, g: seq<Range>, f: nat)
    requires Shaped(kept, s, g, |kept|) && f < |kept| && RunsForward(s, |kept|) && !Outlasts(kept, s, f)
    requires RunOf(s, f) < |s| == |g| && f == s[RunOf(s, f)]
    requires kept[f].start == 0 && kept[f].end > 20_000
    ensures LongAlone(s, g, |kept|, RunOf(s, f)) && g[RunOf(s, f)].start == 0 && kept[f].end <= g[RunOf(s, f)].end
  {
    hide RunOf, Shaped, Outlasts, RunEnd, RunsForward, LongAlone;
    OwnFacts(kept, s, g, f);
    ShortOrAlone(kept, s, g, RunOf(s, f));
  }

  // ------------------------------------------------------------ the exact condition

  lemma LongSpans(kept: seq<Range>, s: seq<nat>, g: seq<Range>, k: nat)
    requires |s| == |g| && k < |kept|
    ensures InLongRange(kept, s, g, k) ==> Spanned(kept, g, k)
  {
  }

  lemma OwnSpans(kept: seq<Range>, s: seq<nat>, g: seq<Range>, k: nat)
    requires Shaped(kept, s, g, |kept|) && StartsForward(kept) && k < |kept| && RunsForward(s, |kept|)
    ensures !Outlasts(kept, s, k) ==> Spanned(kept, g, k)
  {
    hide RunOf, Shaped, RunEnd, Outlasts, RunsForward;
    OwnFacts(kept, s, g, k);
    if !Outlasts(kept, s, k) {
      assert Spans(kept[k], g[RunOf(s, k)]);
    }
  }

  lemma {:induction false} Top(kept: seq<Range>) returns (top: int)
    ensures forall i :: 0 <= i < |kept| ==> kept[i].end <= top
  {
    if kept == [] {
      return 0;
    }
    var rest := Top(kept[..|kept| - 1]);
    top := Max(rest, kept[|kept| - 1].end);
    forall i | 0 <= i < |kept| ensures kept[i].end <= top {
      if i < |kept| - 1 {
        assert kept[..|kept| - 1][i] == kept[i];
      }
    }
  }

  lemma OrderlyStartsForward(kept: seq<Range>)
    requires Orderly(kept)
    ensures StartsForward(kept)
  {
  }

  /** For any ranges in any order: the groups span every kept range if and only if
      each range that ends after the last of its run lies in a single range of
      more than twenty seconds that is a group of its own. */
  lemma CoverageExactly(ranges: seq<Range>, duration: int)
    ensures var kept := Kept(Sort(Le, ranges), duration);
            var s, g := Starts(kept, |kept|), Groups(kept, |kept|);
            && RunsForward(s, |kept|)
            && (AllSpanned(kept, g)
                <==> forall k :: 0 <= k < |kept| && Outlasts(kept, s, k) ==> InLongRange(kept, s, g, k))
  {
    hide Sort, Kept, Starts, Groups, Outlasts, InLongRange, Orderly, RunOf, GroupAt, BreakAt, RunAt, Spanned,
      StartsForward;
    var kept := Kept(Sort(Le, ranges), duration);
    var s, g := Starts(kept, |kept|), Groups(kept, |kept|);
    SortAscends(Le, ranges);
    KeptIsOrderly(Sort(Le, ranges), duration);
    OrderlyStartsForward(kept);
    GroupsAreShaped(kept, |kept|);
    if AllSpanned(kept, g) {
      var top := Top(kept);
      forall k | 0 <= k < |kept| && Outlasts(kept, s, k) ensures InLongRange(kept, s, g, k) {
        OutlastingIsLong(kept, s, g, k, top);
      }
    } else {
      var k :| 0 <= k < |kept| && !Spanned(kept, g, k);
      OwnSpans(kept, s, g, k);
      LongSpans(kept, s, g, k);
    }
  }

  /** With confidence included: the groups cover every kept range if and only if
      some group covers each that ends after the last of its run. */
  lemma LoudCoverageExactly(ranges: seq<Range>, duration: int)
    ensures var kept := Kept(Sort(Le, ranges), duration);
            var s, g := Starts(kept, |kept|), Groups(kept, |kept|);
            && RunsForward(s, |kept|)
            && (Covers(g, kept, |kept|)
                <==> forall k :: 0 <= k < |kept| && Outlasts(kept, s, k) ==> WithinSome(kept[k], g))
  {
    hide Sort, Kept, Starts, Groups, Outlasts, Orderly, RunOf, GroupAt, BreakAt, RunAt, StartsForward, WithinSome;
    var kept := Kept(Sort(Le, ranges), duration);
    SortAscends(Le, ranges);
    KeptIsOrderly(Sort(Le, ranges), duration);
    OrderlyStartsForward(kept);
    GroupsAreShaped(kept, |kept|);
    var s, g := Starts(kept, |kept|), Groups(kept, |kept|);
    forall k | 0 <= k < |kept| && !Outlasts(kept, s, k) ensures WithinSome(kept[k], g) {
      OwnGroupCovers(kept, k);
      LiesInSome(kept[k], g, RunOf(s, k));
    }
  }

  lemma LiesInSome(r: Range, g: seq<Range>, i: nat)
    requires i < |g| && Within(r, g[i])
    ensures WithinSome(r, g)
  {
  }

  lemma CoversSpans(kept: seq<Range>, g: seq<Range>)
    requires Covers(g, kept, |kept|)
    ensures AllSpanned(kept, g)
  {
    forall k | 0 <= k < |kept| ensures Spanned(kept, g, k) {
      assert WithinSome(kept[k], g);
      var i :| 0 <= i < |g| && Within(kept[k], g[i]);
      assert Spans(kept[k], g[i]);
    }
  }

  /** No range is long, so none lies in a long one. */
  lemma NoneInLong(kept: seq<Range>, s: seq<nat>, g: seq<Range>, k: nat)
    requires Shaped(kept, s, g, |kept|) && k < |kept| && |s| == |g|
    requires forall i :: 0 <= i < |kept| ==> kept[i].end - kept[i].start <= 20_000
    ensures !InLongRange(kept, s, g, k)
  {
    hide Shaped, RunEnd, Legal;
    forall i | 0 <= i < |g| ensures !LongAlone(s, g, |kept|, i) {
      GroupFacts(kept, s, g, |kept|, i);
    }
  }

  /** While no kept range is over twenty seconds, that is: if and only if no range
      ends after the last of its run. */
  lemma ShortSpeechExactly(ranges: seq<Range>, duration: int)
    requires forall r :: r in Kept(Sort(Le, ranges), duration) ==> r.end - r.start <= 20_000
    ensures var kept := Kept(Sort(Le, ranges), duration);
            var s, g := Starts(kept, |kept|), Groups(kept, |kept|);
            && RunsForward(s, |kept|)
            && (AllSpanned(kept, g) <==> forall k :: 0 <= k < |kept| ==> !Outlasts(kept, s, k))
            && (Covers(g, kept, |kept|) <==> AllSpanned(kept, g))
  {
    hide Sort, Kept, Starts, Groups, Outlasts, RunOf, AllSpanned, InLongRange, GroupAt, BreakAt, RunAt, Covers;
    CoverageExactly(ranges, duration);
    LoudCoverageExactly(ranges, duration);
    var kept := Kept(Sort(Le, ranges), duration);
    GroupsAreShaped(kept, |kept|);
    forall k | 0 <= k < |kept| ensures !InLongRange(kept, Starts(kept, |kept|), Groups(kept, |kept|), k) {
      NoneInLong(kept, Starts(kept, |kept|), Groups(kept, |kept|), k);
    }
    if Covers(Groups(kept, |kept|), kept, |kept|) {
      CoversSpans(kept, Groups(kept, |kept|));
    }
  }

  /** A group of a minute covers a range that a later group lost. */
  lemma LongSpeechMayCover()
    ensures var kept := [Range(0, 60_000, 0.5), Range(1_000, 30_000, 0.5), Range(2_000, 3_000, 0.5)];
            && Starts(kept, 3) == [0, 1] && Groups(kept, 3) == [Range(0, 60_000, 0.5), Range(1_000, 3_000, 0.5)]
            && AllSpanned(kept, Groups(kept, 3)) && kept[1].end > Groups(kept, 3)[1].end
  {
    var kept := [Range(0, 60_000, 0.5), Range(1_000, 30_000, 0.5), Range(2_000, 3_000, 0.5)];
    assert Groups(kept, 1) == [kept[0]] && Starts(kept, 1) == [0];
    assert Groups(kept, 2) == [kept[0], kept[1]] && Starts(kept, 2) == [0, 1];
    var g := Groups(kept, 3);
    assert g == [kept[0], Range(1_000, 3_000, 0.5)];
    forall k | 0 <= k < 3 ensures Spanned(kept, g, k) {
      assert Spans(kept[k], g[0]);
    }
  }
}
