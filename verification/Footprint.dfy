/** The width bar of a realization's registry footprint: integer percentages that add up to 100. */
module Footprint {

  datatype Segment = Segment(name: string, className: string, count: nat)
  datatype Shown = Shown(segment: Segment, width: int)

  function Total(segments: seq<Segment>): nat {
    if segments == [] then 0 else Total(segments[..|segments| - 1]) + segments[|segments| - 1].count
  }

  /** The segments that are shown. */
  function NonEmpty(segments: seq<Segment>): seq<Segment> {
    if segments == [] then []
    else
      var last := segments[|segments| - 1];
      NonEmpty(segments[..|segments| - 1]) + if last.count > 0 then [last] else []
  }

  function TotalWidth(shown: seq<Shown>): int {
    if shown == [] then 0 else TotalWidth(shown[..|shown| - 1]) + shown[|shown| - 1].width
  }

  function Segments(shown: seq<Shown>): seq<Segment> {
    seq(|shown|, i requires 0 <= i < |shown| => shown[i].segment)
  }

  /** The width is within `slack` of the exact percentage; both sides are scaled by the total. */
  predicate Near(width: int, count: nat, total: nat, slack: nat) {
    -(slack * total) < width * total - 100 * count < slack * total
  }

  function Slack(shown: nat): (s: nat)
    ensures s >= 1
  {
    if shown <= 2 then 1 else shown - 1
  }

  /** One unclamped width is off by less than one. */
  lemma RoundedIsNear(count: nat, total: nat)
    requires 0 < count <= total
    ensures 1 <= Rounded(count, total) <= 100 && Near(Rounded(count, total), count, total, 1)
  {
    var exact := 100 * count / total;
    assert 100 * count == exact * total + 100 * count % total;
    AtMost(exact, 100, total);
  }

  lemma AtMost(a: int, b: int, c: nat)
    requires a * c <= b * c && c > 0
    ensures a <= b
  {
    if a > b { ScaleStrict(b, a, c); }
  }

  lemma Scale(a: int, b: int, c: nat)
    requires a <= b
    ensures a * c <= b * c
  {
    assert (b - a) * c >= 0;
  }

  lemma ScaleStrict(a: int, b: int, c: nat)
    requires a < b && c > 0
    ensures a * c + c <= b * c
  {
    Scale(a + 1, b, c);
  }

  /** Where the loop stands: `sum` of the counts was seen and `used` percent given out.  Before any clamping
      every width is off by less than one; after it nothing is left to give, and little is left to see. */
  ghost predicate Progress(seen: nat, sum: nat, used: int, total: nat, shown: nat, clamped: bool) {
    && 0 <= used <= 100 && sum <= total
    && (!clamped && seen == 0 ==> used == 0 && sum == 0)
    && (!clamped && seen > 0 ==> -(seen * total) < used * total - 100 * sum < seen * total)
    && (clamped ==> used == 100 && 100 * (total - sum) < Slack(shown) * total)
  }

  function Rounded(count: nat, total: nat): int
    requires total > 0
  {
    if 100 * count / total == 0 then 1 else 100 * count / total
  }

  /** The width the loop gives next. */
  function NextWidth(seen: nat, used: int, total: nat, shown: nat, count: nat): int
    requires total > 0
  {
    if seen + 1 == shown || Rounded(count, total) > 100 - used then 100 - used else Rounded(count, total)
  }

  lemma StepPlain(seen: nat, sum: nat, used: int, total: nat, shown: nat, count: nat, width: int)
    requires Progress(seen, sum, used, total, shown, false) && sum + count <= total
    requires Near(width, count, total, 1) && 0 <= width <= 100 - used
    ensures Progress(seen + 1, sum + count, used + width, total, shown, false)
    ensures Near(width, count, total, Slack(shown))
  {
    assert (used + width) * total == used * total + width * total;
    assert (seen + 1) * total == seen * total + total;
    Scale(1, Slack(shown), total);
  }

  lemma StepLast(seen: nat, sum: nat, used: int, total: nat, shown: nat, count: nat)
    requires Progress(seen, sum, used, total, shown, false) && seen + 1 == shown && sum + count == total && total > 0
    ensures Near(100 - used, count, total, Slack(shown))
  {
    assert (100 - used) * total == 100 * total - used * total;
    Scale(seen, Slack(shown), total);
    Scale(1, Slack(shown), total);
  }

  /** The clamping step, with every product by the total named. */
  lemma ClampBounds(given: int, rounded: int, left: int, sum: int, off: int, slack: int, total: int, count: int)
    requires -off <= given - 100 * sum <= off && left == 100 * total - given
    requires rounded - 100 * count < total && left + total <= rounded && sum + count <= total
    requires off + total <= slack && 0 < total
    ensures -slack < left - 100 * count < slack && 100 * (total - (sum + count)) < slack
  {}

  lemma StepClamp(seen: nat, sum: nat, used: int, total: nat, shown: nat, count: nat, rounded: int)
    requires Progress(seen, sum, used, total, shown, false) && seen + 1 < shown && sum + count <= total && total > 0
    requires Near(rounded, count, total, 1) && rounded > 100 - used
    ensures Near(100 - used, count, total, Slack(shown))
    ensures Progress(seen + 1, sum + count, 100, total, shown, true)
  {
    ScaleStrict(100 - used, rounded, total);
    ScaleStrict(seen, Slack(shown), total);
    var given, off, left, slack := used * total, seen * total, (100 - used) * total, Slack(shown) * total;
    assert left == 100 * total - given;
    assert -off <= given - 100 * sum <= off;
    ClampBounds(given, rounded * total, left, sum, off, slack, total, count);
  }

  lemma StepNothing(seen: nat, sum: nat, total: nat, shown: nat, count: nat)
    requires Progress(seen, sum, 100, total, shown, true) && 0 < count && sum + count <= total && total > 0
    ensures Near(0, count, total, Slack(shown))
    ensures Progress(seen + 1, sum + count, 100, total, shown, true)
  {
    assert 100 * (total - (sum + count)) == 100 * (total - sum) - 100 * count;
    Scale(1, Slack(shown), total);
  }

  /** One turn of the loop. */
  lemma Advance(seen: nat, sum: nat, used: int, total: nat, shown: nat, count: nat, clamped: bool)
    returns (clamped': bool)
    requires Progress(seen, sum, used, total, shown, clamped) && seen < shown && 0 < count && sum + count <= total
             && total > 0
    requires seen + 1 == shown ==> sum + count == total
    ensures var width := NextWidth(seen, used, total, shown, count);
            && 0 <= width <= 100 && Near(width, count, total, Slack(shown))
            && (seen + 1 == shown ==> used + width == 100)
            && (seen + 1 < shown ==> Progress(seen + 1, sum + count, used + width, total, shown, clamped'))
  {
    RoundedIsNear(count, total);
    var rounded := Rounded(count, total);
    hide Rounded, Near, Slack;
    clamped' := clamped;
    if clamped {
      assert NextWidth(seen, used, total, shown, count) == 0;
      StepNothing(seen, sum, total, shown, count);
    } else if seen + 1 == shown {
      StepLast(seen, sum, used, total, shown, count);
    } else if rounded > 100 - used {
      StepClamp(seen, sum, used, total, shown, count, rounded);
      clamped' := true;
    } else {
      StepPlain(seen, sum, used, total, shown, count, rounded);
    }
  }

  lemma PrefixTotal(segments: seq<Segment>, i: nat)
    requires i <= |segments|
    ensures Total(segments[..i]) <= Total(segments) && |NonEmpty(segments[..i])| <= |NonEmpty(segments)|
    ensures |NonEmpty(segments[..i])| == |NonEmpty(segments)| ==> Total(segments[..i]) == Total(segments)
    decreases |segments|
  {
    if i < |segments| {
      var init := segments[..|segments| - 1];
      PrefixTotal(init, i);
      assert init[..i] == segments[..i];
    } else {
      assert segments[..i] == segments;
    }
  }

  lemma PrefixStep(segments: seq<Segment>, i: nat)
    requires i < |segments|
    ensures Total(segments[..i + 1]) == Total(segments[..i]) + segments[i].count <= Total(segments)
    ensures NonEmpty(segments[..i + 1]) == NonEmpty(segments[..i]) + if segments[i].count > 0 then [segments[i]] else []
    ensures |NonEmpty(segments[..i + 1])| <= |NonEmpty(segments)|
    ensures |NonEmpty(segments[..i + 1])| == |NonEmpty(segments)| ==> Total(segments[..i + 1]) == Total(segments)
  {
    assert segments[..i + 1][..i] == segments[..i];
    PrefixTotal(segments, i + 1);
  }

  lemma Push(shown: seq<Shown>, segment: Segment, width: int)
    ensures TotalWidth(shown + [Shown(segment, width)]) == TotalWidth(shown) + width
    ensures Segments(shown + [Shown(segment, width)]) == Segments(shown) + [segment]
  {
    assert (shown + [Shown(segment, width)])[..|shown|] == shown;
  }

  lemma NonEmptyTotal(segments: seq<Segment>)
    ensures Total(segments) == 0 <==> NonEmpty(segments) == []
  {
    if segments != [] { NonEmptyTotal(segments[..|segments| - 1]); }
  }

  /** Every width is between 0 and 100, they add up to 100, and each is within one less than the number of
      shown segments of its exact share, at least within one: three for the four segments of the registry. */
  ghost predicate Fair(shown: seq<Shown>, segments: seq<Segment>) {
    && Segments(shown) == NonEmpty(segments) && TotalWidth(shown) == 100
    && forall i :: 0 <= i < |shown| ==>
         0 <= shown[i].width <= 100 && Near(shown[i].width, shown[i].segment.count, Total(segments), Slack(|shown|))
  }

  lemma Start(segments: seq<Segment>)
    ensures segments[..0] == [] && Total([]) == 0 && NonEmpty([]) == [] && Segments([]) == [] && TotalWidth([]) == 0
  {}

  lemma Begin(total: nat, shown: nat)
    ensures Progress(0, 0, 0, total, shown, false)
  {}

  lemma RoundedIs(count: nat, total: nat)
    requires total > 0
    ensures Rounded(count, total) == if count * 100 / total == 0 then 1 else count * 100 / total
  {}

  lemma ShownSize(shown: seq<Shown>)
    ensures |Segments(shown)| == |shown|
  {}

  lemma NonEmptyShorter(segments: seq<Segment>)
    ensures |NonEmpty(segments)| <= |segments|
  {
    if segments != [] { NonEmptyShorter(segments[..|segments| - 1]); }
  }

  /** For the registry's four segments no width is off by three or more. */
  lemma WithinThree(shown: seq<Shown>, segments: seq<Segment>, i: nat)
    requires Fair(shown, segments) && |segments| <= 4 && i < |shown|
    ensures Near(shown[i].width, shown[i].segment.count, Total(segments), 3)
  {
    NonEmptyShorter(segments);
    assert |Segments(shown)| == |shown|;
    Scale(Slack(|shown|), 3, Total(segments));
  }

  /** The widths of newRegistryFootprintView. */
  method Widths(segments: seq<Segment>) returns (available: bool, compacted: seq<Shown>)
    ensures available <==> Total(segments) > 0
    ensures !available ==> compacted == []
    ensures available ==> Fair(compacted, segments)
  {
    hide Progress, Near, Total, NonEmpty, TotalWidth, Segments, Slack, Rounded;
    Start(segments);
    var total, nonZero := 0, 0;
    for i := 0 to |segments|
      invariant total == Total(segments[..i]) && nonZero == |NonEmpty(segments[..i])|
    {
      PrefixStep(segments, i);
      total := total + segments[i].count;
      if segments[i].count > 0 {
        nonZero := nonZero + 1;
      }
    }
    assert segments[..|segments|] == segments;
    NonEmptyTotal(segments);
    compacted := [];
    if total == 0 || nonZero == 0 {
      return false, compacted;
    }
    Begin(total, nonZero);
    var remainingWidth, seen := 100, 0;
    ghost var sum, clamped := 0, false;
    for i := 0 to |segments|
      invariant sum == Total(segments[..i]) && Segments(compacted) == NonEmpty(segments[..i]) && seen == |compacted|
      invariant TotalWidth(compacted) == 100 - remainingWidth
      invariant seen < nonZero ==> Progress(seen, sum, 100 - remainingWidth, total, nonZero, clamped)
      invariant seen == nonZero ==> remainingWidth == 0
      invariant forall j :: 0 <= j < |compacted| ==>
                  0 <= compacted[j].width <= 100
                  && Near(compacted[j].width, compacted[j].segment.count, total, Slack(nonZero))
    {
      PrefixStep(segments, i);
      ShownSize(compacted);
      var count := segments[i].count;
      if count <= 0 {
        continue;
      }
      var width := count * 100 / total;
      if width == 0 {
        width := 1;
      }
      if seen + 1 == nonZero || width > remainingWidth {
        width := remainingWidth;
      }
      assert width == NextWidth(seen, 100 - remainingWidth, total, nonZero, count) by { RoundedIs(count, total); }
      clamped := Advance(seen, sum, 100 - remainingWidth, total, nonZero, count, clamped);
      seen := seen + 1;
      remainingWidth := remainingWidth - width;
      Push(compacted, segments[i], width);
      compacted := compacted + [Shown(segments[i], width)];
      sum := sum + count;
    }
    ShownSize(compacted);
    return true, compacted;
  }
}
