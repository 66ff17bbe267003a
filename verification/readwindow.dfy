/** The part of a long source shown to the auditor: the passage the researcher
    read, cut at character boundaries. Text is bytes; offsets count characters. */
module ReadWindow {
  import opened Common
  import opened Refs

  const MAX_WINDOWS: nat := 7

  /** A UTF-8 continuation byte. */
  predicate Continues(b: Byte) {
    128 <= b < 192
  }

  /** Byte i starts a character, or is the end of the text. */
  predicate Boundary(text: Bytes, i: nat) {
    i == 0 || i >= |text| || !Continues(text[i])
  }

  predicate LongRun(text: Bytes, i: nat) {
    i + 3 < |text| && Continues(text[i]) && Continues(text[i + 1]) && Continues(text[i + 2]) && Continues(text[i + 3])
  }

  /** Valid UTF-8 has at most three continuation bytes in a row. */
  ghost predicate ShortRuns(text: Bytes) {
    forall i: nat :: !LongRun(text, i)
  }

  /** Where character number n starts, at or after byte i with so many characters
      before it; the end if there are not that many. width is that of the
      character starting at a byte, as decoding finds it. */
  function ByteOffset(text: Bytes, width: nat -> nat, n: int, i: nat, chars: nat): nat
    decreases |text| - i
  {
    if i >= |text| then |text|
    else if chars >= n then i
    else ByteOffset(text, width, n, i + Max(1, width(i)), chars + 1)
  }

  /** start..end is shown; a marker stands on a side that was cut. */
  datatype Window = Window(start: nat, end: nat)

  /** The last boundary at or before i, not before floor. */
  function BackTo(text: Bytes, i: nat, floor: nat): (r: nat)
    requires floor <= i <= |text|
    ensures floor <= r <= i && (r == floor || r == |text| || !Continues(text[r]))
    ensures forall k | r < k <= i && k < |text| :: Continues(text[k])
  {
    if i > floor && i < |text| && Continues(text[i]) then BackTo(text, i - 1, floor) else i
  }

  function Shown(text: Bytes, budget: nat, offset: nat): Window
    requires |text| > budget && offset <= |text|
  {
    var start := BackTo(text, Max(0, Min(offset - budget / 4, |text| - budget)), 0);
    Window(start, BackTo(text, Min(|text|, start + budget), start))
  }

  /** The character count of groundingReadWindow. */
  method FindByteOffset(text: Bytes, width: nat -> nat, readOffset: int) returns (offset: nat)
    requires forall i: nat :: width(i) >= 1
    ensures offset == ByteOffset(text, width, readOffset, 0, 0) <= |text|
  {
    var index: nat, chars: nat := 0, 0;
    while index < |text|
      invariant ByteOffset(text, width, readOffset, 0, 0) == ByteOffset(text, width, readOffset, index, chars)
      decreases |text| - index
    {
      if chars >= readOffset {
        return index;
      }
      chars := chars + 1;
      index := index + width(index);
    }
    return |text|;
  }

  method StepBack(text: Bytes, i: nat, floor: nat) returns (r: nat)
    requires floor <= i <= |text|
    ensures r == BackTo(text, i, floor)
  {
    r := i;
    while r > floor && r < |text| && Continues(text[r])
      invariant floor <= r <= i && BackTo(text, i, floor) == BackTo(text, r, floor)
      decreases r
    {
      r := r - 1;
    }
  }

  /** groundingReadWindow. */
  method GroundingReadWindow(text: Bytes, width: nat -> nat, budget: nat, readOffset: int) returns (w: Window)
    requires forall i: nat :: width(i) >= 1
    ensures |text| <= budget ==> w == Window(0, |text|)
    ensures |text| > budget ==>
              ByteOffset(text, width, readOffset, 0, 0) <= |text|
                && w == Shown(text, budget, ByteOffset(text, width, readOffset, 0, 0))
  {
    hide ByteOffset, BackTo;
    if |text| <= budget {
      return Window(0, |text|);
    }
    var offset := FindByteOffset(text, width, readOffset);
    var start := StepBack(text, Max(0, Min(offset - budget / 4, |text| - budget)), 0);
    var end := StepBack(text, Min(|text|, start + budget), start);
    w := Window(start, end);
  }

  /** Where the characters of a text start, all of them in order. */
  ghost predicate CharacterStarts(text: Bytes, width: nat -> nat, starts: seq<nat>) {
    && (starts == [] <==> text == []) && (starts != [] ==> starts[0] == 0)
    && (forall i | 0 <= i < |starts| :: starts[i] < |text|)
    && (forall i | 0 < i < |starts| :: starts[i] == starts[i - 1] + width(starts[i - 1]))
    && (starts != [] ==> starts[|starts| - 1] + width(starts[|starts| - 1]) >= |text|)
  }

  /** The place found for a character is the byte where it starts, or the end of the text
      if it has no such character. */
  lemma PlaceIsTheCharacter(text: Bytes, width: nat -> nat, starts: seq<nat>, n: int)
    requires (forall i: nat :: width(i) >= 1) && CharacterStarts(text, width, starts)
    ensures ByteOffset(text, width, n, 0, 0)
            == if 0 <= n < |starts| then starts[n] else if n < 0 then 0 else |text|
  {
    if text != [] {
      CountsOn(text, width, starts, n, 0);
    }
  }

  lemma {:induction false} CountsOn(text: Bytes, width: nat -> nat, starts: seq<nat>, n: int, k: nat)
    requires (forall i: nat :: width(i) >= 1) && CharacterStarts(text, width, starts) && k < |starts|
    ensures ByteOffset(text, width, n, starts[k], k)
            == if n <= k then starts[k] else if n < |starts| then starts[n] else |text|
    decreases |starts| - k
  {
    if n > k && k + 1 < |starts| {
      assert starts[k + 1] == starts[k] + width(starts[k]);
      CountsOn(text, width, starts, n, k + 1);
    }
  }

  /** Every text has its list of characters. */
  lemma StartsExist(text: Bytes, width: nat -> nat) returns (starts: seq<nat>)
    requires forall i: nat :: width(i) >= 1
    ensures CharacterStarts(text, width, starts)
  {
    starts := [];
    if text != [] {
      starts := [0];
      while starts[|starts| - 1] + width(starts[|starts| - 1]) < |text|
        invariant starts != [] && starts[0] == 0 && (forall i | 0 <= i < |starts| :: starts[i] < |text|)
        invariant forall i | 0 < i < |starts| :: starts[i] == starts[i - 1] + width(starts[i - 1])
        decreases |text| - starts[|starts| - 1]
      {
        starts := starts + [starts[|starts| - 1] + width(starts[|starts| - 1])];
      }
    }
  }

  /** Exactly which bytes are shown: from the last boundary at or before a quarter of the
      budget ahead of the place, or before a budget's length from the end, to the last
      boundary within the budget. */
  lemma WindowIsExact(text: Bytes, budget: nat, offset: nat)
    requires |text| > budget && offset <= |text|
    ensures var w := Shown(text, budget, offset);
            var lead := if offset < budget / 4 then 0
                        else if offset - budget / 4 > |text| - budget then |text| - budget else offset - budget / 4;
            var room := if w.start + budget > |text| then |text| else w.start + budget;
            && w.start <= lead && Boundary(text, w.start) && (forall k: nat | w.start < k <= lead :: !Boundary(text, k))
            && w.start <= w.end <= room && (w.end == w.start || Boundary(text, w.end))
            && (forall k: nat | w.end < k <= room :: !Boundary(text, k))
  {
    hide Boundary;
    var w := Shown(text, budget, offset);
    BackToLast(text, Max(0, Min(offset - budget / 4, |text| - budget)), 0);
    BackToLast(text, Min(|text|, w.start + budget), w.start);
    assert Boundary(text, 0) by { StartIsBoundary(text); }
  }

  lemma StartIsBoundary(text: Bytes)
    ensures Boundary(text, 0)
  {
  }

  lemma BackToLast(text: Bytes, i: nat, floor: nat)
    requires floor <= i <= |text|
    ensures var r := BackTo(text, i, floor);
            floor <= r <= i && (r == floor || Boundary(text, r)) && forall k: nat | r < k <= i :: !Boundary(text, k)
  {
    var r := BackTo(text, i, floor);
    assert i == |text| ==> r == i;
  }

  /** At most the budget is shown, never splitting a character, from before the
      place that was read. */
  lemma WindowIsClean(text: Bytes, budget: nat, offset: nat)
    requires |text| > budget && offset <= |text|
    ensures var w := Shown(text, budget, offset);
            && w.start <= w.end <= |text| && w.end - w.start <= budget && w.start <= offset
            && Boundary(text, w.start) && (Boundary(text, w.end) || w.end == w.start)
  {
  }

  lemma ShortStepBack(text: Bytes, i: nat, floor: nat)
    requires floor <= i <= |text| && ShortRuns(text)
    ensures i - BackTo(text, i, floor) <= 3
  {
    var r := BackTo(text, i, floor);
    assert i - r > 3 ==> LongRun(text, i - 3);
  }

  /** Whether the place that was read is inside its window. */
  predicate ShowsPlace(text: Bytes, budget: nat, offset: nat)
    requires |text| > budget && offset <= |text|
  {
    var w := Shown(text, budget, offset);
    w.start <= offset < w.end
  }

  /** When the window is aligned to the end of the text, where it ends. */
  function TailEnd(text: Bytes, budget: nat): nat
    requires |text| > budget
  {
    var start := BackTo(text, |text| - budget, 0);
    BackTo(text, start + budget, start)
  }

  lemma TailFacts(text: Bytes, budget: nat)
    requires |text| > budget >= 9 && ShortRuns(text)
    ensures |text| - budget - 3 <= BackTo(text, |text| - budget, 0) <= |text| - budget
    ensures |text| - 6 <= TailEnd(text, budget) <= |text|
    ensures Boundary(text, |text| - budget) ==> TailEnd(text, budget) == |text|
  {
    var tail := BackTo(text, |text| - budget, 0);
    ShortStepBack(text, |text| - budget, 0);
    ShortStepBack(text, tail + budget, tail);
  }

  /** A place far enough from the end: the window is led in by a quarter. */
  lemma EarlyPlaceIsShown(text: Bytes, budget: nat, offset: nat)
    requires |text| > budget >= 9 && ShortRuns(text) && offset - budget / 4 < |text| - budget && offset < |text|
    ensures ShowsPlace(text, budget, offset)
  {
    var first := Max(0, offset - budget / 4);
    var start := BackTo(text, first, 0);
    var last := Min(|text|, start + budget);
    ShortStepBack(text, first, 0);
    ShortStepBack(text, last, start);
    hide BackTo;
    assert Shown(text, budget, offset) == Window(start, BackTo(text, last, start));
  }

  lemma LatePlace(text: Bytes, budget: nat, offset: nat)
    requires |text| > budget && offset - budget / 4 >= |text| - budget && offset <= |text|
    ensures Shown(text, budget, offset) == Window(BackTo(text, |text| - budget, 0), TailEnd(text, budget))
  {
    hide BackTo;
  }

  /** In valid text the place that was read is shown exactly if a window aligned to
      the end needs no step back, or the place lies before that window's end. The
      smallest budget the auditor's selection hands out is far above nine bytes. */
  lemma ReadPlaceIsShownExactlyWhen(text: Bytes, budget: nat, offset: nat)
    requires |text| > budget >= 9 && ShortRuns(text) && offset < |text|
    ensures ShowsPlace(text, budget, offset) <==> Boundary(text, |text| - budget) || offset < TailEnd(text, budget)
  {
    TailFacts(text, budget);
    if offset - budget / 4 < |text| - budget {
      EarlyPlaceIsShown(text, budget, offset);
    } else {
      LatePlace(text, budget, offset);
    }
    hide BackTo, TailEnd, Shown;
  }

  /** So only a place in the last six bytes can be missed. */
  lemma EarlierPlacesAreShown(text: Bytes, budget: nat, offset: nat)
    requires |text| > budget >= 9 && ShortRuns(text) && offset + 6 < |text|
    ensures ShowsPlace(text, budget, offset)
  {
    ReadPlaceIsShownExactlyWhen(text, budget, offset);
    TailFacts(text, budget);
  }

  /** And one can, whatever the budget: reading the last character of this text
      shows neither it nor the one before. */
  lemma LastPlaceCanBeCut(budget: nat)
    requires budget >= 9
    ensures var text := [97, 228, 184, 173] + seq(budget - 1, _ => 97);
            && ShortRuns(text) && |text| == budget + 3
            && Shown(text, budget, budget + 2) == Window(1, budget + 1) && !ShowsPlace(text, budget, budget + 2)
  {
    var text: Bytes := [97, 228, 184, 173] + seq(budget - 1, _ => 97);
    assert BackTo(text, 1, 0) == 1 && BackTo(text, 2, 0) == 1 && BackTo(text, 3, 0) == 1;
    assert text[budget + 1] == 97 && BackTo(text, 1 + budget, 1) == 1 + budget;
    LatePlace(text, budget, budget + 2);
  }

  // ---------- several recorded places ----------

  function Distinct7(offsets: seq<nat>, n: nat): seq<nat>
    requires n <= |offsets|
  {
    if n == 0 then [] else
      var d := Distinct7(offsets, n - 1);
      if |d| == MAX_WINDOWS || offsets[n - 1] in d then d else d + [offsets[n - 1]]
  }

  /** The first seven distinct places, as the loop collects them. */
  method CollectOffsets(values: seq<nat>) returns (offsets: seq<nat>)
    ensures offsets == Distinct7(values, |values|)
  {
    offsets := [];
    var i := 0;
    while i < |values|
      invariant i <= |values| && offsets == Distinct7(values, i) && |offsets| < MAX_WINDOWS
    {
      if values[i] !in offsets {
        offsets := offsets + [values[i]];
      }
      i := i + 1;
      if |offsets| == MAX_WINDOWS {
        Distinct7Full(values, i, |values|);
        return;
      }
    }
  }

  lemma {:induction false} Distinct7Full(values: seq<nat>, i: nat, n: nat)
    requires i <= n <= |values| && |Distinct7(values, i)| == MAX_WINDOWS
    ensures Distinct7(values, n) == Distinct7(values, i)
  {
    if i < n {
      Distinct7Full(values, i, n - 1);
    }
  }

  lemma {:induction false} CollectedAreDistinct(values: seq<nat>, n: nat)
    requires n <= |values|
    ensures var d := Distinct7(values, n);
            |d| <= 7 && Distinct(d) && (forall x | x in d :: x in values[..n])
            && (|d| < 7 ==> forall x | x in values[..n] :: x in d)
  {
    if n > 0 {
      CollectedAreDistinct(values, n - 1);
      assert values[..n] == values[..n - 1] + [values[n - 1]];
    }
  }

  /** They are taken in order, the first seen first. */
  lemma {:induction false} CollectedInOrder(values: seq<nat>, m: nat, n: nat)
    requires m <= n <= |values|
    ensures Distinct7(values, m) <= Distinct7(values, n)
  {
    if m < n {
      CollectedInOrder(values, m, n - 1);
    }
  }

  function Lengths(windows: seq<Window>): int {
    if windows == [] then 0 else
      var last := windows[|windows| - 1];
      Lengths(windows[..|windows| - 1]) + last.end - last.start
  }

  lemma LengthsMore(windows: seq<Window>, w: Window)
    ensures Lengths(windows + [w]) == Lengths(windows) + w.end - w.start
  {
    assert (windows + [w])[..|windows|] == windows;
  }

  /** The i-th of n passages: the window around its place within its share. */
  ghost predicate Passage(text: Bytes, width: nat -> nat, budget: nat, n: nat, i: nat, place: nat, w: Window)
    requires n > 0
  {
    Share(budget, n, i) < |text| && w == Shown(text, Share(budget, n, i), Place(text, width, place))
  }

  /** The passages so far, one for each place in order. */
  ghost predicate Passages(text: Bytes, width: nat -> nat, budget: nat, places: seq<nat>, windows: seq<Window>)
    requires |windows| <= |places|
  {
    forall k | 0 <= k < |windows| :: Passage(text, width, budget, |places|, k, places[k], windows[k])
  }

  lemma PassagesMore(text: Bytes, width: nat -> nat, budget: nat, places: seq<nat>, windows: seq<Window>, w: Window)
    requires |windows| < |places| && Passages(text, width, budget, places, windows)
    requires Passage(text, width, budget, |places|, |windows|, places[|windows|], w)
    ensures Passages(text, width, budget, places, windows + [w])
            && Lengths(windows + [w]) == Lengths(windows) + w.end - w.start
  {
    hide Passage;
    LengthsMore(windows, w);
  }

  /** groundingDocumentWindow for valid recorded places: each gets an even share of
      the budget, and together the passages show at most the budget. */
  method GroundingDocumentWindow(text: Bytes, width: nat -> nat, budget: nat, values: seq<nat>)
    returns (windows: seq<Window>)
    requires (forall i: nat :: width(i) >= 1) && |text| > budget && |values| > 0
    ensures var places := Distinct7(values, |values|);
            |windows| == |places| > 0 && Lengths(windows) <= budget && Passages(text, width, budget, places, windows)
  {
    hide Distinct7, Share, Shares, Passage, Passages, Lengths;
    var offsets := CollectOffsets(values);
    SomePlace(values, |values|);
    windows := [];
    assert Passages(text, width, budget, offsets, []) by { NoPassages(text, width, budget, offsets); }
    NoShares(budget, |offsets|);
    for i := 0 to |offsets|
      invariant |windows| == i && Lengths(windows) <= Shares(budget, |offsets|, i)
      invariant Passages(text, width, budget, offsets, windows)
    {
      var w := ReadPassage(text, width, budget, |offsets|, i, offsets[i]);
      PassagesMore(text, width, budget, offsets, windows, w);
      windows := windows + [w];
    }
    SharesAreTheBudget(budget, |offsets|);
  }

  lemma NoPassages(text: Bytes, width: nat -> nat, budget: nat, places: seq<nat>)
    ensures Passages(text, width, budget, places, [])
  {
  }

  lemma {:induction false} SomePlace(values: seq<nat>, n: nat)
    requires 0 < n <= |values|
    ensures |Distinct7(values, n)| > 0
  {
    if n > 1 {
      SomePlace(values, n - 1);
    }
  }

  method ReadPassage(text: Bytes, width: nat -> nat, budget: nat, n: nat, i: nat, place: nat) returns (w: Window)
    requires (forall i: nat :: width(i) >= 1) && i < n && |text| > budget
    ensures Passage(text, width, budget, n, i, place, w)
    ensures 0 <= w.end - w.start <= Shares(budget, n, i + 1) - Shares(budget, n, i)
  {
    hide Share, Shares, Shown, ByteOffset, Passage;
    ShareFits(budget, n, i);
    w := GroundingReadWindow(text, width, Share(budget, n, i), place);
    IsPassage(text, width, budget, n, i, place, w);
  }

  lemma IsPassage(text: Bytes, width: nat -> nat, budget: nat, n: nat, i: nat, place: nat, w: Window)
    requires i < n && Share(budget, n, i) <= budget < |text|
    requires ByteOffset(text, width, place, 0, 0) <= |text|
             && w == Shown(text, Share(budget, n, i), ByteOffset(text, width, place, 0, 0))
    ensures Passage(text, width, budget, n, i, place, w) && 0 <= w.end - w.start <= Share(budget, n, i)
  {
    WindowIsClean(text, Share(budget, n, i), ByteOffset(text, width, place, 0, 0));
  }

  /** The byte where a recorded character starts. */
  function Place(text: Bytes, width: nat -> nat, n: nat): (p: nat)
    ensures p <= |text|
  {
    Min(ByteOffset(text, width, n, 0, 0), |text|)
  }

  lemma NoShares(budget: nat, n: nat)
    requires n > 0
    ensures Shares(budget, n, 0) == 0 == Lengths([])
  {
  }
}
