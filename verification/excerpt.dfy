/** Bounded windows over a saved page: plain paging, query windows that share
    one budget, and pages of its links. Text is a sequence of characters. */
module Excerpt {
  import opened Common
  import opened Wrappers

  const DEFAULT_LIMIT: nat := 10000
  const MAX_LIMIT: nat := 20000
  const LINKS_PER_PAGE: nat := 12
  const LINK_CHARS: nat := 3000

  datatype Link = Link(url: string, text: string)

  datatype Window = Window(text: string, offset: nat, next: Option<nat>, found: Option<bool>, matchCount: nat,
                           matchOffsets: seq<nat>)

  datatype QueryWindow = QueryWindow(query: string, text: string, offset: nat, next: Option<nat>, found: bool,
                                     matchCount: nat, matchOffsets: seq<nat>)

  function Clamped(limit: int): (n: nat)
    ensures 1 <= n <= MAX_LIMIT
  {
    if limit <= 0 then DEFAULT_LIMIT else Min(limit, MAX_LIMIT)
  }

  function Within(offset: int, n: nat): (o: nat)
    ensures o <= n
  {
    Max(0, Min(offset, n))
  }

  // ---------- matches ----------

  function Folded(lower: char -> char, s: string): (t: string)
    ensures |t| == |s|
  {
    seq(|s|, i requires 0 <= i < |s| => lower(s[i]))
  }

  predicate At(s: string, t: string, i: nat) {
    i + |t| <= |s| && s[i..i + |t|] == t
  }

  /** The first occurrence of t in s at or after from. */
  function FirstFrom(s: string, t: string, from: nat): (r: Option<nat>)
    ensures r.Some? ==> from <= r.value && r.value + |t| <= |s|
    decreases |s| - from
  {
    if from + |t| > |s| then None else if At(s, t, from) || from == |s| then Some(from) else FirstFrom(s, t, from + 1)
  }

  ghost predicate NoneBefore(s: string, t: string, from: nat, to: nat) {
    forall k: nat | from <= k < to :: !At(s, t, k)
  }

  lemma {:induction false} FirstIsFirst(s: string, t: string, from: nat)
    requires |t| > 0
    ensures match FirstFrom(s, t, from)
            case Some(i) => At(s, t, i) && NoneBefore(s, t, from, i)
            case None => NoneBefore(s, t, from, |s| + 1)
    decreases |s| - from
  {
    if from + |t| <= |s| && !At(s, t, from) {
      FirstIsFirst(s, t, from + 1);
    }
  }

  /** Successive non-overlapping occurrences of t in s from a position on. */
  function Matches(s: string, t: string, from: nat): seq<nat>
    requires |t| > 0
    decreases |s| - from
  {
    match FirstFrom(s, t, from)
    case None => []
    case Some(i) => [i] + Matches(s, t, i + |t|)
  }

  lemma SuffixAt(s: string, t: string, from: nat, k: nat)
    requires from <= |s|
    ensures At(s[from..], t, k) <==> At(s, t, from + k)
  {
    if from + k + |t| <= |s| {
      assert s[from..][k..k + |t|] == s[from + k..from + k + |t|];
    }
  }

  /** strings.Index on what remains finds the first occurrence from there on. */
  lemma {:induction false} FirstInSuffix(s: string, t: string, from: nat, k: nat)
    requires |t| > 0 && from + k <= |s|
    ensures FirstFrom(s, t, from + k)
            == match FirstFrom(s[from..], t, k) case None => None case Some(i) => Some(from + i)
    decreases |s| - from - k
  {
    SuffixAt(s, t, from, k);
    if from + k + |t| <= |s| && !At(s, t, from + k) {
      FirstInSuffix(s, t, from, k + 1);
    }
  }

  ghost predicate Genuine(s: string, t: string, from: nat, m: seq<nat>) {
    && (forall i | 0 <= i < |m| :: m[i] >= from && At(s, t, m[i]))
    && (forall i, k | 0 <= i < k < |m| :: m[i] + |t| <= m[k])
  }

  /** Every occurrence from there on overlaps a listed one that starts no later. */
  ghost predicate Covering(s: string, t: string, from: nat, m: seq<nat>) {
    forall p: nat | p >= from && At(s, t, p) :: exists i :: 0 <= i < |m| && m[i] <= p < m[i] + |t|
  }

  lemma GenuineFirst(s: string, t: string, from: nat, i: nat, rest: seq<nat>)
    requires from <= i && At(s, t, i) && Genuine(s, t, i + |t|, rest)
    ensures Genuine(s, t, from, [i] + rest)
  {
    hide At;
    var m := [i] + rest;
    forall k | 0 <= k < |m| ensures m[k] >= from && At(s, t, m[k]) {
      assert k > 0 ==> m[k] == rest[k - 1];
    }
    forall j, k | 0 <= j < k < |m| ensures m[j] + |t| <= m[k] {
      assert m[k] == rest[k - 1] && (j > 0 ==> m[j] == rest[j - 1]);
    }
  }

  lemma CoveringFirst(s: string, t: string, from: nat, i: nat, rest: seq<nat>)
    requires from <= i && NoneBefore(s, t, from, i) && Covering(s, t, i + |t|, rest)
    ensures Covering(s, t, from, [i] + rest)
  {
    hide At;
    var m := [i] + rest;
    forall p: nat | p >= from && At(s, t, p) ensures exists k :: 0 <= k < |m| && m[k] <= p < m[k] + |t| {
      if p < i + |t| {
        assert m[0] <= p < m[0] + |t|;
      } else {
        var k :| 0 <= k < |rest| && rest[k] <= p < rest[k] + |t|;
        assert m[k + 1] == rest[k];
      }
    }
  }

  /** The listed offsets are genuine occurrences in increasing order without
      overlap, and none is missed. */
  lemma {:induction false} MatchesAreExact(s: string, t: string, from: nat)
    requires |t| > 0
    ensures Genuine(s, t, from, Matches(s, t, from)) && Covering(s, t, from, Matches(s, t, from))
    decreases |s| - from
  {
    hide At, Genuine, Covering;
    FirstIsFirst(s, t, from);
    match FirstFrom(s, t, from) {
      case None => NothingFound(s, t, from);
      case Some(i) =>
        MatchesAreExact(s, t, i + |t|);
        GenuineFirst(s, t, from, i, Matches(s, t, i + |t|));
        CoveringFirst(s, t, from, i, Matches(s, t, i + |t|));
    }
  }

  lemma NothingFound(s: string, t: string, from: nat)
    requires |t| > 0 && NoneBefore(s, t, from, |s| + 1)
    ensures Genuine(s, t, from, []) && Covering(s, t, from, [])
  {
    forall p: nat | p >= from ensures !At(s, t, p) {
      assert p > |s| ==> p + |t| > |s|;
    }
  }

  /** The first seven offsets and the last one. */
  function Recorded(m: seq<nat>): seq<nat> {
    if |m| <= 8 then m else m[..7] + [m[|m| - 1]]
  }

  // ---------- one window ----------

  method FindMatches(low: string, needle: string, offset: nat) returns (count: nat, offsets: seq<nat>)
    requires |needle| > 0 && offset <= |low|
    ensures count == |Matches(low, needle, offset)| && offsets == Recorded(Matches(low, needle, offset))
  {
    hide Recorded, FirstFrom, Matches, Found, At;
    ghost var seen: seq<nat> := [];
    count, offsets := 0, [];
    NothingFoundYet(low, needle, offset);
    var remaining := low[offset..];
    var position: nat := offset;
    while true
      invariant position <= |low| && Found(low, needle, offset, seen, position)
      invariant remaining == low[position..] && count == |seen| && offsets == Recorded(seen)
      decreases |remaining|
    {
      var index := FirstFrom(remaining, needle, 0);
      FoundNext(low, needle, offset, seen, position);
      if index.None? {
        return;
      }
      DropTwice(low, position, index.value + |needle|);
      position := position + index.value;
      count := count + 1;
      RecordedNext(seen, position);
      if |offsets| < 8 {
        offsets := offsets + [position];
      } else {
        offsets := offsets[7 := position];
      }
      seen := seen + [position];
      remaining := remaining[index.value + |needle|..];
      position := position + |needle|;
    }
  }

  /** seen lists the matches up to position; the others are still to come. */
  ghost predicate Found(s: string, t: string, from: nat, seen: seq<nat>, position: nat)
    requires |t| > 0
  {
    position <= |s| && Matches(s, t, from) == seen + Matches(s, t, position)
  }

  lemma NothingFoundYet(s: string, t: string, from: nat)
    requires |t| > 0 && from <= |s|
    ensures Found(s, t, from, [], from) && Recorded([]) == []
  {
    assert [] + Matches(s, t, from) == Matches(s, t, from);
  }

  lemma DropTwice(s: string, a: nat, b: nat)
    requires a + b <= |s|
    ensures s[a..][b..] == s[a + b..]
  {
  }

  lemma FoundNext(s: string, t: string, from: nat, seen: seq<nat>, position: nat)
    requires |t| > 0 && Found(s, t, from, seen, position)
    ensures position <= |s|
    ensures match FirstFrom(s[position..], t, 0)
            case None => Matches(s, t, from) == seen
            case Some(i) => position + i + |t| <= |s| && Found(s, t, from, seen + [position + i], position + i + |t|)
  {
    hide Matches, FirstFrom, At;
    FirstInSuffix(s, t, position, 0);
    MatchesUnfold(s, t, position);
    match FirstFrom(s, t, position) {
      case None => assert seen + [] == seen;
      case Some(i) => assert seen + ([i] + Matches(s, t, i + |t|)) == (seen + [i]) + Matches(s, t, i + |t|);
    }
  }

  lemma MatchesUnfold(s: string, t: string, from: nat)
    requires |t| > 0
    ensures Matches(s, t, from)
            == match FirstFrom(s, t, from) case None => [] case Some(i) => [i] + Matches(s, t, i + |t|)
  {
  }

  lemma RecordedNext(m: seq<nat>, p: nat)
    ensures |Recorded(m)| <= 8
    ensures |Recorded(m)| < 8 ==> Recorded(m + [p]) == Recorded(m) + [p]
    ensures |Recorded(m)| >= 8 ==> |Recorded(m)| == 8 && Recorded(m + [p]) == Recorded(m)[7 := p]
  {
    assert |m| >= 8 ==> (m + [p])[..7] == m[..7];
  }

  lemma FirstRecorded(low: string, needle: string, from: nat)
    requires |needle| > 0 && Matches(low, needle, from) != []
    ensures var m := Matches(low, needle, from);
            Recorded(m) != [] && Recorded(m)[0] == m[0] && from <= m[0] < |low|
  {
  }

  /** The window's text is a stretch of the page, n characters of it or up to its end, with
      a next offset exactly when the page goes on. */
  ghost predicate Stretch(page: string, n: nat, w: Window) {
    && w.offset + |w.text| <= |page| && w.text == page[w.offset..w.offset + |w.text|]
    && |w.text| == Min(n, |page| - w.offset)
    && w.next == if w.offset + |w.text| < |page| then Some(w.offset + |w.text|) else None
  }

  /** A query's window reports its matches from start on, and starts so that it
      contains the start of the first. */
  ghost predicate Answers(page: string, start: nat, lower: char -> char, query: string, n: nat, w: Window)
    requires |query| > 0
  {
    var m := Matches(Folded(lower, page), Folded(lower, query), start);
    && w.found == Some(|m| > 0) && w.matchCount == |m| && w.matchOffsets == Recorded(m)
    && (|m| > 0 ==> w.offset <= m[0] < w.offset + |w.text| && w.offset == Max(0, m[0] - n / 4))
    && (|m| == 0 ==> w.offset == start)
  }

  method ExcerptBrowserFetch(page: string, offset: int, limit: int, query: string, lower: char -> char)
    returns (w: Window)
    ensures Stretch(page, Clamped(limit), w)
    ensures Clamped(limit) == if limit <= 0 then 10_000 else if limit > 20_000 then 20_000 else limit
    ensures |query| == 0 ==>
              w == Page(page, Within(offset, |page|), Clamped(limit))
              && w.offset == if offset < 0 then 0 else if offset > |page| then |page| else offset
    ensures |query| > 0 ==> Answers(page, Within(offset, |page|), lower, query, Clamped(limit), w)
  {
    hide Matches, Recorded;
    var n := Clamped(limit);
    var start := Within(offset, |page|);
    var found: Option<bool>, count: nat, offsets: seq<nat> := None, 0, [];
    if |query| > 0 {
      var low, needle := Folded(lower, page), Folded(lower, query);
      count, offsets := FindMatches(low, needle, start);
      found := Some(count > 0);
      if count > 0 {
        FirstRecorded(low, needle, start);
        var first: int := offsets[0];
        start := Max(0, first - n / 4);
      }
    }
    var end := Min(|page|, start + n);
    var next := if end < |page| then Some(end) else None;
    w := Window(page[start..end], start, next, found, count, offsets);
    WindowShows(page, start, n, w);
  }

  lemma WindowShows(page: string, start: nat, n: nat, w: Window)
    requires start <= |page| && w.offset == start && w.text == page[start..Min(|page|, start + n)]
    requires w.next == if Min(|page|, start + n) < |page| then Some(Min(|page|, start + n)) else None
    ensures Stretch(page, n, w) && start + |w.text| == Min(|page|, start + n)
  {
  }

  // ---------- paging through the text ----------

  function Page(page: string, offset: nat, n: nat): Window
    requires offset <= |page|
  {
    var end := Min(|page|, offset + n);
    Window(page[offset..end], offset, if end < |page| then Some(end) else None, None, 0, [])
  }

  /** The texts met by following next offsets. */
  function Reading(page: string, offset: nat, n: nat): seq<string>
    requires offset <= |page| && n > 0
    decreases |page| - offset
  {
    var w := Page(page, offset, n);
    [w.text] + if w.next.Some? then Reading(page, w.next.value, n) else []
  }

  /** Following the next offsets from any point reads the rest of the page
      exactly once and comes to an end. */
  lemma {:induction false} ReadingIsExact(page: string, offset: nat, n: nat)
    requires offset <= |page| && n > 0
    ensures Concat(Reading(page, offset, n)) == page[offset..]
    ensures var r := Reading(page, offset, n);
            r != [] && (forall i | 0 <= i < |r| - 1 :: |r[i]| == n) && (offset < |page| ==> 0 < |r[|r| - 1]| <= n)
    decreases |page| - offset
  {
    var w := Page(page, offset, n);
    if w.next.Some? {
      ReadingIsExact(page, w.next.value, n);
      var rest := Reading(page, w.next.value, n);
      assert ([w.text] + rest)[1..] == rest;
      assert page[offset..] == page[offset..offset + n] + page[offset + n..];
    } else {
      assert [w.text][1..] == [] && w.text + [] == w.text;
    }
  }

  // ---------- several queries, one budget ----------

  function Used(windows: seq<QueryWindow>): nat {
    if windows == [] then 0 else Used(windows[..|windows| - 1]) + |windows[|windows| - 1].text|
  }

  /** What one query's window shows, given its share of the budget: its part of
      the page if the query was found, nothing if it was missed. */
  ghost predicate Reports(page: string, start: nat, lower: char -> char, query: string, share: nat, w: QueryWindow)
    requires |query| > 0
  {
    var m := Matches(Folded(lower, page), Folded(lower, query), start);
    && w.query == query && (w.found <==> |m| > 0) && w.matchCount == |m| && w.matchOffsets == Recorded(m)
    && w.offset + |w.text| <= |page| && w.text == page[w.offset..w.offset + |w.text|]
    && (w.found && share > 0 ==>
          w.offset == Max(0, m[0] - share / 4) && |w.text| == Min(share, |page| - w.offset)
          && w.offset <= m[0] < w.offset + |w.text|
          && w.next == if w.offset + |w.text| < |page| then Some(w.offset + |w.text|) else None)
    && (!w.found ==> w.next.None?) && (!w.found || share == 0 ==> w.text == "")
  }

  function Reported(query: string, part: Window, budget: nat): QueryWindow {
    var found := part.found == Some(true);
    QueryWindow(query, if found && budget > 0 then part.text else "", part.offset, if found then part.next else None,
                found, part.matchCount, part.matchOffsets)
  }

  lemma PartReports(page: string, start: nat, lower: char -> char, query: string, budget: nat, part: Window)
    requires |query| > 0 && Stretch(page, Max(1, budget), part)
             && Answers(page, start, lower, query, Max(1, budget), part)
    ensures Reports(page, start, lower, query, budget, Reported(query, part, budget))
  {
    hide Matches, Recorded, Folded;
    assert page[part.offset..part.offset] == "";
  }

  datatype Response = Response(text: string, offset: nat, next: Option<nat>, windows: seq<QueryWindow>)

  method AnswerEach(page: string, offset: int, n: nat, queries: seq<string>, lower: char -> char)
    returns (windows: seq<QueryWindow>)
    requires n <= MAX_LIMIT && |queries| > 0 && forall i | 0 <= i < |queries| :: |queries[i]| > 0
    ensures |windows| == |queries| && Used(windows) <= n
    ensures forall i | 0 <= i < |queries| ::
              Reports(page, Within(offset, |page|), lower, queries[i], Share(n, |queries|, i), windows[i])
  {
    hide Stretch, Answers, Reports, Share, Shares, Within, Clamped, Used, Matches, FirstFrom, At, Folded, Recorded,
         Page, Concat, Reported;
    windows := [];
    assert Used([]) == 0 == Shares(n, |queries|, 0) by { NothingUsed(n, |queries|); }
    for i := 0 to |queries|
      invariant |windows| == i
      invariant forall k | 0 <= k < i ::
                  Reports(page, Within(offset, |page|), lower, queries[k], Share(n, |queries|, k), windows[k])
      invariant Used(windows) <= Shares(n, |queries|, i)
    {
      var budget := Share(n, |queries|, i);
      ShareFits(n, |queries|, i);
      var part := ExcerptBrowserFetch(page, offset, Max(1, budget), queries[i], lower);
      ClampedShare(Max(1, budget));
      PartReports(page, Within(offset, |page|), lower, queries[i], budget, part);
      var w := Reported(queries[i], part, budget);
      ReportFits(page, Within(offset, |page|), lower, queries[i], budget, w);
      UsedMore(windows, w);
      windows := windows + [w];
    }
    SharesAreTheBudget(n, |queries|);
  }

  lemma NothingUsed(limit: nat, n: nat)
    requires n > 0
    ensures Used([]) == 0 == Shares(limit, n, 0)
  {
  }

  lemma UsedMore(windows: seq<QueryWindow>, w: QueryWindow)
    ensures Used(windows + [w]) == Used(windows) + |w.text|
  {
    assert (windows + [w])[..|windows|] == windows;
  }

  lemma ClampedShare(n: nat)
    requires 1 <= n <= MAX_LIMIT
    ensures Clamped(n) == n
  {
  }

  /** Every window and the overview together stay within the clamped limit; each
      found window with a positive share contains the start of its first match;
      a miss shows nothing, and leaves its share to the overview. */
  method ExcerptBrowserFetchQueries(page: string, offset: int, limit: int, queries: seq<string>, lower: char -> char)
    returns (out: Response)
    requires |queries| > 0 && forall i | 0 <= i < |queries| :: |queries[i]| > 0
    ensures |out.windows| == |queries|
    ensures forall i | 0 <= i < |queries| ::
              Reports(page, Within(offset, |page|), lower, queries[i], Share(Clamped(limit), |queries|, i),
                      out.windows[i])
    ensures Used(out.windows) + |out.text| <= Clamped(limit)
    ensures Used(out.windows) < Clamped(limit) ==>
              var p := Page(page, Within(offset, |page|), Clamped(limit) - Used(out.windows));
              out.text == p.text && out.offset == p.offset && out.next == p.next
  {
    hide Share, Shares, Reports, Used, Answers;
    var n := Clamped(limit);
    var windows := AnswerEach(page, offset, n, queries, lower);
    var used := CountUsed(windows);
    out := Response("", windows[0].offset, None, windows);
    if n - used > 0 {
      ClampedShare(n - used);
      var preview := ExcerptBrowserFetch(page, offset, n - used, "", lower);
      out := out.(text := preview.text, offset := preview.offset, next := preview.next);
    }
  }

  lemma ReportFits(page: string, start: nat, lower: char -> char, query: string, share: nat, w: QueryWindow)
    requires |query| > 0 && Reports(page, start, lower, query, share, w)
    ensures |w.text| <= share
  {
  }

  method CountUsed(windows: seq<QueryWindow>) returns (used: nat)
    ensures used == Used(windows)
  {
    used := 0;
    for i := 0 to |windows|
      invariant used == Used(windows[..i])
    {
      assert windows[..i + 1][..i] == windows[..i];
      used := used + |windows[i].text|;
    }
    assert windows[..|windows|] == windows;
  }

  // ---------- links ----------

  function Size(l: Link): nat {
    |l.url| + |l.text|
  }

  function Chars(links: seq<Link>, from: nat, to: nat): nat
    requires from <= to <= |links|
  {
    if from == to then 0 else Chars(links, from, to - 1) + Size(links[to - 1])
  }

  /** One page of links: from offset to end, at least one if any is left, at most
      twelve and 3000 characters unless a single link is longer, and no page that
      could have taken one more. */
  ghost predicate LinkPage(links: seq<Link>, offset: nat, end: nat) {
    && offset <= end <= |links| && end - offset <= 12
    && (offset < |links| ==> offset < end)
    && (Chars(links, offset, end) <= 3000 || end == offset + 1)
    && (end < |links| && end - offset < 12 ==> Chars(links, offset, end) + Size(links[end]) > 3000)
  }

  method ExcerptBrowserLinks(links: seq<Link>, offset: int) returns (shown: seq<Link>, start: nat, next: Option<nat>)
    ensures start == Within(offset, |links|) && LinkPage(links, start, start + |shown|)
    ensures shown == links[start..start + |shown|]
    ensures next == if start + |shown| < |links| then Some(start + |shown|) else None
  {
    start := Within(offset, |links|);
    var end, chars := start, 0;
    while end < |links| && end - start < LINKS_PER_PAGE
      invariant start <= end <= |links| && end - start <= LINKS_PER_PAGE && chars == Chars(links, start, end)
      invariant chars <= LINK_CHARS || end == start + 1
    {
      var size := Size(links[end]);
      if end > start && chars + size > LINK_CHARS {
        break;
      }
      chars := chars + size;
      end := end + 1;
    }
    shown := links[start..end];
    next := if end < |links| then Some(end) else None;
  }

  /** A page is determined by where it starts. */
  lemma LinkPageIsUnique(links: seq<Link>, offset: nat, a: nat, b: nat)
    requires LinkPage(links, offset, a) && LinkPage(links, offset, b)
    ensures a == b
  {
    if a < b {
      CharsGrow(links, offset, a + 1, b);
    } else if b < a {
      CharsGrow(links, offset, b + 1, a);
    }
  }

  lemma {:induction false} CharsGrow(links: seq<Link>, from: nat, a: nat, b: nat)
    requires from <= a <= b <= |links|
    ensures Chars(links, from, a) <= Chars(links, from, b)
    decreases b - a
  {
    if a < b {
      CharsGrow(links, from, a, b - 1);
    }
  }

  /** Following next offsets from 0 lists every link exactly once and ends. */
  method ReadAllLinks(links: seq<Link>) returns (pages: seq<seq<Link>>)
    ensures Concat(pages) == links
    ensures |pages| <= Max(1, |links|)
  {
    pages := [];
    var at := Some(0);
    while at.Some?
      invariant at.Some? ==>
                  at.value <= |links| && Concat(pages) == links[..at.value] && |pages| <= at.value
                  && (pages == [] || at.value < |links|)
      invariant at.None? ==> Concat(pages) == links && |pages| <= Max(1, |links|)
      decreases if at.Some? then |links| + 1 - at.value else 0
    {
      var shown, start, next := ExcerptBrowserLinks(links, at.value);
      ConcatSnoc(pages, shown);
      assert links[..start] + shown == links[..start + |shown|];
      pages := pages + [shown];
      at := next;
      assert links[..|links|] == links;
    }
  }
}
