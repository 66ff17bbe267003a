/** Which fetched documents the citation auditor reads, and how much of each. */
module Grounding {
  import opened Common

  type Url = nat

  /** One recorded fetch; length is that of its text. */
  datatype Row = Row(url: Url, length: nat, id: nat)

  datatype Shown = Shown(doc: Row, cited: bool, window: nat)

  datatype Stats = Stats(rows: nat, unique: nat, cited: nat, included: nat, omitted: nat, truncated: nat)

  const PER_DOC_CAP: nat := 25_000
  const CITED_DOC_CAP: nat := 60_000
  const TOTAL_BUDGET: nat := 250_000
  const MIN_WINDOW: nat := 4_000

  // ---------- deduplication ----------

  function IndexOf(docs: seq<Row>, url: Url): (i: nat)
    ensures i <= |docs| && (i < |docs| ==> docs[i].url == url)
            && (i == |docs| ==> forall k | 0 <= k < |docs| :: docs[k].url != url)
  {
    if docs == [] then 0 else if docs[0].url == url then 0 else 1 + IndexOf(docs[1..], url)
  }

  /** One row per URL of the first n, in order of first sight, each the newest. */
  function Newest(rows: seq<Row>, n: nat): seq<Row>
    requires n <= |rows|
  {
    if n == 0 then [] else
      var docs := Newest(rows, n - 1);
      var i := IndexOf(docs, rows[n - 1].url);
      if i < |docs| then docs[i := rows[n - 1]] else docs + [rows[n - 1]]
  }

  ghost predicate OnePerUrl(docs: seq<Row>) {
    forall i, k | 0 <= i < k < |docs| :: docs[i].url != docs[k].url
  }

  /** d is the last of the first n rows with its URL. */
  ghost predicate IsNewest(rows: seq<Row>, n: nat, d: Row)
    requires n <= |rows|
  {
    exists i :: 0 <= i < n && rows[i] == d && forall k | i < k < n :: rows[k].url != d.url
  }

  /** Some document has the URL. */
  ghost predicate HasUrl(docs: seq<Row>, url: Url) {
    exists k :: 0 <= k < |docs| && docs[k].url == url
  }

  lemma NewerKeepsUrls(docs: seq<Row>, r: Row, url: Url)
    requires HasUrl(docs, url) || url == r.url
    ensures var i := IndexOf(docs, r.url);
            HasUrl(if i < |docs| then docs[i := r] else docs + [r], url)
  {
    var i := IndexOf(docs, r.url);
    var newer := if i < |docs| then docs[i := r] else docs + [r];
    assert newer[i] == r;
    if url != r.url {
      var k :| 0 <= k < |docs| && docs[k].url == url;
      assert newer[k].url == url;
    }
  }

  lemma NewerIsNewest(rows: seq<Row>, n: nat, d: Row)
    requires 0 < n <= |rows|
    requires d == rows[n - 1] || (d.url != rows[n - 1].url && IsNewest(rows, n - 1, d))
    ensures IsNewest(rows, n, d)
  {
    if d != rows[n - 1] {
      var i :| 0 <= i < n - 1 && rows[i] == d && forall j | i < j < n - 1 :: rows[j].url != d.url;
    }
  }

  lemma {:induction false} DedupKeepsNewest(rows: seq<Row>, n: nat)
    requires n <= |rows|
    ensures OnePerUrl(Newest(rows, n))
    ensures forall d | d in Newest(rows, n) :: IsNewest(rows, n, d)
    ensures forall i | 0 <= i < n :: HasUrl(Newest(rows, n), rows[i].url)
  {
    if n > 0 {
      hide IsNewest, HasUrl, IndexOf;
      DedupKeepsNewest(rows, n - 1);
      var before, docs, r := Newest(rows, n - 1), Newest(rows, n), rows[n - 1];
      forall d | d in docs ensures IsNewest(rows, n, d) {
        var k :| 0 <= k < |docs| && docs[k] == d;
        assert d == r || (before[k] == d && before[k] in before);
        NewerIsNewest(rows, n, d);
      }
      forall i | 0 <= i < n ensures HasUrl(docs, rows[i].url) {
        NewerKeepsUrls(before, r, rows[i].url);
      }
    }
  }

  // ---------- the three groups ----------

  /** What the report says about a document: it links it, or names its host. */
  datatype Group = Cited | Mentioned | Other

  function GroupOf(cited: Row -> bool, mentioned: Row -> bool, d: Row): Group {
    if cited(d) then Cited else if mentioned(d) then Mentioned else Other
  }

  function Part(docs: seq<Row>, n: nat, cited: Row -> bool, mentioned: Row -> bool, g: Group): seq<Row>
    requires n <= |docs|
  {
    if n == 0 then []
    else Part(docs, n - 1, cited, mentioned, g)
         + if GroupOf(cited, mentioned, docs[n - 1]) == g then [docs[n - 1]] else []
  }

  function Reversed(s: seq<Row>): seq<Row> {
    seq(|s|, i requires 0 <= i < |s| => s[|s| - 1 - i])
  }

  lemma {:induction false} Partitioned(docs: seq<Row>, n: nat, cited: Row -> bool, mentioned: Row -> bool)
    requires n <= |docs|
    ensures |Part(docs, n, cited, mentioned, Cited)| + |Part(docs, n, cited, mentioned, Mentioned)|
            + |Part(docs, n, cited, mentioned, Other)| == n
  {
    if n > 0 {
      Partitioned(docs, n - 1, cited, mentioned);
    }
  }

  lemma {:induction false} PartIs(docs: seq<Row>, n: nat, cited: Row -> bool, mentioned: Row -> bool, g: Group)
    requires n <= |docs|
    ensures forall d :: d in Part(docs, n, cited, mentioned, g) <==> d in docs[..n] && GroupOf(cited, mentioned, d) == g
  {
    if n > 0 {
      PartIs(docs, n - 1, cited, mentioned, g);
      assert docs[..n] == docs[..n - 1] + [docs[n - 1]];
    }
  }

  // ---------- spending the budget ----------

  datatype Spending = Spending(out: seq<Shown>, budget: nat, omitted: nat)

  function Admit(st: Spending, d: Row, cited: bool, cap: nat): Spending {
    if st.budget < Min(MIN_WINDOW, d.length) then st.(omitted := st.omitted + 1)
    else
      var window := Min(Min(d.length, cap), st.budget);
      Spending(st.out + [Shown(d, cited, window)], st.budget - window, st.omitted)
  }

  function AdmitAll(st: Spending, docs: seq<Row>, n: nat, cited: bool, cap: nat): Spending
    requires n <= |docs|
  {
    if n == 0 then st else Admit(AdmitAll(st, docs, n - 1, cited, cap), docs[n - 1], cited, cap)
  }

  /** The second helping for shown document i. */
  function Extra(st: Spending, i: nat): int
    requires i < |st.out|
  {
    if !st.out[i].cited || st.budget == 0 then 0
    else Max(0, Min(Min(st.out[i].doc.length, CITED_DOC_CAP) - st.out[i].window, st.budget))
  }

  function LengthenOne(st: Spending, i: nat): Spending
    requires i < |st.out|
  {
    var x := Extra(st, i);
    Spending(st.out[i := st.out[i].(window := st.out[i].window + x)], st.budget - x, st.omitted)
  }

  function Lengthen(st: Spending, n: nat): (r: Spending)
    requires n <= |st.out|
    ensures |r.out| == |st.out| && r.omitted == st.omitted
  {
    if n == 0 then st else LengthenOne(Lengthen(st, n - 1), n - 1)
  }

  function FirstCap(n: nat): nat {
    if n > 0 then Min(PER_DOC_CAP, Max(MIN_WINDOW, TOTAL_BUDGET / n)) else PER_DOC_CAP
  }

  /** Citations and named hosts get a first share, citations a second helping,
      and only then the rest, newest first, shares what is left. */
  function Spend(head: seq<Row>, mentioned: seq<Row>, tail: seq<Row>): Spending {
    Finish(Reserve(head, mentioned), tail)
  }

  function Reserve(head: seq<Row>, mentioned: seq<Row>): Spending {
    var cap := FirstCap(|head| + |mentioned|);
    AdmitAll(AdmitAll(Spending([], TOTAL_BUDGET, 0), head, |head|, true, cap), mentioned, |mentioned|, false, cap)
  }

  function Finish(st: Spending, tail: seq<Row>): Spending {
    AdmitAll(Lengthen(st, |st.out|), tail, |tail|, false, PER_DOC_CAP)
  }

  function Total(out: seq<Shown>): nat {
    if out == [] then 0 else Total(out[..|out| - 1]) + out[|out| - 1].window
  }

  ghost predicate Fair(g: Shown) {
    Min(MIN_WINDOW, g.doc.length) <= g.window <= Min(g.doc.length, if g.cited then CITED_DOC_CAP else PER_DOC_CAP)
  }

  ghost predicate Sound(st: Spending) {
    Total(st.out) + st.budget == TOTAL_BUDGET && forall i | 0 <= i < |st.out| :: Fair(st.out[i])
  }

  lemma TotalMore(out: seq<Shown>, g: Shown)
    ensures Total(out + [g]) == Total(out) + g.window
  {
    assert (out + [g])[..|out|] == out;
  }

  lemma AdmitStep(st: Spending, d: Row, cited: bool, cap: nat)
    requires Sound(st) && MIN_WINDOW <= cap <= PER_DOC_CAP
    ensures var r := Admit(st, d, cited, cap);
            && Sound(r) && r.budget <= st.budget
            && (r == st.(omitted := st.omitted + 1)
                || (r.omitted == st.omitted && |r.out| == |st.out| + 1 && r.out[..|st.out|] == st.out
                    && r.out[|st.out|].doc == d && r.out[|st.out|].cited == cited))
  {
    hide Total;
    if st.budget >= Min(MIN_WINDOW, d.length) {
      TotalMore(st.out, Shown(d, cited, Min(Min(d.length, cap), st.budget)));
    }
  }

  /** r shows some of the first n documents after what st shows, in order. */
  ghost predicate Extends(st: Spending, r: Spending, docs: seq<Row>, n: nat, cited: bool)
    requires n <= |docs|
  {
    && |st.out| <= |r.out| && r.out[..|st.out|] == st.out
    && r.omitted >= st.omitted && |r.out| + r.omitted == |st.out| + st.omitted + n
    && (forall i | |st.out| <= i < |r.out| :: r.out[i].doc in docs && r.out[i].cited == cited)
    && (r.omitted == st.omitted ==> forall k | 0 <= k < n :: r.out[|st.out| + k].doc == docs[k])
  }

  /** Admission is in order, and every document is shown or counted as omitted. */
  lemma {:induction false} AdmitAllSound(st: Spending, docs: seq<Row>, n: nat, cited: bool, cap: nat)
    requires Sound(st) && n <= |docs| && MIN_WINDOW <= cap <= PER_DOC_CAP
    ensures var r := AdmitAll(st, docs, n, cited, cap);
            Sound(r) && r.budget <= st.budget && Extends(st, r, docs, n, cited)
  {
    hide Sound, Admit;
    if n > 0 {
      hide Extends;
      AdmitAllSound(st, docs, n - 1, cited, cap);
      var before, r := AdmitAll(st, docs, n - 1, cited, cap), AdmitAll(st, docs, n, cited, cap);
      AdmitStep(before, docs[n - 1], cited, cap);
      ExtendsMore(st, before, r, docs, n, cited);
    }
  }

  lemma ExtendsMore(st: Spending, before: Spending, r: Spending, docs: seq<Row>, n: nat, cited: bool)
    requires 0 < n <= |docs| && Extends(st, before, docs, n - 1, cited)
    requires r == before.(omitted := before.omitted + 1)
             || (r.omitted == before.omitted && |r.out| == |before.out| + 1 && r.out[..|before.out|] == before.out
                 && r.out[|before.out|].doc == docs[n - 1] && r.out[|before.out|].cited == cited)
    ensures Extends(st, r, docs, n, cited)
  {
    assert docs[n - 1] in docs;
    if r.omitted == before.omitted {
      assert forall i | 0 <= i < |before.out| :: r.out[i] == r.out[..|before.out|][i];
      assert r.out[..|st.out|] == before.out[..|st.out|];
    }
  }

  lemma {:induction false} TotalChange(out: seq<Shown>, i: nat, g: Shown)
    requires i < |out|
    ensures Total(out[i := g]) == Total(out) - out[i].window + g.window
  {
    var n := |out| - 1;
    var more := out[i := g];
    if i == n {
      assert more[..n] == out[..n];
    } else {
      TotalChange(out[..n], i, g);
      assert more[..n] == out[..n][i := g];
    }
  }

  ghost predicate Full(g: Shown) {
    g.window == Min(g.doc.length, CITED_DOC_CAP)
  }

  lemma LengthenStep(st: Spending, i: nat)
    requires Sound(st) && i < |st.out|
    ensures var r := LengthenOne(st, i);
            && Sound(r) && r.budget <= st.budget && r.omitted == st.omitted && r.out == st.out[i := r.out[i]]
            && r.out[i].doc == st.out[i].doc && r.out[i].cited == st.out[i].cited && r.out[i].window >= st.out[i].window
            && (!st.out[i].cited ==> r.out[i] == st.out[i])
            && (r.budget > 0 && st.out[i].cited ==> Full(r.out[i]))
  {
    assert Fair(st.out[i]);
    TotalChange(st.out, i, LengthenOne(st, i).out[i]);
  }

  /** The second helping changes windows of cited documents only, never downward,
      and leaves budget over only if they all got all they may get. */
  lemma {:induction false} LengthenSound(st: Spending, n: nat)
    requires Sound(st) && n <= |st.out|
    ensures var r := Lengthen(st, n);
            && Sound(r) && r.budget <= st.budget
            && (forall i | 0 <= i < |st.out| ::
                  r.out[i].doc == st.out[i].doc && r.out[i].cited == st.out[i].cited
                  && r.out[i].window >= st.out[i].window)
            && (forall i | 0 <= i < |st.out| && (!st.out[i].cited || i >= n) :: r.out[i] == st.out[i])
            && (r.budget > 0 ==> forall i | 0 <= i < n && st.out[i].cited :: Full(r.out[i]))
  {
    hide Sound, Full, LengthenOne;
    if n > 0 {
      LengthenSound(st, n - 1);
      LengthenStep(Lengthen(st, n - 1), n - 1);
    }
  }

  /** Windows sum to at most the whole budget, each document shown gets at least
      a readable window and at most its cap, every document is either shown or
      counted as omitted, and a document the report does not refer to gets text
      only once every cited one shown has all it may get. */
  lemma BudgetIsRespected(head: seq<Row>, mentioned: seq<Row>, tail: seq<Row>)
    ensures var st := Reserve(head, mentioned);
            var r := Spend(head, mentioned, tail);
            && Total(r.out) <= TOTAL_BUDGET
            && (forall i | 0 <= i < |r.out| :: Fair(r.out[i]))
            && |r.out| + r.omitted == |head| + |mentioned| + |tail|
            && |st.out| <= |r.out|
            && (forall i | |st.out| <= i < |r.out| :: r.out[i].doc in tail && !r.out[i].cited)
            && (forall i, k | |st.out| <= i < |r.out| && r.out[i].window > 0 && 0 <= k < |r.out|
                && r.out[k].cited :: Full(r.out[k]))
  {
    ReserveSound(head, mentioned);
    var st := Reserve(head, mentioned);
    LengthenSound(st, |st.out|);
    var l := Lengthen(st, |st.out|);
    AdmitAllSound(l, tail, |tail|, false, PER_DOC_CAP);
    assert tail[..|tail|] == tail;
    if l.budget == 0 {
      NothingLeft(l, tail, |tail|);
    }
  }

  lemma AtFirst()
    ensures Sound(Spending([], TOTAL_BUDGET, 0))
  {
  }

  lemma ReserveSound(head: seq<Row>, mentioned: seq<Row>)
    ensures var st := Reserve(head, mentioned);
            && Sound(st) && |st.out| + st.omitted == |head| + |mentioned|
            && (forall i | 0 <= i < |st.out| :: st.out[i].doc in (if st.out[i].cited then head else mentioned))
  {
    hide Sound, AdmitAll, Total;
    var cap := FirstCap(|head| + |mentioned|);
    assert MIN_WINDOW <= cap <= PER_DOC_CAP && Sound(Spending([], TOTAL_BUDGET, 0)) by { AtFirst(); }
    var st0 := Spending([], TOTAL_BUDGET, 0);
    var st1 := AdmitAll(st0, head, |head|, true, cap);
    AdmitAllSound(st0, head, |head|, true, cap);
    AdmitAllSound(st1, mentioned, |mentioned|, false, cap);
    assert head[..|head|] == head && mentioned[..|mentioned|] == mentioned;
  }

  lemma {:induction false} NothingLeft(st: Spending, docs: seq<Row>, n: nat)
    requires st.budget == 0 && n <= |docs|
    ensures var r := AdmitAll(st, docs, n, false, PER_DOC_CAP);
            r.budget == 0 && st.out <= r.out && forall i | |st.out| <= i < |r.out| :: r.out[i].window == 0
  {
    if n > 0 {
      NothingLeft(st, docs, n - 1);
    }
  }

  // ---------- how many references always fit ----------

  const ALWAYS_FIT: nat := 62

  lemma {:induction false} SharesFit(st: Spending, docs: seq<Row>, n: nat, cited: bool, cap: nat)
    requires n <= |docs| && MIN_WINDOW <= cap && st.budget >= n * cap
    ensures var r := AdmitAll(st, docs, n, cited, cap);
            r.omitted == st.omitted && r.budget >= st.budget - n * cap
  {
    if n > 0 {
      Distribute(n - 1, 1, cap);
      SharesFit(st, docs, n - 1, cited, cap);
    }
  }

  lemma NoneOmitted(head: seq<Row>, mentioned: seq<Row>)
    requires |head| + |mentioned| <= ALWAYS_FIT
    ensures Reserve(head, mentioned).omitted == 0
  {
    var n := |head| + |mentioned|;
    var cap := FirstCap(n);
    CapRange(n);
    if n > 0 {
      SharesOfBudget(n);
    }
    hide FirstCap;
    Distribute(|head|, |mentioned|, cap);
    var st0 := Spending([], TOTAL_BUDGET, 0);
    SharesFit(st0, head, |head|, true, cap);
    SharesFit(AdmitAll(st0, head, |head|, true, cap), mentioned, |mentioned|, false, cap);
  }

  lemma Distribute(a: nat, b: nat, c: nat)
    ensures (a + b) * c == a * c + b * c && a * c >= 0 && b * c >= 0
  {
  }

  /** With at most 62 referenced documents none of them is left out. */
  lemma ReferencesFit(head: seq<Row>, mentioned: seq<Row>)
    requires |head| + |mentioned| <= ALWAYS_FIT
    ensures var st := Reserve(head, mentioned);
            st.omitted == 0 && |st.out| == |head| + |mentioned|
            && ShowsAt(st.out, 0, head) && ShowsAt(st.out, |head|, mentioned)
  {
    NoneOmitted(head, mentioned);
    var cap := FirstCap(|head| + |mentioned|);
    CapRange(|head| + |mentioned|);
    hide Sound, AdmitAll, FirstCap, Extends, ShowsAt;
    var st0 := Spending([], TOTAL_BUDGET, 0);
    assert Sound(st0) by { assert Total([]) == 0; }
    var st1 := AdmitAll(st0, head, |head|, true, cap);
    var st2 := AdmitAll(st1, mentioned, |mentioned|, false, cap);
    AdmitAllSound(st0, head, |head|, true, cap);
    AdmitAllSound(st1, mentioned, |mentioned|, false, cap);
    ExtendsFacts(st0, st1, head, true);
    ExtendsFacts(st1, st2, mentioned, false);
    StillShows(st1.out, st2.out, 0, head);
  }

  /** The documents appear in order from position at. */
  ghost predicate ShowsAt(out: seq<Shown>, at: nat, docs: seq<Row>) {
    at + |docs| <= |out| && forall k | 0 <= k < |docs| :: out[at + k].doc == docs[k]
  }

  lemma StillShows(a: seq<Shown>, b: seq<Shown>, at: nat, docs: seq<Row>)
    requires ShowsAt(a, at, docs) && |a| <= |b| && forall i | 0 <= i < |a| :: b[i] == a[i]
    ensures ShowsAt(b, at, docs)
  {
  }

  lemma ExtendsFacts(st: Spending, r: Spending, docs: seq<Row>, cited: bool)
    requires Extends(st, r, docs, |docs|, cited)
    ensures r.omitted >= st.omitted && |st.out| <= |r.out| && forall i | 0 <= i < |st.out| :: r.out[i] == st.out[i]
    ensures r.omitted == st.omitted ==> |r.out| == |st.out| + |docs| && ShowsAt(r.out, |st.out|, docs)
  {
    assert forall i | 0 <= i < |st.out| :: r.out[i] == r.out[..|st.out|][i];
  }

  lemma CapRange(n: nat)
    ensures MIN_WINDOW <= FirstCap(n) <= PER_DOC_CAP
  {
  }

  lemma SharesOfBudget(n: nat)
    requires 0 < n <= ALWAYS_FIT
    ensures n * FirstCap(n) <= TOTAL_BUDGET
  {
    assert n * (TOTAL_BUDGET / n) <= TOTAL_BUDGET;
    assert n * MIN_WINDOW <= ALWAYS_FIT * MIN_WINDOW;
    var share := TOTAL_BUDGET / n;
    assert FirstCap(n) <= Max(MIN_WINDOW, share);
    if share >= MIN_WINDOW {
      assert n * FirstCap(n) <= n * share;
    }
  }

  /** The bound is exact: one more page of 4000 characters, and one is omitted. */
  lemma OneTooMany(head: seq<Row>)
    requires |head| == ALWAYS_FIT + 1 && forall d | d in head :: d.length >= MIN_WINDOW
    ensures Reserve(head, []).omitted == 1
  {
    var st0 := Spending([], TOTAL_BUDGET, 0);
    assert FirstCap(|head|) == MIN_WINDOW;
    LongPages(st0, head, ALWAYS_FIT);
    assert head[ALWAYS_FIT] in head;
  }

  lemma {:induction false} LongPages(st: Spending, docs: seq<Row>, n: nat)
    requires n <= |docs| && n * MIN_WINDOW <= st.budget && forall d | d in docs :: d.length >= MIN_WINDOW
    ensures var r := AdmitAll(st, docs, n, true, MIN_WINDOW);
            r.omitted == st.omitted && r.budget == st.budget - n * MIN_WINDOW
  {
    if n > 0 {
      LongPages(st, docs, n - 1);
      assert docs[n - 1] in docs;
    }
  }

  /** What the first n documents need at least: a readable window each. */
  function Needs(docs: seq<Row>, n: nat): nat
    requires n <= |docs|
  {
    if n == 0 then 0 else Needs(docs, n - 1) + Min(MIN_WINDOW, docs[n - 1].length)
  }

  lemma {:induction false} NeedsAtMost(docs: seq<Row>, n: nat)
    requires n <= |docs|
    ensures Needs(docs, n) <= n * MIN_WINDOW
  {
    if n > 0 {
      NeedsAtMost(docs, n - 1);
    }
  }

  /** At the smallest cap, a list fits exactly if the budget covers its needs. */
  lemma {:induction false} FitsExactlyWhen(st: Spending, docs: seq<Row>, n: nat, cited: bool)
    requires n <= |docs|
    ensures var r := AdmitAll(st, docs, n, cited, MIN_WINDOW);
            && r.omitted >= st.omitted
            && (r.omitted == st.omitted <==> Needs(docs, n) <= st.budget)
            && (r.omitted == st.omitted ==> r.budget == st.budget - Needs(docs, n))
  {
    if n > 0 {
      FitsExactlyWhen(st, docs, n - 1, cited);
    }
  }

  /** For any number of referenced documents: none is omitted if and only if a
      readable window for each of them fits the budget. */
  lemma NoneOmittedExactlyWhen(head: seq<Row>, mentioned: seq<Row>)
    ensures Reserve(head, mentioned).omitted == 0
            <==> Needs(head, |head|) + Needs(mentioned, |mentioned|) <= TOTAL_BUDGET
  {
    var n := |head| + |mentioned|;
    if n <= ALWAYS_FIT {
      NoneOmitted(head, mentioned);
      NeedsAtMost(head, |head|);
      NeedsAtMost(mentioned, |mentioned|);
    } else {
      SmallestCap(n);
      hide FirstCap;
      var st0 := Spending([], TOTAL_BUDGET, 0);
      FitsExactlyWhen(st0, head, |head|, true);
      FitsExactlyWhen(AdmitAll(st0, head, |head|, true, MIN_WINDOW), mentioned, |mentioned|, false);
    }
  }

  lemma SmallestCap(n: nat)
    requires n > ALWAYS_FIT
    ensures FirstCap(n) == MIN_WINDOW
  {
    var share := TOTAL_BUDGET / n;
    assert share * n <= TOTAL_BUDGET;
    Distribute(ALWAYS_FIT + 1, n - ALWAYS_FIT - 1, share);
  }

  // ---------- the whole selection ----------

  function Select(rows: seq<Row>, cited: Row -> bool, mentioned: Row -> bool): Spending {
    var docs := Newest(rows, |rows|);
    Spend(Part(docs, |docs|, cited, mentioned, Cited), Part(docs, |docs|, cited, mentioned, Mentioned),
          Reversed(Part(docs, |docs|, cited, mentioned, Other)))
  }

  predicate Lists(out: seq<Shown>, d: Row) {
    exists i :: 0 <= i < |out| && out[i].doc == d
  }

  lemma SpendKeepsReferences(head: seq<Row>, mentioned: seq<Row>, tail: seq<Row>, d: Row)
    requires |head| + |mentioned| <= ALWAYS_FIT && (d in head || d in mentioned)
    ensures Lists(Spend(head, mentioned, tail).out, d)
  {
    ReferencesFit(head, mentioned);
    ReserveSound(head, mentioned);
    var st := Reserve(head, mentioned);
    hide Sound, AdmitAll, Reserve, Extends;
    LengthenSound(st, |st.out|);
    var l := Lengthen(st, |st.out|);
    AdmitAllSound(l, tail, |tail|, false, PER_DOC_CAP);
    ExtendsFacts(l, Spend(head, mentioned, tail), tail, false);
    hide ShowsAt, Lists, Spend;
    if d in head {
      ListedThroughout(st.out, l.out, Spend(head, mentioned, tail).out, 0, head, d);
    } else {
      ListedThroughout(st.out, l.out, Spend(head, mentioned, tail).out, |head|, mentioned, d);
    }
  }

  lemma ListedThroughout(a: seq<Shown>, b: seq<Shown>, c: seq<Shown>, at: nat, docs: seq<Row>, d: Row)
    requires ShowsAt(a, at, docs) && d in docs && |a| == |b| <= |c|
    requires forall i | 0 <= i < |a| :: b[i].doc == a[i].doc
    requires forall i | 0 <= i < |b| :: c[i] == b[i]
    ensures Lists(c, d)
  {
    var k :| 0 <= k < |docs| && docs[k] == d;
    assert a[at + k].doc == d;
    assert b[at + k].doc == d;
    assert c[at + k].doc == d;
  }

  /** A document the report links or names, as last fetched, is shown to the
      auditor whenever the report refers to at most 62 of them. */
  lemma ReferencedDocumentsAreShown(rows: seq<Row>, cited: Row -> bool, mentioned: Row -> bool, d: Row)
    requires var docs := Newest(rows, |rows|);
             |Part(docs, |docs|, cited, mentioned, Cited)| + |Part(docs, |docs|, cited, mentioned, Mentioned)|
               <= ALWAYS_FIT
    requires IsNewest(rows, |rows|, d) && (cited(d) || mentioned(d))
    ensures Lists(Select(rows, cited, mentioned).out, d)
  {
    hide Spend;
    var docs := Newest(rows, |rows|);
    NewestIsListed(rows, d);
    PartIs(docs, |docs|, cited, mentioned, Cited);
    PartIs(docs, |docs|, cited, mentioned, Mentioned);
    assert docs[..|docs|] == docs;
    SpendKeepsReferences(Part(docs, |docs|, cited, mentioned, Cited), Part(docs, |docs|, cited, mentioned, Mentioned),
                         Reversed(Part(docs, |docs|, cited, mentioned, Other)), d);
  }

  lemma NewestIsListed(rows: seq<Row>, d: Row)
    requires IsNewest(rows, |rows|, d)
    ensures d in Newest(rows, |rows|)
  {
    DedupKeepsNewest(rows, |rows|);
    var docs := Newest(rows, |rows|);
    var i :| 0 <= i < |rows| && rows[i] == d && forall k | i < k < |rows| :: rows[k].url != d.url;
    var k :| 0 <= k < |docs| && docs[k].url == rows[i].url;
    assert docs[k] in docs && IsNewest(rows, |rows|, docs[k]);
    var j :| 0 <= j < |rows| && rows[j] == docs[k] && forall m | j < m < |rows| :: rows[m].url != docs[k].url;
    assert i == j;
  }

  lemma SelectionIsSound(rows: seq<Row>, cited: Row -> bool, mentioned: Row -> bool)
    ensures var r := Select(rows, cited, mentioned);
            && Total(r.out) <= TOTAL_BUDGET && |r.out| + r.omitted == |Newest(rows, |rows|)|
            && (forall i | 0 <= i < |r.out| ::
                  Fair(r.out[i]) && (r.out[i].cited ==> cited(r.out[i].doc)) && IsNewest(rows, |rows|, r.out[i].doc))
            && (forall i, k | 0 <= i < |r.out| && !cited(r.out[i].doc) && !mentioned(r.out[i].doc)
                && r.out[i].window > 0
                              && 0 <= k < |r.out| && r.out[k].cited :: Full(r.out[k]))
  {
    hide Spend, Reserve, Fair, Total, Full;
    var docs := Newest(rows, |rows|);
    DedupKeepsNewest(rows, |rows|);
    var head, named, tail := Part(docs, |docs|, cited, mentioned, Cited),
                             Part(docs, |docs|, cited, mentioned, Mentioned),
                             Reversed(Part(docs, |docs|, cited, mentioned, Other));
    Partitioned(docs, |docs|, cited, mentioned);
    PartIs(docs, |docs|, cited, mentioned, Cited);
    PartIs(docs, |docs|, cited, mentioned, Mentioned);
    PartIs(docs, |docs|, cited, mentioned, Other);
    assert docs[..|docs|] == docs;
    BudgetIsRespected(head, named, tail);
    SpendShowsItsInputs(head, named, tail);
  }

  /** Shown documents come from the lists, marked as cited exactly for the first. */
  lemma SpendShowsItsInputs(head: seq<Row>, mentioned: seq<Row>, tail: seq<Row>)
    ensures var st := Reserve(head, mentioned);
            var r := Spend(head, mentioned, tail);
            && |st.out| <= |r.out|
            && forall i | 0 <= i < |r.out| ::
                 r.out[i].doc in (if r.out[i].cited then head else if i < |st.out| then mentioned else tail)
                   && (i >= |st.out| ==> !r.out[i].cited)
  {
    ReserveSound(head, mentioned);
    var st := Reserve(head, mentioned);
    hide Sound, AdmitAll, Reserve;
    LengthenSound(st, |st.out|);
    var l := Lengthen(st, |st.out|);
    AdmitAllSound(l, tail, |tail|, false, PER_DOC_CAP);
    ExtendsFacts(l, Spend(head, mentioned, tail), tail, false);
  }

  // ---------- exactly what is selected ----------

  /** What the first j of these were given together. */
  function Spent(out: seq<Shown>, j: nat): nat
    requires j <= |out|
  {
    Total(out[..j])
  }

  /** Document d is shown next: what is left, up to its length and the cap. */
  ghost predicate GetsWhatIsLeft(d: Row, cited: bool, cap: nat, left: int, g: Shown) {
    && left >= Min(MIN_WINDOW, d.length) && g.doc == d && g.cited == cited
    && g.window == Min(Min(d.length, cap), left)
  }

  /** out is what showing docs in turn from this budget comes to, at their indices: each as
      much as its length, the cap and what is left allow, and one is passed over exactly when
      less is left than a readable window of it. */
  ghost predicate Admits(docs: seq<Row>, cited: bool, cap: nat, budget: nat, out: seq<Shown>, at: seq<nat>) {
    && |at| == |out| && (forall j | 0 <= j < |at| :: at[j] < |docs|) && Increasing(at)
    && (forall j | 0 <= j < |out| :: GetsWhatIsLeft(docs[at[j]], cited, cap, budget - Spent(out, j), out[j]))
    && PassesOver(docs, budget, out, at)
  }

  ghost predicate PassesOver(docs: seq<Row>, budget: nat, out: seq<Shown>, at: seq<nat>)
    requires |at| == |out|
  {
    forall k: nat, j: nat | k < |docs| && Between(at, k, j) :: budget - Spent(out, j) < Min(MIN_WINDOW, docs[k].length)
  }

  predicate Increasing(at: seq<nat>) {
    forall i, j | 0 <= i < j < |at| :: at[i] < at[j]
  }

  /** k lies strictly between entries j - 1 and j. */
  predicate Between(at: seq<nat>, k: nat, j: nat) {
    j <= |at| && (j > 0 ==> at[j - 1] < k) && (j < |at| ==> k < at[j])
  }

  /** Shown again as h with this much left: a cited document gets what it misses. */
  ghost predicate GetsMore(g: Shown, h: Shown, left: int) {
    var missing := Min(g.doc.length, CITED_DOC_CAP) - g.window;
    h.doc == g.doc && h.cited == g.cited
    && h.window == g.window + if g.cited && missing > 0 && left > 0 then Min(missing, left) else 0
  }

  /** after is before with what is left given in turn to the cited documents. */
  ghost predicate Lengthened(before: seq<Shown>, after: seq<Shown>, budget: nat) {
    && |after| == |before|
    && forall i | 0 <= i < |before| :: GetsMore(before[i], after[i], budget + Spent(before, i) - Spent(after, i))
  }

  lemma AdmitsNone(cited: bool, cap: nat, budget: nat)
    ensures Admits([], cited, cap, budget, [], [])
  {
  }

  lemma SpentBefore(out: seq<Shown>, g: Shown)
    ensures forall j | 0 <= j <= |out| :: Spent(out + [g], j) == Spent(out, j)
    ensures Spent(out, |out|) == Total(out)
  {
    assert forall j | 0 <= j <= |out| :: (out + [g])[..j] == out[..j];
    assert out[..|out|] == out;
  }

  lemma AdmitsOneMore(docs: seq<Row>, d: Row, cited: bool, cap: nat, budget: nat, out: seq<Shown>, at: seq<nat>,
                      g: Shown)
    requires Admits(docs, cited, cap, budget, out, at)
    requires GetsWhatIsLeft(d, cited, cap, budget - Total(out), g)
    ensures Admits(docs + [d], cited, cap, budget, out + [g], at + [|docs|])
  {
    hide Total, GetsWhatIsLeft, Spent, Min, PassesOver;
    SpentBefore(out, g);
    PassesOverThose(docs, d, budget, out, at, g);
    var docs', out', at' := docs + [d], out + [g], at + [|docs|];
    forall j | 0 <= j < |out'|
      ensures GetsWhatIsLeft(docs'[at'[j]], cited, cap, budget - Spent(out', j), out'[j])
    {
      assert j < |out| ==> GetsWhatIsLeft(docs[at[j]], cited, cap, budget - Spent(out, j), out[j]);
    }
  }

  lemma PassesOverThose(docs: seq<Row>, d: Row, budget: nat, out: seq<Shown>, at: seq<nat>, g: Shown)
    requires |at| == |out| && (forall j | 0 <= j < |at| :: at[j] < |docs|) && PassesOver(docs, budget, out, at)
    ensures PassesOver(docs + [d], budget, out + [g], at + [|docs|])
  {
    hide Total, Spent, Min;
    forall k: nat, j: nat | k < |docs + [d]| && Between(at + [|docs|], k, j)
      ensures budget - Spent(out + [g], j) < Min(MIN_WINDOW, (docs + [d])[k].length)
    {
      StillBetween(at, |docs|, k, j);
      SpentBefore(out, g);
    }
  }

  lemma StillBetween(at: seq<nat>, n: nat, k: nat, j: nat)
    requires Between(at + [n], k, j) && k <= n && forall i | 0 <= i < |at| :: at[i] < n
    ensures j <= |at| && k < n && Between(at, k, j)
  {
    assert j > 0 && j <= |at| ==> (at + [n])[j - 1] == at[j - 1];
    assert (at + [n])[|at|] == n;
    assert j < |at| ==> (at + [n])[j] == at[j];
  }

  lemma AdmitsPassesOver(docs: seq<Row>, d: Row, cited: bool, cap: nat, budget: nat, out: seq<Shown>, at: seq<nat>)
    requires Admits(docs, cited, cap, budget, out, at)
    requires budget - Total(out) < Min(MIN_WINDOW, d.length)
    ensures Admits(docs + [d], cited, cap, budget, out, at)
  {
    hide Total, GetsWhatIsLeft, Spent, Min, PassesOver;
    PassesOverThisToo(docs, d, budget, out, at);
    var docs' := docs + [d];
    forall j | 0 <= j < |out|
      ensures GetsWhatIsLeft(docs'[at[j]], cited, cap, budget - Spent(out, j), out[j])
    {
      assert GetsWhatIsLeft(docs[at[j]], cited, cap, budget - Spent(out, j), out[j]);
    }
  }

  lemma PassesOverThisToo(docs: seq<Row>, d: Row, budget: nat, out: seq<Shown>, at: seq<nat>)
    requires |at| == |out| && (forall j | 0 <= j < |at| :: at[j] < |docs|) && PassesOver(docs, budget, out, at)
    requires budget - Total(out) < Min(MIN_WINDOW, d.length)
    ensures PassesOver(docs + [d], budget, out, at)
  {
    hide Total, Spent, Min;
    forall k: nat, j: nat | k < |docs + [d]| && Between(at, k, j)
      ensures budget - Spent(out, j) < Min(MIN_WINDOW, (docs + [d])[k].length)
    {
      if k == |docs| {
        assert j == |at|;
        SpentAll(out);
      }
    }
  }

  lemma SpentAll(out: seq<Shown>)
    ensures Spent(out, |out|) == Total(out)
  {
    assert out[..|out|] == out;
  }

  lemma {:induction false} AdmitAllAdmits(st: Spending, docs: seq<Row>, n: nat, cited: bool, cap: nat)
    returns (out: seq<Shown>, at: seq<nat>)
    requires n <= |docs|
    ensures var r := AdmitAll(st, docs, n, cited, cap);
            && r.out == st.out + out && r.budget == st.budget - Total(out) && r.omitted == st.omitted + n - |out|
            && Admits(docs[..n], cited, cap, st.budget, out, at)
  {
    hide Admits, Total;
    if n == 0 {
      out, at := [], [];
      AdmitsNone(cited, cap, st.budget);
      NothingShown();
      assert docs[..0] == [];
    } else {
      out, at := AdmitAllAdmits(st, docs, n - 1, cited, cap);
      var d := docs[n - 1];
      assert docs[..n] == docs[..n - 1] + [d];
      if st.budget - Total(out) < Min(MIN_WINDOW, d.length) {
        AdmitsPassesOver(docs[..n - 1], d, cited, cap, st.budget, out, at);
      } else {
        var g := Shown(d, cited, Min(Min(d.length, cap), st.budget - Total(out)));
        AdmitsOneMore(docs[..n - 1], d, cited, cap, st.budget, out, at, g);
        TotalMore(out, g);
        out, at := out + [g], at + [n - 1];
      }
    }
  }

  lemma NothingShown()
    ensures Total([]) == 0
  {
  }

  lemma {:induction false} LengthenIs(st: Spending, n: nat)
    requires n <= |st.out|
    ensures var r := Lengthen(st, n);
            && r.out[n..] == st.out[n..] && Lengthened(st.out[..n], r.out[..n], st.budget)
            && r.budget == st.budget + Total(st.out[..n]) - Total(r.out[..n])
  {
    hide Lengthened, Total, LengthenOne, GetsMore;
    if n == 0 {
      assert Lengthened(st.out[..0], Lengthen(st, 0).out[..0], st.budget) by { LengthenedNone(st.budget); }
    } else {
      LengthenIs(st, n - 1);
      var before, r := Lengthen(st, n - 1), Lengthen(st, n);
      LengthenOneIs(before, n - 1);
      assert r.out[..n] == before.out[..n - 1] + [r.out[n - 1]] && st.out[..n] == st.out[..n - 1] + [st.out[n - 1]];
      assert before.out[n - 1] == before.out[n - 1..][0] == st.out[n - 1..][0] == st.out[n - 1];
      assert forall i | n <= i < |st.out| :: r.out[i] == before.out[i] == before.out[n - 1..][i - n + 1];
      TotalMore(st.out[..n - 1], st.out[n - 1]);
      TotalMore(before.out[..n - 1], r.out[n - 1]);
      LengthenedMore(st.out[..n - 1], before.out[..n - 1], st.budget, st.out[n - 1], r.out[n - 1]);
    }
  }

  lemma LengthenedNone(budget: nat)
    ensures Lengthened([], [], budget)
  {
  }

  lemma LengthenOneIs(st: Spending, i: nat)
    requires i < |st.out|
    ensures var r, g := LengthenOne(st, i), st.out[i];
            GetsMore(g, r.out[i], st.budget) && r.out == st.out[i := r.out[i]]
            && r.budget == st.budget + g.window - r.out[i].window
  {
  }

  lemma LengthenedMore(before: seq<Shown>, after: seq<Shown>, budget: nat, g: Shown, h: Shown)
    requires Lengthened(before, after, budget) && GetsMore(g, h, budget + Total(before) - Total(after))
    ensures Lengthened(before + [g], after + [h], budget)
  {
    hide Total, GetsMore, Spent;
    SpentBefore(before, g);
    SpentBefore(after, h);
    var b, a := before + [g], after + [h];
    forall i | 0 <= i < |b| ensures GetsMore(b[i], a[i], budget + Spent(b, i) - Spent(a, i)) {
      assert i < |before| ==> GetsMore(before[i], after[i], budget + Spent(before, i) - Spent(after, i));
    }
  }

  /** The selection, step by step: the cited documents in turn, each up to an even first
      share of at least 4000 and at most 25000; then those named, the same; what is left
      lengthens the cited ones up to 60000; and what is left then goes to the others in
      turn, the last listed first. */
  lemma SelectionIsExact(rows: seq<Row>, cited: Row -> bool, mentioned: Row -> bool)
    returns (first: seq<Shown>, second: seq<Shown>, longer: seq<Shown>, rest: seq<Shown>,
             p: seq<nat>, q: seq<nat>, s: seq<nat>)
    ensures var docs := Newest(rows, |rows|);
            var head := Part(docs, |docs|, cited, mentioned, Cited);
            var named := Part(docs, |docs|, cited, mentioned, Mentioned);
            var others := Part(docs, |docs|, cited, mentioned, Other);
            var n := |head| + |named|;
            var cap: nat := if n == 0 || 250_000 / n > 25_000 then 25_000
                            else if 250_000 / n < 4_000 then 4_000 else 250_000 / n;
            && Admits(head, true, cap, 250_000, first, p)
            && Total(first) <= 250_000 && Admits(named, false, cap, 250_000 - Total(first), second, q)
            && Total(first + second) <= 250_000 && Lengthened(first + second, longer, 250_000 - Total(first + second))
            && Total(longer) <= 250_000
            && Admits(Reversed(others), false, 25_000, 250_000 - Total(longer), rest, s)
            && Select(rows, cited, mentioned).out == longer + rest
            && Select(rows, cited, mentioned).omitted == |docs| - |longer| - |rest|
  {
    hide Admits, Lengthened, Total, AdmitAll, Lengthen, Newest, Part;
    var docs := Newest(rows, |rows|);
    var head, named := Part(docs, |docs|, cited, mentioned, Cited), Part(docs, |docs|, cited, mentioned, Mentioned);
    var tail := Reversed(Part(docs, |docs|, cited, mentioned, Other));
    Partitioned(docs, |docs|, cited, mentioned);
    first, second, longer, rest, p, q, s := SpendIsExact(head, named, tail);
  }

  lemma SpendIsExact(head: seq<Row>, named: seq<Row>, tail: seq<Row>)
    returns (first: seq<Shown>, second: seq<Shown>, longer: seq<Shown>, rest: seq<Shown>,
             p: seq<nat>, q: seq<nat>, s: seq<nat>)
    ensures var n := |head| + |named|;
            var cap: nat := if n == 0 || 250_000 / n > 25_000 then 25_000
                            else if 250_000 / n < 4_000 then 4_000 else 250_000 / n;
            && Admits(head, true, cap, 250_000, first, p)
            && Total(first) <= 250_000 && Admits(named, false, cap, 250_000 - Total(first), second, q)
            && Total(first + second) <= 250_000 && Lengthened(first + second, longer, 250_000 - Total(first + second))
            && Total(longer) <= 250_000
            && Admits(tail, false, 25_000, 250_000 - Total(longer), rest, s)
            && Spend(head, named, tail).out == longer + rest
            && Spend(head, named, tail).omitted == n + |tail| - |longer| - |rest|
  {
    hide Admits, Lengthened, Total, AdmitAll, Lengthen;
    var cap := FirstCap(|head| + |named|);
    var st0 := Spending([], TOTAL_BUDGET, 0);
    first, p := AdmitAllAdmits(st0, head, |head|, true, cap);
    var st1 := AdmitAll(st0, head, |head|, true, cap);
    second, q := AdmitAllAdmits(st1, named, |named|, false, cap);
    var st2 := AdmitAll(st1, named, |named|, false, cap);
    assert st1.out == first && st2.out == first + second;
    TotalJoin(first, second);
    LengthenIs(st2, |st2.out|);
    var st3 := Lengthen(st2, |st2.out|);
    longer := st3.out;
    assert st2.out[..|st2.out|] == st2.out && longer[..|st2.out|] == longer;
    rest, s := AdmitAllAdmits(st3, tail, |tail|, false, PER_DOC_CAP);
    assert head[..|head|] == head && named[..|named|] == named && tail[..|tail|] == tail;
  }

  lemma {:induction false} TotalJoin(a: seq<Shown>, b: seq<Shown>)
    ensures Total(a + b) == Total(a) + Total(b)
    decreases |b|
  {
    if b == [] {
      assert a + b == a;
    } else {
      TotalJoin(a, b[..|b| - 1]);
      assert (a + b)[..|a + b| - 1] == a + b[..|b| - 1];
    }
  }

  // ---------- the order of the lists ----------

  /** The first row with the URL. */
  ghost predicate FirstSeen(rows: seq<Row>, url: Url, i: nat) {
    i < |rows| && rows[i].url == url && forall k | 0 <= k < i :: rows[k].url != url
  }

  /** Deduplicated documents stand in the order in which their URLs were first seen. */
  lemma {:induction false} DedupInOrder(rows: seq<Row>, n: nat) returns (at: seq<nat>)
    requires n <= |rows|
    ensures var docs := Newest(rows, n);
            && |at| == |docs| && Increasing(at) && (forall i | 0 <= i < |at| :: at[i] < n)
            && forall i | 0 <= i < |at| :: FirstSeen(rows, docs[i].url, at[i])
  {
    at := [];
    if n > 0 {
      hide IndexOf;
      at := DedupInOrder(rows, n - 1);
      if IndexOf(Newest(rows, n - 1), rows[n - 1].url) == |Newest(rows, n - 1)| {
        NotSeenBefore(rows, n - 1, rows[n - 1].url);
        at := at + [n - 1];
      }
    }
  }

  lemma NotSeenBefore(rows: seq<Row>, n: nat, url: Url)
    requires n <= |rows| && IndexOf(Newest(rows, n), url) == |Newest(rows, n)|
    ensures forall k | 0 <= k < n :: rows[k].url != url
  {
    hide Newest, IsNewest, OnePerUrl;
    DedupKeepsNewest(rows, n);
    assert !HasUrl(Newest(rows, n), url);
  }

  /** Each group keeps that order. */
  lemma {:induction false} PartInOrder(docs: seq<Row>, n: nat, cited: Row -> bool, mentioned: Row -> bool, g: Group)
    returns (at: seq<nat>)
    requires n <= |docs|
    ensures var part := Part(docs, n, cited, mentioned, g);
            && |at| == |part| && Increasing(at) && (forall i | 0 <= i < |at| :: at[i] < n)
            && forall i | 0 <= i < |at| :: part[i] == docs[at[i]]
  {
    at := [];
    if n > 0 {
      at := PartInOrder(docs, n - 1, cited, mentioned, g);
      if GroupOf(cited, mentioned, docs[n - 1]) == g {
        at := at + [n - 1];
      }
    }
  }

  /** Among documents the report does not refer to, the one whose URL was first seen later
      is shown first. */
  lemma OthersAreNewestFirst(rows: seq<Row>, cited: Row -> bool, mentioned: Row -> bool, i: nat, k: nat,
                             u: nat, v: nat)
    requires var out := Select(rows, cited, mentioned).out;
             && i < k < |out|
             && (forall x | x in {i, k} :: !cited(out[x].doc) && !mentioned(out[x].doc))
             && FirstSeen(rows, out[i].doc.url, u) && FirstSeen(rows, out[k].doc.url, v)
    ensures u > v
  {
    hide Select, Newest, Part;
    var out := Select(rows, cited, mentioned).out;
    var docs := Newest(rows, |rows|);
    var others := Part(docs, |docs|, cited, mentioned, Other);
    var s, from := OthersComeLast(rows, cited, mentioned, i, k);
    var c := PartInOrder(docs, |docs|, cited, mentioned, Other);
    var a := DedupInOrder(rows, |rows|);
    var x, y := |others| - 1 - s[i - from], |others| - 1 - s[k - from];
    assert out[i].doc == others[x] == docs[c[x]] && out[k].doc == others[y] == docs[c[y]];
    SameFirst(rows, docs[c[x]].url, u, a[c[x]]);
    SameFirst(rows, docs[c[y]].url, v, a[c[y]]);
  }

  lemma SameFirst(rows: seq<Row>, url: Url, i: nat, k: nat)
    requires FirstSeen(rows, url, i) && FirstSeen(rows, url, k)
    ensures i == k
  {
  }

  /** They stand after all the others, in the order of the reversed list. */
  lemma OthersComeLast(rows: seq<Row>, cited: Row -> bool, mentioned: Row -> bool, i: nat, k: nat)
    returns (s: seq<nat>, from: nat)
    requires var out := Select(rows, cited, mentioned).out;
             && i < k < |out| && !cited(out[i].doc) && !mentioned(out[i].doc)
    ensures var out := Select(rows, cited, mentioned).out;
            var docs := Newest(rows, |rows|);
            var others := Part(docs, |docs|, cited, mentioned, Other);
            && from <= i && |out| == from + |s| && Increasing(s) && (forall j | 0 <= j < |s| :: s[j] < |others|)
            && forall j | 0 <= j < |s| :: out[from + j].doc == others[|others| - 1 - s[j]]
  {
    hide Select, Newest, Part, Total, Min, Lengthened, Admits;
    var first, second, longer, rest, p, q, s' := SelectionIsExact(rows, cited, mentioned);
    s, from := s', |longer|;
    var docs := Newest(rows, |rows|);
    var n := |Part(docs, |docs|, cited, mentioned, Cited)| + |Part(docs, |docs|, cited, mentioned, Mentioned)|;
    var cap := if n == 0 || 250_000 / n > 25_000 then 25_000 else if 250_000 / n < 4_000 then 4_000 else 250_000 / n;
    if i < |longer| {
      ReferredTo(docs, cited, mentioned, cap, first, second, longer, p, q, 250_000, 250_000 - Total(first),
                 250_000 - Total(first + second), i);
    }
    AdmitsAt(Reversed(Part(docs, |docs|, cited, mentioned, Other)), false, 25_000, 250_000 - Total(longer), rest, s);
  }

  lemma AdmitsAt(docs: seq<Row>, cited: bool, cap: nat, budget: nat, out: seq<Shown>, at: seq<nat>)
    requires Admits(docs, cited, cap, budget, out, at)
    ensures |at| == |out| && Increasing(at)
    ensures forall j | 0 <= j < |out| :: at[j] < |docs| && out[j].doc == docs[at[j]] && docs[at[j]] in docs
  {
    hide Total, Spent, Min;
    forall j | 0 <= j < |out| ensures out[j].doc == docs[at[j]] {
      assert GetsWhatIsLeft(docs[at[j]], cited, cap, budget - Spent(out, j), out[j]);
    }
  }

  lemma ReferredTo(docs: seq<Row>, cited: Row -> bool, mentioned: Row -> bool, cap: nat,
                   first: seq<Shown>, second: seq<Shown>, longer: seq<Shown>, p: seq<nat>, q: seq<nat>,
                   b: nat, c: nat, d: nat, i: nat)
    requires Admits(Part(docs, |docs|, cited, mentioned, Cited), true, cap, b, first, p)
    requires Admits(Part(docs, |docs|, cited, mentioned, Mentioned), false, cap, c, second, q)
    requires Lengthened(first + second, longer, d) && i < |longer|
    ensures cited(longer[i].doc) || mentioned(longer[i].doc)
  {
    hide Part, Total, Admits;
    PartIs(docs, |docs|, cited, mentioned, Cited);
    PartIs(docs, |docs|, cited, mentioned, Mentioned);
    AdmitsAt(Part(docs, |docs|, cited, mentioned, Cited), true, cap, b, first, p);
    AdmitsAt(Part(docs, |docs|, cited, mentioned, Mentioned), false, cap, c, second, q);
    assert longer[i].doc == (first + second)[i].doc;
  }

  lemma {:induction false} CitedCount(docs: seq<Row>, n: nat, cited: Row -> bool, mentioned: Row -> bool)
    requires n <= |docs|
    ensures |Part(docs, n, cited, mentioned, Cited)| == |set i | 0 <= i < n && cited(docs[i])|
  {
    if n > 0 {
      CitedCount(docs, n - 1, cited, mentioned);
      assert (set i | 0 <= i < n && cited(docs[i]))
             == (set i | 0 <= i < n - 1 && cited(docs[i])) + if cited(docs[n - 1]) then {n - 1} else {};
    }
  }

  method SelectGroundingDocs(rows: seq<Row>, cited: Row -> bool, mentioned: Row -> bool)
    returns (out: seq<Shown>, stats: Stats)
    ensures out == Select(rows, cited, mentioned).out && stats.omitted == Select(rows, cited, mentioned).omitted
    ensures stats.rows == |rows| && stats.unique == |Newest(rows, |rows|)| == stats.included + stats.omitted
            && stats.included == |out|
    ensures stats.truncated == |set i | 0 <= i < |out| && out[i].window < out[i].doc.length|
    ensures stats.cited == |set i | 0 <= i < |Newest(rows, |rows|)| && cited(Newest(rows, |rows|)[i])|
  {
    hide AdmitAll, Lengthen, FirstCap, Part, Newest, Reversed;
    var docs := Deduplicate(rows);
    var head, named, tail := SplitByReference(docs, cited, mentioned);
    tail := Reverse(tail);
    var firstCap := FirstCap(|head| + |named|);
    var st := AdmitEach(Spending([], TOTAL_BUDGET, 0), head, true, firstCap);
    st := AdmitEach(st, named, false, firstCap);
    st := SecondHelping(st);
    st := AdmitEach(st, tail, false, PER_DOC_CAP);
    out := st.out;
    SelectionIsSound(rows, cited, mentioned);
    CitedCount(docs, |docs|, cited, mentioned);
    var truncated := CountTruncated(out);
    stats := Stats(|rows|, |docs|, |head|, |out|, st.omitted, truncated);
  }

  method CountTruncated(out: seq<Shown>) returns (truncated: nat)
    ensures truncated == |set i | 0 <= i < |out| && out[i].window < out[i].doc.length|
  {
    truncated := 0;
    for i := 0 to |out|
      invariant truncated == |set k | 0 <= k < i && out[k].window < out[k].doc.length|
    {
      assert (set k | 0 <= k < i + 1 && out[k].window < out[k].doc.length)
             == (set k | 0 <= k < i && out[k].window < out[k].doc.length)
                + if out[i].window < out[i].doc.length then {i} else {};
      if out[i].window < out[i].doc.length {
        truncated := truncated + 1;
      }
    }
  }

  method SplitByReference(docs: seq<Row>, cited: Row -> bool, mentioned: Row -> bool)
    returns (head: seq<Row>, named: seq<Row>, tail: seq<Row>)
    ensures head == Part(docs, |docs|, cited, mentioned, Cited)
    ensures named == Part(docs, |docs|, cited, mentioned, Mentioned)
    ensures tail == Part(docs, |docs|, cited, mentioned, Other)
  {
    head, named, tail := [], [], [];
    for i := 0 to |docs|
      invariant head == Part(docs, i, cited, mentioned, Cited)
      invariant named == Part(docs, i, cited, mentioned, Mentioned)
      invariant tail == Part(docs, i, cited, mentioned, Other)
    {
      if cited(docs[i]) {
        head := head + [docs[i]];
      } else if mentioned(docs[i]) {
        named := named + [docs[i]];
      } else {
        tail := tail + [docs[i]];
      }
    }
  }

  /** order and latest together hold docs. */
  ghost predicate Holds(order: seq<Url>, latest: map<Url, Row>, docs: seq<Row>) {
    && |order| == |docs|
    && (forall k | 0 <= k < |order| :: order[k] == docs[k].url && order[k] in latest && latest[order[k]] == docs[k])
    && (forall u | u in latest :: IndexOf(docs, u) < |docs|)
  }

  lemma HoldsNewer(order: seq<Url>, latest: map<Url, Row>, docs: seq<Row>, i: nat, r: Row)
    requires Holds(order, latest, docs) && OnePerUrl(docs) && i < |docs| && docs[i].url == r.url
    ensures r.url in latest && Holds(order, latest[r.url := r], docs[i := r])
  {
    hide IndexOf;
    assert order[i] in latest;
    var newer := docs[i := r];
    forall u | u in latest[r.url := r] ensures IndexOf(newer, u) < |newer| {
      assert newer[IndexOf(docs, u)].url == u;
    }
  }

  lemma HoldsAnother(order: seq<Url>, latest: map<Url, Row>, docs: seq<Row>, r: Row)
    requires Holds(order, latest, docs) && IndexOf(docs, r.url) == |docs|
    ensures r.url !in latest && Holds(order + [r.url], latest[r.url := r], docs + [r])
  {
    hide IndexOf;
    var newer := docs + [r];
    forall u | u in latest[r.url := r] ensures IndexOf(newer, u) < |newer| {
      assert newer[IndexOf(docs, u)].url == u;
    }
  }

  lemma HoldsNext(order: seq<Url>, latest: map<Url, Row>, rows: seq<Row>, i: nat)
    requires i < |rows| && Holds(order, latest, Newest(rows, i))
    ensures Holds(if rows[i].url in latest then order else order + [rows[i].url], latest[rows[i].url := rows[i]],
                  Newest(rows, i + 1))
  {
    hide Holds;
    DedupKeepsNewest(rows, i);
    var at := IndexOf(Newest(rows, i), rows[i].url);
    if at < |Newest(rows, i)| {
      HoldsNewer(order, latest, Newest(rows, i), at, rows[i]);
    } else {
      HoldsAnother(order, latest, Newest(rows, i), rows[i]);
    }
  }

  method Deduplicate(rows: seq<Row>) returns (docs: seq<Row>)
    ensures docs == Newest(rows, |rows|)
  {
    var latest: map<Url, Row> := map[];
    var order: seq<Url> := [];
    for i := 0 to |rows|
      invariant Holds(order, latest, Newest(rows, i))
    {
      hide Holds, Newest;
      HoldsNext(order, latest, rows, i);
      var url := rows[i].url;
      if url !in latest {
        order := order + [url];
      }
      latest := latest[url := rows[i]];
    }
    docs := seq(|order|, k requires 0 <= k < |order| && order[k] in latest => latest[order[k]]);
  }

  method Reverse(s: seq<Row>) returns (r: seq<Row>)
    ensures r == Reversed(s)
  {
    r := s;
    var i, j := 0, |s| - 1;
    while i < j
      invariant 0 <= i <= j + 1 && i + j == |s| - 1 && |r| == |s|
      invariant forall k | 0 <= k < i :: r[k] == s[|s| - 1 - k]
      invariant forall k | j < k < |s| :: r[k] == s[|s| - 1 - k]
      invariant forall k | i <= k <= j :: r[k] == s[k]
    {
      r := r[i := r[j]][j := r[i]];
      i, j := i + 1, j - 1;
    }
  }

  method AdmitEach(before: Spending, docs: seq<Row>, cited: bool, cap: nat) returns (st: Spending)
    ensures st == AdmitAll(before, docs, |docs|, cited, cap)
  {
    st := before;
    for i := 0 to |docs|
      invariant st == AdmitAll(before, docs, i, cited, cap)
    {
      var d := docs[i];
      if st.budget < Min(MIN_WINDOW, d.length) {
        st := st.(omitted := st.omitted + 1);
      } else {
        var window := Min(Min(d.length, cap), st.budget);
        st := Spending(st.out + [Shown(d, cited, window)], st.budget - window, st.omitted);
      }
    }
  }

  method SecondHelping(before: Spending) returns (st: Spending)
    ensures st == Lengthen(before, |before.out|)
  {
    st := before;
    for i := 0 to |before.out|
      invariant st == Lengthen(before, i)
    {
      var g := st.out[i];
      if g.cited && st.budget > 0 {
        var full := Min(g.doc.length, CITED_DOC_CAP);
        var extra := Min(full - g.window, st.budget);
        if extra > 0 {
          st := Spending(st.out[i := g.(window := g.window + extra)], st.budget - extra, st.omitted);
        }
      }
    }
  }
}
