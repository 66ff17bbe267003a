/** Auditing a long report in parts: how it is cut, how claims are scored, and
    how the verdicts of the parts are put together. */
module Partition {
  import opened Common
  import opened Wrappers

  // ---------- cutting the report ----------

  const TARGET_RUNES: nat := 2500

  predicate EndsLine(s: string) {
    s != "" && s[|s| - 1] == '\n'
  }

  /** No line break before the last character. */
  predicate OneLine(s: string) {
    forall i | 0 <= i < |s| - 1 :: s[i] != '\n'
  }

  /** The length of the first line, its line break included. */
  function FirstLine(s: string): (n: nat)
    ensures n <= |s| && (s != "" ==> n > 0)
    ensures forall i | 0 <= i < n - 1 :: s[i] != '\n'
    ensures n == |s| || (n > 0 && s[n - 1] == '\n')
  {
    if s == "" then 0 else if s[0] == '\n' then 1 else 1 + FirstLine(s[1..])
  }

  /** strings.SplitAfter(s, "\n"). */
  function Lines(s: string): seq<string>
    decreases |s|
  {
    var n := FirstLine(s);
    if n > 0 && s[n - 1] == '\n' then [s[..n]] + Lines(s[n..]) else [s]
  }

  lemma FirstLineIsOne(s: string)
    requires var n := FirstLine(s); n > 0 && s[n - 1] == '\n'
    ensures OneLine(s[..FirstLine(s)]) && EndsLine(s[..FirstLine(s)])
  {
  }

  lemma {:induction false} LinesConcat(s: string)
    ensures Lines(s) != [] && Concat(Lines(s)) == s
    decreases |s|
  {
    var n := FirstLine(s);
    if n > 0 && s[n - 1] == '\n' {
      hide FirstLine;
      LinesConcat(s[n..]);
      assert ([s[..n]] + Lines(s[n..]))[1..] == Lines(s[n..]);
      assert s == s[..n] + s[n..];
    } else {
      assert [s][1..] == [] && s + "" == s;
    }
  }

  lemma {:induction false} LinesFacts(s: string)
    ensures Lines(s) != [] && Concat(Lines(s)) == s
    ensures forall i | 0 <= i < |Lines(s)| :: OneLine(Lines(s)[i])
    ensures forall i | 0 <= i < |Lines(s)| - 1 :: EndsLine(Lines(s)[i])
    decreases |s|
  {
    LinesConcat(s);
    hide Concat;
    var n := FirstLine(s);
    if n > 0 && s[n - 1] == '\n' {
      FirstLineIsOne(s);
      hide OneLine, EndsLine, FirstLine;
      LinesFacts(s[n..]);
    }
  }

  /** Cut only after line breaks, over target only as a single line, and no part
      could have taken one more line. */
  ghost predicate Greedy(parts: seq<string>) {
    && (forall i | 0 <= i < |parts| :: parts[i] != "" && (|parts[i]| > 2500 ==> OneLine(parts[i])))
    && (forall i | 0 <= i < |parts| - 1 :: EndsLine(parts[i]) && |parts[i]| + FirstLine(parts[i + 1]) > 2500)
  }

  lemma {:induction false} FirstLineOf(s: string, t: string)
    requires s != "" && (EndsLine(s) || t == "")
    ensures FirstLine(s + t) == FirstLine(s)
  {
    if s[0] != '\n' && |s| > 1 {
      assert (s + t)[1..] == s[1..] + t;
      FirstLineOf(s[1..], t);
    } else if t == "" {
      assert s + t == s;
    }
  }

  lemma {:induction false} FirstLineWhole(s: string)
    requires OneLine(s)
    ensures FirstLine(s) == |s|
  {
    if |s| > 1 {
      FirstLineWhole(s[1..]);
    }
  }

  /** The open part: fits behind the closed ones, and is over target only as a
      single line. */
  ghost predicate Open(parts: seq<string>, current: string) {
    && Greedy(parts)
    && (parts != [] ==> EndsLine(parts[|parts| - 1]))
    && (parts != [] && current != "" ==> |parts[|parts| - 1]| + FirstLine(current) > TARGET_RUNES)
    && (|current| > TARGET_RUNES ==> OneLine(current))
  }

  lemma {:induction false} Close(parts: seq<string>, current: string)
    requires Open(parts, current) && current != ""
    ensures Greedy(parts + [current])
    ensures EndsLine(current) ==> Open(parts + [current], "")
    ensures Concat(parts + [current]) == Concat(parts) + current
  {
    hide FirstLine, OneLine, Concat;
    ConcatSnoc(parts, current);
    var all := parts + [current];
    forall i | 0 <= i < |all| ensures all[i] != "" && (|all[i]| > TARGET_RUNES ==> OneLine(all[i])) {
      assert i < |parts| ==> all[i] == parts[i];
    }
    forall i | 0 <= i < |all| - 1 ensures EndsLine(all[i]) && |all[i]| + FirstLine(all[i + 1]) > TARGET_RUNES {
      assert all[i] == parts[i];
      assert i + 1 < |parts| ==> all[i + 1] == parts[i + 1];
    }
  }

  /** What one line does to the closed parts and the open one. */
  ghost function Added(parts: seq<string>, current: string, line: string): (seq<string>, string) {
    if |current| > 0 && |current| + |line| > TARGET_RUNES then (parts + [current], line) else (parts, current + line)
  }

  lemma AddedFacts(parts: seq<string>, current: string, line: string)
    requires Open(parts, current) && OneLine(line) && (current == "" ==> parts == [])
             && (current != "" ==> EndsLine(current))
    ensures var (p, c) := Added(parts, current, line);
            && Open(p, c) && Concat(p) + c == (Concat(parts) + current) + line
            && (line != "" ==> c != "") && (EndsLine(line) ==> EndsLine(c))
  {
    hide Concat, Greedy;
    if |current| > 0 && |current| + |line| > TARGET_RUNES {
      Close(parts, current);
      FirstLineWhole(line);
    } else if current != "" {
      FirstLineOf(current, line);
      assert Concat(parts) + (current + line) == (Concat(parts) + current) + line;
    } else {
      assert current + line == line;
    }
  }

  lemma ConcatNext(lines: seq<string>, i: nat)
    requires i < |lines|
    ensures Concat(lines[..i + 1]) == Concat(lines[..i]) + lines[i]
  {
    assert lines[..i + 1] == lines[..i] + [lines[i]];
    ConcatSnoc(lines[..i], lines[i]);
  }

  lemma OpenIsGreedy(parts: seq<string>, current: string)
    requires Open(parts, current)
    ensures Greedy(parts)
  {
  }

  lemma {:induction false} NothingOpen()
    ensures Open([], "") && Concat([]) == ""
  {
  }

  /** The parts are the report, character for character, cut greedily at line breaks. */
  method PartitionGroundingReport(report: string) returns (parts: seq<string>)
    ensures Concat(parts) == report
    ensures Greedy(parts)
  {
    LinesFacts(report);
    var lines := Lines(report);
    hide Open, OneLine, Lines, FirstLine, Concat, Greedy;
    assert Open([], "") && Concat([]) == "" by { NothingOpen(); }
    parts := [];
    var current := "";
    var size := 0;
    for i := 0 to |lines|
      invariant Concat(parts) + current == Concat(lines[..i]) && size == |current|
      invariant Open(parts, current)
      invariant i < |lines| ==> if current == "" then parts == [] else EndsLine(current)
    {
      var line := lines[i];
      ConcatNext(lines, i);
      AddedFacts(parts, current, line);
      var n := |line|;
      if size > 0 && size + n > TARGET_RUNES {
        parts := parts + [current];
        current, size := "", 0;
        assert current + line == line;
      }
      current := current + line;
      size := size + n;
    }
    assert lines[..|lines|] == lines;
    assert Greedy(parts) by { OpenIsGreedy(parts, current); }
    if |current| > 0 {
      Close(parts, current);
      parts := parts + [current];
    }
  }

  /** There is only one such way to cut a report. */
  lemma {:induction false} GreedyCutIsUnique(a: seq<string>, b: seq<string>)
    requires Greedy(a) && Greedy(b) && Concat(a) == Concat(b)
    ensures a == b
    decreases |a|
  {
    if a != [] && b != [] {
      FirstPartsAgree(a, b);
      FirstPartsAgree(b, a);
      SameTail(a[0], Concat(a[1..]), b[0], Concat(b[1..]));
      TailIsGreedy(a);
      TailIsGreedy(b);
      hide Concat, Greedy;
      GreedyCutIsUnique(a[1..], b[1..]);
      assert a == [a[0]] + a[1..] && b == [b[0]] + b[1..];
    }
  }

  lemma SameTail(a: string, x: string, b: string, y: string)
    requires a + x == b + y && |a| == |b|
    ensures a == b && x == y
  {
    assert a == (a + x)[..|a|] && b == (b + y)[..|b|];
    assert x == (a + x)[|a|..] && y == (b + y)[|b|..];
  }

  lemma TailIsGreedy(a: seq<string>)
    requires a != [] && Greedy(a)
    ensures Greedy(a[1..])
  {
    hide FirstLine, OneLine;
  }

  /** A line-aligned prefix x of w longer than p holds p's line break and the
      whole line q begins with behind p. */
  lemma NextLineIsInside(w: string, p: string, q: string, x: string)
    requires p <= w && EndsLine(p) && x <= w && |p| < |x| && (EndsLine(x) || x == w)
    requires |p| + |q| <= |w| && w[|p|..|p| + |q|] == q
    ensures |x| >= |p| + FirstLine(q) && !OneLine(x)
  {
    assert x[|p| - 1] == p[|p| - 1];
    assert forall i | |p| <= i < |x| && i < |p| + |q| :: x[i] == q[i - |p|];
  }

  lemma PartsArePrefixes(a: seq<string>)
    requires a != []
    ensures a[0] <= Concat(a) && (|a| == 1 ==> a[0] == Concat(a))
    ensures |a| > 1 ==> |a[0]| + |a[1]| <= |Concat(a)| && Concat(a)[|a[0]|..|a[0]| + |a[1]|] == a[1]
  {
    assert |a| == 1 ==> a[1..] == [];
  }

  /** A first part cannot stop short of another's: the other would hold its line
      break and the whole next line, and be over target. */
  lemma FirstPartsAgree(a: seq<string>, b: seq<string>)
    requires Greedy(a) && Greedy(b) && Concat(a) == Concat(b) && a != [] && b != []
    ensures |a[0]| >= |b[0]|
  {
    PartsArePrefixes(a);
    PartsArePrefixes(b);
    hide Concat, FirstLine, OneLine;
    if |a[0]| < |b[0]| {
      NextLineIsInside(Concat(a), a[0], a[1], b[0]);
    }
  }

  // ---------- scoring claims ----------

  datatype ClaimType = Attribution | Architectural | Numerical | Quote | Framing | UnknownType

  datatype Status = Grounded | Partial | Ungrounded | UnknownStatus

  datatype Claim = Claim(kind: ClaimType, status: Status)

  datatype Verdict = Verdict(claims: seq<Claim>, met: bool, unavailable: bool, grounded: nat, partial: nat,
                             ungrounded: nat)

  predicate Hard(c: Claim) {
    c.kind in {Attribution, Architectural, Numerical, Quote} && c.status == Ungrounded
  }

  function WithStatus(claims: seq<Claim>, status: Status): nat {
    if claims == [] then 0
    else WithStatus(claims[..|claims| - 1], status) + if claims[|claims| - 1].status == status then 1 else 0
  }

  function HardCount(claims: seq<Claim>): nat {
    if claims == [] then 0 else HardCount(claims[..|claims| - 1]) + if Hard(claims[|claims| - 1]) then 1 else 0
  }

  function Classified(claims: seq<Claim>): nat {
    WithStatus(claims, Grounded) + WithStatus(claims, Partial) + WithStatus(claims, Ungrounded)
  }

  /** Seventy percent support with half credit for partial claims, and at most
      one hard ungrounded claim in twenty. */
  predicate Accepts(claims: seq<Claim>) {
    var t := Classified(claims);
    t == 0 || (5 * (2 * WithStatus(claims, Grounded) + WithStatus(claims, Partial)) >= 7 * t
               && HardCount(claims) <= t / 20)
  }

  /** The counts count: they are the numbers of claims of that kind. */
  lemma {:induction false} StatusesCounted(claims: seq<Claim>, n: nat, s: Status)
    requires n <= |claims|
    ensures WithStatus(claims[..n], s) == |set i | 0 <= i < n && claims[i].status == s|
  {
    if n > 0 {
      StatusesCounted(claims, n - 1, s);
      assert claims[..n][..n - 1] == claims[..n - 1];
      assert (set i | 0 <= i < n && claims[i].status == s)
             == (set i | 0 <= i < n - 1 && claims[i].status == s)
                + if claims[n - 1].status == s then {n - 1} else {};
    }
  }

  lemma {:induction false} HardCounted(claims: seq<Claim>, n: nat)
    requires n <= |claims|
    ensures HardCount(claims[..n]) == |set i | 0 <= i < n && Hard(claims[i])|
  {
    hide Hard;
    if n > 0 {
      HardCounted(claims, n - 1);
      assert claims[..n][..n - 1] == claims[..n - 1] && claims[..n][n - 1] == claims[n - 1];
      assert (set i | 0 <= i < n && Hard(claims[i]))
             == (set i | 0 <= i < n - 1 && Hard(claims[i])) + if Hard(claims[n - 1]) then {n - 1} else {};
    }
  }

  lemma ClaimsCounted(claims: seq<Claim>)
    ensures WithStatus(claims, Grounded) == |set i | 0 <= i < |claims| && claims[i].status == Grounded|
    ensures WithStatus(claims, Partial) == |set i | 0 <= i < |claims| && claims[i].status == Partial|
    ensures WithStatus(claims, Ungrounded) == |set i | 0 <= i < |claims| && claims[i].status == Ungrounded|
    ensures HardCount(claims) == |set i | 0 <= i < |claims| && claims[i].status == Ungrounded
                                          && claims[i].kind in {Attribution, Architectural, Numerical, Quote}|
  {
    assert claims[..|claims|] == claims;
    StatusesCounted(claims, |claims|, Grounded);
    StatusesCounted(claims, |claims|, Partial);
    StatusesCounted(claims, |claims|, Ungrounded);
    HardCounted(claims, |claims|);
    hide WithStatus, HardCount;
    assert (set i | 0 <= i < |claims| && claims[i].status == Ungrounded
                    && claims[i].kind in {Attribution, Architectural, Numerical, Quote})
           == set i | 0 <= i < |claims| && Hard(claims[i]);
  }

  /** scoreGroundingVerdict, over exact fractions instead of floating point. */
  method ScoreGroundingVerdict(claims: seq<Claim>) returns (v: Verdict)
    ensures v == Scored(claims) && v.claims == claims && !v.unavailable
    ensures v.grounded == |set i | 0 <= i < |claims| && claims[i].status == Grounded|
    ensures v.partial == |set i | 0 <= i < |claims| && claims[i].status == Partial|
    ensures v.ungrounded == |set i | 0 <= i < |claims| && claims[i].status == Ungrounded|
    ensures var total := v.grounded + v.partial + v.ungrounded;
            v.met <==> total == 0
                       || (20 * v.grounded + 10 * v.partial >= 14 * total
                           && 20 * |set i | 0 <= i < |claims| && claims[i].status == Ungrounded
                                            && claims[i].kind in {Attribution, Architectural, Numerical, Quote}|
                              <= total)
  {
    var grounded, partial, ungrounded, hard := 0, 0, 0, 0;
    for i := 0 to |claims|
      invariant grounded == WithStatus(claims[..i], Grounded) && partial == WithStatus(claims[..i], Partial)
      invariant ungrounded == WithStatus(claims[..i], Ungrounded) && hard == HardCount(claims[..i])
    {
      assert claims[..i + 1][..i] == claims[..i];
      match claims[i].status {
        case Grounded => grounded := grounded + 1;
        case Partial => partial := partial + 1;
        case Ungrounded =>
          ungrounded := ungrounded + 1;
          if Hard(claims[i]) {
            hard := hard + 1;
          }
        case UnknownStatus =>
      }
    }
    assert claims[..|claims|] == claims;
    ClaimsCounted(claims);
    var total := grounded + partial + ungrounded;
    if total == 0 {
      return Verdict(claims, true, false, grounded, partial, ungrounded);
    }
    var support := grounded as real + 0.5 * partial as real;
    var ratio := support / total as real;
    RatioIsIntegral(grounded, partial, total);
    return Verdict(claims, ratio >= 0.70 && hard <= total / 20, false, grounded, partial, ungrounded);
  }

  lemma RatioIsIntegral(g: nat, p: nat, t: nat)
    requires t > 0
    ensures (g as real + 0.5 * p as real) / t as real >= 0.70 <==> 5 * (2 * g + p) >= 7 * t
  {
    var support := g as real + 0.5 * p as real;
    var over := support / t as real - 0.70;
    assert over * t as real == support - 0.70 * t as real;
    SignOfProduct(over, t as real);
    assert 10.0 * (support - 0.70 * t as real) == (5 * (2 * g + p) - 7 * t) as real;
  }

  lemma SignOfProduct(x: real, t: real)
    requires t > 0.0
    ensures x >= 0.0 <==> x * t >= 0.0
  {
  }

  function Scored(claims: seq<Claim>): Verdict {
    Verdict(claims, Accepts(claims), false, WithStatus(claims, Grounded), WithStatus(claims, Partial),
            WithStatus(claims, Ungrounded))
  }

  lemma {:induction false} CountsJoin(a: seq<Claim>, b: seq<Claim>)
    ensures forall s :: WithStatus(a + b, s) == WithStatus(a, s) + WithStatus(b, s)
    ensures Classified(a + b) == Classified(a) + Classified(b) && HardCount(a + b) == HardCount(a) + HardCount(b)
    decreases |b|
  {
    if b == [] {
      assert a + b == a;
    } else {
      var n := |b| - 1;
      CountsJoin(a, b[..n]);
      assert (a + b)[..|a| + n] == a + b[..n];
    }
  }

  /** Accepted lists stay accepted together. */
  lemma AcceptanceIsClosed(a: seq<Claim>, b: seq<Claim>)
    requires Accepts(a) && Accepts(b)
    ensures Accepts(a + b)
  {
    CountsJoin(a, b);
    HardWithin(a);
    HardWithin(b);
  }

  lemma {:induction false} HardWithin(a: seq<Claim>)
    ensures HardCount(a) <= WithStatus(a, Ungrounded)
  {
    if a != [] {
      HardWithin(a[..|a| - 1]);
    }
  }

  function Rank(s: Status): nat
    requires !s.UnknownStatus?
  {
    match s
    case Ungrounded => 0
    case Partial => 1
    case Grounded => 2
  }

  /** Better evidence for one claim never turns acceptance into rejection. */
  lemma AcceptanceIsMonotone(claims: seq<Claim>, i: nat, better: Status)
    requires i < |claims| && !claims[i].status.UnknownStatus? && !better.UnknownStatus?
             && Rank(better) >= Rank(claims[i].status)
    requires Accepts(claims)
    ensures Accepts(claims[i := claims[i].(status := better)])
  {
    var c' := claims[i].(status := better);
    CountsAt(claims, i, claims[i]);
    CountsAt(claims, i, c');
    assert claims[i := claims[i]] == claims;
    hide WithStatus, HardCount;
  }

  /** Counts with claim i replaced: what the others contribute, plus that claim. */
  lemma CountsAt(claims: seq<Claim>, i: nat, c: Claim)
    requires i < |claims|
    ensures var more := claims[i := c];
            && (forall s ::
                  WithStatus(more, s)
                  == WithStatus(claims[..i], s) + WithStatus(claims[i + 1..], s) + if c.status == s then 1 else 0)
            && HardCount(more) == HardCount(claims[..i]) + HardCount(claims[i + 1..]) + if Hard(c) then 1 else 0
  {
    assert claims[i := c] == claims[..i] + ([c] + claims[i + 1..]);
    CountsJoin(claims[..i], [c] + claims[i + 1..]);
    CountsJoin([c], claims[i + 1..]);
    SingleCounts(c);
  }

  lemma SingleCounts(c: Claim)
    ensures forall s :: WithStatus([c], s) == if c.status == s then 1 else 0
    ensures HardCount([c]) == if Hard(c) then 1 else 0
  {
    assert [c][..0] == [];
  }

  // ---------- the strict rule and the parts ----------

  predicate Known(c: Claim) {
    !c.kind.UnknownType? && !c.status.UnknownStatus?
  }

  predicate Intelligible(claims: seq<Claim>) {
    forall i | 0 <= i < |claims| :: Known(claims[i])
  }

  /** The audit said something, and nothing unintelligible. */
  predicate Complete(claims: seq<Claim>) {
    claims != [] && Intelligible(claims)
  }

  /** Every factual claim is fully grounded. */
  predicate Supported(claims: seq<Claim>) {
    forall i | 0 <= i < |claims| && !claims[i].kind.Framing? :: claims[i].status.Grounded?
  }

  function Strict(v: Verdict): Verdict {
    v.(met := v.met && Complete(v.claims) && Supported(v.claims), unavailable := v.unavailable || !Complete(v.claims))
  }

  method StrictGraphGrounding(v: Verdict) returns (r: Verdict)
    ensures r == Strict(v)
    ensures r.unavailable
            <==> v.unavailable || v.claims == []
                 || exists i :: 0 <= i < |v.claims|
                                && (v.claims[i].kind == UnknownType || v.claims[i].status == UnknownStatus)
    ensures r.met ==> v.met && v.claims != []
                      && forall i | 0 <= i < |v.claims| ::
                        v.claims[i].status == Grounded
                        || (v.claims[i].kind == Framing && v.claims[i].status in {Partial, Ungrounded})
    ensures v.met && !r.unavailable
            && (forall i | 0 <= i < |v.claims| :: v.claims[i].status == Grounded || v.claims[i].kind == Framing)
            ==> r.met
    ensures r == v.(met := r.met, unavailable := r.unavailable)
  {
    r := v;
    if |v.claims| == 0 {
      return r.(met := false, unavailable := true);
    }
    var issues := false;
    for i := 0 to |v.claims|
      invariant forall k | 0 <= k < i :: Known(v.claims[k])
      invariant issues <==> exists k :: 0 <= k < i && !v.claims[k].kind.Framing? && !v.claims[k].status.Grounded?
    {
      var c := v.claims[i];
      if c.kind.UnknownType? || c.status.UnknownStatus? {
        assert !Known(v.claims[i]);
        return r.(met := false, unavailable := true);
      }
      if !c.kind.Framing? && !c.status.Grounded? {
        issues := true;
      }
    }
    if issues {
      r := r.(met := false);
    }
  }

  /** The verdict on one part. */
  function Audited(claims: seq<Claim>): Verdict {
    Strict(Scored(claims))
  }

  function AllClaims(results: seq<Verdict>): seq<Claim> {
    if results == [] then [] else AllClaims(results[..|results| - 1]) + results[|results| - 1].claims
  }

  /** Every part's claims are there, in their place. */
  lemma {:induction false} ClaimsInOrder(results: seq<Verdict>, i: nat)
    requires i < |results|
    ensures AllClaims(results) == AllClaims(results[..i]) + results[i].claims + AllClaims(results[i + 1..])
    decreases |results|
  {
    var n := |results| - 1;
    if i == n {
      assert results[n + 1..] == [];
    } else {
      ClaimsInOrder(results[..n], i);
      assert results[..n][..i] == results[..i] && results[..n][i + 1..] == results[i + 1..][..n - i - 1];
    }
  }

  predicate AnyUnavailable(results: seq<Verdict>) {
    exists i :: 0 <= i < |results| && results[i].unavailable
  }

  method CombineGroundingParts(results: seq<Verdict>) returns (combined: Verdict)
    ensures AnyUnavailable(results) ==> combined == Verdict(AllClaims(results), false, true, 0, 0, 0)
    ensures !AnyUnavailable(results) ==> combined == Audited(AllClaims(results))
  {
    var claims: seq<Claim> := [];
    var unavailable := false;
    for i := 0 to |results|
      invariant claims == AllClaims(results[..i])
      invariant unavailable <==> AnyUnavailable(results[..i])
    {
      assert results[..i + 1][..i] == results[..i];
      assert AnyUnavailable(results[..i + 1]) <==> AnyUnavailable(results[..i]) || results[i].unavailable by {
        assert results[..i + 1][i] == results[i];
        if k :| 0 <= k < i && results[..i][k].unavailable {
          assert results[..i + 1][k].unavailable;
        }
        if AnyUnavailable(results[..i + 1]) {
          var k: int :| 0 <= k < |results[..i + 1]| && results[..i + 1][k].unavailable;
          assert k < i ==> results[..i][k].unavailable;
        }
      }
      claims := claims + results[i].claims;
      if results[i].unavailable {
        unavailable := true;
      }
    }
    assert results[..|results|] == results;
    if unavailable {
      return Verdict(claims, false, true, 0, 0, 0);
    }
    var scored := ScoreGroundingVerdict(claims);
    combined := StrictGraphGrounding(scored);
  }

  ghost predicate FromAudit(results: seq<Verdict>) {
    forall i | 0 <= i < |results| :: results[i] == Audited(results[i].claims)
  }

  lemma JoinedClaims(a: seq<Claim>, b: seq<Claim>)
    ensures Supported(a + b) <==> Supported(a) && Supported(b)
    ensures Intelligible(a + b) <==> Intelligible(a) && Intelligible(b)
  {
    var all := a + b;
    assert forall i | 0 <= i < |a| :: all[i] == a[i];
    assert forall i | 0 <= i < |b| :: all[|a| + i] == b[i];
    assert forall i | |a| <= i < |all| :: all[i] == b[i - |a|];
  }

  predicate SoundPart(claims: seq<Claim>) {
    Supported(claims) && Intelligible(claims)
  }

  /** All claims together are sound exactly when those of every part are. */
  lemma {:induction false} PartsAreSound(results: seq<Verdict>)
    ensures SoundPart(AllClaims(results)) <==> forall i | 0 <= i < |results| :: SoundPart(results[i].claims)
    ensures AllClaims(results) == [] <==> forall i | 0 <= i < |results| :: results[i].claims == []
  {
    if results != [] {
      var n := |results| - 1;
      PartsAreSound(results[..n]);
      JoinedClaims(AllClaims(results[..n]), results[n].claims);
      assert forall i | 0 <= i < n :: results[..n][i] == results[i];
      hide Supported, Intelligible;
    }
  }

  lemma {:induction false} PartsAccepted(results: seq<Verdict>)
    requires forall i | 0 <= i < |results| :: Accepts(results[i].claims)
    ensures Accepts(AllClaims(results))
  {
    hide Accepts;
    if results == [] {
      assert Accepts([]) by { NothingToAccept(); }
    } else {
      var n := |results| - 1;
      PartsAccepted(results[..n]);
      AcceptanceIsClosed(AllClaims(results[..n]), results[n].claims);
    }
  }

  lemma NothingToAccept()
    ensures Accepts([])
  {
    assert Classified([]) == 0;
  }

  /** If every part is met, so is the whole report. */
  lemma {:induction false} MetPartsMakeMetReport(results: seq<Verdict>)
    requires results != [] && FromAudit(results) && forall i | 0 <= i < |results| :: results[i].met
    ensures !AnyUnavailable(results) && Audited(AllClaims(results)).met
  {
    hide Accepts, Supported, Intelligible, AllClaims;
    forall i | 0 <= i < |results|
      ensures !results[i].unavailable && Accepts(results[i].claims) && SoundPart(results[i].claims)
              && results[i].claims != []
    {
      assert results[i] == Audited(results[i].claims) && results[i].met;
    }
    PartsAccepted(results);
    PartsAreSound(results);
    assert results[0].claims != [];
  }

  lemma {:induction false} NothingHard(claims: seq<Claim>)
    requires Supported(claims)
    ensures HardCount(claims) == 0
  {
    if claims != [] {
      var n := |claims| - 1;
      assert Supported(claims[..n]);
      NothingHard(claims[..n]);
    }
  }

  /** With every factual claim grounded the score is a matter of counts. */
  lemma SupportedAccepts(claims: seq<Claim>)
    requires Supported(claims)
    ensures Accepts(claims) <==>
              3 * WithStatus(claims, Grounded) >= 2 * WithStatus(claims, Partial) + 7 * WithStatus(claims, Ungrounded)
  {
    NothingHard(claims);
    hide WithStatus, HardCount, Supported;
  }

  /** A met report has every part audited completely and every factual claim
      grounded; so its ungrounded and partial claims are framing, and the part is met
      exactly when its grounded claims outweigh them. */
  lemma {:induction false} MetReportHasSoundParts(results: seq<Verdict>, i: nat)
    requires FromAudit(results) && !AnyUnavailable(results) && Audited(AllClaims(results)).met && i < |results|
    ensures !results[i].unavailable && Complete(results[i].claims) && Supported(results[i].claims)
    ensures results[i].met <==>
              3 * WithStatus(results[i].claims, Grounded)
              >= 2 * WithStatus(results[i].claims, Partial) + 7 * WithStatus(results[i].claims, Ungrounded)
  {
    hide Accepts, Supported, Intelligible, AllClaims;
    PartsAreSound(results);
    SupportedAccepts(results[i].claims);
    assert results[i] == Audited(results[i].claims) && SoundPart(results[i].claims);
  }

  /** Such a part can fail: framing alone may fall below the support threshold. */
  lemma MetReportWithUnmetPart()
    ensures var framing := [Claim(Framing, Ungrounded)];
            var facts := [Claim(Quote, Grounded), Claim(Quote, Grounded), Claim(Quote, Grounded)];
            var results := [Audited(framing), Audited(facts)];
            !results[0].met && !AnyUnavailable(results) && Audited(AllClaims(results)).met
  {
    var f, q := Claim(Framing, Ungrounded), Claim(Quote, Grounded);
    OneFramingFails(f, q);
    TwoParts(Audited([f]), Audited([q, q, q]));
    hide Accepts, AllClaims;
  }

  lemma OneFramingFails(f: Claim, q: Claim)
    requires f == Claim(Framing, Ungrounded) && q == Claim(Quote, Grounded)
    ensures Accepts([f] + [q, q, q]) && !Accepts([f])
  {
    SingleCounts(f);
    AllGrounded([q, q, q]);
    CountsJoin([f], [q, q, q]);
    hide WithStatus, HardCount;
  }

  lemma TwoParts(a: Verdict, b: Verdict)
    ensures AllClaims([a, b]) == a.claims + b.claims
  {
    assert [a, b][..1] == [a] && [a][..0] == [];
    assert AllClaims([]) == [] && AllClaims([a]) == AllClaims([a][..0]) + a.claims;
  }

  // ---------- what may be repaired ----------

  method GraphGroundingRepairable(v: Option<Verdict>) returns (r: bool)
    ensures r == Repairable(v)
    ensures r <==> v == None
                   || (!v.value.unavailable
                       && (v.value.met
                           || ((forall i | 0 <= i < |v.value.claims| :: v.value.claims[i].kind != UnknownType
                                  && v.value.claims[i].status != UnknownStatus)
                               && exists i :: 0 <= i < |v.value.claims| && v.value.claims[i].status != Grounded)))
  {
    if v.None? {
      return true;
    }
    if v.value.unavailable {
      return false;
    }
    if v.value.met {
      return true;
    }
    if |v.value.claims| == 0 {
      return false;
    }
    var unsupported := false;
    for i := 0 to |v.value.claims|
      invariant forall k | 0 <= k < i :: Known(v.value.claims[k])
      invariant unsupported <==> exists k :: 0 <= k < i && !v.value.claims[k].status.Grounded?
    {
      var c := v.value.claims[i];
      if c.kind.UnknownType? || c.status.UnknownStatus? {
        assert !Known(v.value.claims[i]);
        return false;
      }
      if !c.status.Grounded? {
        unsupported := true;
      }
    }
    return unsupported;
  }

  predicate Repairable(v: Option<Verdict>) {
    v.None? || (!v.value.unavailable &&
                (v.value.met || (Complete(v.value.claims)
                                 && exists k :: 0 <= k < |v.value.claims| && !v.value.claims[k].status.Grounded?)))
  }

  /** For an audited report the test comes to this: the audit was available. A
      complete audit that rejects always names something to rewrite. */
  lemma AvailableIsRepairable(claims: seq<Claim>)
    ensures Repairable(Some(Audited(claims))) <==> !Audited(claims).unavailable
  {
    if Complete(claims) && forall k | 0 <= k < |claims| :: claims[k].status.Grounded? {
      AllGrounded(claims);
    }
  }

  lemma {:induction false} AllGrounded(claims: seq<Claim>)
    requires forall k | 0 <= k < |claims| :: claims[k].status.Grounded?
    ensures WithStatus(claims, Grounded) == |claims| == Classified(claims) && HardCount(claims) == 0
    ensures WithStatus(claims, Partial) == 0
    ensures Accepts(claims)
  {
    if claims != [] {
      AllGrounded(claims[..|claims| - 1]);
    }
  }
}
