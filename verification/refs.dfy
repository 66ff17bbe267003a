/** Delivery references: trimming, normalization, canonical order and the
    byte string whose hash is the occurrence key of a notification attempt.
    Strings are byte strings, as in Go. */
module Refs {
  import opened Common
  import opened Wrappers

  type Byte = b: int | 0 <= b < 256
  type Bytes = seq<Byte>

  datatype Ref = Ref(inputId: Bytes, itemKey: Bytes)

  const INPUT_ID_MAX_BYTES := 64
  const ITEM_KEY_MAX_BYTES := 512

  // ---------- white space ----------

  /** The three-byte UTF-8 encodings of white space (U+1680, U+2000-200A,
      U+2028, U+2029, U+202F, U+205F, U+3000). */
  predicate WideSpace(a: Byte, b: Byte, c: Byte) {
    || (a == 0xE1 && b == 0x9A && c == 0x80)
    || (a == 0xE2 && b == 0x80 && (0x80 <= c <= 0x8A || c == 0xA8 || c == 0xA9 || c == 0xAF))
    || (a == 0xE2 && b == 0x81 && c == 0x9F)
    || (a == 0xE3 && b == 0x80 && c == 0x80)
  }

  predicate AsciiSpace(a: Byte) {
    9 <= a <= 13 || a == 32
  }

  /** The encodings of U+0085 and U+00A0. */
  predicate LatinSpace(a: Byte, b: Byte) {
    a == 0xC2 && (b == 0x85 || b == 0xA0)
  }

  /** Bytes taken by a white-space character at the front of s; 0 if none. */
  function LeadingSpace(s: Bytes): (n: nat)
    ensures n <= |s|
  {
    if |s| >= 1 && AsciiSpace(s[0]) then 1
    else if |s| >= 2 && LatinSpace(s[0], s[1]) then 2
    else if |s| >= 3 && WideSpace(s[0], s[1], s[2]) then 3
    else 0
  }

  function TrailingSpace(s: Bytes): (n: nat)
    ensures n <= |s|
  {
    var e := |s|;
    if e >= 1 && AsciiSpace(s[e - 1]) then 1
    else if e >= 2 && LatinSpace(s[e - 2], s[e - 1]) then 2
    else if e >= 3 && WideSpace(s[e - 3], s[e - 2], s[e - 1]) then 3
    else 0
  }

  function TrimLeft(s: Bytes): (t: Bytes)
    ensures LeadingSpace(t) == 0
    decreases |s|
  {
    var n := LeadingSpace(s);
    if n == 0 then s else TrimLeft(s[n..])
  }

  function TrimRight(s: Bytes): (t: Bytes)
    ensures t <= s
    ensures TrailingSpace(t) == 0
    decreases |s|
  {
    var n := TrailingSpace(s);
    if n == 0 then s else TrimRight(s[..|s| - n])
  }

  function TrimSpace(s: Bytes): (t: Bytes)
    ensures LeadingSpace(t) == 0 && TrailingSpace(t) == 0
  {
    TrimRight(TrimLeft(s))
  }

  lemma TrimIdempotent(s: Bytes)
    ensures TrimSpace(TrimSpace(s)) == TrimSpace(s)
  {
  }

  /** Nothing but white-space characters. */
  ghost predicate White(s: Bytes)
    decreases |s|
  {
    s == [] || (LeadingSpace(s) > 0 && White(s[LeadingSpace(s)..]))
  }

  lemma {:induction false} WhiteJoins(a: Bytes, b: Bytes)
    requires White(a) && White(b)
    ensures White(a + b)
    decreases |a|
  {
    if a == [] {
      assert a + b == b;
    } else {
      var n := LeadingSpace(a);
      assert LeadingSpace(a + b) == n && (a + b)[n..] == a[n..] + b;
      WhiteJoins(a[n..], b);
    }
  }

  lemma {:induction false} TrimLeftIsSuffix(s: Bytes) returns (n: nat)
    ensures n <= |s| && TrimLeft(s) == s[n..] && White(s[..n])
    decreases |s|
  {
    var k := LeadingSpace(s);
    if k == 0 {
      n := 0;
    } else {
      var m := TrimLeftIsSuffix(s[k..]);
      n := k + m;
      assert s[k..][m..] == s[n..] && s[..n] == s[..k] + s[k..][..m];
      assert LeadingSpace(s[..k]) == k && s[..k][k..] == [];
      WhiteJoins(s[..k], s[k..][..m]);
    }
  }

  lemma NothingIsWhite()
    ensures White([])
  {
  }

  lemma OneSpaceAtTheEnd(s: Bytes)
    requires TrailingSpace(s) > 0
    ensures White(s[|s| - TrailingSpace(s)..])
  {
    var c := s[|s| - TrailingSpace(s)..];
    assert LeadingSpace(c) == |c| && c[|c|..] == [];
  }

  lemma {:induction false} TrimRightIsPrefix(s: Bytes) returns (n: nat)
    ensures n <= |s| && TrimRight(s) == s[..n] && White(s[n..])
    decreases |s|
  {
    hide LeadingSpace, TrailingSpace, White;
    var k := TrailingSpace(s);
    if k == 0 {
      n := |s|;
      assert s[..n] == s && s[n..] == [];
      NothingIsWhite();
    } else {
      var e := |s| - k;
      n := TrimRightIsPrefix(s[..e]);
      OneSpaceAtTheEnd(s);
      assert s[..e][..n] == s[..n] && s[n..] == s[..e][n..] + s[e..];
      WhiteJoins(s[..e][n..], s[e..]);
    }
  }

  /** Trimming cuts exactly the white space around what is left, which neither begins
      nor ends with any. */
  lemma TrimCutsWhiteSpace(s: Bytes) returns (a: nat, b: nat)
    ensures a <= b <= |s| && TrimSpace(s) == s[a..b] && White(s[..a]) && White(s[b..])
    ensures LeadingSpace(TrimSpace(s)) == 0 == TrailingSpace(TrimSpace(s))
  {
    a := TrimLeftIsSuffix(s);
    var n := TrimRightIsPrefix(s[a..]);
    b := a + n;
    assert s[a..][..n] == s[a..b] && s[a..][n..] == s[b..];
  }

  // ---------- normalization ----------

  function Cleaned(r: Ref): Ref {
    Ref(TrimSpace(r.inputId), TrimSpace(r.itemKey))
  }

  predicate Blank(r: Ref) {
    r.inputId == [] || r.itemKey == []
  }

  predicate TooLong(r: Ref) {
    |r.inputId| > INPUT_ID_MAX_BYTES || |r.itemKey| > ITEM_KEY_MAX_BYTES
  }

  /** A ref the store may hold: trimmed, non-blank and within the limits. */
  predicate Proper(r: Ref) {
    Cleaned(r) == r && !Blank(r) && !TooLong(r)
  }

  /** A cleaned ref that makes the whole batch fail. */
  predicate Oversized(c: Ref) {
    !Blank(c) && TooLong(c)
  }

  function CleanAll(refs: seq<Ref>): (c: seq<Ref>)
    ensures |c| == |refs| && forall i | 0 <= i < |c| :: c[i] == Cleaned(refs[i])
  {
    seq(|refs|, i requires 0 <= i < |refs| => Cleaned(refs[i]))
  }

  /** What the first n cleaned refs stand for: the non-blank ones, each at its
      first occurrence. */
  function KeptOf(c: seq<Ref>, n: nat): seq<Ref>
    requires n <= |c|
  {
    if n == 0 then [] else
      var k := KeptOf(c, n - 1);
      if Blank(c[n - 1]) || c[n - 1] in k then k else k + [c[n - 1]]
  }

  function Kept(c: seq<Ref>): seq<Ref> {
    KeptOf(c, |c|)
  }

  lemma {:induction false} KeptFacts(c: seq<Ref>, n: nat)
    requires n <= |c|
    ensures Distinct(KeptOf(c, n))
    ensures forall r :: r in KeptOf(c, n) <==> r in c[..n] && !Blank(r)
  {
    if n > 0 {
      KeptFacts(c, n - 1);
      assert c[..n] == c[..n - 1] + [c[n - 1]];
    }
  }

  /** First-seen order: what the first refs stand for is a prefix of the whole. */
  lemma {:induction false} KeptGrows(c: seq<Ref>, m: nat, n: nat)
    requires m <= n <= |c|
    ensures KeptOf(c, m) <= KeptOf(c, n)
  {
    if m < n {
      KeptGrows(c, m, n - 1);
    }
  }

  method NormalizeTaskDeliveryRefs(refs: seq<Ref>) returns (r: Result<seq<Ref>>)
    ensures r.Err? <==> exists c :: c in CleanAll(refs) && Oversized(c)
    ensures r.Ok? ==> r.value == Kept(CleanAll(refs))
  {
    hide TrimSpace;
    ghost var cleaned := CleanAll(refs);
    var seen: set<Ref> := {};
    var out: seq<Ref> := [];
    for i := 0 to |refs|
      invariant out == KeptOf(cleaned, i)
      invariant forall x :: x in seen <==> x in out
      invariant forall k | 0 <= k < i :: !Oversized(cleaned[k])
    {
      var ref := Cleaned(refs[i]);
      assert ref == cleaned[i];
      if !Blank(ref) {
        if TooLong(ref) {
          assert ref in cleaned;
          return Err;
        }
        if ref !in seen {
          seen := seen + {ref};
          out := out + [ref];
        }
      }
    }
    return Ok(out);
  }

  /** Normalized refs are clean, not blank, within the limits and distinct. */
  lemma NormalizedRefsAreProper(refs: seq<Ref>)
    requires forall c | c in CleanAll(refs) :: !Oversized(c)
    ensures Distinct(Kept(CleanAll(refs)))
    ensures forall r | r in Kept(CleanAll(refs)) :: Proper(r) && |r.inputId| <= 64 && |r.itemKey| <= 512
  {
    var cleaned := CleanAll(refs);
    KeptFacts(cleaned, |cleaned|);
    assert cleaned[..|cleaned|] == cleaned;
    forall r | r in Kept(cleaned)
      ensures Proper(r)
    {
      var i :| 0 <= i < |refs| && r == Cleaned(refs[i]);
      CleanedTwice(refs[i]);
    }
  }

  lemma CleanedTwice(r: Ref)
    ensures Cleaned(Cleaned(r)) == Cleaned(r)
  {
    TrimIdempotent(r.inputId);
    TrimIdempotent(r.itemKey);
  }

  /** Normalizing a normalized batch changes nothing. */
  lemma NormalizeIdempotent(refs: seq<Ref>)
    requires Distinct(refs) && forall r | r in refs :: Proper(r)
    ensures Kept(CleanAll(refs)) == refs
  {
    forall i | 0 <= i < |refs|
      ensures CleanAll(refs)[i] == refs[i]
    {
      assert Proper(refs[i]);
    }
    assert CleanAll(refs) == refs;
    KeptOfClean(refs, |refs|);
    assert refs[..|refs|] == refs;
  }

  lemma {:induction false} KeptOfClean(c: seq<Ref>, n: nat)
    requires n <= |c| && Distinct(c) && forall r | r in c :: !Blank(r)
    ensures KeptOf(c, n) == c[..n]
  {
    if n > 0 {
      KeptOfClean(c, n - 1);
      assert c[n - 1] !in c[..n - 1];
      assert c[..n] == c[..n - 1] + [c[n - 1]];
    }
  }

  /** What a batch stands for does not depend on the order of its refs. */
  lemma KeptIgnoresOrder(a: seq<Ref>, b: seq<Ref>)
    requires Elements(a) == Elements(b)
    ensures Elements(Kept(CleanAll(a))) == Elements(Kept(CleanAll(b)))
  {
    KeptWithin(a, b);
    KeptWithin(b, a);
  }

  lemma KeptWithin(a: seq<Ref>, b: seq<Ref>)
    requires Elements(a) <= Elements(b)
    ensures Elements(Kept(CleanAll(a))) <= Elements(Kept(CleanAll(b)))
  {
    var c, d := CleanAll(a), CleanAll(b);
    KeptFacts(c, |c|);
    KeptFacts(d, |d|);
    assert c[..|c|] == c && d[..|d|] == d;
    forall r | r in Elements(Kept(CleanAll(a)))
      ensures r in Elements(Kept(CleanAll(b)))
    {
      var i :| 0 <= i < |a| && CleanAll(a)[i] == r;
      assert a[i] in Elements(a);
      var j :| 0 <= j < |b| && b[j] == a[i];
      assert CleanAll(b)[j] == r;
    }
  }

  // ---------- canonical order ----------

  /** Go's byte-wise string order. */
  predicate Before(a: Bytes, b: Bytes) {
    if b == [] then false
    else if a == [] then true
    else a[0] < b[0] || (a[0] == b[0] && Before(a[1..], b[1..]))
  }

  lemma BeforeIrreflexive(a: Bytes)
    ensures !Before(a, a)
  {
  }

  lemma BeforeTransitive(a: Bytes, b: Bytes, c: Bytes)
    requires Before(a, b) && Before(b, c)
    ensures Before(a, c)
  {
  }

  lemma BeforeTotal(a: Bytes, b: Bytes)
    ensures Before(a, b) || a == b || Before(b, a)
  {
    if a != [] && b != [] && a[0] == b[0] {
      BeforeTotal(a[1..], b[1..]);
      assert a == [a[0]] + a[1..] && b == [b[0]] + b[1..];
    }
  }

  predicate Less(a: Ref, b: Ref) {
    if a.inputId != b.inputId then Before(a.inputId, b.inputId) else Before(a.itemKey, b.itemKey)
  }

  lemma LessIsStrictTotal(a: Ref, b: Ref)
    ensures !Less(a, a)
    ensures Less(a, b) || a == b || Less(b, a)
    ensures Less(a, b) ==> a != b && !Less(b, a)
  {
    BeforeIrreflexive(a.itemKey);
    BeforeTotal(a.inputId, b.inputId);
    BeforeTotal(a.itemKey, b.itemKey);
    if Less(a, b) && Less(b, a) {
      if a.inputId != b.inputId {
        BeforeTransitive(a.inputId, b.inputId, a.inputId);
        BeforeIrreflexive(a.inputId);
      } else {
        BeforeTransitive(a.itemKey, b.itemKey, a.itemKey);
      }
    }
  }

  lemma LessTransitive(a: Ref, b: Ref, c: Ref)
    requires Less(a, b) && Less(b, c)
    ensures Less(a, c)
  {
    if a.inputId == b.inputId == c.inputId {
      BeforeTransitive(a.itemKey, b.itemKey, c.itemKey);
    } else if a.inputId != b.inputId && b.inputId != c.inputId {
      BeforeTransitive(a.inputId, b.inputId, c.inputId);
      BeforeIrreflexive(a.inputId);
    }
  }

  predicate Sorted(s: seq<Ref>) {
    forall i, j | 0 <= i < j < |s| :: Less(s[i], s[j])
  }

  function Insert(r: Ref, s: seq<Ref>): (t: seq<Ref>)
    requires Sorted(s) && r !in s
    ensures Sorted(t) && Elements(t) == Elements(s) + {r} && |t| == |s| + 1
  {
    if s == [] then [r]
    else
      LessIsStrictTotal(r, s[0]);
      if Less(r, s[0]) then
        InsertInFront(r, s);
        [r] + s
      else
        InsertBehind(r, s);
        [s[0]] + Insert(r, s[1..])
  }

  lemma InsertInFront(r: Ref, s: seq<Ref>)
    requires Sorted(s) && s != [] && Less(r, s[0])
    ensures Sorted([r] + s)
  {
    forall j | 0 < j < |s|
      ensures Less(r, s[j])
    {
      LessTransitive(r, s[0], s[j]);
    }
  }

  lemma InsertBehind(r: Ref, s: seq<Ref>)
    requires Sorted(s) && s != [] && r !in s && Less(s[0], r)
    ensures Sorted(s[1..]) && r !in s[1..]
    ensures forall t: seq<Ref> | Sorted(t) && Elements(t) == Elements(s[1..]) + {r} :: Sorted([s[0]] + t)
    ensures forall t: seq<Ref> | Elements(t) == Elements(s[1..]) + {r} :: Elements([s[0]] + t) == Elements(s) + {r}
  {
    assert s == [s[0]] + s[1..];
    forall t: seq<Ref> | Sorted(t) && Elements(t) == Elements(s[1..]) + {r}
      ensures Sorted([s[0]] + t)
    {
      forall k | 0 <= k < |t|
        ensures Less(s[0], t[k])
      {
        assert t[k] in Elements(t);
      }
    }
  }

  /** The order sort.Slice produces on distinct refs. */
  function SortRefs(s: seq<Ref>): (t: seq<Ref>)
    requires Distinct(s)
    ensures Sorted(t) && Elements(t) == Elements(s) && |t| == |s|
  {
    if s == [] then []
    else
      assert s == [s[0]] + s[1..];
      var rest := SortRefs(s[1..]);
      assert s[0] !in s[1..];
      assert s[0] !in Elements(rest);
      Insert(s[0], rest)
  }

  /** A set of refs has one sorted listing. */
  lemma {:induction false} SortedListingIsUnique(s: seq<Ref>, t: seq<Ref>)
    requires Sorted(s) && Sorted(t) && Elements(s) == Elements(t)
    ensures s == t
  {
    assert s == [] <==> Elements(s) == {} by {
      if s != [] { assert s[0] in Elements(s); }
    }
    assert t == [] <==> Elements(t) == {} by {
      if t != [] { assert t[0] in Elements(t); }
    }
    if s != [] {
      assert s[0] in Elements(t) && t[0] in Elements(s);
      LessIsStrictTotal(s[0], t[0]);
      assert s[0] == t[0];
      HeadIsNotInTail(s);
      HeadIsNotInTail(t);
      assert Elements(s[1..]) == Elements(s) - {s[0]};
      assert Elements(t[1..]) == Elements(t) - {t[0]};
      SortedListingIsUnique(s[1..], t[1..]);
      assert s == [s[0]] + s[1..] && t == [t[0]] + t[1..];
    }
  }

  lemma HeadIsNotInTail(s: seq<Ref>)
    requires Sorted(s) && s != []
    ensures s[0] !in s[1..]
  {
    LessIsStrictTotal(s[0], s[0]);
  }

  // ---------- occurrence key ----------

  function BigEndian16(n: nat): (b: Bytes)
    requires n < 0x1_0000
    ensures |b| == 2
  {
    [n / 256, n % 256]
  }

  /** binary.BigEndian.PutUint32 of a length, with Go's truncating conversion. */
  function BigEndian32(n: nat): (b: Bytes)
    ensures |b| == 4
  {
    var w := n % 0x1_0000_0000;
    BigEndian16(w / 0x1_0000) + BigEndian16(w % 0x1_0000)
  }

  lemma BigEndian16Injective(m: nat, n: nat)
    requires m < 0x1_0000 && n < 0x1_0000 && BigEndian16(m) == BigEndian16(n)
    ensures m == n
  {
    var a, b := BigEndian16(m), BigEndian16(n);
    assert a[0] == b[0] && a[1] == b[1];
    TwoDigits(m, n, 256);
  }

  lemma BigEndian32Injective(m: nat, n: nat)
    requires m < 0x1_0000_0000 && n < 0x1_0000_0000
    requires BigEndian32(m) == BigEndian32(n)
    ensures m == n
  {
    hide BigEndian16;
    assert m % 0x1_0000_0000 == m && n % 0x1_0000_0000 == n;
    var a, b := BigEndian32(m), BigEndian32(n);
    assert a[..2] == BigEndian16(m / 0x1_0000) && a[2..] == BigEndian16(m % 0x1_0000);
    assert b[..2] == BigEndian16(n / 0x1_0000) && b[2..] == BigEndian16(n % 0x1_0000);
    BigEndian16Injective(m / 0x1_0000, n / 0x1_0000);
    BigEndian16Injective(m % 0x1_0000, n % 0x1_0000);
    TwoDigits(m, n, 0x1_0000);
  }

  lemma TwoDigits(m: nat, n: nat, base: nat)
    requires base > 0 && m / base == n / base && m % base == n % base
    ensures m == n
  {
    assert m == base * (m / base) + m % base;
    assert n == base * (n / base) + n % base;
  }

  function Framed(s: Bytes): Bytes {
    BigEndian32(|s|) + s
  }

  /** The framed fields of the refs from index i on. */
  function EncodeFrom(s: seq<Ref>, i: nat): Bytes
    requires i <= |s|
    decreases |s| - i
  {
    if i == |s| then [] else Framed(s[i].inputId) + (Framed(s[i].itemKey) + EncodeFrom(s, i + 1))
  }

  function Ascii(s: string): Bytes {
    seq(|s|, i requires 0 <= i < |s| => s[i] as int % 256)
  }

  const KEY_TAG: Bytes := Ascii("task-notification-occurrence/v1\0")

  /** The bytes hashed for a set of distinct refs. SHA-256 and base64 are not
      modelled: two keys are equal in the model exactly when these bytes are. */
  function OccurrenceKey(refs: seq<Ref>): Bytes
    requires Distinct(refs)
  {
    KEY_TAG + EncodeFrom(SortRefs(refs), 0)
  }

  method TaskNotificationOccurrenceKey(refs: seq<Ref>) returns (key: Bytes)
    requires Distinct(refs)
    ensures key == OccurrenceKey(refs)
  {
    hide BigEndian32;
    var sorted := SortRefs(refs);
    key := KEY_TAG;
    for i := 0 to |sorted|
      invariant key + EncodeFrom(sorted, i) == KEY_TAG + EncodeFrom(sorted, 0)
    {
      ghost var before := key;
      key := key + (BigEndian32(|sorted[i].inputId|) + sorted[i].inputId);
      key := key + (BigEndian32(|sorted[i].itemKey|) + sorted[i].itemKey);
      Regroup(before, Framed(sorted[i].inputId), Framed(sorted[i].itemKey), EncodeFrom(sorted, i + 1));
    }
    assert key + [] == key;
  }

  lemma Regroup(a: Bytes, b: Bytes, c: Bytes, d: Bytes)
    ensures ((a + b) + c) + d == a + (b + (c + d))
  {
  }

  predicate ShortFields(s: seq<Ref>) {
    forall r | r in s :: |r.inputId| < 0x1_0000_0000 && |r.itemKey| < 0x1_0000_0000
  }

  /** A framed string can be told apart from whatever follows it. */
  lemma FramedIsPrefixFree(a: Bytes, x: Bytes, b: Bytes, y: Bytes)
    requires |a| < 0x1_0000_0000 && |b| < 0x1_0000_0000
    requires Framed(a) + x == Framed(b) + y
    ensures a == b && x == y
  {
    var l, r := Framed(a) + x, Framed(b) + y;
    assert l[..4] == BigEndian32(|a|) && r[..4] == BigEndian32(|b|);
    BigEndian32Injective(|a|, |b|);
    assert l[4..4 + |a|] == a && r[4..4 + |b|] == b;
    assert l[4 + |a|..] == x && r[4 + |b|..] == y;
  }

  lemma {:induction false} EncodingIsInjective(s: seq<Ref>, i: nat, t: seq<Ref>, k: nat)
    requires i <= |s| && k <= |t|
    requires ShortFields(s) && ShortFields(t) && EncodeFrom(s, i) == EncodeFrom(t, k)
    ensures s[i..] == t[k..]
    decreases |s| - i
  {
    if i < |s| && k < |t| {
      var x, y := EncodeFrom(s, i + 1), EncodeFrom(t, k + 1);
      FramedIsPrefixFree(s[i].inputId, Framed(s[i].itemKey) + x, t[k].inputId, Framed(t[k].itemKey) + y);
      FramedIsPrefixFree(s[i].itemKey, x, t[k].itemKey, y);
      EncodingIsInjective(s, i + 1, t, k + 1);
      assert s[i..] == [s[i]] + s[i + 1..] && t[k..] == [t[k]] + t[k + 1..];
    }
  }

  lemma SortedIsDistinct(s: seq<Ref>)
    requires Sorted(s)
    ensures Distinct(s)
  {
    forall i, j | 0 <= i < j < |s|
      ensures s[i] != s[j]
    {
      LessIsStrictTotal(s[i], s[j]);
    }
  }

  lemma KeyIgnoresOrder(a: seq<Ref>, b: seq<Ref>)
    requires Distinct(a) && Distinct(b) && Elements(a) == Elements(b)
    ensures OccurrenceKey(a) == OccurrenceKey(b)
  {
    SortedListingIsUnique(SortRefs(a), SortRefs(b));
  }

  /** The key identifies the set of refs, in whatever order they are given. */
  lemma KeyIdentifiesRefSet(a: seq<Ref>, b: seq<Ref>)
    requires Distinct(a) && Distinct(b)
    requires forall r | r in a :: !TooLong(r)
    requires forall r | r in b :: !TooLong(r)
    ensures OccurrenceKey(a) == OccurrenceKey(b) <==> Elements(a) == Elements(b)
  {
    var s, t := SortRefs(a), SortRefs(b);
    if Elements(a) == Elements(b) {
      KeyIgnoresOrder(a, b);
    }
    if OccurrenceKey(a) == OccurrenceKey(b) {
      assert OccurrenceKey(a)[|KEY_TAG|..] == EncodeFrom(s, 0);
      assert OccurrenceKey(b)[|KEY_TAG|..] == EncodeFrom(t, 0);
      forall r | r in s ensures !TooLong(r) { assert r in Elements(a); }
      forall r | r in t ensures !TooLong(r) { assert r in Elements(b); }
      EncodingIsInjective(s, 0, t, 0);
      assert s[0..] == s && t[0..] == t;
    }
  }
}
