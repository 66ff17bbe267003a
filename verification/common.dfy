/** Small functions shared by the model: bounds, sequences, and the even split of
    a budget. */
module Common {
  function Min(a: int, b: int): (m: int)
    ensures m <= a && m <= b && (m == a || m == b)
  {
    if a <= b then a else b
  }

  function Max(a: int, b: int): (m: int)
    ensures m >= a && m >= b && (m == a || m == b)
  {
    if a >= b then a else b
  }

  predicate Distinct<T(==)>(s: seq<T>) {
    forall i, j | 0 <= i < j < |s| :: s[i] != s[j]
  }

  function Elements<T>(s: seq<T>): set<T> {
    set x | x in s
  }

  function Concat<T>(parts: seq<seq<T>>): seq<T> {
    if parts == [] then [] else parts[0] + Concat(parts[1..])
  }

  lemma {:induction false} ConcatSnoc<T>(parts: seq<seq<T>>, last: seq<T>)
    ensures Concat(parts + [last]) == Concat(parts) + last
  {
    if parts == [] {
      assert [last][1..] == [] && last + [] == last;
    } else {
      assert (parts + [last])[0] == parts[0] && (parts + [last])[1..] == parts[1..] + [last];
      ConcatSnoc(parts[1..], last);
      Associates(parts[0], Concat(parts[1..]), last);
    }
  }

  lemma Associates<T>(a: seq<T>, b: seq<T>, c: seq<T>)
    ensures a + (b + c) == (a + b) + c
  {
  }

  // ---------- an even split ----------

  /** What the i-th of n sharers of a budget gets: the first ones get the rest. */
  function Share(budget: nat, n: nat, i: nat): nat
    requires n > 0
  {
    budget / n + if i < budget % n then 1 else 0
  }

  function Shares(budget: nat, n: nat, i: nat): nat
    requires n > 0
  {
    if i == 0 then 0 else Shares(budget, n, i - 1) + Share(budget, n, i - 1)
  }

  lemma {:induction false} SharesSoFar(budget: nat, n: nat, i: nat)
    requires n > 0
    ensures Shares(budget, n, i) == i * (budget / n) + Min(i, budget % n)
  {
    if i > 0 {
      SharesSoFar(budget, n, i - 1);
      assert i * (budget / n) == (i - 1) * (budget / n) + budget / n;
    }
  }

  /** The shares are the whole budget. */
  lemma SharesAreTheBudget(budget: nat, n: nat)
    requires n > 0
    ensures Shares(budget, n, n) == budget
  {
    SharesSoFar(budget, n, n);
  }

  lemma ShareFits(budget: nat, n: nat, i: nat)
    requires i < n
    ensures Share(budget, n, i) <= budget && Shares(budget, n, i + 1) == Shares(budget, n, i) + Share(budget, n, i)
  {
    var q, r := budget / n, budget % n;
    assert budget == n * q + r;
    TimesAtLeastOnce(n, q);
  }

  lemma TimesAtLeastOnce(n: nat, q: nat)
    requires n > 0
    ensures n * q >= q
  {
  }
}
