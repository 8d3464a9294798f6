/**
 * The expense list of the room-maintenance ledger: its entries, their total
 * (`calculateTotalCost`) and the amount each member pays (`split`).
 */
module Expenses {
  import opened Wrappers

  /** One row of the "Items List" table: a label and what it costs. */
  datatype Entry = Entry(name: string, cost: real)

  /** The rule the entry form enforces: a non-empty name and a strictly positive cost. */
  predicate ValidEntry(e: Entry)
  {
    |e.name| > 0 && e.cost > 0.0
  }

  /** Every entry of the list satisfies the entry rule. */
  predicate AllValid(s: seq<Entry>)
  {
    forall i | 0 <= i < |s| :: ValidEntry(s[i])
  }

  /**
   * The sum of the costs, folded from the left and starting at 0, in the
   * order of the list, as `reduce((acc, item) => acc + item.cost, 0)` does.
   */
  function Total(s: seq<Entry>): real
  {
    if s == [] then 0.0 else Total(s[..|s| - 1]) + s[|s| - 1].cost
  }

  /** Appending an entry adds exactly its cost to the total. */
  lemma TotalAppend(s: seq<Entry>, e: Entry)
    ensures Total(s + [e]) == Total(s) + e.cost
  {
    assert (s + [e])[..|s|] == s;
  }

  /** The total of two lists put together is the sum of their totals (any grouping). */
  lemma {:induction false} TotalConcat(a: seq<Entry>, b: seq<Entry>)
    ensures Total(a + b) == Total(a) + Total(b)
    decreases |b|
  {
    if b == [] {
      assert a + b == a;
    } else {
      var front, last := b[..|b| - 1], b[|b| - 1];
      assert b == front + [last];
      assert a + b == (a + front) + [last];
      TotalConcat(a, front);
      TotalAppend(a + front, last);
    }
  }

  /** The total does not depend on the order of the entries. */
  lemma {:induction false} TotalPermutation(s: seq<Entry>, t: seq<Entry>)
    requires multiset(s) == multiset(t)
    ensures Total(s) == Total(t)
    decreases |s|
  {
    if s == [] {
      assert |t| == |multiset(t)| == 0;
    } else {
      var n := |s| - 1;
      var x := s[n];
      assert s == s[..n] + [x];
      assert x in multiset(s);
      var i :| 0 <= i < |t| && t[i] == x;
      var rest := t[..i] + t[i + 1..];
      assert t == (t[..i] + [x]) + t[i + 1..];
      assert multiset(rest) == multiset(t) - multiset{x};
      assert multiset(s[..n]) == multiset(s) - multiset{x};
      TotalPermutation(s[..n], rest);
      TotalConcat(t[..i] + [x], t[i + 1..]);
      TotalAppend(t[..i], x);
      TotalConcat(t[..i], t[i + 1..]);
    }
  }

  /** A list of valid entries never totals below zero, and a non-empty one totals above zero. */
  lemma {:induction false} TotalPositive(s: seq<Entry>)
    ensures AllValid(s) ==> Total(s) >= 0.0
    ensures AllValid(s) && |s| > 0 ==> Total(s) > 0.0
  {
    if s != [] && AllValid(s) {
      var front := s[..|s| - 1];
      assert forall i | 0 <= i < |front| :: front[i] == s[i];
      TotalPositive(front);
      assert ValidEntry(s[|s| - 1]);
    }
  }

  /**
   * The "Split Into" value: the integer `parseInt` produced, or None when the
   * field held no number (NaN).
   */
  type Headcount = Option<int>

  /** The headcount the split divides by: present and strictly positive. */
  predicate CanSplit(h: Headcount)
  {
    h.Some? && h.value > 0
  }

  /**
   * What each member pays: the total divided by the headcount, or 0 when the
   * headcount is missing, NaN, zero or negative.
   */
  function Split(total: real, h: Headcount): (r: real)
    ensures CanSplit(h) ==> r * (h.value as real) == total
    ensures !CanSplit(h) ==> r == 0.0
  {
    if !CanSplit(h) then 0.0 else total / (h.value as real)
  }

  /** Splitting a non-negative total gives a share between 0 and the total. */
  lemma SplitBounds(total: real, h: Headcount)
    ensures total >= 0.0 ==> 0.0 <= Split(total, h) <= total
  {
    if CanSplit(h) && total >= 0.0 {
      var r, k := Split(total, h), h.value as real;
      assert k >= 1.0;
      assert r >= 0.0;
      assert total - r == r * (k - 1.0);
      assert r * (k - 1.0) >= 0.0;
    }
  }
}
