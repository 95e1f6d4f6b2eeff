/** The per-type credential tally: a histogram turned into a sorted, duplicate-free breakdown. */
module Tally {
  type Breakdown = seq<(string, nat)>

  /** Code-point order on strings. */
  predicate Less(a: string, b: string) {
    if b == "" then false
    else if a == "" then true
    else a[0] < b[0] || (a[0] == b[0] && Less(a[1..], b[1..]))
  }

  lemma {:induction false} LessIsTotal(a: string, b: string)
    ensures Less(a, b) || a == b || Less(b, a)
    ensures !(Less(a, b) && Less(b, a)) && !Less(a, a)
  {
    if a != "" && b != "" {
      LessIsTotal(a[1..], b[1..]);
      assert a == [a[0]] + a[1..] && b == [b[0]] + b[1..];
    }
    if a != "" {
      LessIsTotal(a[1..], a[1..]);
    }
  }

  lemma {:induction false} LessIsTransitive(a: string, b: string, c: string)
    requires Less(a, b) && Less(b, c)
    ensures Less(a, c)
  {
    if a != "" && a[0] == b[0] == c[0] {
      LessIsTransitive(a[1..], b[1..], c[1..]);
    }
  }

  predicate IsLeast(k: string, ks: set<string>) {
    k in ks && forall x | x in ks :: x == k || Less(k, x)
  }

  lemma {:induction false} LeastExists(ks: set<string>)
    requires ks != {}
    ensures exists k :: IsLeast(k, ks)
  {
    var x :| x in ks;
    var rest := ks - {x};
    if rest == {} {
      assert ks == {x};
      assert IsLeast(x, ks);
    } else {
      LeastExists(rest);
      var y :| IsLeast(y, rest);
      LessIsTotal(x, y);
      if Less(x, y) {
        forall z | z in ks ensures z == x || Less(x, z) {
          if z != x && z != y {
            LessIsTransitive(x, y, z);
          }
        }
        assert IsLeast(x, ks);
      } else {
        assert IsLeast(y, ks);
      }
    }
  }

  lemma LeastIsUnique(j: string, k: string, ks: set<string>)
    requires IsLeast(j, ks) && IsLeast(k, ks)
    ensures j == k
  {
    LessIsTotal(j, k);
  }

  function Least(ks: set<string>): (k: string)
    requires ks != {}
    ensures IsLeast(k, ks)
  {
    LeastExists(ks);
    assert forall j, k :: IsLeast(j, ks) && IsLeast(k, ks) ==> j == k by {
      forall j, k | IsLeast(j, ks) && IsLeast(k, ks) ensures j == k {
        LeastIsUnique(j, k, ks);
      }
    }
    var k :| k in ks && IsLeast(k, ks);
    k
  }

  /** The items of a histogram in key order. */
  function SortedItems(counts: map<string, nat>): Breakdown {
    if counts == map[] then []
    else
      var k := Least(counts.Keys);
      [(k, counts[k])] + SortedItems(counts - {k})
  }

  ghost function Histogram(rows: seq<string>): map<string, nat> {
    map x | x in rows :: multiset(rows)[x]
  }

  ghost function BreakdownOf(rows: seq<string>): Breakdown {
    SortedItems(Histogram(rows))
  }

  ghost predicate StrictlySorted(items: Breakdown) {
    forall i, j | 0 <= i < j < |items| :: Less(items[i].0, items[j].0)
  }

  function Total(items: Breakdown): nat {
    if items == [] then 0 else items[0].1 + Total(items[1..])
  }

  ghost function ToMap(items: Breakdown): map<string, nat> {
    if items == [] then map[] else ToMap(items[1..])[items[0].0 := items[0].1]
  }

  lemma {:induction false} ItemsRebuild(counts: map<string, nat>)
    ensures ToMap(SortedItems(counts)) == counts
    ensures forall i | 0 <= i < |SortedItems(counts)| :: SortedItems(counts)[i].0 in counts
    ensures StrictlySorted(SortedItems(counts))
  {
    if counts != map[] {
      var k := Least(counts.Keys);
      ItemsRebuild(counts - {k});
      assert SortedItems(counts)[1..] == SortedItems(counts - {k});
    }
  }

  lemma {:induction false} SameHistogramSameRows(a: seq<string>, b: seq<string>)
    ensures Histogram(a) == Histogram(b) <==> multiset(a) == multiset(b)
  {
    if Histogram(a) == Histogram(b) {
      forall x ensures multiset(a)[x] == multiset(b)[x] {
        assert x in a <==> x in Histogram(a);
        assert x in b <==> x in Histogram(b);
      }
    }
    if multiset(a) == multiset(b) {
      forall x ensures x in a <==> x in b {
        assert x in a <==> x in multiset(a);
        assert x in b <==> x in multiset(b);
      }
    }
  }

  ghost function Drop(rows: seq<string>, name: string): seq<string> {
    if rows == [] then []
    else if rows[0] == name then Drop(rows[1..], name)
    else [rows[0]] + Drop(rows[1..], name)
  }

  lemma {:induction false} DropForgets(rows: seq<string>, name: string)
    ensures multiset(Drop(rows, name)) == multiset(rows)[name := 0]
    ensures |Drop(rows, name)| == |rows| - multiset(rows)[name]
  {
    if rows != [] {
      DropForgets(rows[1..], name);
      assert rows == [rows[0]] + rows[1..];
    }
  }

  lemma DropIsHistogramRemoval(rows: seq<string>, name: string)
    ensures Histogram(Drop(rows, name)) == Histogram(rows) - {name}
  {
    var rest := Drop(rows, name);
    DropForgets(rows, name);
    forall x ensures x in rest <==> x in rows && x != name {
      assert x in rest <==> x in multiset(rest);
      assert x in rows <==> x in multiset(rows);
    }
  }

  lemma TotalStep(counts: map<string, nat>)
    requires counts != map[]
    ensures var k := Least(counts.Keys);
            Total(SortedItems(counts)) == counts[k] + Total(SortedItems(counts - {k}))
  {
    var k := Least(counts.Keys);
    assert SortedItems(counts)[1..] == SortedItems(counts - {k});
  }

  lemma {:induction false} TotalIsLength(rows: seq<string>)
    ensures Total(BreakdownOf(rows)) == |rows|
    decreases |rows|
  {
    if rows == [] {
      assert Histogram(rows) == map[];
    } else {
      var counts := Histogram(rows);
      assert rows[0] in counts;
      var k := Least(counts.Keys);
      TotalStep(counts);
      DropIsHistogramRemoval(rows, k);
      DropForgets(rows, k);
      assert k in multiset(rows);
      TotalIsLength(Drop(rows, k));
    }
  }

  /** The breakdown lists every type once, in order, and its counts add up to the table's length. */
  lemma BreakdownIsCanonical(rows: seq<string>)
    ensures StrictlySorted(BreakdownOf(rows))
    ensures Total(BreakdownOf(rows)) == |rows|
    ensures ToMap(BreakdownOf(rows)) == Histogram(rows)
  {
    ItemsRebuild(Histogram(rows));
    TotalIsLength(rows);
  }

  /** Two tables have the same breakdown exactly when one is a permutation of the other. */
  lemma SameBreakdownIffPermutation(a: seq<string>, b: seq<string>)
    ensures BreakdownOf(a) == BreakdownOf(b) <==> multiset(a) == multiset(b)
  {
    ItemsRebuild(Histogram(a));
    ItemsRebuild(Histogram(b));
    SameHistogramSameRows(a, b);
  }

  lemma HistogramStep(rows: seq<string>, i: nat)
    requires i < |rows|
    ensures Histogram(rows[..i + 1])
         == Histogram(rows[..i])[rows[i] :=
              (if rows[i] in Histogram(rows[..i]) then Histogram(rows[..i])[rows[i]] else 0) + 1]
  {
    assert rows[..i + 1] == rows[..i] + [rows[i]];
    forall x ensures x in rows[..i] <==> multiset(rows[..i])[x] > 0 {
      assert x in rows[..i] <==> x in multiset(rows[..i]);
    }
  }

  /** Counts the rows of a table by type name, then sorts the counted items. */
  method TallyRows(rows: seq<string>) returns (count: nat, breakdown: Breakdown)
    ensures count == |rows| == Total(breakdown)
    ensures StrictlySorted(breakdown)
    ensures breakdown == BreakdownOf(rows)
  {
    var byType: map<string, nat> := map[];
    for i := 0 to |rows|
      invariant byType == Histogram(rows[..i])
    {
      HistogramStep(rows, i);
      byType := byType[rows[i] := (if rows[i] in byType then byType[rows[i]] else 0) + 1];
    }
    assert rows[..|rows|] == rows;
    count, breakdown := |rows|, SortedItems(byType);
    BreakdownIsCanonical(rows);
  }
}
