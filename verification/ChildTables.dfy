/** Tables of child rows with a serial primary key, as the repositories use them. */
module ChildTables {

  /** A child row: its foreign key and the rest of its columns. The primary key is the map key. */
  datatype Row<P, T> = Row(parent: P, val: T)

  type Table<P, T> = map<nat, Row<P, T>>

  /** Every primary key was drawn from a sequence that now stands at n. */
  predicate Below<P, T>(t: Table<P, T>, n: nat) { forall i :: i in t ==> i < n }

  predicate IsChild<P(==), T>(t: Table<P, T>, p: P, i: nat) { i in t && t[i].parent == p }

  /** SELECT ... WHERE parent = p ORDER BY id, over the keys below n. */
  function Select<P(==), T>(t: Table<P, T>, p: P, n: nat): seq<(nat, T)> {
    if n == 0 then []
    else Select(t, p, n - 1) + if IsChild(t, p, n - 1) then [(n - 1, t[n - 1].val)] else []
  }

  /** DELETE ... WHERE parent = p */
  function DeleteChildren<P(==), T>(t: Table<P, T>, p: P): Table<P, T> {
    map i | i in t && t[i].parent != p :: t[i]
  }

  function Values<T>(rows: seq<(nat, T)>): seq<T> {
    seq(|rows|, (i: nat) requires i < |rows| => rows[i].1)
  }

  /** t and u hold the same children of p. */
  ghost predicate Agree<P, T>(t: Table<P, T>, u: Table<P, T>, p: P) {
    forall i :: (IsChild(t, p, i) <==> IsChild(u, p, i)) && (IsChild(t, p, i) ==> t[i] == u[i])
  }

  lemma {:induction false} SelectAgree<P, T>(t: Table<P, T>, u: Table<P, T>, p: P, n: nat)
    requires Agree(t, u, p)
    ensures Select(t, p, n) == Select(u, p, n)
  {
    if n > 0 { SelectAgree(t, u, p, n - 1); }
  }

  lemma {:induction false} SelectBeyond<P, T>(t: Table<P, T>, p: P, n: nat, m: nat)
    requires Below(t, n) && n <= m
    ensures Select(t, p, m) == Select(t, p, n)
    decreases m
  {
    if n < m { SelectBeyond(t, p, n, m - 1); }
  }

  lemma {:induction false} SelectNone<P, T>(t: Table<P, T>, p: P, n: nat)
    requires forall i: nat :: i < n ==> !IsChild(t, p, i)
    ensures Select(t, p, n) == []
  {
    if n > 0 { SelectNone(t, p, n - 1); }
  }

  lemma SelectInsert<P, T>(t: Table<P, T>, p: P, v: T, n: nat)
    requires Below(t, n)
    ensures Select(t[n := Row(p, v)], p, n + 1) == Select(t, p, n) + [(n, v)]
    ensures Values(Select(t[n := Row(p, v)], p, n + 1)) == Values(Select(t, p, n)) + [v]
  {
    SelectUpTo(t, t[n := Row(p, v)], p, n);
  }

  lemma {:induction false} SelectUpTo<P, T>(t: Table<P, T>, u: Table<P, T>, p: P, n: nat)
    requires forall i: nat :: i < n ==> (IsChild(t, p, i) <==> IsChild(u, p, i)) && (IsChild(t, p, i) ==> t[i] == u[i])
    ensures Select(t, p, n) == Select(u, p, n)
  {
    if n > 0 { SelectUpTo(t, u, p, n - 1); }
  }

  lemma {:induction false} SelectIncreasing<P, T>(t: Table<P, T>, p: P, n: nat)
    ensures forall j :: 0 <= j < |Select(t, p, n)| ==> Select(t, p, n)[j].0 < n
    ensures forall j, k :: 0 <= j < k < |Select(t, p, n)| ==> Select(t, p, n)[j].0 < Select(t, p, n)[k].0
  {
    if n > 0 { SelectIncreasing(t, p, n - 1); }
  }

  /** The selection lists exactly the children of p (each once, by SelectIncreasing). */
  lemma {:induction false} SelectExact<P, T>(t: Table<P, T>, p: P, n: nat)
    ensures forall i: nat, v :: (i, v) in Select(t, p, n) <==> i < n && IsChild(t, p, i) && t[i].val == v
  {
    if n > 0 { SelectExact(t, p, n - 1); }
  }

  /** UPDATE of one row: the selection keeps its order. */
  lemma {:induction false} SelectUpdated<P, T>(t: Table<P, T>, p: P, n: nat, j: nat, v: T)
    requires j < |Select(t, p, n)|
    ensures Select(t[Select(t, p, n)[j].0 := Row(p, v)], p, n) == Select(t, p, n)[j := (Select(t, p, n)[j].0, v)]
  {
    var i := Select(t, p, n)[j].0;
    var u := t[i := Row(p, v)];
    SelectIncreasing(t, p, n);
    SelectIncreasing(t, p, n - 1);
    if j < |Select(t, p, n - 1)| {
      SelectUpdated(t, p, n - 1, j, v);
    } else {
      SelectUpTo(t, u, p, n - 1);
    }
  }

  /** The rows that are left once the ids in `removed` are gone. */
  function Without<T>(rows: seq<(nat, T)>, removed: set<nat>): seq<(nat, T)> {
    if rows == [] then []
    else Without(rows[..|rows| - 1], removed) +
         if rows[|rows| - 1].0 in removed then [] else [rows[|rows| - 1]]
  }

  lemma {:induction false} WithoutNone<T>(rows: seq<(nat, T)>, removed: set<nat>)
    requires forall j :: 0 <= j < |rows| ==> rows[j].0 !in removed
    ensures Without(rows, removed) == rows
  {
    if rows != [] { WithoutNone(rows[..|rows| - 1], removed); }
  }

  lemma WithoutExtend<T>(rows: seq<(nat, T)>, row: (nat, T), removed: set<nat>)
    ensures Without(rows + [row], removed) == Without(rows, removed) + if row.0 in removed then [] else [row]
  {
    assert (rows + [row])[..|rows|] == rows;
  }

  lemma {:induction false} WithoutMore<T>(rows: seq<(nat, T)>, removed: set<nat>, more: set<nat>)
    ensures Without(rows, removed + more) == Without(Without(rows, removed), more)
  {
    if rows != [] {
      var n := |rows| - 1;
      WithoutMore(rows[..n], removed, more);
      WithoutExtend(Without(rows[..n], removed), rows[n], more);
      assert Without(rows[..n], removed) + [] == Without(rows[..n], removed);
    }
  }

  lemma SelectNext<P, T>(t: Table<P, T>, p: P, n: nat)
    ensures Select(t, p, n + 1) ==
              if IsChild(t, p, n) then Select(t, p, n) + [(n, t[n].val)] else Select(t, p, n)
  {
  }

  lemma {:induction false} SelectMinus<P, T>(t: Table<P, T>, p: P, i: nat, n: nat)
    ensures Select(t - {i}, p, n) == Without(Select(t, p, n), {i})
  {
    if n > 0 {
      SelectMinus(t, p, i, n - 1);
      SelectMinusRow(t, p, i, n - 1);
    }
  }

  lemma SelectMinusRow<P, T>(t: Table<P, T>, p: P, i: nat, n: nat)
    requires Select(t - {i}, p, n) == Without(Select(t, p, n), {i})
    ensures Select(t - {i}, p, n + 1) == Without(Select(t, p, n + 1), {i})
  {
    SelectNext(t, p, n);
    SelectNext(t - {i}, p, n);
    assert IsChild(t - {i}, p, n) <==> IsChild(t, p, n) && n != i;
    if IsChild(t, p, n) { WithoutExtend(Select(t, p, n), (n, t[n].val), {i}); }
  }
}
