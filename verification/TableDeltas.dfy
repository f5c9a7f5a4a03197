/** Uncommitted changes of one transaction to a child table. */
module TableDeltas {
  import opened ChildTables

  /** Rows deleted and rows written by the transaction so far. */
  datatype Delta<P, T> = Delta(del: set<nat>, put: Table<P, T>)

  /** What the transaction sees: the committed table with its own changes on top. */
  function View<P, T>(t: Table<P, T>, d: Delta<P, T>): Table<P, T> { (t - d.del) + d.put }

  function Touched<P, T>(d: Delta<P, T>): set<nat> { d.del + d.put.Keys }

  /** The changes after a statement that turned the view `before` into `after`. */
  function Capture<P(==), T(==)>(d: Delta<P, T>, before: Table<P, T>, after: Table<P, T>): Delta<P, T> {
    Delta(d.del + (before.Keys - after.Keys),
          map i | i in after && (i in d.put || i !in before || before[i] != after[i]) :: after[i])
  }

  lemma CaptureView<P, T>(t: Table<P, T>, d: Delta<P, T>, after: Table<P, T>)
    ensures View(t, Capture(d, View(t, d), after)) == after
  {
  }

  lemma CaptureNothing<P, T>(t: Table<P, T>, d: Delta<P, T>)
    ensures Capture(d, View(t, d), View(t, d)) == d
  {
  }

  /** An INSERT only inserts, under a key nobody has. */
  lemma CaptureInsertion<P, T>(t: Table<P, T>, d: Delta<P, T>, n: nat, row: Row<P, T>)
    requires n !in View(t, d)
    ensures Capture(d, View(t, d), View(t, d)[n := row]) == Delta(d.del, d.put[n := row])
  {
    assert View(t, d).Keys - View(t, d)[n := row].Keys == {};
  }

  /** A DELETE only deletes. */
  lemma CaptureDeletion<P, T>(t: Table<P, T>, d: Delta<P, T>, gone: set<nat>)
    ensures var c := Capture(d, View(t, d), View(t, d) - gone);
            && c.del == d.del + (View(t, d).Keys * gone)
            && c.put == d.put - gone
  {
    assert View(t, d).Keys - (View(t, d) - gone).Keys == View(t, d).Keys * gone;
  }

  /**
   * The transaction has only touched rows of parent p, and rows of its own under keys it drew from
   * the sequence, now at n.
   */
  ghost predicate Owned<P, T>(t: Table<P, T>, d: Delta<P, T>, p: P, n: nat) {
    && (forall i :: i in Touched(d) ==> i < n && (i in t ==> t[i].parent == p))
    && (forall i :: i in d.put ==> d.put[i].parent == p)
  }

  /** A statement that changes rows of parent p only, and inserts only under keys from n up to m. */
  ghost predicate ChangesOnly<P, T>(before: Table<P, T>, after: Table<P, T>, p: P, n: nat, m: nat) {
    && (forall i :: i in before && i !in after ==> before[i].parent == p)
    && (forall i :: i in after && i !in before ==> after[i].parent == p && n <= i < m)
    && (forall i :: i in after && i in before && after[i] != before[i] ==>
          after[i].parent == p && before[i].parent == p)
  }

  lemma CaptureOwned<P, T>(t: Table<P, T>, d: Delta<P, T>, after: Table<P, T>, p: P, n: nat, m: nat)
    requires Below(t, n) && Owned(t, d, p, n) && n <= m
    requires ChangesOnly(View(t, d), after, p, n, m)
    ensures var d' := Capture(d, View(t, d), after);
            && Owned(t, d', p, m)
            && (forall i :: i in Touched(d') ==> i in Touched(d) || (n <= i < m) || IsChild(t, p, i))
  {
  }

  lemma ViewBelow<P, T>(t: Table<P, T>, d: Delta<P, T>, p: P, n: nat)
    requires Below(t, n) && Owned(t, d, p, n)
    ensures Below(View(t, d), n)
  {
  }

  lemma ViewOthersAgree<P, T>(t: Table<P, T>, d: Delta<P, T>, p: P, n: nat, q: P)
    requires Owned(t, d, p, n) && q != p
    ensures Agree(t, View(t, d), q)
  {
  }

  /** t and u have the same rows under the keys of `ids`. */
  ghost predicate SameRows<P, T>(t: Table<P, T>, u: Table<P, T>, ids: set<nat>) {
    forall i :: i in ids ==> (i in t <==> i in u) && (i in t ==> t[i] == u[i])
  }

  /** Other people's commits neither disturb ownership nor what the transaction sees of p. */
  lemma OwnedStable<P, T>(t: Table<P, T>, u: Table<P, T>, d: Delta<P, T>, p: P, n: nat, m: nat)
    requires Owned(t, d, p, n) && n <= m && SameRows(t, u, Touched(d)) && Agree(t, u, p)
    ensures Owned(u, d, p, m) && Agree(View(t, d), View(u, d), p)
  {
  }

  /** A commit leaves rows it has not touched as they were. */
  lemma CommitSameRows<P, T>(t: Table<P, T>, d: Delta<P, T>, ids: set<nat>)
    requires ids !! Touched(d)
    ensures SameRows(t, View(t, d), ids)
  {
  }
}
