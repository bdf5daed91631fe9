/**
 * The dashboard's two "recent" lists:
 * `findMany({ where: { userId }, take: 5, orderBy: { date: "desc" } })`.
 */
module DashboardRecent {
  import opened Finance

  /** The index of a row with the latest date; ties go to the earliest row. */
  function LatestIndex(xs: seq<Transaction>): (i: nat)
    requires xs != []
    ensures i < |xs|
  {
    if |xs| == 1 then 0
    else
      var k := LatestIndex(xs[1..]) + 1;
      if xs[k].date > xs[0].date then k else 0
  }

  /** `xs` without the row at `i`. */
  function RemoveAt(xs: seq<Transaction>, i: nat): seq<Transaction>
    requires i < |xs|
  {
    xs[..i] + xs[i + 1..]
  }

  lemma RemoveAtSpec(xs: seq<Transaction>, i: nat)
    requires i < |xs|
    ensures |RemoveAt(xs, i)| == |xs| - 1
    ensures multiset(xs) == multiset(RemoveAt(xs, i)) + multiset{xs[i]}
  {
    assert xs == xs[..i] + [xs[i]] + xs[i + 1..];
  }

  /** `orderBy: { date: "desc" }, take: n`, by repeatedly taking the latest row. */
  function TakeLatest(xs: seq<Transaction>, n: nat): seq<Transaction>
    decreases n
  {
    if n == 0 || xs == [] then []
    else
      var i := LatestIndex(xs);
      [xs[i]] + TakeLatest(RemoveAt(xs, i), n - 1)
  }

  /** As many rows as asked for, as long as there are that many. */
  lemma {:induction false} TakeLatestLength(xs: seq<Transaction>, n: nat)
    ensures |TakeLatest(xs, n)| == if n < |xs| then n else |xs|
    decreases n
  {
    if n != 0 && xs != [] {
      var i := LatestIndex(xs);
      RemoveAtSpec(xs, i);
      TakeLatestLength(RemoveAt(xs, i), n - 1);
    }
  }

  lemma SubMultisetStep(x: Transaction, tail: seq<Transaction>, rest: seq<Transaction>, xs: seq<Transaction>)
    requires multiset(tail) <= multiset(rest) && multiset(xs) == multiset(rest) + multiset{x}
    ensures multiset([x] + tail) <= multiset(xs)
  {
  }

  /** The rows taken are rows of `xs`, each at most as often as it occurs there. */
  lemma {:induction false} TakeLatestFrom(xs: seq<Transaction>, n: nat)
    ensures multiset(TakeLatest(xs, n)) <= multiset(xs)
    decreases n
  {
    if n != 0 && xs != [] {
      var i := LatestIndex(xs);
      var rest := RemoveAt(xs, i);
      var m: nat := n - 1;
      var tail := TakeLatest(rest, m);
      assert TakeLatest(xs, n) == [xs[i]] + tail;
      assert multiset(tail) <= multiset(rest) by {
        TakeLatestFrom(rest, m);
      }
      assert multiset(xs) == multiset(rest) + multiset{xs[i]} by {
        RemoveAtSpec(xs, i);
      }
      SubMultisetStep(xs[i], tail, rest, xs);
    }
  }

  predicate NewestFirst(r: seq<Transaction>) {
    forall i, j :: 0 <= i < j < |r| ==> r[i].date >= r[j].date
  }

  /** Every row of `xs` is dated no later than its latest row. */
  lemma {:induction false} LatestBoundsAll(xs: seq<Transaction>, t: Transaction)
    requires xs != [] && t in xs
    ensures t.date <= xs[LatestIndex(xs)].date
  {
    if |xs| > 1 && t != xs[0] {
      assert t in xs[1..];
      LatestBoundsAll(xs[1..], t);
    }
  }

  /** Every row taken is a row of `xs`. */
  lemma TakeLatestMembers(xs: seq<Transaction>, n: nat, t: Transaction)
    requires t in TakeLatest(xs, n)
    ensures t in xs
  {
    TakeLatestFrom(xs, n);
    assert t in multiset(TakeLatest(xs, n));
  }

  /** The rows taken are newest first. */
  lemma {:induction false} TakeLatestNewestFirst(xs: seq<Transaction>, n: nat)
    ensures NewestFirst(TakeLatest(xs, n))
    decreases n
  {
    if n != 0 && xs != [] {
      var i := LatestIndex(xs);
      var rest := RemoveAt(xs, i);
      TakeLatestNewestFirst(rest, n - 1);
      var tail := TakeLatest(rest, n - 1);
      forall k | 0 <= k < |tail| ensures tail[k].date <= xs[i].date {
        TakeLatestMembers(rest, n - 1, tail[k]);
        RemoveAtMembers(xs, i, tail[k]);
        LatestBoundsAll(xs, tail[k]);
      }
      assert TakeLatest(xs, n) == [xs[i]] + tail;
    }
  }

  lemma RemoveAtMembers(xs: seq<Transaction>, i: nat, t: Transaction)
    requires i < |xs| && t in RemoveAt(xs, i)
    ensures t in xs
  {
  }

  lemma LeftBehindStep(xs: seq<Transaction>, i: nat, tail: seq<Transaction>)
    requires i < |xs|
    ensures multiset(xs) - multiset([xs[i]] + tail) == multiset(RemoveAt(xs, i)) - multiset(tail)
  {
    RemoveAtSpec(xs, i);
  }

  /** No row left behind is newer than a row taken. */
  lemma {:induction false} TakeLatestNoneNewerLeft(xs: seq<Transaction>, n: nat, t: Transaction, k: nat)
    requires t in multiset(xs) - multiset(TakeLatest(xs, n))
    requires k < |TakeLatest(xs, n)|
    ensures t.date <= TakeLatest(xs, n)[k].date
    decreases n
  {
    var i := LatestIndex(xs);
    var rest := RemoveAt(xs, i);
    var m: nat := n - 1;
    var tail := TakeLatest(rest, m);
    assert TakeLatest(xs, n) == [xs[i]] + tail;
    if k == 0 {
      assert t in multiset(xs);
      LatestBoundsAll(xs, t);
    } else {
      assert t in multiset(rest) - multiset(tail) by {
        LeftBehindStep(xs, i, tail);
      }
      TakeLatestNoneNewerLeft(rest, m, t, k - 1);
    }
  }

  /** The caller's rows, in store order. */
  function OwnedBy(store: seq<Transaction>, userId: string): seq<Transaction> {
    if store == [] then []
    else OwnedBy(store[..|store| - 1], userId) + (if store[|store| - 1].userId == userId then [store[|store| - 1]] else [])
  }

  lemma {:induction false} OwnedByMembers(store: seq<Transaction>, userId: string)
    ensures forall t :: t in OwnedBy(store, userId) <==> t in store && t.userId == userId
  {
    if store != [] {
      var init := store[..|store| - 1];
      OwnedByMembers(init, userId);
      assert store == init + [store[|store| - 1]];
    }
  }

  /** The latest five of the caller's rows. */
  function Recent(store: seq<Transaction>, userId: string): seq<Transaction> {
    TakeLatest(OwnedBy(store, userId), 5)
  }

  /** Five of the caller's rows (fewer only when there are fewer), newest first, none newer left out. */
  lemma RecentSpec(store: seq<Transaction>, userId: string)
    ensures var r := Recent(store, userId);
      var owned := OwnedBy(store, userId);
      && |r| == (if |owned| < 5 then |owned| else 5)
      && (forall t :: t in r ==> t in store && t.userId == userId)
      && NewestFirst(r)
      && forall t :: t in multiset(owned) - multiset(r) ==> forall k :: 0 <= k < |r| ==> t.date <= r[k].date
  {
    var owned := OwnedBy(store, userId);
    var r := TakeLatest(owned, 5);
    assert |r| == (if |owned| < 5 then |owned| else 5) by {
      TakeLatestLength(owned, 5);
    }
    assert NewestFirst(r) by {
      TakeLatestNewestFirst(owned, 5);
    }
    forall t: Transaction, k: nat | t in multiset(owned) - multiset(r) && k < |r| ensures t.date <= r[k].date {
      TakeLatestNoneNewerLeft(owned, 5, t, k);
    }
    forall t | t in r ensures t in store && t.userId == userId {
      TakeLatestMembers(owned, 5, t);
      OwnedByMembers(store, userId);
    }
  }
}
