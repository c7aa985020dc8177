/** Stable sorting by an integer rank, as `sort.SliceStable` and a bucket-by-bucket
    listing both do it. The function is fixed by three facts proved here: it permutes,
    it orders by rank, and it keeps the order within every rank (`Bucket`). */
module StableSort {

  function Insert<T>(x: T, s: seq<T>, rank: T -> int): seq<T> {
    if s == [] || rank(x) <= rank(s[0]) then [x] + s else [s[0]] + Insert(x, s[1..], rank)
  }

  function Sort<T>(s: seq<T>, rank: T -> int): seq<T> {
    if s == [] then [] else Insert(s[0], Sort(s[1..], rank), rank)
  }

  predicate Sorted<T>(s: seq<T>, rank: T -> int) {
    forall i, j :: 0 <= i < j < |s| ==> rank(s[i]) <= rank(s[j])
  }

  function Only<T>(x: T, rank: T -> int, r: int): seq<T> { if rank(x) == r then [x] else [] }

  /** The elements of rank `r`, in order. */
  function Bucket<T>(s: seq<T>, rank: T -> int, r: int): seq<T> {
    if s == [] then []
    else Only(s[0], rank, r) + Bucket(s[1..], rank, r)
  }

  predicate AtLeast<T>(s: seq<T>, rank: T -> int, low: int) {
    forall i :: 0 <= i < |s| ==> low <= rank(s[i])
  }

  lemma SortedCons<T>(x: T, s: seq<T>, rank: T -> int)
    requires Sorted(s, rank) && AtLeast(s, rank, rank(x))
    ensures Sorted([x] + s, rank)
  {
  }

  lemma {:induction false} InsertAtLeast<T>(x: T, s: seq<T>, rank: T -> int, low: int)
    requires AtLeast(s, rank, low) && low <= rank(x)
    ensures AtLeast(Insert(x, s, rank), rank, low)
  {
    if s != [] {
      InsertAtLeast(x, s[1..], rank, low);
    }
  }

  lemma {:induction false} InsertSorts<T>(x: T, s: seq<T>, rank: T -> int)
    requires Sorted(s, rank)
    ensures Sorted(Insert(x, s, rank), rank)
  {
    if s == [] || rank(x) <= rank(s[0]) {
      SortedCons(x, s, rank);
    } else {
      InsertSorts(x, s[1..], rank);
      InsertAtLeast(x, s[1..], rank, rank(s[0]));
      SortedCons(s[0], Insert(x, s[1..], rank), rank);
    }
  }

  lemma {:induction false} InsertPermutes<T>(x: T, s: seq<T>, rank: T -> int)
    ensures multiset(Insert(x, s, rank)) == multiset{x} + multiset(s)
  {
    if s != [] && rank(x) > rank(s[0]) {
      InsertPermutes(x, s[1..], rank);
      assert s == [s[0]] + s[1..];
    }
  }

  lemma BucketCons<T>(x: T, s: seq<T>, rank: T -> int, r: int)
    ensures Bucket([x] + s, rank, r) == Only(x, rank, r) + Bucket(s, rank, r)
  {
    assert ([x] + s)[1..] == s;
  }

  lemma {:induction false} InsertBucket<T>(x: T, s: seq<T>, rank: T -> int, r: int)
    ensures Bucket(Insert(x, s, rank), rank, r) == Only(x, rank, r) + Bucket(s, rank, r)
  {
    if s == [] || rank(x) <= rank(s[0]) {
      BucketCons(x, s, rank, r);
    } else {
      var h := s[0];
      InsertBucket(x, s[1..], rank, r);
      BucketCons(h, Insert(x, s[1..], rank), rank, r);
      assert rank(x) != r || rank(h) != r;
      assert Only(h, rank, r) + (Only(x, rank, r) + Bucket(s[1..], rank, r))
          == Only(x, rank, r) + (Only(h, rank, r) + Bucket(s[1..], rank, r));
    }
  }

  /** Sorting permutes, orders, and keeps every bucket as it was. */
  lemma {:induction false} SortSpec<T>(s: seq<T>, rank: T -> int)
    ensures Sorted(Sort(s, rank), rank)
    ensures multiset(Sort(s, rank)) == multiset(s)
    ensures forall r :: Bucket(Sort(s, rank), rank, r) == Bucket(s, rank, r)
  {
    if s != [] {
      SortSpec(s[1..], rank);
      InsertSorts(s[0], Sort(s[1..], rank), rank);
      InsertPermutes(s[0], Sort(s[1..], rank), rank);
      forall r ensures Bucket(Sort(s, rank), rank, r) == Bucket(s, rank, r) {
        InsertBucket(s[0], Sort(s[1..], rank), rank, r);
        assert Bucket(Sort(s[1..], rank), rank, r) == Bucket(s[1..], rank, r);
      }
      assert s == [s[0]] + s[1..];
    }
  }

  /** A sorted sequence is determined by its buckets, so sorting is the only way to order
      a sequence by rank without disturbing equal ranks. */
  lemma {:induction false} SortedUnique<T>(s: seq<T>, t: seq<T>, rank: T -> int)
    requires Sorted(s, rank) && Sorted(t, rank)
    requires forall r :: Bucket(s, rank, r) == Bucket(t, rank, r)
    ensures s == t
  {
    if s == [] {
      BucketHead(t, rank);
    } else {
      SameHead(s, t, rank);
      forall r ensures Bucket(s[1..], rank, r) == Bucket(t[1..], rank, r) {
        BucketTail(s, t, rank, r);
      }
      SortedUnique(s[1..], t[1..], rank);
    }
  }

  lemma SameHead<T>(s: seq<T>, t: seq<T>, rank: T -> int)
    requires Sorted(s, rank) && Sorted(t, rank) && s != []
    requires forall r :: Bucket(s, rank, r) == Bucket(t, rank, r)
    ensures t != [] && t[0] == s[0]
  {
    BucketHead(s, rank);
    BucketHead(t, rank);
    hide Bucket;
    BucketMembers(t, rank, rank(s[0]));
    BucketMembers(s, rank, rank(t[0]));
  }

  lemma BucketTail<T>(s: seq<T>, t: seq<T>, rank: T -> int, r: int)
    requires s != [] && t != [] && s[0] == t[0] && Bucket(s, rank, r) == Bucket(t, rank, r)
    ensures Bucket(s[1..], rank, r) == Bucket(t[1..], rank, r)
  {
    var d := |Only(s[0], rank, r)|;
    assert Bucket(s[1..], rank, r) == Bucket(s, rank, r)[d..];
    assert Bucket(t[1..], rank, r) == Bucket(t, rank, r)[d..];
  }

  lemma BucketHead<T>(s: seq<T>, rank: T -> int)
    ensures s == [] || (Bucket(s, rank, rank(s[0])) != [] && Bucket(s, rank, rank(s[0]))[0] == s[0])
  {
  }

  lemma {:induction false} BucketMembers<T>(s: seq<T>, rank: T -> int, r: int)
    ensures Bucket(s, rank, r) != [] ==> exists i :: 0 <= i < |s| && rank(s[i]) == r
  {
    if s != [] {
      BucketMembers(s[1..], rank, r);
      if rank(s[0]) != r && Bucket(s[1..], rank, r) != [] {
        var i :| 0 <= i < |s| - 1 && rank(s[1..][i]) == r;
        assert rank(s[i + 1]) == r;
      }
    }
  }

  lemma StableSortUnique<T>(s: seq<T>, t: seq<T>, rank: T -> int)
    requires Sorted(t, rank) && forall r :: Bucket(t, rank, r) == Bucket(s, rank, r)
    ensures t == Sort(s, rank)
  {
    SortSpec(s, rank);
    SortedUnique(t, Sort(s, rank), rank);
  }

  lemma {:induction false} BucketConcat<T>(s: seq<T>, t: seq<T>, rank: T -> int, r: int)
    ensures Bucket(s + t, rank, r) == Bucket(s, rank, r) + Bucket(t, rank, r)
  {
    if s == [] {
      assert s + t == t;
    } else {
      BucketConcat(s[1..], t, rank, r);
      assert (s + t)[1..] == s[1..] + t;
    }
  }

  ghost predicate SameBuckets<T>(s: seq<T>, t: seq<T>, rank: T -> int) {
    forall r :: Bucket(s, rank, r) == Bucket(t, rank, r)
  }

  function Swapped<T>(s: seq<T>, j: nat): seq<T>
    requires 0 < j < |s|
  {
    s[j := s[j - 1]][j - 1 := s[j]]
  }

  /** Exchanging two neighbours of different rank leaves every bucket as it was. */
  lemma SwapKeepsBucket<T>(s: seq<T>, j: nat, rank: T -> int, r: int)
    requires 0 < j < |s| && rank(s[j]) < rank(s[j - 1])
    ensures Bucket(Swapped(s, j), rank, r) == Bucket(s, rank, r)
  {
    hide Bucket, Swapped;
    var a, x, y, b := s[..j - 1], s[j - 1], s[j], s[j + 1..];
    SwappedParts(s, j);
    BucketConcat(a, [x] + ([y] + b), rank, r);
    BucketConcat(a, [y] + ([x] + b), rank, r);
    BucketCons(x, [y] + b, rank, r);
    BucketCons(y, b, rank, r);
    BucketCons(y, [x] + b, rank, r);
    BucketCons(x, b, rank, r);
  }

  lemma SwappedParts<T>(s: seq<T>, j: nat)
    requires 0 < j < |s|
    ensures s == s[..j - 1] + ([s[j - 1]] + ([s[j]] + s[j + 1..]))
    ensures Swapped(s, j) == s[..j - 1] + ([s[j]] + ([s[j - 1]] + s[j + 1..]))
  {
  }

  /** Sorted up to and including position `i`, but for the element on its way down at `j`. */
  predicate Sinking<T>(s: seq<T>, i: nat, j: nat, rank: T -> int) {
    && j <= i < |s|
    && (forall k, l :: 0 <= k < l <= i && k != j && l != j ==> rank(s[k]) <= rank(s[l]))
    && (forall l :: j < l <= i ==> rank(s[j]) <= rank(s[l]))
  }

  lemma SinkStep<T>(s: seq<T>, i: nat, j: nat, rank: T -> int)
    requires 0 < j && Sinking(s, i, j, rank) && rank(s[j]) < rank(s[j - 1])
    ensures Sinking(Swapped(s, j), i, j - 1, rank)
  {
  }

  lemma SinkDone<T>(s: seq<T>, i: nat, j: nat, rank: T -> int)
    requires Sinking(s, i, j, rank) && (j > 0 ==> rank(s[j - 1]) <= rank(s[j]))
    ensures Sorted(s[..i + 1], rank)
  {
  }

  /** The in-place sort of short slices: bring each element down past greater ones. */
  method SliceStable<T>(a: array<T>, rank: T -> int)
    modifies a
    ensures a[..] == Sort(old(a[..]), rank)
  {
    var i := 0;
    while i < a.Length
      invariant 0 <= i <= a.Length
      invariant Sorted(a[..i], rank)
      invariant SameBuckets(a[..], old(a[..]), rank)
    {
      var j := i;
      assert forall k :: 0 <= k < i ==> a[..i][k] == a[k];
      while j > 0 && rank(a[j]) < rank(a[j - 1])
        invariant Sinking(a[..], i, j, rank)
        invariant SameBuckets(a[..], old(a[..]), rank)
      {
        ghost var before := a[..];
        SinkStep(before, i, j, rank);
        forall r ensures Bucket(Swapped(before, j), rank, r) == Bucket(old(a[..]), rank, r) {
          SwapKeepsBucket(before, j, rank, r);
        }
        a[j], a[j - 1] := a[j - 1], a[j];
        assert a[..] == Swapped(before, j);
        j := j - 1;
      }
      SinkDone(a[..], i, j, rank);
      assert a[..][..i + 1] == a[..i + 1];
      i := i + 1;
    }
    assert a[..i] == a[..];
    StableSortUnique(old(a[..]), a[..], rank);
  }
}
