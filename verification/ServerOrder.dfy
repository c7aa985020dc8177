/** The display order of servers in `desktop/app.go`: `orderServerViews` sorts what is
    shown by the remembered order, `mergeServerOrder` remembers what was shown. */
module ServerOrder {
  import opened GoStrings
  import opened StableSort

  datatype ServerView = ServerView(name: string, detail: string)

  /** Go fills the position map left to right, so a repeated name keeps its last index. */
  function LastIndex(order: seq<string>, name: string): (i: int)
    ensures -1 <= i < |order|
    ensures i >= 0 ==> order[i] == name
    ensures forall k :: i < k < |order| ==> order[k] != name
  {
    if order == [] then -1
    else if order[|order| - 1] == name then |order| - 1
    else LastIndex(order[..|order| - 1], name)
  }

  /** Names without a position all come after those with one. */
  function Rank(order: seq<string>): ServerView -> int {
    (v: ServerView) => if v.name in order then LastIndex(order, v.name) else |order|
  }

  /** The comparison handed to the stable sort. */
  predicate Less(order: seq<string>, a: ServerView, b: ServerView) {
    var pi, pj := LastIndex(order, a.name), LastIndex(order, b.name);
    if pi >= 0 && pj >= 0 then pi < pj else pi >= 0
  }

  function OrderServerViews(servers: seq<ServerView>, order: seq<string>): seq<ServerView> {
    Sort(servers, Rank(order))
  }

  lemma LessIsRank(order: seq<string>, a: ServerView, b: ServerView)
    ensures Less(order, a, b) <==> Rank(order)(a) < Rank(order)(b)
  {
    assert a.name in order <==> LastIndex(order, a.name) >= 0;
    assert b.name in order <==> LastIndex(order, b.name) >= 0;
  }

  function Distinct(names: seq<string>, seen: set<string>): seq<string> {
    if names == [] then []
    else if names[0] == "" || names[0] in seen then Distinct(names[1..], seen)
    else [names[0]] + Distinct(names[1..], seen + {names[0]})
  }

  function Names(servers: seq<ServerView>): seq<string> {
    seq(|servers|, i requires 0 <= i < |servers| => servers[i].name)
  }

  function MergeServerOrder(order: seq<string>, servers: seq<ServerView>): seq<string> {
    Distinct(order + Names(servers), {})
  }

  function RemoveServerOrder(order: seq<string>, name: string): seq<string> {
    if name == "" || order == [] then order else Without(order, name)
  }

  function Without(order: seq<string>, name: string): seq<string> {
    if order == [] then []
    else if order[0] != name then [order[0]] + Without(order[1..], name)
    else Without(order[1..], name)
  }

  method OrderServerViewsInPlace(servers: array<ServerView>, order: seq<string>)
    modifies servers
    ensures servers[..] == OrderServerViews(old(servers[..]), order)
  {
    var pos: map<string, int> := map[];
    for i := 0 to |order|
      invariant forall n :: n in pos <==> n in order[..i]
      invariant forall n :: n in pos ==> pos[n] == LastIndex(order[..i], n)
    {
      assert order[..i + 1][..i] == order[..i];
      pos := pos[order[i] := i];
    }
    assert order[..|order|] == order;
    var rank := (v: ServerView) => if v.name in pos then pos[v.name] else |order|;
    SliceStable(servers, rank);
    SortSameRank(old(servers[..]), rank, Rank(order));
  }

  lemma {:induction false} SortSameRank(s: seq<ServerView>, f: ServerView -> int, g: ServerView -> int)
    requires forall v :: f(v) == g(v)
    ensures Sort(s, f) == Sort(s, g)
  {
    if s != [] {
      SortSameRank(s[1..], f, g);
      InsertSameRank(s[0], Sort(s[1..], f), f, g);
    }
  }

  lemma {:induction false} InsertSameRank(x: ServerView, s: seq<ServerView>, f: ServerView -> int, g: ServerView -> int)
    requires forall v :: f(v) == g(v)
    ensures Insert(x, s, f) == Insert(x, s, g)
  {
    if s != [] {
      InsertSameRank(x, s[1..], f, g);
    }
  }

  /** One turn of the loop: a new name is appended, a blank or repeated one passed over. */
  lemma DistinctTurn(rest: seq<string>, seen: set<string>, next: seq<string>)
    requires rest != []
    ensures rest[0] == "" || rest[0] in seen ==> next + Distinct(rest, seen) == next + Distinct(rest[1..], seen)
    ensures !(rest[0] == "" || rest[0] in seen) ==>
              next + Distinct(rest, seen) == next + [rest[0]] + Distinct(rest[1..], seen + {rest[0]})
  {
    ConcatAssoc(next, [rest[0]], Distinct(rest[1..], seen + {rest[0]}));
  }

  lemma ConcatAssoc(a: seq<string>, b: seq<string>, c: seq<string>)
    ensures a + (b + c) == a + b + c
  {
  }

  method MergeServerOrderLoop(order: seq<string>, servers: seq<ServerView>) returns (next: seq<string>)
    ensures next == MergeServerOrder(order, servers)
  {
    hide Distinct;
    ghost var all := order + Names(servers);
    var seen: set<string> := {};
    next := [];
    for i := 0 to |order|
      invariant next + Distinct(all[i..], seen) == Distinct(all, {})
    {
      var name := order[i];
      assert all[i..][0] == name && all[i..][1..] == all[i + 1..];
      DistinctTurn(all[i..], seen, next);
      if name == "" || name in seen {
        continue;
      }
      seen := seen + {name};
      next := next + [name];
    }
    for i := 0 to |servers|
      invariant next + Distinct(all[|order| + i..], seen) == Distinct(all, {})
    {
      var name := servers[i].name;
      assert all[|order| + i..][0] == name && all[|order| + i..][1..] == all[|order| + i + 1..];
      DistinctTurn(all[|order| + i..], seen, next);
      if name == "" || name in seen {
        continue;
      }
      seen := seen + {name};
      next := next + [name];
    }
    DistinctNothing(seen);
  }

  lemma DistinctNothing(seen: set<string>)
    ensures Distinct([], seen) == []
  {
  }

  /** Filters into the front of the slice it reads from. */
  method RemoveServerOrderInPlace(order: array<string>, name: string) returns (n: nat)
    modifies order
    ensures n <= order.Length && order[..n] == RemoveServerOrder(old(order[..]), name)
  {
    if name == "" || order.Length == 0 {
      assert order[..order.Length] == order[..];
      return order.Length;
    }
    ghost var was := order[..];
    n := 0;
    for i := 0 to order.Length
      invariant n <= i && |was| == order.Length
      invariant order[i..] == was[i..]
      invariant order[..n] + Without(was[i..], name) == Without(was, name)
    {
      assert order[i] == order[i..][0] && was[i..][0] == was[i] && was[i..][1..] == was[i + 1..];
      WithoutTurn(was[i..], name, order[..n]);
      if order[i] != name {
        ghost var front := order[..n];
        order[n] := order[i];
        n := n + 1;
        assert order[..n] == front + [was[i]];
      }
      assert order[i + 1..] == was[i + 1..] by {
        assert forall k :: i < k < order.Length ==> order[k] == was[k];
      }
    }
    assert was[order.Length..] == [] && order[..n] + [] == order[..n];
  }

  lemma WithoutTurn(rest: seq<string>, name: string, front: seq<string>)
    requires rest != []
    ensures front + Without(rest, name) ==
            (if rest[0] != name then front + [rest[0]] else front) + Without(rest[1..], name)
  {
    if rest[0] != name {
      ConcatAssoc(front, [rest[0]], Without(rest[1..], name));
    }
  }

  // ---- the remembered order stays clean ----

  ghost predicate NoDup(s: seq<string>) { forall i, j :: 0 <= i < j < |s| ==> s[i] != s[j] }

  ghost predicate Clean(order: seq<string>) { NoDup(order) && "" !in order }

  lemma {:induction false} DistinctClean(names: seq<string>, seen: set<string>)
    ensures Clean(Distinct(names, seen))
    ensures forall n :: n in Distinct(names, seen) <==> n in names && n != "" && n !in seen
  {
    if names != [] {
      DistinctClean(names[1..], seen);
      DistinctClean(names[1..], seen + {names[0]});
    }
  }

  function SetOf(s: seq<string>): set<string> { set n | n in s }

  lemma {:induction false} DistinctConcat(a: seq<string>, b: seq<string>, seen: set<string>)
    requires Clean(a) && forall n :: n in a ==> n !in seen
    ensures Distinct(a + b, seen) == a + Distinct(b, seen + SetOf(a))
  {
    if a == [] {
      assert a + b == b;
      assert seen + (SetOf(a)) == seen;
    } else {
      assert (a + b)[1..] == a[1..] + b;
      DistinctConcat(a[1..], b, seen + {a[0]});
      assert seen + {a[0]} + (SetOf(a[1..])) == seen + SetOf(a);
      assert a == [a[0]] + a[1..];
    }
  }

  lemma {:induction false} WithoutClean(order: seq<string>, name: string)
    requires Clean(order)
    ensures Clean(Without(order, name))
    ensures forall n :: n in Without(order, name) <==> n in order && n != name
  {
    if order != [] {
      WithoutClean(order[1..], name);
      assert order == [order[0]] + order[1..];
      assert order[0] !in order[1..];
    }
  }

  /** Removing takes out the name wherever it stands and keeps everything else, in order:
      each stretch of the order is filtered by itself, and one name alone is kept or not. The
      empty name removes nothing. */
  lemma RemovesOnlyName(a: seq<string>, b: seq<string>, name: string)
    requires name != ""
    ensures RemoveServerOrder(a + b, name) == RemoveServerOrder(a, name) + RemoveServerOrder(b, name)
    ensures forall n :: RemoveServerOrder([n], name) == if n == name then [] else [n]
    ensures RemoveServerOrder(a, "") == a
  {
    WithoutConcat(a, b, name);
    assert a == [] && b == [] ==> a + b == [];
    forall n ensures RemoveServerOrder([n], name) == if n == name then [] else [n] {
      assert [n][1..] == [];
      assert Without([n][1..], name) == [];
    }
  }

  lemma {:induction false} WithoutConcat(a: seq<string>, b: seq<string>, name: string)
    ensures Without(a + b, name) == Without(a, name) + Without(b, name)
  {
    if a == [] {
      assert a + b == b;
    } else {
      WithoutConcat(a[1..], b, name);
      assert (a + b)[1..] == a[1..] + b;
    }
  }

  /** Position `i` is where the name stands first. */
  predicate FirstAt(names: seq<string>, i: int, n: string) {
    0 <= i < |names| && names[i] == n && forall k :: 0 <= k < i ==> names[k] != n
  }

  /** Whatever list the program merges, repetitions and empty names in it or not: the result
      lists names by their first place in it. */
  lemma {:induction false} MergedByFirstPlace(names: seq<string>, seen: set<string>, p: nat, q: nat)
    returns (i: nat, j: nat)
    requires p < q < |Distinct(names, seen)|
    ensures i < j && FirstAt(names, i, Distinct(names, seen)[p]) && FirstAt(names, j, Distinct(names, seen)[q])
  {
    var rest := names[1..];
    DistinctClean(rest, seen);
    DistinctClean(rest, seen + {names[0]});
    if names[0] == "" || names[0] in seen {
      i, j := MergedByFirstPlace(rest, seen, p, q);
      FirstLater(names, i, Distinct(rest, seen)[p]);
      FirstLater(names, j, Distinct(rest, seen)[q]);
    } else if p > 0 {
      i, j := MergedByFirstPlace(rest, seen + {names[0]}, p - 1, q - 1);
      FirstLater(names, i, Distinct(names, seen)[p]);
      FirstLater(names, j, Distinct(names, seen)[q]);
    } else {
      i := 0;
      j := FirstPlace(rest, Distinct(names, seen)[q]);
      FirstLater(names, j, Distinct(names, seen)[q]);
      j := j + 1;
      return;
    }
    i, j := i + 1, j + 1;
  }

  lemma FirstLater(names: seq<string>, i: nat, n: string)
    requires names != [] && FirstAt(names[1..], i, n) && names[0] != n
    ensures FirstAt(names, i + 1, n)
  {
    assert forall k :: 0 < k < |names| ==> names[k] == names[1..][k - 1];
  }

  lemma {:induction false} FirstPlace(names: seq<string>, n: string) returns (i: nat)
    requires n in names
    ensures FirstAt(names, i, n)
  {
    if names[0] == n {
      i := 0;
    } else {
      i := FirstPlace(names[1..], n);
      FirstLater(names, i, n);
      i := i + 1;
    }
  }

  /** So a merge lists the non-empty names of the old order and of what is shown once each,
      by where they stand first in the one followed by the other. */
  lemma MergeLists(order: seq<string>, servers: seq<ServerView>)
    ensures var next := MergeServerOrder(order, servers); var all := order + Names(servers);
            && Clean(next)
            && (forall n :: n in next <==>
                  n != "" && (n in order || exists k :: 0 <= k < |servers| && servers[k].name == n))
            && forall p, q, i, j ::
                 0 <= p < q < |next| && FirstAt(all, i, next[p]) && FirstAt(all, j, next[q]) ==> i < j
  {
    var all := order + Names(servers);
    var next := MergeServerOrder(order, servers);
    DistinctClean(all, {});
    forall n ensures n in Names(servers) <==> exists k :: 0 <= k < |servers| && servers[k].name == n {
      if n in Names(servers) {
        var k :| 0 <= k < |servers| && Names(servers)[k] == n;
      }
      if k :| 0 <= k < |servers| && servers[k].name == n {
        assert Names(servers)[k] == n;
      }
    }
    forall p, q, i, j | 0 <= p < q < |next| && FirstAt(all, i, next[p]) && FirstAt(all, j, next[q])
      ensures i < j
    {
      var i', j' := MergedByFirstPlace(all, {}, p, q);
      assert i == i' && j == j';
    }
  }

  datatype OrderOp = Shown(servers: seq<ServerView>) | Removed(name: string)

  function Remember(order: seq<string>, op: OrderOp): seq<string> {
    match op
    case Shown(servers) => MergeServerOrder(order, servers)
    case Removed(name) => RemoveServerOrder(order, name)
  }

  function RememberAll(ops: seq<OrderOp>): seq<string> {
    if ops == [] then [] else Remember(RememberAll(ops[..|ops| - 1]), ops[|ops| - 1])
  }

  /** Whatever is shown and removed, the remembered order never repeats a name and never
      holds the empty one. */
  lemma {:induction false} RememberedIsClean(ops: seq<OrderOp>)
    ensures Clean(RememberAll(ops))
  {
    if ops != [] {
      var order := RememberAll(ops[..|ops| - 1]);
      RememberedIsClean(ops[..|ops| - 1]);
      match ops[|ops| - 1]
      case Shown(servers) => DistinctClean(order + Names(servers), {});
      case Removed(name) => WithoutClean(order, name);
    }
  }

  /** Merging appends: the old order stays a prefix, and exactly the new names are added. */
  lemma MergeExtends(order: seq<string>, servers: seq<ServerView>)
    requires Clean(order)
    ensures order <= MergeServerOrder(order, servers) && Clean(MergeServerOrder(order, servers))
    ensures forall n :: n in MergeServerOrder(order, servers) <==> n in order || (n != "" && n in Names(servers))
  {
    hide Names;
    DistinctClean(order + Names(servers), {});
    DistinctConcat(order, Names(servers), {});
  }

  // ---- showing, remembering and showing again ----

  lemma {:induction false} LastIndexUnique(s: seq<string>, i: nat)
    requires NoDup(s) && i < |s|
    ensures LastIndex(s, s[i]) == i
  {
  }

  /** New names are remembered in the order in which they are listed. */
  lemma {:induction false} DistinctKeepsOrder(names: seq<string>, seen: set<string>, i: nat, j: nat)
    returns (p: nat, q: nat)
    requires Clean(names) && i < j < |names| && names[i] !in seen && names[j] !in seen
    ensures p < q < |Distinct(names, seen)|
    ensures Distinct(names, seen)[p] == names[i] && Distinct(names, seen)[q] == names[j]
  {
    var rest := seen + {names[0]};
    if i > 0 {
      assert names[i] == names[1..][i - 1] && names[j] == names[1..][j - 1];
      if names[0] in seen {
        p, q := DistinctKeepsOrder(names[1..], seen, i - 1, j - 1);
      } else {
        p, q := DistinctKeepsOrder(names[1..], rest, i - 1, j - 1);
        p, q := p + 1, q + 1;
      }
    } else {
      DistinctClean(names[1..], rest);
      assert names[j] == names[1..][j - 1];
      assert names[j] in Distinct(names[1..], rest);
      var k :| 0 <= k < |Distinct(names[1..], rest)| && Distinct(names[1..], rest)[k] == names[j];
      p, q := 0, k + 1;
    }
  }

  /** After a refresh the displayed list is in strictly ascending remembered position. */
  lemma ShownAscends(order: seq<string>, servers: seq<ServerView>, i: nat, j: nat)
    requires Clean(order) && Clean(Names(servers)) && Sorted(servers, Rank(order)) && i < j < |servers|
    ensures Rank(MergeServerOrder(order, servers))(servers[i]) < Rank(MergeServerOrder(order, servers))(servers[j])
  {
    hide LastIndex, Distinct, Sorted;
    var names := Names(servers);
    var order' := MergeServerOrder(order, servers);
    var added := Distinct(names, {} + SetOf(order));
    DistinctConcat(order, names, {});
    MergeExtends(order, servers);
    assert order' == order + added;
    assert names[i] == servers[i].name && names[j] == servers[j].name;
    KnownFirst(order, servers, i, j);
    if names[i] in order {
      var p := LastIndex(order, names[i]);
      assert order'[p] == names[i];
      LastIndexUnique(order', p);
      if names[j] in order {
        var q := LastIndex(order, names[j]);
        assert order'[q] == names[j];
        LastIndexUnique(order', q);
        assert p != q;
      } else {
        assert names[j] in order';
        assert order'[LastIndex(order', names[j])] == names[j];
        assert LastIndex(order', names[j]) >= |order|;
      }
    } else {
      var p, q := DistinctKeepsOrder(names, {} + SetOf(order), i, j);
      assert order'[|order| + p] == names[i] && order'[|order| + q] == names[j];
      LastIndexUnique(order', |order| + p);
      LastIndexUnique(order', |order| + q);
    }
  }

  /** In a list sorted by the remembered order, known names come before new ones, and known
      ones by position. */
  lemma KnownFirst(order: seq<string>, servers: seq<ServerView>, i: nat, j: nat)
    requires Sorted(servers, Rank(order)) && i < j < |servers|
    ensures servers[j].name in order ==>
              servers[i].name in order && LastIndex(order, servers[i].name) <= LastIndex(order, servers[j].name)
  {
    hide LastIndex;
    assert Rank(order)(servers[i]) <= Rank(order)(servers[j]);
  }

  ghost predicate Injective<K>(s: seq<ServerView>, f: ServerView -> K) {
    forall i, j :: 0 <= i < j < |s| ==> f(s[i]) != f(s[j])
  }

  lemma CountsOnce<K>(s: seq<ServerView>, f: ServerView -> K, a: nat)
    requires Injective(s, f) && a < |s|
    ensures multiset(s)[s[a]] == 1
  {
    assert s == s[..a] + [s[a]] + s[a + 1..];
    assert s[a] !in s[..a] && s[a] !in s[a + 1..];
  }

  lemma CountsTwice(s: seq<ServerView>, i: nat, j: nat)
    requires i < j < |s| && s[i] == s[j]
    ensures multiset(s)[s[i]] >= 2
  {
    assert s == s[..i] + [s[i]] + s[i + 1..j] + [s[i]] + s[j + 1..];
  }

  lemma InjectivePermutes<K>(s: seq<ServerView>, t: seq<ServerView>, f: ServerView -> K)
    requires Injective(s, f) && multiset(t) == multiset(s)
    ensures Injective(t, f)
  {
    forall i, j | 0 <= i < j < |t| ensures f(t[i]) != f(t[j]) {
      assert t[i] in multiset(s) && t[j] in multiset(s);
      var a :| 0 <= a < |s| && s[a] == t[i];
      var b :| 0 <= b < |s| && s[b] == t[j];
      CountsOnce(s, f, a);
      if t[i] == t[j] {
        CountsTwice(t, i, j);
        assert false;
      }
      assert a != b;
    }
  }

  /** Where all ranks differ, a permutation has the same buckets. */
  lemma {:induction false} SingletonBuckets(s: seq<ServerView>, rank: ServerView -> int, r: int)
    requires Injective(s, rank)
    ensures |Bucket(s, rank, r)| <= 1
    ensures forall v :: v in Bucket(s, rank, r) <==> v in s && rank(v) == r
  {
    if s != [] {
      var rest := Bucket(s[1..], rank, r);
      SingletonBuckets(s[1..], rank, r);
      if rest != [] {
        assert rest[0] in rest;
        var k :| 0 <= k < |s| - 1 && s[1..][k] == rest[0];
        assert rank(s[k + 1]) == r != rank(s[0]);
      }
    }
  }

  lemma PermutedBuckets(s: seq<ServerView>, t: seq<ServerView>, rank: ServerView -> int, r: int)
    requires Injective(s, rank) && Injective(t, rank) && multiset(s) == multiset(t)
    ensures Bucket(s, rank, r) == Bucket(t, rank, r)
  {
    hide Bucket, Injective;
    SingletonBuckets(s, rank, r);
    SingletonBuckets(t, rank, r);
    var b, c := Bucket(s, rank, r), Bucket(t, rank, r);
    forall v ensures v in b <==> v in c {
      assert v in s <==> v in multiset(s);
      assert v in t <==> v in multiset(t);
    }
    AtMostOne(b, c);
  }

  lemma AtMostOne(b: seq<ServerView>, c: seq<ServerView>)
    requires |b| <= 1 && |c| <= 1 && forall v :: v in b <==> v in c
    ensures b == c
  {
    assert |b| == 1 ==> b[0] in c;
    assert |c| == 1 ==> c[0] in b;
  }

  lemma ShownClean(order: seq<string>, servers: seq<ServerView>)
    requires Clean(Names(servers))
    ensures Clean(Names(OrderServerViews(servers, order)))
  {
    var shown := OrderServerViews(servers, order);
    var name := (v: ServerView) => v.name;
    SortSpec(servers, Rank(order));
    assert forall i :: 0 <= i < |servers| ==> Names(servers)[i] == name(servers[i]);
    InjectivePermutes(servers, shown, name);
    forall i | 0 <= i < |shown| ensures Names(shown)[i] == name(shown[i]) && name(shown[i]) != "" {
      assert shown[i] in multiset(servers);
      var k :| 0 <= k < |servers| && servers[k] == shown[i];
      assert Names(servers)[k] != "";
    }
  }

  /** After one refresh the display is stable: the same servers, arriving in any order, are
      shown exactly as before. */
  lemma DisplayStabilises(order: seq<string>, servers: seq<ServerView>, again: seq<ServerView>)
    requires Clean(order) && Clean(Names(servers)) && multiset(again) == multiset(servers)
    ensures var shown := OrderServerViews(servers, order);
            OrderServerViews(again, MergeServerOrder(order, shown)) == shown
  {
    var shown := OrderServerViews(servers, order);
    ShownClean(order, servers);
    var rank := Rank(MergeServerOrder(order, shown));
    SortSpec(servers, Rank(order));
    forall i, j | 0 <= i < j < |shown| ensures rank(shown[i]) < rank(shown[j]) {
      ShownAscends(order, shown, i, j);
    }
    InjectivePermutes(shown, again, rank);
    forall r ensures Bucket(shown, rank, r) == Bucket(again, rank, r) {
      PermutedBuckets(shown, again, rank, r);
    }
    StableSortUnique(again, shown, rank);
  }
}
