/** Usage counters (`desktop/metrics_app.go`): counted in memory, merged into a pending file
    after each turn, sent once per launch, folded back when the server does not take them.
    Files are modelled by the counters they hold; a missing or unreadable file holds none. */
module Metrics {
  import opened GoStrings

  /** signal -> bucket -> count */
  type Counters = map<string, map<string, int>>

  datatype Counter = Counter(signal: string, bucket: string, count: int)

  function Buckets(c: Counters, signal: string): map<string, int> { if signal in c then c[signal] else map[] }

  function At(c: Counters, signal: string, bucket: string): int {
    if bucket in Buckets(c, signal) then Buckets(c, signal)[bucket] else 0
  }

  function Put(c: Counters, signal: string, bucket: string, n: int): Counters {
    c[signal := Buckets(c, signal)[bucket := n]]
  }

  function Added(c: Counters, signal: string, bucket: string, n: int): Counters {
    Put(c, signal, bucket, At(c, signal, bucket) + n)
  }

  function MergedBuckets(c: Counters, d: Counters, s: string): map<string, int> {
    map b | b in Buckets(c, s).Keys + Buckets(d, s).Keys :: At(c, s, b) + At(d, s, b)
  }

  function Merged(c: Counters, d: Counters): Counters {
    map s | s in c.Keys + d.Keys && (s in c || d[s] != map[]) :: MergedBuckets(c, d, s)
  }

  function Read(file: Option<Counters>): Counters { if file.Some? then file.value else map[] }

  lemma BucketsMerged(c: Counters, d: Counters, s: string)
    ensures Buckets(Merged(c, d), s) == MergedBuckets(c, d, s)
    ensures s in Merged(c, d) <==> s in c || Buckets(d, s) != map[]
  {
  }

  lemma MergedAt(c: Counters, d: Counters, s: string, b: string)
    ensures At(Merged(c, d), s, b) == At(c, s, b) + At(d, s, b)
  {
    hide Merged;
    BucketsMerged(c, d, s);
  }

  lemma AddedAt(c: Counters, signal: string, bucket: string, n: int, s: string, b: string)
    ensures At(Added(c, signal, bucket, n), s, b) == At(c, s, b) + if s == signal && b == bucket then n else 0
  {
  }

  /** Merging an entry in addition is the same as adding it to what has been merged. */
  lemma MergedPut(c: Counters, d: Counters, s: string, b: string, n: int)
    requires b !in Buckets(d, s)
    ensures Added(Merged(c, d), s, b, n) == Merged(c, Put(d, s, b, n))
  {
    hide Merged;
    var l, r := Added(Merged(c, d), s, b, n), Merged(c, Put(d, s, b, n));
    MergedAt(c, d, s, b);
    forall s' ensures Buckets(l, s') == Buckets(r, s') && (s' in l <==> s' in r) {
      BucketsMerged(c, d, s');
      BucketsMerged(c, Put(d, s, b, n), s');
      MergedBucketsPut(c, d, s, b, n, s');
    }
    SameBuckets(l, r);
  }

  lemma MergedBucketsPut(c: Counters, d: Counters, s: string, b: string, n: int, s': string)
    requires b !in Buckets(d, s)
    ensures MergedBuckets(c, Put(d, s, b, n), s') ==
            if s' == s then MergedBuckets(c, d, s)[b := At(c, s, b) + n] else MergedBuckets(c, d, s')
  {
  }

  lemma SameBuckets(c: Counters, d: Counters)
    requires forall s :: Buckets(c, s) == Buckets(d, s) && (s in c <==> s in d)
    ensures c == d
  {
    forall s | s in c ensures s in d && c[s] == d[s] {
      assert Buckets(c, s) == Buckets(d, s);
    }
    forall s | s in d ensures s in c {
      assert s in c <==> s in d;
    }
  }

  /** Only which entries there are matters to a merge, not which signals are listed empty. */
  lemma MergedSame(c: Counters, d: Counters, e: Counters)
    requires forall s :: Buckets(d, s) == Buckets(e, s)
    ensures Merged(c, d) == Merged(c, e)
  {
    hide Merged;
    forall s
      ensures Buckets(Merged(c, d), s) == Buckets(Merged(c, e), s) && (s in Merged(c, d) <==> s in Merged(c, e))
    {
      assert Buckets(d, s) == Buckets(e, s);
      BucketsMerged(c, d, s);
      BucketsMerged(c, e, s);
      assert MergedBuckets(c, d, s) == MergedBuckets(c, e, s);
    }
    SameBuckets(Merged(c, d), Merged(c, e));
  }

  lemma BucketsPut(c: Counters, signal: string, bucket: string, n: int)
    ensures forall s :: Buckets(Put(c, signal, bucket, n), s) ==
                        if s == signal then Buckets(c, signal)[bucket := n] else Buckets(c, s)
  {
  }

  /** `counters`: a table updated in place. */
  class Table {
    var c: Counters

    constructor (c: Counters)
      ensures this.c == c
    {
      this.c := c;
    }

    method Add(signal: string, bucket: string, n: int)
      modifies this
      ensures c == Added(old(c), signal, bucket, n)
      ensures signal in c && bucket in c[signal]
      ensures c[signal][bucket] ==
              n + if signal in old(c) && bucket in old(c)[signal] then old(c)[signal][bucket] else 0
      ensures forall b :: b in c[signal] && b != bucket ==>
                signal in old(c) && b in old(c)[signal] && c[signal][b] == old(c)[signal][b]
      ensures signal in old(c) ==> old(c)[signal].Keys <= c[signal].Keys
      ensures c - {signal} == old(c) - {signal}
    {
      if signal !in c {
        c := c[signal := map[]];
      }
      c := c[signal := c[signal][bucket := (if bucket in c[signal] then c[signal][bucket] else 0) + n]];
    }

    /** Visits the entries of `other` in whatever order the map yields them. */
    method Merge(other: Counters)
      modifies this
      ensures c == Merged(old(c), other)
      ensures forall s :: s in c <==> s in old(c) || (s in other && other[s] != map[])
      ensures forall s :: s in c ==> Both(c[s], if s in old(c) then old(c)[s] else map[],
                                          if s in other then other[s] else map[])
    {
      hide Merged, Added, Put;
      ghost var d: Counters := map[];
      MergedNothing(c);
      var signals := other.Keys;
      while signals != {}
        invariant signals <= other.Keys
        invariant c == Merged(old(c), d)
        invariant forall s :: Buckets(d, s) == if s in signals then map[] else Buckets(other, s)
      {
        var s :| s in signals;
        signals := signals - {s};
        var buckets := other[s].Keys;
        assert Buckets(d, s) == map[];
        while buckets != {}
          invariant buckets <= other[s].Keys
          invariant c == Merged(old(c), d)
          invariant forall s' :: s' != s ==> Buckets(d, s') == if s' in signals then map[] else Buckets(other, s')
          invariant Buckets(d, s) == other[s] - buckets
        {
          var b :| b in buckets;
          MergedPut(old(c), d, s, b, other[s][b]);
          Add(s, b, other[s][b]);
          BucketsPut(d, s, b, other[s][b]);
          d := Put(d, s, b, other[s][b]);
          buckets := buckets - {b};
        }
        assert Buckets(d, s) == Buckets(other, s);
      }
      MergedSame(old(c), d, other);
      MergedIs(old(c), other);
    }
  }

  /** The buckets of both, with the sum where one is in both. */
  ghost predicate Both(r: map<string, int>, x: map<string, int>, y: map<string, int>) {
    && r.Keys == x.Keys + y.Keys
    && forall b :: b in r ==> r[b] == (if b in x then x[b] else 0) + (if b in y then y[b] else 0)
  }

  lemma MergedIs(c: Counters, d: Counters)
    ensures forall s :: s in Merged(c, d) <==> s in c || (s in d && d[s] != map[])
    ensures forall s :: s in Merged(c, d) ==> Both(Merged(c, d)[s], if s in c then c[s] else map[],
                                                   if s in d then d[s] else map[])
  {
    forall s ensures s in Merged(c, d) <==> s in c || (s in d && d[s] != map[])
             ensures s in Merged(c, d) ==> Both(Merged(c, d)[s], if s in c then c[s] else map[],
                                                if s in d then d[s] else map[])
    {
      BucketsMerged(c, d, s);
    }
  }

  lemma MergedNothing(c: Counters)
    ensures Merged(c, map[]) == c
  {
    forall s ensures Buckets(Merged(c, map[]), s) == Buckets(c, s) && (s in Merged(c, map[]) <==> s in c) {
      assert MergedBuckets(c, map[], s) == Buckets(c, s);
    }
    SameBuckets(Merged(c, map[]), c);
  }

  // ---- what is sent ----

  predicate Same(x: Counter, y: Counter) { x.signal == y.signal && x.bucket == y.bucket }

  predicate Lists(list: seq<Counter>, s: string, b: string) {
    exists i :: 0 <= i < |list| && list[i].signal == s && list[i].bucket == b
  }

  /** Every listed counter is there, positive, and listed once. */
  ghost predicate Listed(list: seq<Counter>, c: Counters) {
    && (forall i :: 0 <= i < |list| ==> list[i].count == At(c, list[i].signal, list[i].bucket) > 0)
    && (forall i, j :: 0 <= i < j < |list| ==> !Same(list[i], list[j]))
  }

  /** And every positive one is listed. */
  ghost predicate Listing(list: seq<Counter>, c: Counters) {
    Listed(list, c) && forall s, b :: At(c, s, b) > 0 ==> Lists(list, s, b)
  }

  lemma ListedNext(list: seq<Counter>, c: Counters, x: Counter)
    requires Listed(list, c) && x.count == At(c, x.signal, x.bucket) > 0 && !Lists(list, x.signal, x.bucket)
    ensures Listed(list + [x], c)
    ensures forall s, b :: Lists(list + [x], s, b) <==> Lists(list, s, b) || (s == x.signal && b == x.bucket)
  {
    forall s, b ensures Lists(list + [x], s, b) <==> Lists(list, s, b) || (s == x.signal && b == x.bucket) {
      ListsNext(list, x, s, b);
    }
  }

  lemma ListsNext(list: seq<Counter>, x: Counter, s: string, b: string)
    ensures Lists(list + [x], s, b) <==> Lists(list, s, b) || (s == x.signal && b == x.bucket)
  {
    if Lists(list, s, b) {
      var i :| 0 <= i < |list| && list[i].signal == s && list[i].bucket == b;
      assert (list + [x])[i] == list[i];
    }
    assert (list + [x])[|list|] == x;
  }

  /** Whatever order the maps yield, each positive counter is listed exactly once. */
  method Flatten(c: Counters) returns (out: seq<Counter>)
    ensures Listing(out, c)
  {
    hide Lists;
    out := [];
    var signals := c.Keys;
    assert forall s, b :: !Lists(out, s, b) by { NothingListed(); }
    while signals != {}
      invariant signals <= c.Keys && Listed(out, c)
      invariant forall s, b :: Lists(out, s, b) <==> s !in signals && At(c, s, b) > 0
    {
      var s :| s in signals;
      signals := signals - {s};
      var buckets := c[s].Keys;
      while buckets != {}
        invariant buckets <= c[s].Keys && Listed(out, c)
        invariant forall s', b ::
                    Lists(out, s', b) <==> s' !in signals && At(c, s', b) > 0 && !(s' == s && b in buckets)
      {
        var b :| b in buckets;
        buckets := buckets - {b};
        if c[s][b] > 0 {
          ListedNext(out, c, Counter(s, b, c[s][b]));
          out := out + [Counter(s, b, c[s][b])];
        }
      }
    }
  }

  lemma NothingListed()
    ensures forall s, b :: !Lists([], s, b)
  {
  }

  /** What the server has after taking a payload. */
  function Credit(c: Counters, list: seq<Counter>): Counters {
    if list == [] then c
    else
      var x := list[|list| - 1];
      Added(Credit(c, list[..|list| - 1]), x.signal, x.bucket, x.count)
  }

  lemma {:induction false} CreditAt(c: Counters, list: seq<Counter>, d: Counters, s: string, b: string)
    requires Listed(list, d)
    ensures At(Credit(c, list), s, b) == At(c, s, b) + if Lists(list, s, b) then At(d, s, b) else 0
  {
    hide At, Added, Lists;
    if list == [] {
      NothingListed();
    } else {
      var n := |list| - 1;
      var x := list[n];
      CreditAt(c, list[..n], d, s, b);
      AddedAt(Credit(c, list[..n]), x.signal, x.bucket, x.count, s, b);
      assert list == list[..n] + [x];
      ListsNext(list[..n], x, s, b);
      if s == x.signal && b == x.bucket && Lists(list[..n], s, b) {
        NotListedTwice(list, n);
      }
    }
  }

  lemma NotListedTwice(list: seq<Counter>, n: nat)
    requires n < |list| && forall i, j :: 0 <= i < j < |list| ==> !Same(list[i], list[j])
    ensures !Lists(list[..n], list[n].signal, list[n].bucket)
  {
    forall i | 0 <= i < n ensures !(list[..n][i].signal == list[n].signal && list[..n][i].bucket == list[n].bucket) {
      assert !Same(list[i], list[n]);
    }
  }

  // ---- one process, step after step ----

  /** The aggregator with the two files, and what the server has taken. */
  class Aggregator {
    var table: Table
    var pending: Option<Counters>
    var sending: Option<Counters>
    ghost var delivered: Counters

    constructor (pending: Option<Counters>)
      ensures table.c == map[] && this.pending == pending && sending.None? && delivered == map[]
      ensures fresh(table)
    {
      table := new Table(map[]);
      this.pending, sending, delivered := pending, None, map[];
    }

    /** Called for each event that counts. */
    method Inc(signal: string, bucket: string)
      modifies table
      ensures table.c == Added(old(table.c), signal, bucket, 1)
    {
      table.Add(signal, bucket, 1);
    }

    /** With something counted, memory moves into the pending file; with nothing, the file
        is not even created. */
    method Persist()
      modifies this`table, this`pending
      ensures old(table.c) == map[] ==> table == old(table) && pending == old(pending)
      ensures old(table.c) != map[] ==>
                fresh(table) && table.c == map[] && pending == Some(Merged(Read(old(pending)), old(table.c)))
    {
      if |table.c| == 0 {
        return;
      }
      var delta := table;
      table := new Table(map[]);
      var file := new Table(Read(pending));
      file.Merge(delta.c);
      pending := Some(file.c);
    }

    /** Others may persist `meanwhile` into a new pending file between the rename and the
        answer of the server. The counters that were pending are either delivered, each
        once, or back in the pending file beside the new ones; nothing stays behind in the
        sending file. */
    method Flush(accepted: bool, meanwhile: Option<Counters>)
      modifies this`pending, this`sending, this`delivered
      ensures old(pending).None? ==> pending.None? && sending == old(sending) && delivered == old(delivered)
      ensures old(pending).Some? ==> sending.None?
      ensures old(pending).Some? ==> forall s, b :: At(Read(old(pending)), s, b) >= 0 ==>
                At(Read(pending), s, b) + At(delivered, s, b)
                == At(Read(old(pending)), s, b) + At(Read(meanwhile), s, b) + At(old(delivered), s, b)
      ensures old(pending).Some? && accepted ==> pending == meanwhile
      ensures !accepted ==> delivered == old(delivered)
    {
      if pending.None? {
        return;
      }
      sending, pending := pending, None;
      var temp := Read(sending);
      var flat := Flatten(temp);
      pending := meanwhile;
      if |flat| == 0 || accepted {
        delivered := Credit(delivered, flat);
        forall s, b
          ensures At(delivered, s, b) == At(old(delivered), s, b) + (if At(temp, s, b) > 0 then At(temp, s, b) else 0)
        {
          CreditAt(old(delivered), flat, temp, s, b);
        }
        sending := None;
        return;
      }
      var file := new Table(Read(pending));
      file.Merge(temp);
      forall s, b ensures At(file.c, s, b) == At(Read(meanwhile), s, b) + At(temp, s, b) {
        MergedAt(Read(meanwhile), temp, s, b);
      }
      pending := Some(file.c);
      sending := None;
    }
  }
}
