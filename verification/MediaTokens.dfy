/** The media-token store of `desktop/app.go`: a cache with a time to live and a capacity,
    kept as a map and a queue. `get` deletes from the map alone, so the two drift apart;
    the theorems say what a caller sees all the same. Times are integers read from a clock
    that never goes back, and a freshly drawn token is one never drawn before. */
module MediaTokens {
  import opened GoStrings

  datatype Entry = Entry(payload: string, createdAt: int, expiresAt: int)

  datatype Store = Store(byTok: map<string, Entry>, order: seq<string>)

  function Pop(s: Store): Store
    requires s.order != []
  {
    Store(s.byTok - {s.order[0]}, s.order[1..])
  }

  /** The first loop of cleanupLocked: drop from the front what is gone or expired. */
  function DropStale(s: Store, now: int): Store
    decreases |s.order|
  {
    if s.order != [] && (s.order[0] in s.byTok ==> s.byTok[s.order[0]].expiresAt <= now)
    then DropStale(Pop(s), now) else s
  }

  function Trim(s: Store, maxN: nat): Store
    decreases |s.order|
  {
    if |s.order| > maxN then Trim(Pop(s), maxN) else s
  }

  function Cleanup(s: Store, maxN: nat, now: int): Store { Trim(DropStale(s, now), maxN) }

  function Insert(s: Store, maxN: nat, token: string, e: Entry, cleanupAt: int): Store {
    var s1 := Cleanup(s, maxN, cleanupAt);
    Trim(Store(s1.byTok[token := e], s1.order + [token]), maxN)
  }

  function Lookup(s: Store, token: string, now: int): Option<Entry> {
    if token in s.byTok && now <= s.byTok[token].expiresAt then Some(s.byTok[token]) else None
  }

  function AfterGet(s: Store, token: string, now: int): Store {
    if token in s.byTok && Lookup(s, token, now).None? then s.(byTok := s.byTok - {token}) else s
  }

  class MediaTokenStore {
    var byTok: map<string, Entry>
    var order: seq<string>
    const maxN: nat
    const ttl: int

    constructor (maxN: nat, ttl: int)
      ensures Contents() == Store(map[], []) && this.maxN == maxN && this.ttl == ttl
    {
      byTok, order := map[], [];
      this.maxN, this.ttl := maxN, ttl;
    }

    function Contents(): Store
      reads this
    {
      Store(byTok, order)
    }

    method TrimOldest()
      modifies this
      ensures Contents() == Trim(old(Contents()), maxN)
    {
      while |order| > maxN
        invariant Trim(Contents(), maxN) == Trim(old(Contents()), maxN)
      {
        byTok := byTok - {order[0]};
        order := order[1..];
      }
    }

    method CleanupLocked(now: int)
      modifies this
      ensures Contents() == Cleanup(old(Contents()), maxN, now)
    {
      while |order| > 0
        invariant DropStale(Contents(), now) == DropStale(old(Contents()), now)
      {
        var tok := order[0];
        if tok !in byTok {
          assert byTok - {tok} == byTok;
          order := order[1..];
          continue;
        }
        if byTok[tok].expiresAt <= now {
          byTok := byTok - {tok};
          order := order[1..];
          continue;
        }
        break;
      }
      TrimOldest();
    }

    method Create(token: string, payload: string, cleanupAt: int, now: int)
      modifies this
      ensures Contents() ==
              Insert(old(Contents()), maxN, token, Entry(payload, now, now + ttl), cleanupAt)
    {
      CleanupLocked(cleanupAt);
      byTok := byTok[token := Entry(payload, now, now + ttl)];
      order := order + [token];
      TrimOldest();
    }

    method Get(token: string, now: int) returns (e: Option<Entry>)
      modifies this
      ensures e == Lookup(old(Contents()), token, now)
      ensures Contents() == AfterGet(old(Contents()), token, now)
      ensures e.Some? <==> token in old(byTok) && now <= old(byTok)[token].expiresAt
      ensures e.Some? ==> e.value == old(byTok)[token] && byTok == old(byTok)
      ensures e.None? ==> byTok == old(byTok) - {token}
      ensures order == old(order)
    {
      if token !in byTok {
        return None;
      }
      if now > byTok[token].expiresAt {
        byTok := byTok - {token};
        return None;
      }
      return Some(byTok[token]);
    }
  }

  // ---- all sequences of calls ----

  datatype Op =
    | Mint(token: string, payload: string, cleanupAt: int, now: int)
    | Fetch(token: string, now: int)

  /** The store with its history: every token ever created with its entry, the latest
      clock reading, and the clock at the latest cleanup. */
  datatype World = World(store: Store, tokens: seq<string>, entries: seq<Entry>, clock: int, cleaned: int)

  function Perform(w: World, op: Op, maxN: nat, ttl: int): World {
    match op
    case Mint(token, payload, cleanupAt, now) =>
      var e := Entry(payload, now, now + ttl);
      World(Insert(w.store, maxN, token, e, cleanupAt), w.tokens + [token], w.entries + [e], now, cleanupAt)
    case Fetch(token, now) => w.(store := AfterGet(w.store, token, now), clock := now)
  }

  predicate Legal(w: World, op: Op) {
    match op
    case Mint(token, _, cleanupAt, now) => token !in w.tokens && w.clock <= cleanupAt <= now
    case Fetch(_, now) => w.clock <= now
  }

  function Run(start: int, ops: seq<Op>, maxN: nat, ttl: int): World {
    if ops == [] then World(Store(map[], []), [], [], start, start)
    else Perform(Run(start, ops[..|ops| - 1], maxN, ttl), ops[|ops| - 1], maxN, ttl)
  }

  predicate LegalRun(start: int, ops: seq<Op>, maxN: nat, ttl: int) {
    ops == [] ||
    (LegalRun(start, ops[..|ops| - 1], maxN, ttl) &&
     Legal(Run(start, ops[..|ops| - 1], maxN, ttl), ops[|ops| - 1]))
  }

  ghost predicate NoDup(s: seq<string>) { forall i, j :: 0 <= i < j < |s| ==> s[i] != s[j] }

  /** Entries expire in the order in which they were created, none before it is made. */
  ghost predicate HistoryInv(w: World, ttl: int) {
    && |w.tokens| == |w.entries| && NoDup(w.tokens) && w.cleaned <= w.clock
    && (forall k :: 0 <= k < |w.entries| ==> w.entries[k].expiresAt <= w.clock + ttl)
    && Sorted(w.entries)
  }

  /** The queue is the creation history from position `m` on; the map holds only tokens
      from there on, each with the entry it was created with. */
  ghost predicate Tied(s: Store, tokens: seq<string>, entries: seq<Entry>, m: nat) {
    && |tokens| == |entries| && m <= |tokens| && s.order == tokens[m..]
    && (forall t :: t in s.byTok ==> t in tokens)
    && (forall k :: 0 <= k < |tokens| && tokens[k] in s.byTok ==> m <= k && s.byTok[tokens[k]] == entries[k])
  }

  /** The queue stays within the capacity, nothing a cleanup should have removed is left,
      and what a recent token lacks in the map has expired. */
  ghost predicate StoreInv(w: World, maxN: nat) {
    var n := |w.tokens|;
    && |w.store.order| <= n && |w.store.order| <= maxN
    && Tied(w.store, w.tokens, w.entries, n - |w.store.order|)
    && (forall k :: 0 <= k < n && w.tokens[k] in w.store.byTok ==> w.cleaned < w.entries[k].expiresAt)
    && (forall k :: 0 <= k < n && n - maxN <= k && w.tokens[k] !in w.store.byTok ==>
          w.entries[k].expiresAt <= w.cleaned || w.entries[k].expiresAt < w.clock)
  }

  ghost predicate Sorted(entries: seq<Entry>) {
    forall j, k :: 0 <= j <= k < |entries| ==> entries[j].expiresAt <= entries[k].expiresAt
  }

  lemma PopTied(s: Store, tokens: seq<string>, entries: seq<Entry>, m: nat)
    requires Tied(s, tokens, entries, m) && NoDup(tokens) && m < |tokens|
    ensures Tied(Pop(s), tokens, entries, m + 1)
    ensures forall k :: 0 <= k < |tokens| && k != m ==> (tokens[k] in Pop(s).byTok <==> tokens[k] in s.byTok)
    ensures tokens[m] !in Pop(s).byTok
  {
  }

  lemma {:induction false} TrimTied(s: Store, tokens: seq<string>, entries: seq<Entry>, m: nat, maxN: nat)
    requires Tied(s, tokens, entries, m) && NoDup(tokens)
    ensures var d := if |tokens| - m > maxN then |tokens| - m - maxN else 0;
            && Tied(Trim(s, maxN), tokens, entries, m + d)
            && forall k :: 0 <= k < |tokens| ==>
                 (tokens[k] in Trim(s, maxN).byTok <==> tokens[k] in s.byTok && m + d <= k)
    decreases |s.order|
  {
    if |s.order| > maxN {
      PopTied(s, tokens, entries, m);
      TrimTied(Pop(s), tokens, entries, m + 1, maxN);
    }
  }

  /** Front to back is oldest to newest, so dropping from the front drops everything that
      has expired and nothing else. */
  lemma {:induction false} DropTied(s: Store, tokens: seq<string>, entries: seq<Entry>, m: nat, now: int)
    returns (m': nat)
    requires Tied(s, tokens, entries, m) && NoDup(tokens) && Sorted(entries)
    ensures m <= m' && Tied(DropStale(s, now), tokens, entries, m')
    ensures forall k :: 0 <= k < |tokens| ==>
              (tokens[k] in DropStale(s, now).byTok <==> tokens[k] in s.byTok && now < entries[k].expiresAt)
    decreases |s.order|
  {
    m' := m;
    if s.order != [] {
      assert s.order[0] == tokens[m];
      if s.order[0] in s.byTok ==> s.byTok[s.order[0]].expiresAt <= now {
        PopTied(s, tokens, entries, m);
        m' := DropTied(Pop(s), tokens, entries, m + 1, now);
      }
    }
  }

  lemma AppendTied(s: Store, tokens: seq<string>, entries: seq<Entry>, m: nat, token: string, e: Entry)
    requires Tied(s, tokens, entries, m) && token !in tokens
    ensures Tied(Store(s.byTok[token := e], s.order + [token]), tokens + [token], entries + [e], m)
  {
  }

  lemma CleanupTied(s: Store, tokens: seq<string>, entries: seq<Entry>, m: nat, maxN: nat, now: int) returns (m': nat)
    requires Tied(s, tokens, entries, m) && NoDup(tokens) && Sorted(entries) && |tokens| - m <= maxN
    ensures m <= m' && Tied(Cleanup(s, maxN, now), tokens, entries, m')
    ensures forall k :: 0 <= k < |tokens| ==>
              (tokens[k] in Cleanup(s, maxN, now).byTok <==> tokens[k] in s.byTok && now < entries[k].expiresAt)
  {
    m' := DropTied(s, tokens, entries, m, now);
    assert DropStale(s, now).order == tokens[m'..];
    hide Tied, NoDup, Sorted, DropStale;
    NoTrim(DropStale(s, now), maxN);
  }

  lemma NoTrim(s: Store, maxN: nat)
    requires |s.order| <= maxN
    ensures Trim(s, maxN) == s
  {
  }

  lemma NoDupInit(tokens: seq<string>, token: string)
    requires NoDup(tokens + [token])
    ensures NoDup(tokens) && token !in tokens
  {
    assert forall k :: 0 <= k < |tokens| ==> tokens[k] == (tokens + [token])[k];
    assert token == (tokens + [token])[|tokens|];
  }

  /** An insertion keeps, of the `maxN` newest tokens, the new one and those still held
      that the cleanup does not find expired. */
  lemma InsertTied(s: Store, tokens: seq<string>, entries: seq<Entry>, m: nat, maxN: nat,
                   token: string, e: Entry, now: int) returns (m': nat)
    requires Tied(s, tokens, entries, m) && NoDup(tokens + [token]) && Sorted(entries) && |tokens| - m <= maxN
    ensures Tied(Insert(s, maxN, token, e, now), tokens + [token], entries + [e], m')
    ensures |tokens| + 1 - m' <= maxN
    ensures forall k :: 0 <= k <= |tokens| ==>
              ((tokens + [token])[k] in Insert(s, maxN, token, e, now).byTok <==>
               |tokens| + 1 - maxN <= k &&
               (k == |tokens| || (tokens[k] in s.byTok && now < entries[k].expiresAt)))
  {
    hide NoDup, Sorted, Cleanup, Trim;
    NoDupInit(tokens, token);
    var n := |tokens|;
    var m1 := CleanupTied(s, tokens, entries, m, maxN, now);
    var c := Cleanup(s, maxN, now);
    AppendTied(c, tokens, entries, m1, token, e);
    var full := Store(c.byTok[token := e], c.order + [token]);
    var all := tokens + [token];
    TrimTied(full, all, entries + [e], m1, maxN);
    m' := m1 + if n + 1 - m1 > maxN then n + 1 - m1 - maxN else 0;
    assert forall k :: 0 <= k < n ==> tokens[k] in c.byTok ==> m1 <= k;
    hide Tied;
    forall k | 0 <= k <= n
      ensures all[k] in Trim(full, maxN).byTok <==>
              n + 1 - maxN <= k && (k == n || (tokens[k] in s.byTok && now < entries[k].expiresAt))
    {
      assert k < n ==> all[k] == tokens[k] && (tokens[k] in full.byTok <==> tokens[k] in c.byTok);
    }
  }

  lemma MintStep(w: World, op: Op, maxN: nat, ttl: int)
    requires HistoryInv(w, ttl) && StoreInv(w, maxN) && Legal(w, op) && op.Mint? && 0 < ttl
    ensures HistoryInv(Perform(w, op, maxN, ttl), ttl) && StoreInv(Perform(w, op, maxN, ttl), maxN)
  {
    var e := Entry(op.payload, op.now, op.now + ttl);
    var m' := InsertTied(w.store, w.tokens, w.entries, |w.tokens| - |w.store.order|, maxN, op.token, e, op.cleanupAt);
  }

  lemma FetchStep(w: World, op: Op, maxN: nat, ttl: int)
    requires HistoryInv(w, ttl) && StoreInv(w, maxN) && Legal(w, op) && op.Fetch?
    ensures HistoryInv(Perform(w, op, maxN, ttl), ttl) && StoreInv(Perform(w, op, maxN, ttl), maxN)
  {
    FetchKeepsHistory(w, op, maxN, ttl);
    FetchKeepsTied(w.store, w.tokens, w.entries, |w.tokens| - |w.store.order|, op.token, op.now);
    hide Tied, Sorted, NoDup, HistoryInv;
    forall k | 0 <= k < |w.tokens| && w.tokens[k] !in AfterGet(w.store, op.token, op.now).byTok
               && w.tokens[k] in w.store.byTok
      ensures w.entries[k].expiresAt < op.now
    {
    }
  }

  lemma FetchKeepsHistory(w: World, op: Op, maxN: nat, ttl: int)
    requires HistoryInv(w, ttl) && Legal(w, op) && op.Fetch?
    ensures HistoryInv(Perform(w, op, maxN, ttl), ttl)
  {
    hide Sorted, NoDup, AfterGet;
  }

  /** A fetch removes at most the token asked for, and only when it has expired. */
  lemma FetchKeepsTied(s: Store, tokens: seq<string>, entries: seq<Entry>, m: nat, token: string, now: int)
    requires Tied(s, tokens, entries, m)
    ensures Tied(AfterGet(s, token, now), tokens, entries, m)
    ensures AfterGet(s, token, now).order == s.order
    ensures forall k :: 0 <= k < |tokens| && tokens[k] in s.byTok && tokens[k] !in AfterGet(s, token, now).byTok ==>
              entries[k].expiresAt < now
    ensures forall k :: 0 <= k < |tokens| && tokens[k] in AfterGet(s, token, now).byTok ==> tokens[k] in s.byTok
  {
  }

  lemma {:induction false} InvHolds(start: int, ops: seq<Op>, maxN: nat, ttl: int)
    requires LegalRun(start, ops, maxN, ttl) && 0 < ttl
    ensures HistoryInv(Run(start, ops, maxN, ttl), ttl) && StoreInv(Run(start, ops, maxN, ttl), maxN)
  {
    if ops != [] {
      var w := Run(start, ops[..|ops| - 1], maxN, ttl);
      InvHolds(start, ops[..|ops| - 1], maxN, ttl);
      if ops[|ops| - 1].Mint? {
        MintStep(w, ops[|ops| - 1], maxN, ttl);
      } else {
        FetchStep(w, ops[|ops| - 1], maxN, ttl);
      }
    }
  }

  function Mints(ops: seq<Op>): seq<Op> {
    if ops == [] then []
    else Mints(ops[..|ops| - 1]) + if ops[|ops| - 1].Mint? then [ops[|ops| - 1]] else []
  }

  /** The history is that of the calls: the k-th token is the one of the k-th creation, with
      its payload, made then and expiring after the time to live; the latest cleanup was that
      of the latest creation. */
  lemma {:induction false} HistoryIs(start: int, ops: seq<Op>, maxN: nat, ttl: int)
    ensures var w := Run(start, ops, maxN, ttl); var mints := Mints(ops);
            && |w.tokens| == |w.entries| == |mints|
            && (forall k :: 0 <= k < |mints| ==>
                  && mints[k].Mint? && w.tokens[k] == mints[k].token
                  && w.entries[k] == Entry(mints[k].payload, mints[k].now, mints[k].now + ttl))
            && w.clock == (if ops == [] then start else ops[|ops| - 1].now)
            && w.cleaned == (if mints == [] then start else mints[|mints| - 1].cleanupAt)
  {
    hide Insert, AfterGet;
    if ops != [] {
      HistoryIs(start, ops[..|ops| - 1], maxN, ttl);
    }
  }

  /** The map and the queue together behave like a plain list of what was created. After
      any calls, the k-th token created is served exactly when it is among the `maxN`
      newest, has not expired, and no cleanup has run at or after its expiry; and what is
      served is the entry it was created with. */
  lemma ServedExactly(start: int, ops: seq<Op>, maxN: nat, ttl: int, k: nat, now: int)
    requires LegalRun(start, ops, maxN, ttl) && 0 < ttl
    requires k < |Run(start, ops, maxN, ttl).tokens| && Run(start, ops, maxN, ttl).clock <= now
    ensures var w := Run(start, ops, maxN, ttl);
            && |w.entries| == |w.tokens|
            && Lookup(w.store, w.tokens[k], now) ==
               if |w.tokens| - maxN <= k && now <= w.entries[k].expiresAt && w.cleaned < w.entries[k].expiresAt
               then Some(w.entries[k]) else None
  {
    InvHolds(start, ops, maxN, ttl);
  }

  /** Away from the instant of expiry the cleanup does not matter. */
  lemma ServedUntilExpiry(start: int, ops: seq<Op>, maxN: nat, ttl: int, k: nat, now: int)
    requires LegalRun(start, ops, maxN, ttl) && 0 < ttl
    requires k < |Run(start, ops, maxN, ttl).tokens| && Run(start, ops, maxN, ttl).clock <= now
    ensures var w := Run(start, ops, maxN, ttl);
            && |w.entries| == |w.tokens|
            && (now < w.entries[k].expiresAt ==>
                  (Lookup(w.store, w.tokens[k], now) == Some(w.entries[k]) <==> |w.tokens| - maxN <= k))
            && (now > w.entries[k].expiresAt ==> Lookup(w.store, w.tokens[k], now).None?)
  {
    InvHolds(start, ops, maxN, ttl);
    ServedExactly(start, ops, maxN, ttl, k, now);
  }

  /** A token never created is never served, and at no time are more than `maxN` held. */
  lemma NothingElseServed(start: int, ops: seq<Op>, maxN: nat, ttl: int, token: string, now: int)
    requires LegalRun(start, ops, maxN, ttl) && 0 < ttl
    requires token !in Run(start, ops, maxN, ttl).tokens
    ensures Lookup(Run(start, ops, maxN, ttl).store, token, now).None?
    ensures |Run(start, ops, maxN, ttl).store.order| <= maxN
  {
    InvHolds(start, ops, maxN, ttl);
  }
}
