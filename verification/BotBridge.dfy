/** The IM bridge hub of the desktop app (`desktop/bot_bridge.go`): what its methods
    do to the hub when one goroutine runs at a time. `BotBridgeProtocol` interleaves
    the same state changes over any number of goroutines. */
module BotBridge {
  import opened GoStrings

  const QUEUE_CAP: nat := 64

  datatype Route = Route(platform: string, chatType: string, chatID: string) {
    function Key(): string { platform + "|" + chatType + "|" + chatID }
  }

  datatype PromptKind = Approval | Ask

  /** A prompt waiting for a decision; `detail` stands for the tool and subject of an
      approval and for the questions of an ask. */
  datatype Prompt = Prompt(tab: string, kind: PromptKind, detail: string)

  datatype Notification =
    | PromptNote(tab: string, id: string, kind: PromptKind, detail: string)
    | DoneNote(tab: string, err: string)

  datatype Event =
    | PromptEvent(id: string, kind: PromptKind, detail: string)
    | TurnDone(err: Option<string>)
    | OtherEvent

  predicate Canceled(err: Option<string>) {
    err.Some? && exists i :: 0 <= i <= |err.value| && "context canceled" <= err.value[i..]
  }

  // ---- the state changes of the critical sections ----

  function Toggle(watchers: map<string, Route>, route: Route, enable: bool): map<string, Route> {
    if enable == (route.Key() in watchers) then watchers
    else if enable then watchers[route.Key() := route]
    else watchers - {route.Key()}
  }

  function Register(pending: map<string, Prompt>, id: string, p: Prompt): map<string, Prompt> {
    if id == "" then pending else pending[id := p]
  }

  /** A full queue drops the notification: the caller is never blocked. */
  function Offer(queue: seq<Notification>, n: Notification): seq<Notification> {
    if |queue| < QUEUE_CAP then queue + [n] else queue
  }

  /** The notification an event gives rise to, if anyone is watching. */
  function NoteFor(tab: string, e: Event): Option<Notification> {
    match e
    case PromptEvent(id, kind, detail) => if id == "" then None else Some(PromptNote(tab, id, kind, detail))
    case TurnDone(err) =>
      if Canceled(err) then None else Some(DoneNote(tab, if err.Some? then err.value else ""))
    case OtherEvent => None
  }

  /** Routes are told apart by their keys, as long as neither platform nor chat type holds
      the separator. */
  lemma KeysApart(r: Route, q: Route)
    requires '|' !in r.platform && '|' !in r.chatType && '|' !in q.platform && '|' !in q.chatType
    ensures r.Key() == q.Key() <==> r == q
  {
    KeyParts(r);
    KeyParts(q);
    if r.Key() == q.Key() {
      FirstPart(r.platform, r.chatType + "|" + r.chatID, q.platform, q.chatType + "|" + q.chatID);
      FirstPart(r.chatType, r.chatID, q.chatType, q.chatID);
    }
  }

  lemma KeyParts(r: Route)
    ensures r.Key() == r.platform + "|" + (r.chatType + "|" + r.chatID)
  {
  }

  lemma FirstPart(a: string, b: string, c: string, d: string)
    requires '|' !in a && '|' !in c && a + "|" + b == c + "|" + d
    ensures a == c && b == d
  {
    var s := a + "|" + b;
    FirstBar(a, b);
    FirstBar(c, d);
    assert |a| == |c|;
    assert s[..|a|] == a && s[..|a|] == c && s[|a| + 1..] == b && s[|a| + 1..] == d;
  }

  lemma FirstBar(a: string, b: string)
    requires '|' !in a
    ensures (a + "|" + b)[|a|] == '|' && forall k :: 0 <= k < |a| ==> (a + "|" + b)[k] != '|'
  {
    assert forall k :: 0 <= k < |a| ==> a[k] in a;
  }

  /** A turn counts as canceled if its error mentions it anywhere. */
  lemma CanceledIff(err: Option<string>)
    ensures Canceled(err) <==> err.Some? && exists a, b :: err.value == a + "context canceled" + b
  {
    var words := "context canceled";
    if Canceled(err) {
      var i :| 0 <= i <= |err.value| && words <= err.value[i..];
      assert err.value == err.value[..i] + words + err.value[i..][|words|..];
    }
    if err.Some? {
      forall a, b | err.value == a + words + b ensures Canceled(err) {
        assert err.value[|a|..] == words + b;
      }
    }
  }

  /** The route is listed, and no later one has its key. */
  predicate IsLast(routes: seq<Route>, r: Route) {
    exists i :: 0 <= i < |routes| && routes[i] == r && NotFrom(routes, i + 1, r.Key())
  }

  predicate NotFrom(routes: seq<Route>, from: nat, key: string) {
    forall j :: from <= j < |routes| ==> routes[j].Key() != key
  }

  lemma LastNext(routes: seq<Route>, n: nat, r: Route)
    requires n < |routes|
    requires r == routes[n] || (IsLast(routes[..n], r) && r.Key() != routes[n].Key())
    ensures IsLast(routes[..n + 1], r)
  {
    hide Route.Key;
    if r == routes[n] {
      assert routes[..n + 1][n] == r && NotFrom(routes[..n + 1], n + 1, r.Key());
    } else {
      var i :| 0 <= i < n && routes[..n][i] == r && NotFrom(routes[..n], i + 1, r.Key());
      assert NotFrom(routes[..n + 1], i + 1, r.Key()) by {
        assert forall j :: i + 1 <= j < n ==> routes[..n][j] == routes[..n + 1][j];
      }
      assert routes[..n + 1][i] == r;
    }
  }

  class Hub {
    var watchers: map<string, Route>
    var pending: map<string, Prompt>
    var queue: seq<Notification>

    /** Every watcher is stored under its own key. */
    ghost predicate Valid()
      reads this
    {
      forall k :: k in watchers ==> watchers[k].Key() == k
    }

    /** Of several initial routes with one key the last is kept. */
    constructor (initial: seq<Route>)
      ensures Valid() && pending == map[] && queue == []
      ensures forall k :: k in watchers <==> exists i :: 0 <= i < |initial| && initial[i].Key() == k
      ensures forall k :: k in watchers ==> IsLast(initial, watchers[k])
    {
      pending, queue := map[], [];
      watchers := map[];
      new;
      hide IsLast;
      for n := 0 to |initial|
        invariant pending == map[] && queue == [] && Valid()
        invariant forall k :: k in watchers <==> exists i :: 0 <= i < n && initial[i].Key() == k
        invariant forall k :: k in watchers ==> IsLast(initial[..n], watchers[k])
      {
        ghost var before := watchers;
        watchers := watchers[initial[n].Key() := initial[n]];
        forall k | k in watchers ensures IsLast(initial[..n + 1], watchers[k]) {
          assert k != initial[n].Key() ==> IsLast(initial[..n], before[k]);
          LastNext(initial, n, watchers[k]);
        }
      }
      assert initial[..|initial|] == initial;
    }

    method Observe(tab: string, e: Event)
      modifies this`pending, this`queue
      ensures match e
              case PromptEvent(id, kind, detail) =>
                pending == if id == "" then old(pending) else old(pending)[id := Prompt(tab, kind, detail)]
              case TurnDone(_) =>
                && (forall id :: id in pending <==> id in old(pending) && old(pending)[id].tab != tab)
                && (forall id :: id in pending ==> pending[id] == old(pending)[id])
              case OtherEvent => pending == old(pending)
      ensures |watchers| == 0 || |old(queue)| >= 64 ==> queue == old(queue)
      ensures |watchers| > 0 && |old(queue)| < 64 ==>
                match e
                case PromptEvent(id, kind, detail) =>
                  queue == if id == "" then old(queue) else old(queue) + [PromptNote(tab, id, kind, detail)]
                case TurnDone(None) => queue == old(queue) + [DoneNote(tab, "")]
                case TurnDone(Some(err)) =>
                  queue == if Canceled(Some(err)) then old(queue) else old(queue) + [DoneNote(tab, err)]
                case OtherEvent => queue == old(queue)
      ensures queue == if |watchers| > 0 && NoteFor(tab, e).Some?
                       then Offer(old(queue), NoteFor(tab, e).value) else old(queue)
    {
      match e {
        case PromptEvent(id, kind, detail) =>
          if id != "" {
            pending := pending[id := Prompt(tab, kind, detail)];
          }
          if |watchers| > 0 && id != "" {
            Enqueue(PromptNote(tab, id, kind, detail));
          }
        case TurnDone(err) =>
          ClearTabPending(tab);
          if !Canceled(err) && |watchers| > 0 {
            Enqueue(DoneNote(tab, if err.Some? then err.value else ""));
          }
        case OtherEvent =>
      }
    }

    method ClearTabPending(tab: string)
      modifies this`pending
      ensures forall id :: id in pending <==> id in old(pending) && old(pending)[id].tab != tab
      ensures forall id :: id in pending ==> pending[id] == old(pending)[id]
    {
      var todo := pending.Keys;
      while todo != {}
        invariant todo <= pending.Keys <= old(pending).Keys
        invariant forall id :: id in pending ==> pending[id] == old(pending)[id]
        invariant forall id :: id in old(pending) && id !in todo ==>
                    (id in pending <==> old(pending)[id].tab != tab)
      {
        var id :| id in todo;
        todo := todo - {id};
        if pending[id].tab == tab {
          pending := pending - {id};
        }
      }
    }

    method Enqueue(n: Notification)
      modifies this`queue
      ensures queue == Offer(old(queue), n)
    {
      if |queue| < QUEUE_CAP {
        queue := queue + [n];
      }
    }

    method SetWatch(route: Route, enable: bool) returns (changed: bool)
      requires Valid()
      modifies this`watchers
      ensures Valid() && watchers == Toggle(old(watchers), route, enable)
      ensures route.Key() in watchers <==> enable
      ensures forall k :: k != route.Key() || (enable && k in old(watchers)) ==>
                (k in watchers <==> k in old(watchers)) && (k in watchers ==> watchers[k] == old(watchers)[k])
      ensures enable && route.Key() !in old(watchers) ==> watchers[route.Key()] == route
      ensures changed <==> watchers != old(watchers)
    {
      changed := false;
      if enable {
        if route.Key() !in watchers {
          watchers := watchers[route.Key() := route];
          changed := true;
        }
      } else if route.Key() in watchers {
        watchers := watchers - {route.Key()};
        changed := true;
      }
    }

    /** The list handed to the disk holds each watcher exactly once. */
    method Snapshot() returns (snap: seq<Route>)
      requires Valid()
      ensures |snap| == |watchers|
      ensures forall r :: r in snap <==> r.Key() in watchers && watchers[r.Key()] == r
      ensures forall i, j :: 0 <= i < j < |snap| ==> snap[i] != snap[j]
    {
      snap := [];
      var todo := watchers.Keys;
      while todo != {}
        invariant todo <= watchers.Keys && |snap| + |todo| == |watchers|
        invariant forall r :: r in snap <==> r.Key() in watchers && r.Key() !in todo && watchers[r.Key()] == r
        invariant forall i, j :: 0 <= i < j < |snap| ==> snap[i] != snap[j]
      {
        var k :| k in todo;
        todo := todo - {k};
        snap := snap + [watchers[k]];
      }
    }

    /** The critical section shared by Approve and Answer: whatever its kind, the prompt
        with this id is consumed, and a missing id consumes nothing. */
    method Take(id: string) returns (found: Option<Prompt>)
      modifies this`pending
      ensures found == if id in old(pending) then Some(old(pending)[id]) else None
      ensures pending == old(pending) - {id}
    {
      found := None;
      if id in pending {
        found := Some(pending[id]);
        pending := pending - {id};
      }
    }
  }
}
