/** Controllers that share one plugin host per workspace root (`desktop/shared_host.go`),
    under concurrency: any number of goroutines switch the model of a tab
    (`SetModelForTab`), build a tab's first controller (`buildTabController`) or run a
    scheduled prompt without a tab (`runHeadlessScheduled`). Acquire and release are one
    step each (they hold sharedHostsMu throughout); the compare-and-install section holds
    the application lock `mu` until the replaced controller's reference is dropped. */
module SharedHost {
  import opened GoStrings

  type Tid = nat
  type Tab = string
  type Root = string

  datatype Host = Host(id: nat, refs: nat)
  datatype Ctrl = Ctrl(id: nat, host: nat)

  // ---- the table of shared hosts ----

  function Acquired(hosts: map<Root, Host>, root: Root, newId: nat): map<Root, Host> {
    hosts[root := if root in hosts then Host(hosts[root].id, hosts[root].refs + 1) else Host(newId, 1)]
  }

  predicate DropsLast(hosts: map<Root, Host>, root: Root) { root in hosts && hosts[root].refs <= 1 }

  /** Releasing a root without an entry is a no-op. */
  function Released(hosts: map<Root, Host>, root: Root): map<Root, Host> {
    if root !in hosts then hosts
    else if DropsLast(hosts, root) then hosts - {root}
    else hosts[root := Host(hosts[root].id, hosts[root].refs - 1)]
  }

  class HostTable {
    var hosts: map<Root, Host>
    var nextHost: nat
    var closed: set<nat>

    constructor ()
      ensures hosts == map[] && nextHost == 0 && closed == {}
    {
      hosts, nextHost, closed := map[], 0, {};
    }

    method Acquire(root: Root) returns (host: nat)
      modifies this
      ensures hosts == Acquired(old(hosts), root, old(nextHost)) && closed == old(closed)
      ensures root in hosts && host == hosts[root].id
      ensures nextHost == if root in old(hosts) then old(nextHost) else old(nextHost) + 1
    {
      if root in hosts {
        hosts := hosts[root := Host(hosts[root].id, hosts[root].refs + 1)];
        return hosts[root].id;
      }
      host := nextHost;
      nextHost := nextHost + 1;
      hosts := hosts[root := Host(host, 1)];
    }

    method Release(root: Root)
      modifies this
      ensures hosts == Released(old(hosts), root) && nextHost == old(nextHost)
      ensures closed == if DropsLast(old(hosts), root) then old(closed) + {old(hosts)[root].id} else old(closed)
    {
      if root !in hosts {
        return;
      }
      var entry := hosts[root];
      if entry.refs <= 1 {
        hosts := hosts - {root};
        closed := closed + {entry.id};
      } else {
        hosts := hosts[root := Host(entry.id, entry.refs - 1)];
      }
    }
  }

  function RefsOf(hosts: map<Root, Host>, root: Root): nat { if root in hosts then hosts[root].refs else 0 }

  function Count(b: bool): nat { if b then 1 else 0 }

  ghost predicate SameElsewhere(hosts: map<Root, Host>, hosts': map<Root, Host>, root: Root) {
    forall q :: q != root ==> (q in hosts' <==> q in hosts) && (q in hosts' ==> hosts'[q] == hosts[q])
  }

  // ---- one tab, with others switching in the middle ----

  /** An attempt may be refused before it acquires anything, and its build may fail. */
  datatype Attempt = Refused | Fails | Builds

  datatype SwitchResult = Switched | BuildFailed | Superseded | NotTried

  class TabSwitch {
    const root: Root
    const table: HostTable
    var ctrl: Option<Ctrl>
    var nextCtrl: nat
    var closedCtrls: set<nat>

    constructor (root: Root, table: HostTable)
      requires forall r :: r in table.hosts ==> table.hosts[r].refs > 0
      ensures Valid() && this.root == root && this.table == table && ctrl.None?
    {
      this.root, this.table := root, table;
      ctrl, nextCtrl, closedCtrls := None, 0, {};
    }

    /** The tab's controller is the only open one and uses the live host of the root. */
    ghost predicate Valid()
      reads this, table
    {
      && (forall r :: r in table.hosts ==> table.hosts[r].refs > 0)
      && (forall id: nat :: id in closedCtrls ==> id < nextCtrl)
      && (forall id: nat :: id < nextCtrl && id !in closedCtrls ==> ctrl.Some? && ctrl.value.id == id)
      && (ctrl.Some? ==>
            && ctrl.value.id < nextCtrl && ctrl.value.id !in closedCtrls
            && root in table.hosts && ctrl.value.host == table.hosts[root].id)
    }

    /** Switches the model while the attempts of others on the same tab run to their end
        between the snapshot and the installation. Whatever happens, the root's count ends
        with one reference for the tab's controller and none for this attempt, other roots
        are untouched, and a host in use is not closed. */
    method SetModelForTab(attempt: Attempt, racers: seq<Attempt>) returns (r: SwitchResult)
      requires Valid()
      modifies this`ctrl, this`nextCtrl, this`closedCtrls, table
      ensures Valid()
      ensures r == if attempt.Refused? then NotTried else if attempt.Fails? then BuildFailed
                   else if Builds in racers then Superseded else Switched
      ensures ctrl.Some? <==> old(ctrl).Some? || (!attempt.Refused? && (Builds in racers || attempt.Builds?))
      ensures ctrl != old(ctrl) <==> !attempt.Refused? && (Builds in racers || attempt.Builds?)
      ensures ctrl != old(ctrl) ==> ctrl.value.id >= old(nextCtrl)
      ensures RefsOf(table.hosts, root) == old(RefsOf(table.hosts, root)) + Count(ctrl.Some? && old(ctrl).None?)
      ensures SameElsewhere(old(table.hosts), table.hosts, root)
      ensures root in old(table.hosts) ==>
                && table.closed == old(table.closed)
                && root in table.hosts && table.hosts[root].id == old(table.hosts)[root].id
      ensures nextCtrl >= old(nextCtrl)
      decreases |racers|, 1
    {
      if attempt.Refused? {
        return NotTried;
      }
      var oldCtrl := ctrl;
      var host := table.Acquire(root);
      OthersSwitch(racers);
      r := Conclude(oldCtrl, host, attempt.Builds?);
    }

    /** Switches by others while the attempt holds its own reference. */
    method OthersSwitch(racers: seq<Attempt>)
      requires Valid() && root in table.hosts
      modifies this`ctrl, this`nextCtrl, this`closedCtrls, table
      ensures Valid() && root in table.hosts && table.hosts[root].id == old(table.hosts)[root].id
      ensures if Builds in racers then ctrl.Some? && ctrl.value.id >= old(nextCtrl) else ctrl == old(ctrl)
      ensures RefsOf(table.hosts, root) == old(RefsOf(table.hosts, root)) + Count(ctrl.Some? && old(ctrl).None?)
      ensures SameElsewhere(old(table.hosts), table.hosts, root) && table.closed == old(table.closed)
      ensures nextCtrl >= old(nextCtrl)
      decreases |racers|, 0
    {
      for k := 0 to |racers|
        invariant Valid() && root in table.hosts && table.hosts[root].id == old(table.hosts)[root].id
        invariant if Builds in racers[..k] then ctrl.Some? && ctrl.value.id >= old(nextCtrl) else ctrl == old(ctrl)
        invariant RefsOf(table.hosts, root) == old(RefsOf(table.hosts, root)) + Count(ctrl.Some? && old(ctrl).None?)
        invariant SameElsewhere(old(table.hosts), table.hosts, root) && table.closed == old(table.closed)
        invariant nextCtrl >= old(nextCtrl)
      {
        assert racers[..k + 1] == racers[..k] + [racers[k]];
        var r := SetModelForTab(racers[k], []);
      }
      assert racers[..|racers|] == racers;
    }

    /** Builds, compares and installs, or gives the reference back. */
    method Conclude(oldCtrl: Option<Ctrl>, host: nat, builds: bool) returns (r: SwitchResult)
      requires Valid() && root in table.hosts && table.hosts[root].id == host
      requires RefsOf(table.hosts, root) >= 1 + Count(ctrl.Some?)
      modifies this`ctrl, this`nextCtrl, this`closedCtrls, table
      ensures Valid()
      ensures r == if !builds then BuildFailed else if old(ctrl) == oldCtrl then Switched else Superseded
      ensures if r.Switched? then ctrl == Some(Ctrl(old(nextCtrl), host)) else ctrl == old(ctrl)
      ensures r.Switched? && old(ctrl).Some? ==> old(ctrl).value.id in closedCtrls
      ensures nextCtrl == old(nextCtrl) + Count(builds)
      ensures RefsOf(table.hosts, root) == old(RefsOf(table.hosts, root)) - Count(!(r.Switched? && oldCtrl.None?))
      ensures SameElsewhere(old(table.hosts), table.hosts, root)
      ensures RefsOf(table.hosts, root) > 0 ==>
                table.closed == old(table.closed) && root in table.hosts && table.hosts[root].id == host
    {
      if !builds {
        table.Release(root);
        return BuildFailed;
      }
      var newCtrl := Ctrl(nextCtrl, host);
      nextCtrl := nextCtrl + 1;
      if ctrl == oldCtrl {
        ctrl := Some(newCtrl);
        if oldCtrl.Some? {
          closedCtrls := closedCtrls + {oldCtrl.value.id};
          table.Release(root);
        }
        return Switched;
      }
      closedCtrls := closedCtrls + {newCtrl.id};
      table.Release(root);
      return Superseded;
    }
  }

  // ---- goroutines ----

  /** What is being built, and the controller the tab must still have at installation. */
  datatype Job = Rebuild(tab: Tab, expected: Option<Ctrl>) | Headless(root: Root)

  datatype Call = SetModel(tab: Tab) | BuildTab(tab: Tab) | RunHeadless(root: Root)

  datatype Pc =
    | Idle
    | WantSnapshot(tab: Tab)
    | WantAcquire(job: Job)
    | Building(job: Job, host: nat)
    | WantInstall(tab: Tab, expected: Option<Ctrl>, ctrl: Ctrl)
    | Running(root: Root, ctrl: Ctrl)
    | Closing(root: Root, ctrl: Ctrl, underMu: bool)
    | Releasing(root: Root, host: nat, underMu: bool)

  datatype State = State(
    roots: map<Tab, Root>,                       // each tab's workspace root
    mu: Option<Tid>, pcs: map<Tid, Pc>,
    tabs: map<Tab, Ctrl>,                        // installed controllers
    hosts: map<Root, Host>, nextHost: nat, closedHosts: set<nat>,
    nextCtrl: nat, closedCtrls: set<nat>)
  {
    function Pc(t: Tid): Pc { if t in pcs then pcs[t] else Idle }
    function RootOf(tab: Tab): Root { if tab in roots then roots[tab] else "" }
    function Installed(tab: Tab): Option<Ctrl> { if tab in tabs then Some(tabs[tab]) else None }
    function JobRoot(job: Job): Root { if job.Rebuild? then RootOf(job.tab) else job.root }
  }

  /** `Fail` covers the early returns of SetModelForTab and a failed build. */
  datatype Action = Begin(t: Tid, call: Call) | Go(t: Tid) | Fail(t: Tid)

  predicate HoldsMu(pc: Pc) { (pc.Closing? || pc.Releasing?) && pc.underMu }

  predicate Matches(s: State, pc: Pc)
    requires pc.WantInstall?
  {
    s.Installed(pc.tab) == pc.expected
  }

  function Start(call: Call): Pc {
    match call
    case SetModel(tab) => WantSnapshot(tab)
    case BuildTab(tab) => WantAcquire(Rebuild(tab, None))
    case RunHeadless(root) => WantAcquire(Headless(root))
  }

  function AcquiredId(s: State, root: Root): nat {
    if root in s.hosts then s.hosts[root].id else s.nextHost
  }

  function Goes(s: State, pc: Pc): Pc {
    match pc
    case Idle => Idle
    case WantSnapshot(tab) => WantAcquire(Rebuild(tab, s.Installed(tab)))
    case WantAcquire(job) => Building(job, AcquiredId(s, s.JobRoot(job)))
    case Building(job, host) =>
      var ctrl := Ctrl(s.nextCtrl, host);
      if job.Rebuild? then WantInstall(job.tab, job.expected, ctrl) else Running(job.root, ctrl)
    case WantInstall(tab, expected, ctrl) =>
      if !Matches(s, pc) then Closing(s.RootOf(tab), ctrl, false)
      else if expected.Some? then Closing(s.RootOf(tab), expected.value, true)
      else Idle
    case Running(root, ctrl) => Closing(root, ctrl, false)
    case Closing(root, ctrl, underMu) => Releasing(root, ctrl.host, underMu)
    case Releasing(_, _, _) => Idle
  }

  function PcAfter(s: State, a: Action): Pc {
    match a
    case Begin(_, call) => Start(call)
    case Go(t) => Goes(s, s.Pc(t))
    case Fail(t) =>
      var pc := s.Pc(t);
      if pc.Building? then Releasing(s.JobRoot(pc.job), pc.host, false) else Idle
  }

  /** The read lock of the snapshot and the write lock of the installation wait for mu. */
  predicate Enabled(s: State, a: Action) {
    var pc := s.Pc(a.t);
    match a
    case Begin(_, _) => pc.Idle?
    case Go(_) => !pc.Idle? && (pc.WantSnapshot? || pc.WantInstall? ==> s.mu.None?)
    case Fail(_) => (pc.WantSnapshot? && s.mu.None?) || pc.Building?
  }

  predicate Acquires(pc: Pc, a: Action) { a.Go? && pc.WantAcquire? }
  predicate Releases(pc: Pc, a: Action) { a.Go? && pc.Releasing? }
  predicate Builds(pc: Pc, a: Action) { a.Go? && pc.Building? }
  predicate Installs(s: State, pc: Pc, a: Action) { a.Go? && pc.WantInstall? && Matches(s, pc) }
  predicate Closes(pc: Pc, a: Action) { a.Go? && pc.Closing? }

  function HostsAfter(s: State, a: Action): map<Root, Host> {
    var pc := s.Pc(a.t);
    if Acquires(pc, a) then Acquired(s.hosts, s.JobRoot(pc.job), s.nextHost)
    else if Releases(pc, a) then Released(s.hosts, pc.root)
    else s.hosts
  }

  function Next(s: State, a: Action): State {
    var pc := s.Pc(a.t);
    var pc' := PcAfter(s, a);
    State(s.roots,
          if HoldsMu(pc') then Some(a.t) else if s.mu == Some(a.t) then None else s.mu,
          s.pcs[a.t := pc'],
          if Installs(s, pc, a) then s.tabs[pc.tab := pc.ctrl] else s.tabs,
          HostsAfter(s, a),
          if Acquires(pc, a) && s.JobRoot(pc.job) !in s.hosts then s.nextHost + 1 else s.nextHost,
          if Releases(pc, a) && DropsLast(s.hosts, pc.root) then s.closedHosts + {s.hosts[pc.root].id}
          else s.closedHosts,
          if Builds(pc, a) then s.nextCtrl + 1 else s.nextCtrl,
          if Closes(pc, a) then s.closedCtrls + {pc.ctrl.id} else s.closedCtrls)
  }

  ghost predicate Step(s: State, a: Action, s': State) { Enabled(s, a) && s' == Next(s, a) }

  ghost predicate Init(s: State) {
    && s.mu.None? && s.pcs == map[] && s.tabs == map[]
    && s.hosts == map[] && s.nextHost == 0 && s.closedHosts == {} && s.nextCtrl == 0 && s.closedCtrls == {}
  }

  ghost predicate Execution(run: seq<State>, acts: seq<Action>) {
    && |run| == |acts| + 1 && Init(run[0])
    && forall i :: 0 <= i < |acts| ==> Step(run[i], acts[i], run[i + 1])
  }

  // ---- who holds a reference ----

  /** The root whose host this goroutine has acquired and not yet released or handed over. */
  function HeldRoot(s: State, pc: Pc): Option<Root> {
    match pc
    case Building(job, _) => Some(s.JobRoot(job))
    case WantInstall(tab, _, _) => Some(s.RootOf(tab))
    case Running(root, _) => Some(root)
    case Closing(root, _, _) => Some(root)
    case Releasing(root, _, _) => Some(root)
    case _ => None
  }

  function HeldHost(pc: Pc): nat {
    match pc
    case Building(_, host) => host
    case WantInstall(_, _, ctrl) => ctrl.host
    case Running(_, ctrl) => ctrl.host
    case Closing(_, ctrl, _) => ctrl.host
    case Releasing(_, host, _) => host
    case _ => 0
  }

  function TabsOn(s: State, root: Root): set<Tab> {
    set tab | tab in s.tabs && s.RootOf(tab) == root
  }

  function ThreadsOn(s: State, root: Root): set<Tid> {
    set t | t in s.pcs && HeldRoot(s, s.pcs[t]) == Some(root)
  }

  /** Installed controllers of the root plus goroutines in flight on it. */
  function Holders(s: State, root: Root): nat { |TabsOn(s, root)| + |ThreadsOn(s, root)| }

  function Refs(s: State, root: Root): nat { RefsOf(s.hosts, root) }

  lemma ThreadsOnUpdate(s: State, a: Action, s': State, root: Root)
    requires Step(s, a, s')
    ensures |ThreadsOn(s', root)| + Count(HeldRoot(s, s.Pc(a.t)) == Some(root))
            == |ThreadsOn(s, root)| + Count(HeldRoot(s, PcAfter(s, a)) == Some(root))
  {
    var pc' := PcAfter(s, a);
    var rest := ThreadsOn(s, root) - {a.t};
    assert forall pc :: HeldRoot(s', pc) == HeldRoot(s, pc);
    assert ThreadsOn(s', root) == if HeldRoot(s, pc') == Some(root) then rest + {a.t} else rest;
    assert ThreadsOn(s, root) == if HeldRoot(s, s.Pc(a.t)) == Some(root) then rest + {a.t} else rest;
  }

  lemma TabsOnInstall(s: State, tab: Tab, ctrl: Ctrl, s': State, root: Root)
    requires s'.roots == s.roots && s'.tabs == s.tabs[tab := ctrl]
    ensures |TabsOn(s', root)| == |TabsOn(s, root)| + Count(tab !in s.tabs && s.RootOf(tab) == root)
  {
    var on := TabsOn(s, root);
    assert forall other :: s'.RootOf(other) == s.RootOf(other);
    if s.RootOf(tab) == root {
      assert TabsOn(s', root) == on + {tab};
      assert tab in on <==> tab in s.tabs;
    } else {
      assert TabsOn(s', root) == on;
    }
  }

  lemma TabsOnUpdate(s: State, a: Action, s': State, root: Root)
    requires Step(s, a, s')
    ensures var pc := s.Pc(a.t);
            |TabsOn(s', root)| ==
              |TabsOn(s, root)| + Count(Installs(s, pc, a) && pc.expected.None? && s.RootOf(pc.tab) == root)
  {
    var pc := s.Pc(a.t);
    if Installs(s, pc, a) {
      TabsOnInstall(s, pc.tab, pc.ctrl, s', root);
    } else {
      assert s'.tabs == s.tabs && s'.roots == s.roots;
      assert TabsOn(s', root) == TabsOn(s, root);
    }
  }

  lemma HoldersStep(s: State, a: Action, s': State, root: Root)
    requires Step(s, a, s')
    ensures var pc := s.Pc(a.t);
            Holders(s', root) == Holders(s, root)
              + Count(Acquires(pc, a) && s.JobRoot(pc.job) == root) - Count(Releases(pc, a) && pc.root == root)
  {
    ThreadsOnUpdate(s, a, s', root);
    TabsOnUpdate(s, a, s', root);
  }

  /** The count of a live host is the number of its holders, and never zero. */
  ghost predicate Counted(s: State, root: Root) {
    Refs(s, root) == Holders(s, root) && (root in s.hosts ==> s.hosts[root].refs > 0)
  }

  lemma CountedStep(s: State, a: Action, s': State, root: Root)
    requires Step(s, a, s') && Counted(s, root)
    ensures Counted(s', root)
  {
    HoldersStep(s, a, s', root);
    var pc := s.Pc(a.t);
    if Releases(pc, a) && pc.root == root {
      assert a.t in ThreadsOn(s, root);
    }
  }

  // ---- what the holders hold is open ----

  ghost predicate OnLiveHost(s: State, root: Root, host: nat) {
    root in s.hosts && s.hosts[root].id == host
  }

  ghost predicate PcOnLiveHost(s: State, pc: Pc) {
    HeldRoot(s, pc).Some? ==> OnLiveHost(s, HeldRoot(s, pc).value, HeldHost(pc))
  }

  ghost predicate HoldersOpen(s: State) {
    && (forall tab :: tab in s.tabs ==> OnLiveHost(s, s.RootOf(tab), s.tabs[tab].host))
    && (forall t: Tid :: PcOnLiveHost(s, s.Pc(t)))
  }

  /** Live hosts are distinct and not closed. */
  ghost predicate HostsDistinct(s: State) {
    && (forall r :: r in s.hosts ==> s.hosts[r].id < s.nextHost && s.hosts[r].id !in s.closedHosts)
    && (forall r, q :: r in s.hosts && q in s.hosts && s.hosts[r].id == s.hosts[q].id ==> r == q)
    && (forall h: nat :: h in s.closedHosts ==> h < s.nextHost)
  }

  lemma LastHolder(s: State, t: Tid, root: Root)
    requires Counted(s, root) && Refs(s, root) <= 1 && HeldRoot(s, s.Pc(t)) == Some(root)
    ensures forall tab :: tab in s.tabs ==> s.RootOf(tab) != root
    ensures forall u: Tid :: u != t ==> HeldRoot(s, s.Pc(u)) != Some(root)
  {
    assert t in ThreadsOn(s, root);
    assert |ThreadsOn(s, root) - {t}| == |ThreadsOn(s, root)| - 1;
    forall tab | tab in s.tabs ensures s.RootOf(tab) != root {
      assert tab !in TabsOn(s, root);
    }
    forall u: Tid | u != t ensures HeldRoot(s, s.Pc(u)) != Some(root) {
      assert u !in ThreadsOn(s, root) - {t};
    }
  }

  lemma HoldersOpenStep(s: State, a: Action, s': State)
    requires Step(s, a, s') && HoldersOpen(s) && forall root :: Counted(s, root)
    ensures HoldersOpen(s')
  {
    hide Counted, Holders, TabsOn, ThreadsOn;
    var pc := s.Pc(a.t);
    assert PcOnLiveHost(s, pc);
    if Releases(pc, a) && Refs(s, pc.root) <= 1 {
      LastHolder(s, a.t, pc.root);
    }
    forall u: Tid ensures PcOnLiveHost(s', s'.Pc(u)) {
      assert PcOnLiveHost(s, s.Pc(u));
      assert u != a.t ==> s'.Pc(u) == s.Pc(u);
      assert HeldRoot(s', s'.Pc(u)) == HeldRoot(s, s'.Pc(u));
    }
  }

  lemma HostsDistinctStep(s: State, a: Action, s': State)
    requires Step(s, a, s') && HostsDistinct(s)
    ensures HostsDistinct(s')
  {
    var pc := s.Pc(a.t);
    if Acquires(pc, a) {
      assert forall r :: r in s'.hosts && r != s.JobRoot(pc.job) ==> r in s.hosts && s'.hosts[r] == s.hosts[r];
    } else if Releases(pc, a) {
      assert forall r :: r in s'.hosts ==> r in s.hosts && s'.hosts[r].id == s.hosts[r].id;
    }
  }

  /** No host is forgotten while open: it is closed, or some root still counts it. */
  ghost predicate NoHostLeaks(s: State) {
    forall h: nat :: h < s.nextHost ==> h in s.closedHosts || exists r :: OnLiveHost(s, r, h)
  }

  lemma NoHostLeaksStep(s: State, a: Action, s': State)
    requires Step(s, a, s') && NoHostLeaks(s)
    ensures NoHostLeaks(s')
  {
    var pc := s.Pc(a.t);
    forall h: nat | h < s'.nextHost ensures h in s'.closedHosts || exists r :: OnLiveHost(s', r, h) {
      if h >= s.nextHost {
        assert OnLiveHost(s', s.JobRoot(pc.job), h);
      } else if h !in s.closedHosts {
        var r :| OnLiveHost(s, r, h);
        assert h in s'.closedHosts || OnLiveHost(s', r, h);
      }
    }
  }

  // ---- controllers ----

  function HeldCtrl(pc: Pc): Option<nat> {
    match pc
    case WantInstall(_, _, ctrl) => Some(ctrl.id)
    case Running(_, ctrl) => Some(ctrl.id)
    case Closing(_, ctrl, _) => Some(ctrl.id)
    case _ => None
  }

  ghost predicate OpenCtrl(s: State, id: nat) { id < s.nextCtrl && id !in s.closedCtrls }

  ghost predicate HeldOpen(s: State, t: Tid) {
    HeldCtrl(s.Pc(t)).Some? ==> OpenCtrl(s, HeldCtrl(s.Pc(t)).value)
  }

  ghost predicate HeldApart(s: State, t: Tid, u: Tid) {
    t != u && HeldCtrl(s.Pc(t)).Some? ==> HeldCtrl(s.Pc(t)) != HeldCtrl(s.Pc(u))
  }

  ghost predicate NotInTab(s: State, tab: Tab, t: Tid) {
    tab in s.tabs ==> HeldCtrl(s.Pc(t)) != Some(s.tabs[tab].id)
  }

  /** What a tab shows or a goroutine holds is an open controller, and it is nobody
      else's. */
  ghost predicate CtrlsOwned(s: State) {
    && (forall id: nat :: id in s.closedCtrls ==> id < s.nextCtrl)
    && (forall tab :: tab in s.tabs ==> OpenCtrl(s, s.tabs[tab].id))
    && (forall tab, other :: tab in s.tabs && other in s.tabs && s.tabs[tab].id == s.tabs[other].id ==> tab == other)
    && (forall t: Tid :: HeldOpen(s, t))
    && (forall t: Tid, u: Tid :: HeldApart(s, t, u))
    && (forall tab, t: Tid :: NotInTab(s, tab, t))
  }

  ghost predicate NoCtrlLeaks(s: State) {
    forall id: nat :: OpenCtrl(s, id) ==>
      (exists tab :: tab in s.tabs && s.tabs[tab].id == id) || (exists t: Tid :: HeldCtrl(s.Pc(t)) == Some(id))
  }

  lemma CtrlsOwnedStep(s: State, a: Action, s': State)
    requires Step(s, a, s') && CtrlsOwned(s)
    ensures CtrlsOwned(s')
  {
    var pc := s.Pc(a.t);
    assert forall u: Tid :: u != a.t ==> s'.Pc(u) == s.Pc(u);
    assert HeldOpen(s, a.t);
    forall t: Tid ensures HeldOpen(s', t) {
      assert HeldOpen(s, t) && HeldApart(s, a.t, t);
    }
    forall t: Tid, u: Tid ensures HeldApart(s', t, u) {
      assert HeldApart(s, t, u) && HeldOpen(s, t) && HeldOpen(s, u);
      if Installs(s, pc, a) {
        assert NotInTab(s, pc.tab, t) && NotInTab(s, pc.tab, u);
      }
    }
    forall tab, t: Tid ensures NotInTab(s', tab, t) {
      assert NotInTab(s, tab, t) && HeldApart(s, a.t, t) && NotInTab(s, tab, a.t);
    }
    forall tab | tab in s'.tabs ensures OpenCtrl(s', s'.tabs[tab].id) {
      assert NotInTab(s, tab, a.t);
    }
    forall tab, other | tab in s'.tabs && other in s'.tabs && s'.tabs[tab].id == s'.tabs[other].id
      ensures tab == other
    {
      assert NotInTab(s, tab, a.t) && NotInTab(s, other, a.t);
    }
  }

  lemma NoCtrlLeaksStep(s: State, a: Action, s': State)
    requires Step(s, a, s') && CtrlsOwned(s) && NoCtrlLeaks(s)
    ensures NoCtrlLeaks(s')
  {
    var pc := s.Pc(a.t);
    assert s'.Pc(a.t) == PcAfter(s, a);
    forall id: nat | OpenCtrl(s', id)
      ensures (exists tab :: tab in s'.tabs && s'.tabs[tab].id == id) ||
              (exists t: Tid :: HeldCtrl(s'.Pc(t)) == Some(id))
    {
      if Builds(pc, a) && id == s.nextCtrl {
        assert HeldCtrl(s'.Pc(a.t)) == Some(id);
      } else if t: Tid :| HeldCtrl(s.Pc(t)) == Some(id) {
        if t != a.t {
          assert HeldCtrl(s'.Pc(t)) == Some(id);
        } else if Installs(s, pc, a) {
          assert s'.tabs[pc.tab].id == id;
        } else {
          assert HeldCtrl(s'.Pc(t)) == Some(id);
        }
      } else {
        assert OpenCtrl(s, id);
        var tab :| tab in s.tabs && s.tabs[tab].id == id;
        if Installs(s, pc, a) && pc.tab == tab {
          assert HeldCtrl(s'.Pc(a.t)) == Some(id);
        } else {
          assert s'.tabs[tab].id == id;
        }
      }
    }
  }

  // ---- all interleavings ----

  ghost predicate Inv(s: State) {
    && (forall root :: Counted(s, root))
    && HoldersOpen(s) && HostsDistinct(s) && NoHostLeaks(s) && CtrlsOwned(s) && NoCtrlLeaks(s)
  }

  lemma {:induction false} InvHolds(run: seq<State>, acts: seq<Action>, i: nat)
    requires Execution(run, acts) && i < |run|
    ensures Inv(run[i])
  {
    if i > 0 {
      var s, a, s' := run[i - 1], acts[i - 1], run[i];
      InvHolds(run, acts, i - 1);
      assert Step(s, a, s');
      forall root ensures Counted(s', root) { CountedStep(s, a, s', root); }
      HoldersOpenStep(s, a, s');
      HostsDistinctStep(s, a, s');
      NoHostLeaksStep(s, a, s');
      CtrlsOwnedStep(s, a, s');
      NoCtrlLeaksStep(s, a, s');
    } else {
      forall root ensures Counted(run[0], root) {
        assert TabsOn(run[0], root) == {} && ThreadsOn(run[0], root) == {};
      }
    }
  }

  /** In every interleaving, on success, build failure and lost race alike, the reference
      count of a root is the number of its installed controllers and in-flight holders. */
  lemma RefsAreHolders(run: seq<State>, acts: seq<Action>, i: nat, root: Root)
    requires Execution(run, acts) && i < |run|
    ensures Refs(run[i], root) == |TabsOn(run[i], root)| + |ThreadsOn(run[i], root)|
  {
    InvHolds(run, acts, i);
    assert Counted(run[i], root);
  }

  /** A host is closed only when nobody can be using it: neither the controller of a tab
      nor a goroutine that acquired it ever sees its host closed. */
  lemma HostOpenWhileUsed(run: seq<State>, acts: seq<Action>, i: nat)
    requires Execution(run, acts) && i < |run|
    ensures forall tab :: tab in run[i].tabs ==> run[i].tabs[tab].host !in run[i].closedHosts
    ensures forall t: Tid :: HeldRoot(run[i], run[i].Pc(t)).Some? ==> HeldHost(run[i].Pc(t)) !in run[i].closedHosts
  {
    InvHolds(run, acts, i);
    var s := run[i];
    forall t: Tid | HeldRoot(s, s.Pc(t)).Some? ensures HeldHost(s.Pc(t)) !in s.closedHosts {
      assert PcOnLiveHost(s, s.Pc(t));
    }
  }

  /** When all goroutines are done, what is still open is exactly what the tabs use: one
      open controller per tab and one open host per root that has a tab. */
  lemma NothingLeaksAtRest(run: seq<State>, acts: seq<Action>, i: nat)
    requires Execution(run, acts) && i < |run|
    requires forall t: Tid :: run[i].Pc(t).Idle?
    ensures var s := run[i];
            && (forall id: nat :: OpenCtrl(s, id) <==> exists tab :: tab in s.tabs && s.tabs[tab].id == id)
            && (forall root :: root in s.hosts <==> exists tab :: tab in s.tabs && s.RootOf(tab) == root)
            && (forall h: nat :: h < s.nextHost && h !in s.closedHosts ==> exists root :: OnLiveHost(s, root, h))
  {
    InvHolds(run, acts, i);
    var s := run[i];
    forall root ensures root in s.hosts <==> exists tab :: tab in s.tabs && s.RootOf(tab) == root {
      assert Counted(s, root);
      assert ThreadsOn(s, root) == {} by {
        forall t: Tid ensures t !in ThreadsOn(s, root) { assert s.Pc(t).Idle?; }
      }
      if root in s.hosts {
        var tab :| tab in TabsOn(s, root);
        assert s.RootOf(tab) == root;
      }
      if tab :| tab in s.tabs && s.RootOf(tab) == root {
        assert tab in TabsOn(s, root);
      }
    }
    forall id: nat ensures OpenCtrl(s, id) <==> exists tab :: tab in s.tabs && s.tabs[tab].id == id {
      assert forall t: Tid :: s.Pc(t).Idle?;
    }
  }

  // ---- which call installs what ----

  /** The call that a goroutine began last in the first `i` actions. */
  function CallOf(acts: seq<Action>, i: nat, t: Tid): Option<Call> {
    if i == 0 || i > |acts| then None
    else if acts[i - 1].Begin? && acts[i - 1].t == t then Some(acts[i - 1].call)
    else CallOf(acts, i - 1, t)
  }

  /** Before step `i` the goroutine took its snapshot of the tab, and saw `c`. */
  ghost predicate Saw(run: seq<State>, acts: seq<Action>, i: nat, t: Tid, tab: Tab, c: Option<Ctrl>) {
    exists j :: 0 <= j < i && j < |acts| && j < |run| && acts[j] == Go(t) && run[j].Pc(t) == WantSnapshot(tab)
                && c == (if tab in run[j].tabs then Some(run[j].tabs[tab]) else None)
  }

  /** The controller that the goroutine expects is the one it saw, and none for a first
      build. */
  ghost predicate Expects(run: seq<State>, acts: seq<Action>, i: nat, t: Tid, tab: Tab, c: Option<Ctrl>) {
    (CallOf(acts, i, t) == Some(BuildTab(tab)) && c == None) ||
    (CallOf(acts, i, t) == Some(SetModel(tab)) && Saw(run, acts, i, t, tab, c))
  }

  ghost predicate JobServes(run: seq<State>, acts: seq<Action>, i: nat, t: Tid, job: Job) {
    match job
    case Rebuild(tab, expected) => Expects(run, acts, i, t, tab, expected)
    case Headless(root) => CallOf(acts, i, t) == Some(RunHeadless(root))
  }

  ghost predicate Serves(run: seq<State>, acts: seq<Action>, i: nat, t: Tid, pc: Pc) {
    match pc
    case WantSnapshot(tab) => CallOf(acts, i, t) == Some(SetModel(tab))
    case WantAcquire(job) => JobServes(run, acts, i, t, job)
    case Building(job, _) => JobServes(run, acts, i, t, job)
    case WantInstall(tab, expected, _) => Expects(run, acts, i, t, tab, expected)
    case Running(root, _) => CallOf(acts, i, t) == Some(RunHeadless(root))
    case _ => true
  }

  lemma SawNext(run: seq<State>, acts: seq<Action>, i: nat, t: Tid)
    ensures forall tab, c :: Saw(run, acts, i, t, tab, c) ==> Saw(run, acts, i + 1, t, tab, c)
    ensures i < |acts| < |run| && acts[i] == Go(t) && run[i].Pc(t).WantSnapshot? ==>
              Saw(run, acts, i + 1, t, run[i].Pc(t).tab, run[i].Installed(run[i].Pc(t).tab))
  {
  }

  lemma {:induction false} ServesHolds(run: seq<State>, acts: seq<Action>, i: nat, t: Tid)
    requires Execution(run, acts) && i < |run|
    ensures Serves(run, acts, i, t, run[i].Pc(t))
  {
    if i > 0 {
      ServesHolds(run, acts, i - 1, t);
      var s, a := run[i - 1], acts[i - 1];
      assert Step(s, a, run[i]);
      hide Saw, HostsAfter, AcquiredId, Execution;
      SawNext(run, acts, i - 1, t);
    }
  }

  /** A goroutine that comes to install a controller does so if and only if its tab still has
      the controller that the goroutine saw when it began, and for a first build none. */
  lemma InstalledIff(run: seq<State>, acts: seq<Action>, i: nat)
    requires Execution(run, acts) && i < |acts| && acts[i].Go? && run[i].Pc(acts[i].t).WantInstall?
    ensures var pc := run[i].Pc(acts[i].t); var tabs, tabs' := run[i].tabs, run[i + 1].tabs;
            && Expects(run, acts, i, acts[i].t, pc.tab, pc.expected)
            && tabs' == if (match pc.expected
                            case None => pc.tab !in tabs
                            case Some(c) => pc.tab in tabs && tabs[pc.tab] == c)
                        then tabs[pc.tab := pc.ctrl] else tabs
  {
    ServesHolds(run, acts, i, acts[i].t);
    assert Step(run[i], acts[i], run[i + 1]);
    hide Expects, HostsAfter;
  }

  /** Nothing else changes what a tab has. */
  lemma OnlyInstallsChange(run: seq<State>, acts: seq<Action>, i: nat)
    requires Execution(run, acts) && i < |acts|
    requires !(acts[i].Go? && run[i].Pc(acts[i].t).WantInstall?)
    ensures run[i + 1].tabs == run[i].tabs
  {
    assert Step(run[i], acts[i], run[i + 1]);
  }

  lemma {:induction false} RootsStay(run: seq<State>, acts: seq<Action>, i: nat)
    requires Execution(run, acts) && i < |run|
    ensures run[i].roots == run[0].roots
  {
    if i > 0 {
      RootsStay(run, acts, i - 1);
      assert Step(run[i - 1], acts[i - 1], run[i]);
    }
  }

  /** A tab's controller works on the live host of the tab's own root. */
  lemma TabUsesItsRoot(run: seq<State>, acts: seq<Action>, i: nat, tab: Tab)
    requires Execution(run, acts) && i < |run| && tab in run[i].tabs && tab in run[0].roots
    ensures var root := run[0].roots[tab]; var hosts := run[i].hosts;
            root in hosts && hosts[root].id == run[i].tabs[tab].host
  {
    InvHolds(run, acts, i);
    RootsStay(run, acts, i);
    assert OnLiveHost(run[i], run[i].RootOf(tab), run[i].tabs[tab].host);
  }
}
