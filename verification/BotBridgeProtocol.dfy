/** The hub under concurrency: any number of goroutines call SetWatch, Observe, Approve
    and Answer while the worker drains the queue. A step is one access inside a critical
    section, one lock operation, or one call to the outside. `mu` guards the two maps,
    `persistMu` the sequence "snapshot, then write to disk". */
module BotBridgeProtocol {
  import opened GoStrings
  import opened BotBridge

  type Watchers = map<string, Route>
  type Tid = nat

  datatype Call =
    | SetWatch(route: Route, enable: bool)
    | Observe(tab: string, event: Event)
    | Decide(id: string, decision: string)   // Approve or Answer
    | Deliver                                // one round of the worker

  /** Where a goroutine is. `version` and `serial` are bookkeeping for the proofs: the
      number of changes a snapshot has seen, and which registration a prompt is. */
  datatype Pc =
    | Idle
    | WantToggle(route: Route, enable: bool)
    | Toggling(route: Route, enable: bool)                    // holds mu
    | ToggleRead(route: Route, enable: bool, present: bool)   // holds mu
    | WantPersist
    | PersistWantsMu                                          // holds persistMu
    | Snapshotting                                            // holds persistMu and mu
    | Writing(snap: Watchers, version: nat)                   // holds persistMu
    | Persisted                                               // holds persistMu
    | WantObserve(tab: string, event: Event)
    | Recording(tab: string, event: Event)                    // holds mu
    | CheckWatchers(tab: string, event: Event)                // holds mu
    | WantCheck(tab: string, event: Event)
    | Enqueuing(note: Notification)
    | WantTake(id: string, decision: string)
    | Taking(id: string, decision: string)                    // holds mu
    | TakeRead(id: string, decision: string, found: Option<Prompt>, serial: nat)   // holds mu
    | Forwarding(id: string, decision: string, prompt: Prompt, serial: nat)
    | Delivering(note: Notification)
    | ReadRoutes(note: Notification)                          // holds mu

  predicate HoldsMu(pc: Pc) {
    pc.Toggling? || pc.ToggleRead? || pc.Snapshotting? || pc.Recording? || pc.CheckWatchers? ||
    pc.Taking? || pc.TakeRead? || pc.ReadRoutes?
  }

  predicate HoldsPersistMu(pc: Pc) {
    pc.PersistWantsMu? || pc.Snapshotting? || pc.Writing? || pc.Persisted?
  }

  datatype Registration = Registration(id: string, prompt: Prompt)

  /** How a registration left the pending map. */
  datatype Exit =
    | Overwritten(serial: nat, id: string)
    | Cleared(serial: nat, id: string)
    | Forwarded(serial: nat, id: string, tab: string, decision: string)

  /** The watcher set, its copy on disk, and their history: every watcher set so far, the
      version on disk, the version of the last write attempt and whether that succeeded. */
  datatype WatchState = WatchState(
    watchers: Watchers, disk: Watchers,
    versions: seq<Watchers>, diskVersion: nat, attempted: nat, lastWriteOk: bool)

  /** The pending map and its history: all registrations, the registration behind each
      pending id, and all exits. */
  datatype PromptState = PromptState(
    pending: map<string, Prompt>,
    regs: seq<Registration>, serials: map<string, nat>, exits: seq<Exit>)

  /** The bounded queue; history: what it accepted and what the worker took. */
  datatype QueueState = QueueState(
    queue: seq<Notification>, accepted: seq<Notification>, taken: seq<Notification>)

  datatype State = State(
    mu: Option<Tid>, persistMu: Option<Tid>, pcs: map<Tid, Pc>,
    w: WatchState, p: PromptState, q: QueueState)
  {
    function Pc(t: Tid): Pc { if t in pcs then pcs[t] else Idle }
  }

  ghost predicate Init(s: State) {
    && s.mu.None? && s.persistMu.None? && s.pcs == map[]
    && s.w == WatchState(s.w.watchers, s.w.watchers, [s.w.watchers], 0, 0, true)
    && s.p == PromptState(map[], [], map[], [])
    && s.q == QueueState([], [], [])
  }

  // ---- the steps ----

  /** The write of a snapshot may fail. `Clear(id)` deletes one entry while TurnDone
      ranges over the pending map, in whatever order Go chooses. */
  datatype Action =
    | Begin(t: Tid, call: Call)
    | Go(t: Tid)
    | FailWrite(t: Tid)
    | Clear(t: Tid, id: string)

  function Start(call: Call, q: QueueState): Pc {
    match call
    case SetWatch(r, e) => WantToggle(r, e)
    case Observe(tab, e) => if e.OtherEvent? then Idle else WantObserve(tab, e)
    case Decide(id, d) => WantTake(id, d)
    case Deliver => if q.queue == [] then Idle else Delivering(q.queue[0])
  }

  function SerialOf(p: PromptState, id: string): nat { if id in p.serials then p.serials[id] else 0 }

  /** Where the goroutine goes after its current step. */
  function Goes(pc: Pc, s: State): Pc {
    match pc
    case Idle => Idle
    case WantToggle(r, e) => Toggling(r, e)
    case Toggling(r, e) => ToggleRead(r, e, r.Key() in s.w.watchers)
    case ToggleRead(r, e, present) => if e == present then Idle else WantPersist
    case WantPersist => PersistWantsMu
    case PersistWantsMu => Snapshotting
    case Snapshotting => Writing(s.w.watchers, if s.w.versions == [] then 0 else |s.w.versions| - 1)
    case Writing(snap, v) => Persisted
    case Persisted => Idle
    case WantObserve(tab, e) => Recording(tab, e)
    case Recording(tab, e) =>
      if !e.TurnDone? then CheckWatchers(tab, e) else if Canceled(e.err) then Idle else WantCheck(tab, e)
    case WantCheck(tab, e) => CheckWatchers(tab, e)
    case CheckWatchers(tab, e) =>
      if |s.w.watchers| > 0 && NoteFor(tab, e).Some? then Enqueuing(NoteFor(tab, e).value) else Idle
    case Enqueuing(n) => Idle
    case WantTake(id, d) => Taking(id, d)
    case Taking(id, d) =>
      TakeRead(id, d, if id in s.p.pending then Some(s.p.pending[id]) else None, SerialOf(s.p, id))
    case TakeRead(id, d, found, serial) => if found.None? then Idle else Forwarding(id, d, found.value, serial)
    case Forwarding(id, d, p, serial) => Idle
    case Delivering(n) => ReadRoutes(n)
    case ReadRoutes(n) => Idle
  }

  function PcAfter(s: State, a: Action): Pc {
    match a
    case Begin(t, call) => Start(call, s.q)
    case Go(t) => Goes(s.Pc(t), s)
    case FailWrite(t) => Persisted
    case Clear(t, id) => s.Pc(t)
  }

  function WatchAfter(s: State, a: Action): WatchState {
    var pc := s.Pc(a.t);
    if a.Go? && pc.ToggleRead? && pc.enable != pc.present then
      var w := if pc.enable then s.w.watchers[pc.route.Key() := pc.route] else s.w.watchers - {pc.route.Key()};
      s.w.(watchers := w, versions := s.w.versions + [w])
    else if a.Go? && pc.Writing? then
      s.w.(disk := pc.snap, diskVersion := pc.version, attempted := pc.version, lastWriteOk := true)
    else if a.FailWrite? && pc.Writing? then
      s.w.(attempted := pc.version, lastWriteOk := false)
    else s.w
  }

  function Registered(p: PromptState, id: string, prompt: Prompt): PromptState {
    PromptState(Register(p.pending, id, prompt), p.regs + [Registration(id, prompt)],
                p.serials[id := |p.regs|],
                if id in p.pending then p.exits + [Overwritten(SerialOf(p, id), id)] else p.exits)
  }

  function Without(p: PromptState, id: string): PromptState {
    p.(pending := p.pending - {id}, serials := p.serials - {id})
  }

  function PromptsAfter(s: State, a: Action): PromptState {
    var pc := s.Pc(a.t);
    match a
    case Begin(_, _) => s.p
    case FailWrite(_) => s.p
    case Clear(_, id) => Without(s.p, id).(exits := s.p.exits + [Cleared(SerialOf(s.p, id), id)])
    case Go(_) =>
      if pc.Recording? && pc.event.PromptEvent? && pc.event.id != "" then
        Registered(s.p, pc.event.id, Prompt(pc.tab, pc.event.kind, pc.event.detail))
      else if pc.TakeRead? && pc.found.Some? then Without(s.p, pc.id)
      else if pc.Forwarding? then
        s.p.(exits := s.p.exits + [Forwarded(pc.serial, pc.id, pc.prompt.tab, pc.decision)])
      else s.p
  }

  function QueueAfter(s: State, a: Action): QueueState {
    var q := s.q;
    if a.Begin? && a.call.Deliver? && q.queue != [] then
      q.(queue := q.queue[1..], taken := q.taken + [q.queue[0]])
    else if a.Go? && s.Pc(a.t).Enqueuing? then
      var n := s.Pc(a.t).note;
      q.(queue := Offer(q.queue, n), accepted := if |q.queue| < QUEUE_CAP then q.accepted + [n] else q.accepted)
    else q
  }

  predicate TabHasPending(p: PromptState, tab: string) {
    exists id :: id in p.pending && p.pending[id].tab == tab
  }

  predicate Enabled(s: State, a: Action) {
    var pc := s.Pc(a.t);
    && (HoldsMu(PcAfter(s, a)) && !HoldsMu(pc) ==> s.mu.None?)
    && (HoldsPersistMu(PcAfter(s, a)) && !HoldsPersistMu(pc) ==> s.persistMu.None?)
    && match a
       case Begin(_, _) => pc.Idle?
       case Go(_) => !pc.Idle? && (pc.Recording? && pc.event.TurnDone? ==> !TabHasPending(s.p, pc.tab))
       case FailWrite(_) => pc.Writing?
       case Clear(_, id) =>
         pc.Recording? && pc.event.TurnDone? && id in s.p.pending && s.p.pending[id].tab == pc.tab
  }

  function LockAfter(lock: Option<Tid>, t: Tid, holds: bool): Option<Tid> {
    if holds then Some(t) else if lock == Some(t) then None else lock
  }

  function Next(s: State, a: Action): State {
    var pc := PcAfter(s, a);
    State(LockAfter(s.mu, a.t, HoldsMu(pc)), LockAfter(s.persistMu, a.t, HoldsPersistMu(pc)),
          s.pcs[a.t := pc], WatchAfter(s, a), PromptsAfter(s, a), QueueAfter(s, a))
  }

  ghost predicate Step(s: State, a: Action, s': State) { Enabled(s, a) && s' == Next(s, a) }

  /** `run` lists the states of an execution, `acts` the actions between them. */
  ghost predicate Execution(run: seq<State>, acts: seq<Action>) {
    && |run| == |acts| + 1 && Init(run[0])
    && forall i :: 0 <= i < |acts| ==> Step(run[i], acts[i], run[i + 1])
  }

  // ---- mutual exclusion ----

  ghost predicate Exclusive(s: State) {
    && (forall t: Tid :: HoldsMu(s.Pc(t)) <==> s.mu == Some(t))
    && (forall t: Tid :: HoldsPersistMu(s.Pc(t)) <==> s.persistMu == Some(t))
  }

  lemma ExclusiveStep(s: State, a: Action, s': State)
    requires Exclusive(s) && Step(s, a, s')
    ensures Exclusive(s')
  {
    forall u: Tid
      ensures HoldsMu(s'.Pc(u)) <==> s'.mu == Some(u)
      ensures HoldsPersistMu(s'.Pc(u)) <==> s'.persistMu == Some(u)
    {
      assert u != a.t ==> s'.Pc(u) == s.Pc(u);
    }
  }

  // ---- the watcher set on disk ----

  /** From its change to the watcher set to the end of its write. */
  predicate Unsaved(pc: Pc) {
    pc.WantPersist? || pc.PersistWantsMu? || pc.Snapshotting? || pc.Writing?
  }

  predicate WillSave(pc: Pc, w: WatchState) {
    Unsaved(pc) && (pc.Writing? ==> pc.version == |w.versions| - 1)
  }

  ghost predicate PcAgrees(pc: Pc, w: WatchState) {
    && (pc.Writing? ==> w.attempted <= pc.version < |w.versions| && w.versions[pc.version] == pc.snap)
    && (pc.ToggleRead? ==> pc.present == (pc.route.Key() in w.watchers))
  }

  ghost predicate DiskInv(s: State) {
    var w := s.w;
    && w.versions != [] && w.versions[|w.versions| - 1] == w.watchers
    && w.diskVersion <= w.attempted < |w.versions| && w.versions[w.diskVersion] == w.disk
    && (w.lastWriteOk ==> w.diskVersion == w.attempted)
    && (forall t: Tid :: PcAgrees(s.Pc(t), w))
    && (w.attempted == |w.versions| - 1 || exists t: Tid :: WillSave(s.Pc(t), w))
  }

  lemma PcAgreesStep(s: State, a: Action, s': State, u: Tid)
    requires Exclusive(s) && DiskInv(s) && Step(s, a, s')
    ensures PcAgrees(s'.Pc(u), s'.w)
  {
    assert PcAgrees(s.Pc(a.t), s.w) && PcAgrees(s.Pc(u), s.w);
    assert u != a.t ==> s'.Pc(u) == s.Pc(u);
  }

  /** While the newest version has not been written, some goroutine is going to. */
  lemma WillSaveStep(s: State, a: Action, s': State)
    requires Exclusive(s) && DiskInv(s) && Step(s, a, s') && s'.w.attempted != |s'.w.versions| - 1
    ensures exists t: Tid :: WillSave(s'.Pc(t), s'.w)
  {
    assert PcAgrees(s.Pc(a.t), s.w);
    if |s'.w.versions| != |s.w.versions| {
      assert WillSave(s'.Pc(a.t), s'.w);
    } else {
      var u: Tid :| WillSave(s.Pc(u), s.w);
      assert u != a.t ==> s'.Pc(u) == s.Pc(u);
      assert WillSave(s'.Pc(u), s'.w);
    }
  }

  lemma DiskInvStep(s: State, a: Action, s': State)
    requires Exclusive(s) && DiskInv(s) && Step(s, a, s')
    ensures DiskInv(s')
    ensures s.w.diskVersion <= s'.w.diskVersion
  {
    hide Enabled, PcAfter, Goes, Start, PromptsAfter, QueueAfter, Exclusive;
    assert PcAgrees(s.Pc(a.t), s.w);
    forall u: Tid ensures PcAgrees(s'.Pc(u), s'.w) {
      PcAgreesStep(s, a, s', u);
    }
    if s'.w.attempted != |s'.w.versions| - 1 {
      WillSaveStep(s, a, s');
    }
  }

  lemma {:induction false} DiskInvHolds(run: seq<State>, acts: seq<Action>, i: nat)
    requires Execution(run, acts) && i < |run|
    ensures Exclusive(run[i]) && DiskInv(run[i])
  {
    if i > 0 {
      DiskInvHolds(run, acts, i - 1);
      ExclusiveStep(run[i - 1], acts[i - 1], run[i]);
      DiskInvStep(run[i - 1], acts[i - 1], run[i]);
    }
  }

  lemma DiskStaysValid(run: seq<State>, acts: seq<Action>, j: nat)
    requires Execution(run, acts) && j < |run|
    ensures run[j].w.diskVersion < |run[j].w.versions|
    ensures run[j].w.disk == run[j].w.versions[run[j].w.diskVersion]
    ensures j > 0 ==> run[j - 1].w.diskVersion <= run[j].w.diskVersion
  {
    DiskInvHolds(run, acts, j);
    if j > 0 {
      DiskInvHolds(run, acts, j - 1);
      DiskInvStep(run[j - 1], acts[j - 1], run[j]);
    }
  }

  /** A stale snapshot never replaces a newer one: along every execution the version on
      disk only grows, whether or not writes fail. */
  lemma {:induction false} DiskNeverGoesBack(run: seq<State>, acts: seq<Action>, i: nat, j: nat)
    requires Execution(run, acts) && i <= j < |run|
    ensures run[i].w.diskVersion <= run[j].w.diskVersion < |run[j].w.versions|
    ensures run[j].w.disk == run[j].w.versions[run[j].w.diskVersion]
  {
    DiskStaysValid(run, acts, j);
    if i < j {
      DiskNeverGoesBack(run, acts, i, j - 1);
    }
  }

  /** Whenever no SetWatch stands between its change and the end of its write, the disk
      holds the watcher set in memory, provided the last write did not fail. */
  lemma QuiescentDiskIsCurrent(run: seq<State>, acts: seq<Action>, i: nat)
    requires Execution(run, acts) && i < |run|
    requires forall t: Tid :: !Unsaved(run[i].Pc(t))
    ensures run[i].w.lastWriteOk ==> run[i].w.disk == run[i].w.watchers
  {
    DiskInvHolds(run, acts, i);
    forall t: Tid ensures !WillSave(run[i].Pc(t), run[i].w) {
      assert !Unsaved(run[i].Pc(t));
    }
  }

  /** The test and the write of SetWatch are two steps, yet under mu they act as one: the
      change is the sequential one. */
  lemma ToggleIsAtomic(run: seq<State>, acts: seq<Action>, i: nat)
    requires Execution(run, acts) && i < |acts|
    requires acts[i].Go? && run[i].Pc(acts[i].t).ToggleRead?
    ensures var pc := run[i].Pc(acts[i].t);
            run[i + 1].w.watchers == Toggle(run[i].w.watchers, pc.route, pc.enable)
  {
    DiskInvHolds(run, acts, i);
    assert PcAgrees(run[i].Pc(acts[i].t), run[i].w);
    assert Step(run[i], acts[i], run[i + 1]);
  }

  // ---- pending prompts ----

  predicate InPending(p: PromptState, n: nat) {
    n < |p.regs| && p.regs[n].id in p.serials && p.serials[p.regs[n].id] == n
  }

  ghost predicate InFlight(s: State, n: nat) {
    exists t: Tid :: s.Pc(t).Forwarding? && s.Pc(t).serial == n
  }

  predicate Exited(p: PromptState, n: nat) {
    exists k :: 0 <= k < |p.exits| && p.exits[k].serial == n
  }

  ghost predicate OnePlace(s: State, n: nat) {
    && (InPending(s.p, n) || InFlight(s, n) || Exited(s.p, n))
    && !(InPending(s.p, n) && InFlight(s, n))
    && !(InPending(s.p, n) && Exited(s.p, n))
    && !(InFlight(s, n) && Exited(s.p, n))
  }

  ghost predicate PendingAgrees(p: PromptState) {
    && p.serials.Keys == p.pending.Keys
    && forall id :: id in p.pending ==>
         p.serials[id] < |p.regs| && p.regs[p.serials[id]] == Registration(id, p.pending[id])
  }

  ghost predicate TakerAgrees(pc: Pc, p: PromptState) {
    && (pc.TakeRead? ==>
          && pc.found == (if pc.id in p.pending then Some(p.pending[pc.id]) else None)
          && pc.serial == SerialOf(p, pc.id))
    && (pc.Forwarding? ==> pc.serial < |p.regs| && p.regs[pc.serial] == Registration(pc.id, pc.prompt))
  }

  ghost predicate ExitAgrees(e: Exit, p: PromptState) {
    && e.serial < |p.regs| && p.regs[e.serial].id == e.id
    && (e.Forwarded? ==> p.regs[e.serial].prompt.tab == e.tab)
  }

  ghost predicate DistinctExits(exits: seq<Exit>) {
    forall i, j :: 0 <= i < j < |exits| ==> exits[i].serial != exits[j].serial
  }

  ghost predicate DistinctFlights(s: State) {
    forall t: Tid, u: Tid :: s.Pc(t).Forwarding? && s.Pc(u).Forwarding? && t != u ==> s.Pc(t).serial != s.Pc(u).serial
  }

  ghost predicate PromptInv(s: State) {
    && PendingAgrees(s.p)
    && (forall t: Tid :: TakerAgrees(s.Pc(t), s.p))
    && (forall k :: 0 <= k < |s.p.exits| ==> ExitAgrees(s.p.exits[k], s.p))
    && DistinctExits(s.p.exits) && DistinctFlights(s)
    && (forall n: nat :: n < |s.p.regs| ==> OnePlace(s, n))
  }

  lemma TakerAgreesStep(s: State, a: Action, s': State, u: Tid)
    requires Exclusive(s) && PromptInv(s) && Step(s, a, s')
    ensures TakerAgrees(s'.Pc(u), s'.p)
  {
    hide DistinctExits, DistinctFlights, OnePlace, ExitAgrees;
    assert TakerAgrees(s.Pc(a.t), s.p) && TakerAgrees(s.Pc(u), s.p);
    assert u != a.t ==> s'.Pc(u) == s.Pc(u);
  }

  lemma PromptAgreementStep(s: State, a: Action, s': State)
    requires Exclusive(s) && PromptInv(s) && Step(s, a, s')
    ensures PendingAgrees(s'.p)
    ensures forall t: Tid :: TakerAgrees(s'.Pc(t), s'.p)
    ensures forall k :: 0 <= k < |s'.p.exits| ==> ExitAgrees(s'.p.exits[k], s'.p)
  {
    hide DistinctExits, DistinctFlights, OnePlace, Exclusive, Goes, Start, WatchAfter, QueueAfter;
    assert TakerAgrees(s.Pc(a.t), s.p);
    forall u: Tid ensures TakerAgrees(s'.Pc(u), s'.p) {
      TakerAgreesStep(s, a, s', u);
    }
    forall k | 0 <= k < |s'.p.exits| ensures ExitAgrees(s'.p.exits[k], s'.p) {
      assert k < |s.p.exits| ==> ExitAgrees(s.p.exits[k], s.p);
    }
  }

  predicate Takes(pc: Pc, a: Action) { a.Go? && pc.TakeRead? && pc.found.Some? }

  predicate Forwards(pc: Pc, a: Action) { a.Go? && pc.Forwarding? }

  lemma FlightStep(s: State, a: Action, s': State, n: nat)
    requires Step(s, a, s') && DistinctFlights(s)
    ensures var pc := s.Pc(a.t);
            InFlight(s', n) <==>
            (InFlight(s, n) && !(Forwards(pc, a) && pc.serial == n)) || (Takes(pc, a) && pc.serial == n)
  {
    var pc := s.Pc(a.t);
    if InFlight(s, n) {
      var u: Tid :| s.Pc(u).Forwarding? && s.Pc(u).serial == n;
      if u != a.t { assert s'.Pc(u) == s.Pc(u); } else { assert Forwards(pc, a); }
    }
    if Takes(pc, a) && pc.serial == n {
      assert s'.Pc(a.t).Forwarding? && s'.Pc(a.t).serial == n;
    }
    if InFlight(s', n) {
      var u: Tid :| s'.Pc(u).Forwarding? && s'.Pc(u).serial == n;
      if u != a.t { assert s.Pc(u) == s'.Pc(u); }
    }
  }

  lemma ExitStep(p: PromptState, p': PromptState, e: Exit, n: nat)
    requires p'.exits == p.exits + [e]
    ensures Exited(p', n) <==> Exited(p, n) || e.serial == n
  {
    if Exited(p, n) {
      var k :| 0 <= k < |p.exits| && p.exits[k].serial == n;
      assert p'.exits[k] == p.exits[k];
    }
    assert p'.exits[|p.exits|] == e;
  }

  /** How a step changes what is pending: a registration enters by being made, and leaves by
      being taken, or by an exit other than a forwarded decision. */
  lemma PendingStep(s: State, a: Action, n: nat)
    requires PendingAgrees(s.p) && TakerAgrees(s.Pc(a.t), s.p) && Enabled(s, a) && n < |PromptsAfter(s, a).regs|
    ensures var pc := s.Pc(a.t); var p' := PromptsAfter(s, a); var m := |s.p.exits|;
            && |p'.exits| <= m + 1 && (|p'.exits| > m ==> p'.exits == s.p.exits + [p'.exits[m]])
            && (|p'.exits| <= m ==> p'.exits == s.p.exits)
            && (|p'.exits| > m && Forwards(pc, a) ==> p'.exits[m].serial == pc.serial)
            && (Forwards(pc, a) ==> |p'.exits| > m)
            && (|p'.exits| > m && !Forwards(pc, a) ==> InPending(s.p, p'.exits[m].serial))
            && (Takes(pc, a) ==> InPending(s.p, pc.serial) && |p'.exits| == m)
            && (n >= |s.p.regs| ==> InPending(p', n))
            && (n < |s.p.regs| ==>
                  (InPending(p', n) <==>
                     && InPending(s.p, n) && !(Takes(pc, a) && pc.serial == n)
                     && !(|p'.exits| > m && !Forwards(pc, a) && p'.exits[m].serial == n)))
  {
    hide PcAfter, HoldsMu, HoldsPersistMu;
  }

  /** Every registration is in exactly one place: pending, in the hands of one goroutine
      that will forward it, or gone for good with a single exit. */
  lemma OnePlaceStep(s: State, a: Action, s': State, n: nat)
    requires Exclusive(s) && PromptInv(s) && Step(s, a, s') && n < |s'.p.regs|
    ensures OnePlace(s', n)
  {
    hide DistinctExits, Exclusive, WatchAfter, QueueAfter, Goes, Start, PromptsAfter, PcAfter, PendingAgrees;
    var pc := s.Pc(a.t);
    assert TakerAgrees(pc, s.p);
    FlightStep(s, a, s', n);
    PendingStep(s, a, n);
    if |s'.p.exits| > |s.p.exits| {
      ExitStep(s.p, s'.p, s'.p.exits[|s.p.exits|], n);
    }
    if n < |s.p.regs| {
      assert OnePlace(s, n);
    } else {
      assert forall t: Tid :: TakerAgrees(s.Pc(t), s.p);
      assert !InFlight(s, n) && !Exited(s.p, n);
    }
  }

  lemma DistinctExitsStep(s: State, a: Action, s': State)
    requires Exclusive(s) && PromptInv(s) && Step(s, a, s')
    ensures DistinctExits(s'.p.exits)
  {
    hide Exclusive, DistinctFlights, PendingAgrees, WatchAfter, QueueAfter, Goes, Start;
    var pc := s.Pc(a.t);
    assert TakerAgrees(pc, s.p);
    if |s'.p.exits| > |s.p.exits| {
      var m := s'.p.exits[|s.p.exits|].serial;
      assert PendingAgrees(s.p);
      NewExit(s, a, s');
      assert OnePlace(s, m);
      assert !Exited(s.p, m);
    }
  }

  /** A registration that gets its exit was pending or in flight just before. */
  lemma NewExit(s: State, a: Action, s': State)
    requires PendingAgrees(s.p) && TakerAgrees(s.Pc(a.t), s.p) && Step(s, a, s') && |s'.p.exits| > |s.p.exits|
    ensures s'.p.exits == s.p.exits + [s'.p.exits[|s.p.exits|]]
    ensures var m := s'.p.exits[|s.p.exits|].serial;
            m < |s.p.regs| && (InPending(s.p, m) || InFlight(s, m))
  {
    hide WatchAfter, QueueAfter, Goes, Start;
    var pc := s.Pc(a.t);
    assert Forwards(pc, a) ==> InFlight(s, pc.serial);
  }

  lemma DistinctFlightsStep(s: State, a: Action, s': State)
    requires Exclusive(s) && PromptInv(s) && Step(s, a, s')
    ensures DistinctFlights(s')
  {
    hide Exclusive, DistinctExits, ExitAgrees, WatchAfter, QueueAfter, PromptsAfter;
    var pc := s.Pc(a.t);
    assert TakerAgrees(pc, s.p);
    assert forall u: Tid :: u != a.t ==> s'.Pc(u) == s.Pc(u);
    if Takes(pc, a) {
      assert OnePlace(s, pc.serial);
      assert InPending(s.p, pc.serial);
    }
  }

  lemma {:induction false} PromptInvHolds(run: seq<State>, acts: seq<Action>, i: nat)
    requires Execution(run, acts) && i < |run|
    ensures Exclusive(run[i]) && PromptInv(run[i])
  {
    DiskInvHolds(run, acts, i);
    if i > 0 {
      PromptInvHolds(run, acts, i - 1);
      var s, a, s' := run[i - 1], acts[i - 1], run[i];
      assert Step(s, a, s');
      PromptAgreementStep(s, a, s');
      DistinctExitsStep(s, a, s');
      DistinctFlightsStep(s, a, s');
      forall n: nat | n < |s'.p.regs| ensures OnePlace(s', n) {
        OnePlaceStep(s, a, s', n);
      }
    }
  }

  /** Each registration yields at most one forwarded decision, made under its own id and
      sent to the tab that registered it; what was cleared or overwritten is never
      forwarded. */
  lemma ForwardedAtMostOnce(run: seq<State>, acts: seq<Action>, i: nat, j: nat, k: nat)
    requires Execution(run, acts) && i < |run|
    requires j < k < |run[i].p.exits| && run[i].p.exits[k].Forwarded?
    ensures var p := run[i].p; var e := p.exits[k];
            && e.serial < |p.regs| && p.regs[e.serial].id == e.id && p.regs[e.serial].prompt.tab == e.tab
            && p.exits[j].serial != e.serial
            && !InPending(p, e.serial)
  {
    PromptInvHolds(run, acts, i);
    var p := run[i].p;
    assert ExitAgrees(p.exits[k], p);
    assert OnePlace(run[i], p.exits[k].serial);
  }

  // ---- conservation, counted per id ----

  function Registrations(regs: seq<Registration>, id: string): nat {
    if regs == [] then 0
    else Registrations(regs[..|regs| - 1], id) + if regs[|regs| - 1].id == id then 1 else 0
  }

  datatype Fate = WasOverwritten | WasCleared | WasForwarded

  function FateOf(e: Exit): Fate {
    if e.Overwritten? then WasOverwritten else if e.Cleared? then WasCleared else WasForwarded
  }

  function Exits(exits: seq<Exit>, id: string, f: Fate): nat {
    if exits == [] then 0
    else
      var e := exits[|exits| - 1];
      Exits(exits[..|exits| - 1], id, f) + if e.id == id && FateOf(e) == f then 1 else 0
  }

  function Carriers(pcs: map<Tid, Pc>, id: string): set<Tid> {
    set t | t in pcs && pcs[t].Forwarding? && pcs[t].id == id
  }

  function Count(b: bool): nat { if b then 1 else 0 }

  function Gone(exits: seq<Exit>, id: string): nat {
    Exits(exits, id, WasForwarded) + Exits(exits, id, WasCleared) + Exits(exits, id, WasOverwritten)
  }

  /** Forwarded, cleared, overwritten, on the way to a tab, or still pending. */
  function Accounted(pcs: map<Tid, Pc>, p: PromptState, id: string): nat {
    Gone(p.exits, id) + |Carriers(pcs, id)| + Count(id in p.pending)
  }

  predicate Carries(pc: Pc, id: string) { pc.Forwarding? && pc.id == id }

  lemma CarriersUpdate(pcs: map<Tid, Pc>, t: Tid, pc: Pc, id: string)
    ensures |Carriers(pcs[t := pc], id)| + Count(t in pcs && Carries(pcs[t], id))
            == |Carriers(pcs, id)| + Count(Carries(pc, id))
  {
    var rest := Carriers(pcs, id) - {t};
    assert Carriers(pcs[t := pc], id) == if Carries(pc, id) then rest + {t} else rest;
    assert Carriers(pcs, id) == if t in pcs && Carries(pcs[t], id) then rest + {t} else rest;
  }

  lemma GoneAppend(exits: seq<Exit>, e: Exit, id: string)
    ensures Gone(exits + [e], id) == Gone(exits, id) + Count(e.id == id)
  {
    assert (exits + [e])[..|exits|] == exits;
  }

  lemma RegistrationsAppend(regs: seq<Registration>, r: Registration, id: string)
    ensures Registrations(regs + [r], id) == Registrations(regs, id) + Count(r.id == id)
  {
    assert (regs + [r])[..|regs|] == regs;
  }

  lemma PromptBalance(s: State, a: Action, p': PromptState, id: string)
    requires PendingAgrees(s.p) && TakerAgrees(s.Pc(a.t), s.p) && Enabled(s, a) && p' == PromptsAfter(s, a)
    ensures var pc := s.Pc(a.t);
            Registrations(p'.regs, id) - Registrations(s.p.regs, id) ==
              Gone(p'.exits, id) - Gone(s.p.exits, id) + Count(id in p'.pending) - Count(id in s.p.pending)
              + Count(Takes(pc, a) && pc.id == id) - Count(Forwards(pc, a) && pc.id == id)
  {
    hide PcAfter, HoldsMu, HoldsPersistMu, Registrations, Gone;
    if |p'.regs| > |s.p.regs| {
      RegistrationsAppend(s.p.regs, p'.regs[|s.p.regs|], id);
    }
    if |p'.exits| > |s.p.exits| {
      GoneAppend(s.p.exits, p'.exits[|s.p.exits|], id);
    }
  }

  lemma ConservedStep(s: State, a: Action, s': State, id: string)
    requires PromptInv(s) && Step(s, a, s')
    requires Registrations(s.p.regs, id) == Accounted(s.pcs, s.p, id)
    ensures Registrations(s'.p.regs, id) == Accounted(s'.pcs, s'.p, id)
  {
    hide DistinctExits, DistinctFlights, OnePlace, ExitAgrees, WatchAfter, QueueAfter, PromptsAfter, Carriers, Gone,
      Registrations, PendingAgrees;
    var pc := s.Pc(a.t);
    assert TakerAgrees(pc, s.p);
    CarriersUpdate(s.pcs, a.t, PcAfter(s, a), id);
    PromptBalance(s, a, s'.p, id);
    assert Carries(PcAfter(s, a), id) <==> Takes(pc, a) && pc.id == id;
    assert Carries(pc, id) <==> Forwards(pc, a) && pc.id == id;
  }

  lemma NothingAccounted(s: State, id: string)
    requires Init(s)
    ensures Registrations(s.p.regs, id) == Accounted(s.pcs, s.p, id)
  {
    assert Carriers(s.pcs, id) == {};
  }

  /** For each id, in every state of every interleaving: the registrations are those
      forwarded, cleared by TurnDone, overwritten, on their way to a tab, and pending. */
  lemma {:induction false} PromptsConserved(run: seq<State>, acts: seq<Action>, i: nat, id: string)
    requires Execution(run, acts) && i < |run|
    ensures Registrations(run[i].p.regs, id) == Accounted(run[i].pcs, run[i].p, id)
  {
    hide Enabled, Next, PromptInv, Accounted, Registrations, Exclusive;
    if i > 0 {
      PromptsConserved(run, acts, i - 1, id);
      PromptInvHolds(run, acts, i - 1);
      ConservedStep(run[i - 1], acts[i - 1], run[i], id);
    } else {
      NothingAccounted(run[0], id);
    }
  }

  // ---- the queue ----

  /** The worker takes the accepted notifications first in, first out, and the queue
      never holds more than its capacity. */
  lemma {:induction false} QueueIsFifo(run: seq<State>, acts: seq<Action>, i: nat)
    requires Execution(run, acts) && i < |run|
    ensures run[i].q.accepted == run[i].q.taken + run[i].q.queue && |run[i].q.queue| <= QUEUE_CAP
  {
    if i > 0 {
      QueueIsFifo(run, acts, i - 1);
      assert Step(run[i - 1], acts[i - 1], run[i]);
    }
  }

  // ---- whose call did what ----

  /** The call that goroutine `t` began last in the first `i` actions. */
  function CallOf(acts: seq<Action>, i: nat, t: Tid): Option<Call> {
    if i == 0 || i > |acts| then None
    else if acts[i - 1].Begin? && acts[i - 1].t == t then Some(acts[i - 1].call)
    else CallOf(acts, i - 1, t)
  }

  /** What the event tells the watchers. */
  predicate Announces(n: Notification, tab: string, e: Event) {
    match e
    case PromptEvent(id, kind, detail) => id != "" && n == PromptNote(tab, id, kind, detail)
    case TurnDone(None) => n == DoneNote(tab, "")
    case TurnDone(Some(err)) => !Canceled(Some(err)) && n == DoneNote(tab, err)
    case OtherEvent => false
  }

  /** A goroutine at `pc` is busy with this call. */
  ghost predicate Serves(pc: Pc, call: Option<Call>) {
    match pc
    case Idle => true
    case WantToggle(r, e) => call == Some(SetWatch(r, e))
    case Toggling(r, e) => call == Some(SetWatch(r, e))
    case ToggleRead(r, e, _) => call == Some(SetWatch(r, e))
    case WantObserve(tab, e) => call == Some(Observe(tab, e))
    case Recording(tab, e) => call == Some(Observe(tab, e))
    case CheckWatchers(tab, e) => call == Some(Observe(tab, e))
    case WantCheck(tab, e) => call == Some(Observe(tab, e))
    case Enqueuing(n) => call.Some? && call.value.Observe? && Announces(n, call.value.tab, call.value.event)
    case WantTake(id, d) => call == Some(Decide(id, d))
    case Taking(id, d) => call == Some(Decide(id, d))
    case TakeRead(id, d, _, _) => call == Some(Decide(id, d))
    case Forwarding(id, d, _, _) => call == Some(Decide(id, d))
    case Delivering(_) => call == Some(Deliver)
    case ReadRoutes(_) => call == Some(Deliver)
    case _ => call.Some? && call.value.SetWatch?
  }

  lemma ServesStep(s: State, a: Action, s': State, call: Option<Call>)
    requires Step(s, a, s') && Serves(s.Pc(a.t), call)
    ensures Serves(s'.Pc(a.t), if a.Begin? then Some(a.call) else call)
  {
    hide Canceled, WatchAfter, PromptsAfter, QueueAfter;
  }

  lemma OthersStay(s: State, a: Action, s': State, t: Tid)
    requires Step(s, a, s') && t != a.t
    ensures s'.Pc(t) == s.Pc(t)
  {
    hide PcAfter, WatchAfter, PromptsAfter, QueueAfter, LockAfter, Enabled;
  }

  lemma {:induction false} ServesHolds(run: seq<State>, acts: seq<Action>, i: nat, t: Tid)
    requires Execution(run, acts) && i < |run|
    ensures Serves(run[i].Pc(t), CallOf(acts, i, t))
  {
    hide Serves, Step;
    if i > 0 {
      ServesHolds(run, acts, i - 1, t);
      if acts[i - 1].t == t {
        ServesStep(run[i - 1], acts[i - 1], run[i], CallOf(acts, i - 1, t));
      } else {
        OthersStay(run[i - 1], acts[i - 1], run[i], t);
      }
    } else {
      IdleServes(run[0], t);
    }
  }

  lemma IdleServes(s: State, t: Tid)
    requires Init(s)
    ensures Serves(s.Pc(t), None)
  {
  }

  /** The call that takes step `i`: what it is making up to then. */
  function Acting(acts: seq<Action>, i: nat): Option<Call> {
    if i < |acts| then CallOf(acts, i, acts[i].t) else None
  }

  lemma ActingServes(run: seq<State>, acts: seq<Action>, i: nat)
    requires Execution(run, acts) && i < |acts|
    ensures Serves(run[i].Pc(acts[i].t), Acting(acts, i)) && Step(run[i], acts[i], run[i + 1])
    ensures TakerAgrees(run[i].Pc(acts[i].t), run[i].p) && PendingAgrees(run[i].p)
    ensures PcAgrees(run[i].Pc(acts[i].t), run[i].w)
  {
    hide Step, Serves, PcAgrees, TakerAgrees, PendingAgrees, OnePlace, Exclusive, ExitAgrees;
    ServesHolds(run, acts, i, acts[i].t);
    PromptInvHolds(run, acts, i);
    DiskInvHolds(run, acts, i);
  }

  /** Why a registration left: a turn of its own tab ended, an event with its id replaced it,
      or a decision on its id, and no other, was forwarded to its tab. */
  lemma ExitHasCause(run: seq<State>, acts: seq<Action>, i: nat)
    requires Execution(run, acts) && i < |acts| && |run[i + 1].p.exits| > |run[i].p.exits|
    ensures var p := run[i + 1].p; var e := p.exits[|p.exits| - 1];
            && p.exits == run[i].p.exits + [e] && e.serial < |p.regs| && p.regs[e.serial].id == e.id
            && Acting(acts, i).Some?
            && match e
               case Cleared(n, id) =>
                 Acting(acts, i).value.Observe? && Acting(acts, i).value.event.TurnDone?
                 && p.regs[n].prompt.tab == Acting(acts, i).value.tab
               case Overwritten(n, id) =>
                 Acting(acts, i).value.Observe? && Acting(acts, i).value.event.PromptEvent?
                 && Acting(acts, i).value.event.id == id
               case Forwarded(n, id, tab, decision) =>
                 Acting(acts, i).value == Decide(id, decision) && tab == p.regs[n].prompt.tab
  {
    ActingServes(run, acts, i);
    hide Execution, Exclusive, WatchAfter, QueueAfter, Goes, Start, Acting;
  }

  /** When the goroutine of an ended turn goes on, no prompt of that tab is pending. */
  lemma NoneLeftAfterTurn(run: seq<State>, acts: seq<Action>, i: nat, id: string)
    requires Execution(run, acts) && i < |acts| && acts[i].Go?
    requires run[i].Pc(acts[i].t).Recording? && run[i].Pc(acts[i].t).event.TurnDone?
    ensures id in run[i + 1].p.pending ==> run[i + 1].p.pending[id].tab != run[i].Pc(acts[i].t).tab
  {
    assert Step(run[i], acts[i], run[i + 1]);
  }

  /** A pending prompt stays as it is unless a turn of its own tab ends, its id is registered
      again, or a decision takes it. */
  lemma PendingUntilCause(run: seq<State>, acts: seq<Action>, i: nat, id: string)
    requires Execution(run, acts) && i < |acts| && id in run[i].p.pending
    requires !(id in run[i + 1].p.pending && run[i + 1].p.pending[id] == run[i].p.pending[id])
    ensures Acting(acts, i).Some?
    ensures match Acting(acts, i).value
            case Observe(tab, TurnDone(_)) => tab == run[i].p.pending[id].tab
            case Observe(_, PromptEvent(again, _, _)) => again == id
            case Decide(decided, _) => decided == id
            case _ => false
  {
    ActingServes(run, acts, i);
    hide Execution, Exclusive, WatchAfter, QueueAfter, Goes, Start, Acting, PendingAgrees, PcAgrees, Canceled;
  }

  /** A registration is made exactly by an event with an id, for the event's tab and under
      its id. */
  lemma RegisteredByEvent(run: seq<State>, acts: seq<Action>, i: nat)
    requires Execution(run, acts) && i < |acts|
    ensures var pc := run[i].Pc(acts[i].t); var p, p' := run[i].p, run[i + 1].p;
            if acts[i].Go? && pc.Recording? && pc.event.PromptEvent? && pc.event.id != "" then
              var prompt := Prompt(pc.tab, pc.event.kind, pc.event.detail);
              && Acting(acts, i) == Some(Observe(pc.tab, pc.event))
              && p'.regs == p.regs + [Registration(pc.event.id, prompt)]
              && p'.pending == p.pending[pc.event.id := prompt]
            else p'.regs == p.regs && p'.pending.Keys <= p.pending.Keys
  {
    ActingServes(run, acts, i);
    hide Execution, Exclusive, WatchAfter, QueueAfter, Goes, Start, Acting, PendingAgrees, PcAgrees, Canceled;
  }

  /** The set of watchers changes only for a SetWatch, which adds the missing route or
      removes the one with its key. */
  lemma WatchersChangeBy(run: seq<State>, acts: seq<Action>, i: nat)
    requires Execution(run, acts) && i < |acts| && run[i + 1].w.watchers != run[i].w.watchers
    ensures Acting(acts, i).Some? && Acting(acts, i).value.SetWatch?
    ensures var r := Acting(acts, i).value.route; var w, w' := run[i].w.watchers, run[i + 1].w.watchers;
            && (Acting(acts, i).value.enable ==> r.Key() !in w && w' == w[r.Key() := r])
            && (!Acting(acts, i).value.enable ==> r.Key() in w && w' == w - {r.Key()})
  {
    ActingServes(run, acts, i);
    hide Execution, Exclusive, PromptsAfter, QueueAfter, Goes, Start, Acting, PendingAgrees, Canceled, Route.Key;
  }

  /** Somebody watching, and only then, an event is announced. */
  lemma AnnouncedIff(run: seq<State>, acts: seq<Action>, i: nat, n: Notification)
    requires Execution(run, acts) && i < |acts| && acts[i].Go? && run[i].Pc(acts[i].t).CheckWatchers?
    ensures var pc := run[i].Pc(acts[i].t);
            && Acting(acts, i) == Some(Observe(pc.tab, pc.event))
            && (run[i + 1].Pc(acts[i].t) == Enqueuing(n) <==>
                  |run[i].w.watchers| > 0 && Announces(n, pc.tab, pc.event))
  {
    ActingServes(run, acts, i);
    hide Execution, Exclusive, WatchAfter, PromptsAfter, QueueAfter, Start, Acting, PendingAgrees, PcAgrees, Canceled;
  }

  /** An event that announces something is seen through: its goroutine does not stop before
      it has looked for watchers, and queues the notification unless 64 are waiting. */
  lemma AnnouncementQueued(run: seq<State>, acts: seq<Action>, i: nat, tab: string, e: Event, n: Notification)
    requires Execution(run, acts) && i < |acts| && Announces(n, tab, e)
    ensures var pc, pc' := run[i].Pc(acts[i].t), run[i + 1].Pc(acts[i].t); var q, q' := run[i].q, run[i + 1].q;
            && (acts[i].Begin? && acts[i].call == Observe(tab, e) ==> pc' == WantObserve(tab, e))
            && (pc == WantObserve(tab, e) ==> pc' == Recording(tab, e))
            && (acts[i].Go? && pc == Recording(tab, e) ==> pc' == CheckWatchers(tab, e) || pc' == WantCheck(tab, e))
            && (pc == WantCheck(tab, e) ==> pc' == CheckWatchers(tab, e))
            && (pc == Enqueuing(n) ==>
                  q'.taken == q.taken && if |q.queue| < 64 then q'.accepted == q.accepted + [n] else q' == q)
  {
    assert Step(run[i], acts[i], run[i + 1]);
    hide Execution, WatchAfter, PromptsAfter, Canceled;
  }

  /** A call ends only when its work is done: a SetWatch after a write to the disk, or at once
      if the route is watched already as asked; an event when it has been queued or dropped,
      or there is nothing to tell or nobody to tell it to; a decision when it has been
      forwarded, or no prompt with its id is pending. */
  lemma CallEndsDone(run: seq<State>, acts: seq<Action>, i: nat)
    requires Execution(run, acts) && i < |acts| && !acts[i].Begin? && run[i + 1].Pc(acts[i].t).Idle?
    ensures Acting(acts, i).Some?
    ensures var pc := run[i].Pc(acts[i].t); var p, p' := run[i].p, run[i + 1].p;
            match Acting(acts, i).value
            case SetWatch(r, enable) => pc.Persisted? || (r.Key() in run[i].w.watchers <==> enable)
            case Observe(tab, e) =>
              pc.Enqueuing? || |run[i].w.watchers| == 0 || forall n :: !Announces(n, tab, e)
            case Decide(id, d) =>
              || id !in p.pending
              || exists n, tab :: p'.exits == p.exits + [Forwarded(n, id, tab, d)]
            case Deliver => pc.ReadRoutes?
  {
    ActingServes(run, acts, i);
    hide Execution, Exclusive, WatchAfter, QueueAfter, Start, Acting, PendingAgrees, Canceled, Route.Key;
  }

  /** A round of the worker takes the notification at the front, if there is one. */
  lemma DeliversFront(run: seq<State>, acts: seq<Action>, i: nat)
    requires Execution(run, acts) && i < |acts| && acts[i].Begin? && acts[i].call.Deliver?
    ensures var q, q' := run[i].q, run[i + 1].q;
            if q.queue == [] then q' == q && run[i + 1].Pc(acts[i].t).Idle?
            else q'.taken == q.taken + [q.queue[0]] && run[i + 1].Pc(acts[i].t) == Delivering(q.queue[0])
  {
    assert Step(run[i], acts[i], run[i + 1]);
  }

  /** What enters the queue is what the event of the acting call announces. */
  lemma QueuedByEvent(run: seq<State>, acts: seq<Action>, i: nat)
    requires Execution(run, acts) && i < |acts| && run[i + 1].q.accepted != run[i].q.accepted
    ensures Acting(acts, i).Some? && Acting(acts, i).value.Observe? && |run[i].q.queue| < 64
    ensures exists n :: Announces(n, Acting(acts, i).value.tab, Acting(acts, i).value.event) &&
                        run[i + 1].q.accepted == run[i].q.accepted + [n]
  {
    ActingServes(run, acts, i);
    hide Execution, Exclusive, PromptsAfter, WatchAfter, Goes, Start, Acting, PendingAgrees, Announces;
  }
}
