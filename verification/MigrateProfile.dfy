/** The one-time move of session files into per-profile directories
    (`desktop/migrate_profile.go`): the two passes over one flat directory. A directory is
    named by its place, since the paths joined from user directory, project slug and profile
    never coincide for different places. The `dev` partition of the global sessions is the
    flat directory itself (`SessionDirFor`), that of a project is a directory of its own. */
module MigrateProfile {
  import opened GoStrings

  datatype Profile = Dev | Cowork | NetDev

  datatype Dir =
    | Sessions                                  // <user>/sessions
    | Partition(p: Profile)                     // <user>/sessions/<profile>
    | Project(slug: string)                     // <user>/projects/<slug>/sessions
    | ProjectPartition(slug: string, p: Profile)  // <user>/projects/<slug>/<profile>/sessions
    | Elsewhere(where: string)

  datatype Path = Path(dir: Dir, name: string)

  /** A folder moves as a whole. */
  datatype Node = File(data: string) | Folder(tree: string)

  type FS = map<Path, Node>

  /** What one call migrates: the global sessions, or those of one project. */
  datatype Layout = Global | OfProject(slug: string) {
    function Flat(): Dir { if Global? then Sessions else Project(slug) }

    function Dest(p: Profile): Dir {
      if OfProject? then ProjectPartition(slug, p) else if p == Dev then Sessions else Partition(p)
    }

    predicate Protected(n: Node, name: string) { Global? && n.Folder? && name in {"dev", "cowork", "netdev"} }
  }

  const JSONL := ".jsonl"
  const META := ".meta"
  const CKPT := ".ckpt"
  const TELEMETRY := ".telemetry.json"

  /** The `Profile` field of a sidecar file, if it decodes. */
  type Decoder = string -> Option<string>

  function ProfileNamed(raw: string): Profile {
    var key := ToLower(TrimSpace(raw));
    if key == "cowork" then Cowork else if key == "netdev" then NetDev else Dev
  }

  function ProfileForSession(fs: FS, decode: Decoder, dir: Dir, name: string): Profile {
    var meta := Path(dir, name + META);
    if meta in fs && fs[meta].File? && decode(fs[meta].data).Some?
    then ProfileNamed(decode(fs[meta].data).value) else Dev
  }

  predicate IsSession(fs: FS, dir: Dir, name: string) {
    Path(dir, name) in fs && fs[Path(dir, name)].File? && HasSuffix(name, JSONL)
  }

  function Companions(session: string): seq<string> {
    [session + META, TrimSuffix(session, JSONL) + CKPT, session + TELEMETRY]
  }

  /** The session whose companion a name is, if it is one. */
  function Owner(name: string): Option<string> {
    if HasSuffix(name, META) then Some(TrimSuffix(name, META))
    else if HasSuffix(name, CKPT) then Some(TrimSuffix(name, CKPT) + JSONL)
    else if HasSuffix(name, TELEMETRY) then Some(TrimSuffix(name, TELEMETRY))
    else None
  }

  lemma SuffixAppend(s: string, p: string)
    ensures HasSuffix(s + p, p) && TrimSuffix(s + p, p) == s
  {
    assert (s + p)[|s + p| - |p|..] == p;
    assert (s + p)[..|s + p| - |p|] == s;
  }

  lemma SuffixSplit(s: string, p: string)
    requires HasSuffix(s, p)
    ensures s == TrimSuffix(s, p) + p
  {
  }

  /** The suffixes exclude one another by their last letters. */
  lemma SuffixesExclude(s: string)
    ensures !(HasSuffix(s, META) && HasSuffix(s, CKPT)) && !(HasSuffix(s, META) && HasSuffix(s, TELEMETRY))
    ensures !(HasSuffix(s, CKPT) && HasSuffix(s, TELEMETRY))
    ensures HasSuffix(s, JSONL) ==> Owner(s).None?
  {
    assert HasSuffix(s, META) ==> s[|s| - 1] == META[4];
    assert HasSuffix(s, CKPT) ==> s[|s| - 1] == CKPT[4];
    assert HasSuffix(s, TELEMETRY) ==> s[|s| - 1] == TELEMETRY[14];
    assert HasSuffix(s, JSONL) ==> s[|s| - 1] == JSONL[5];
  }

  /** A name is a companion of at most one session. */
  lemma CompanionsOwned(session: string, name: string)
    requires HasSuffix(session, JSONL)
    ensures name in Companions(session) <==> Owner(name) == Some(session)
  {
    SuffixesExclude(name);
    SuffixSplit(session, JSONL);
    var stem := TrimSuffix(session, JSONL);
    SuffixAppend(session, META);
    SuffixAppend(stem, CKPT);
    SuffixAppend(session, TELEMETRY);
    if name in Companions(session) {
      assert name == session + META || name == stem + CKPT || name == session + TELEMETRY;
    }
    if Owner(name) == Some(session) {
      if HasSuffix(name, META) {
        SuffixSplit(name, META);
        assert name == Companions(session)[0];
      } else if HasSuffix(name, CKPT) {
        SuffixSplit(name, CKPT);
        SuffixAppend(TrimSuffix(name, CKPT), JSONL);
        assert name == Companions(session)[1];
      } else {
        SuffixSplit(name, TELEMETRY);
        assert name == Companions(session)[2];
      }
    }
  }

  // ---- one move, and where everything is ----

  /** A missing source and an existing destination both leave the disk alone. */
  function Move(fs: FS, src: Path, dst: Path): FS {
    if src !in fs || dst in fs then fs else fs[dst := fs[src]] - {src}
  }

  type Where = map<string, Dir>

  /** The disk after the names of the flat directory have gone to the places in `w`. */
  function Placed(fs: FS, flat: Dir, w: Where): FS {
    (map p | p in fs && p.dir != flat :: fs[p]) +
    (map p | p in Targets(w) && Path(flat, p.name) in fs :: fs[Path(flat, p.name)])
  }

  function Targets(w: Where): set<Path> { set n | n in w :: Path(w[n], n) }

  /** Each name of the flat directory is still there or at a place that was free. */
  ghost predicate WellPlaced(fs: FS, flat: Dir, w: Where) {
    && (forall n :: n in w <==> Path(flat, n) in fs)
    && (forall n :: n in w ==> w[n] == flat || Path(w[n], n) !in fs)
  }

  function Home(fs: FS, flat: Dir): Where {
    map p | p in fs && p.dir == flat :: p.name := flat
  }

  /** What one attempted move does to the places. */
  function Step(fs: FS, flat: Dir, w: Where, name: string, d: Dir): Where {
    if name in w && w[name] == flat && d != flat && Path(d, name) !in fs then w[name := d] else w
  }

  lemma PlacedKeys(fs: FS, flat: Dir, w: Where, p: Path)
    requires WellPlaced(fs, flat, w)
    ensures p in Placed(fs, flat, w) <==> (p.dir != flat && p in fs) || (p.name in w && w[p.name] == p.dir)
    ensures p.dir != flat && p in fs ==> Placed(fs, flat, w)[p] == fs[p]
    ensures p.name in w && w[p.name] == p.dir ==> Placed(fs, flat, w)[p] == fs[Path(flat, p.name)]
  {
    if p.name in w && w[p.name] == p.dir {
      assert p == Path(w[p.name], p.name);
    }
  }

  lemma HomeIsPlaced(fs: FS, flat: Dir)
    ensures WellPlaced(fs, flat, Home(fs, flat)) && Placed(fs, flat, Home(fs, flat)) == fs
  {
    var w := Home(fs, flat);
    forall n ensures n in w <==> Path(flat, n) in fs {
      if n in w {
        var p :| p in fs && p.dir == flat && p.name == n;
        assert p == Path(flat, n);
      }
      if Path(flat, n) in fs {
        assert Path(flat, n).name in w;
      }
    }
    forall p ensures p in Placed(fs, flat, w) <==> p in fs
             ensures p in fs ==> Placed(fs, flat, w)[p] == fs[p]
    {
      PlacedKeys(fs, flat, w, p);
      assert p == Path(p.dir, p.name);
    }
  }

  /** Moving a file of the flat directory is moving its place. */
  lemma MoveIsStep(fs: FS, flat: Dir, w: Where, name: string, d: Dir)
    requires WellPlaced(fs, flat, w)
    ensures WellPlaced(fs, flat, Step(fs, flat, w, name, d))
    ensures Move(Placed(fs, flat, w), Path(flat, name), Path(d, name)) == Placed(fs, flat, Step(fs, flat, w, name, d))
  {
    var w' := Step(fs, flat, w, name, d);
    var cur := Placed(fs, flat, w);
    var moved := Move(cur, Path(flat, name), Path(d, name));
    hide Placed;
    PlacedKeys(fs, flat, w, Path(flat, name));
    PlacedKeys(fs, flat, w, Path(d, name));
    forall p ensures p in moved <==> p in Placed(fs, flat, w')
             ensures p in moved ==> moved[p] == Placed(fs, flat, w')[p]
    {
      PlacedKeys(fs, flat, w, p);
      PlacedKeys(fs, flat, w', p);
      assert p == Path(p.dir, p.name);
    }
  }

  // ---- where every name ends up ----

  function Settle(fs: FS, flat: Dir, n: string, d: Dir): Dir {
    if d != flat && Path(d, n) !in fs then d else flat
  }

  /** The first pass takes sessions and their companions to the partition of the session. */
  function FirstDir(fs: FS, l: Layout, decode: Decoder, n: string): Dir {
    var flat := l.Flat();
    if IsSession(fs, flat, n) then Settle(fs, flat, n, l.Dest(ProfileForSession(fs, decode, flat, n)))
    else if Owner(n).Some? && IsSession(fs, flat, Owner(n).value) then
      Settle(fs, flat, n, l.Dest(ProfileForSession(fs, decode, flat, Owner(n).value)))
    else flat
  }

  /** The second pass takes what is left, other than sessions, to the dev partition. */
  predicate LeftOver(fs: FS, l: Layout, n: string) {
    Path(l.Flat(), n) in fs && !IsSession(fs, l.Flat(), n) && !l.Protected(fs[Path(l.Flat(), n)], n)
  }

  function FinalDir(fs: FS, l: Layout, decode: Decoder, n: string): Dir {
    var first := FirstDir(fs, l, decode, n);
    if first == l.Flat() && LeftOver(fs, l, n) then Settle(fs, l.Flat(), n, l.Dest(Dev)) else first
  }

  function FinalWhere(fs: FS, l: Layout, decode: Decoder): Where {
    map p | p in fs && p.dir == l.Flat() :: p.name := FinalDir(fs, l, decode, p.name)
  }

  function Migrated(fs: FS, l: Layout, decode: Decoder): FS {
    Placed(fs, l.Flat(), FinalWhere(fs, l, decode))
  }

  lemma FinalWhereAt(fs: FS, l: Layout, decode: Decoder, n: string)
    ensures n in FinalWhere(fs, l, decode) <==> Path(l.Flat(), n) in fs
    ensures n in FinalWhere(fs, l, decode) ==> FinalWhere(fs, l, decode)[n] == FinalDir(fs, l, decode, n)
    ensures WellPlaced(fs, l.Flat(), FinalWhere(fs, l, decode))
  {
    var w := FinalWhere(fs, l, decode);
    forall m ensures m in w <==> Path(l.Flat(), m) in fs {
      if m in w {
        var p :| p in fs && p.dir == l.Flat() && p.name == m;
        assert p == Path(l.Flat(), m);
      }
      if Path(l.Flat(), m) in fs {
        assert Path(l.Flat(), m).name in w;
      }
    }
  }

  // ---- the passes, file by file ----

  datatype Entry = Entry(name: string, isDir: bool)

  ghost predicate Listing(fs: FS, dir: Dir, entries: seq<Entry>) {
    && (forall i :: 0 <= i < |entries| ==>
          Path(dir, entries[i].name) in fs && fs[Path(dir, entries[i].name)].Folder? == entries[i].isDir)
    && (forall n :: Path(dir, n) in fs ==> exists i :: 0 <= i < |entries| && entries[i].name == n)
    && (forall i, j :: 0 <= i < j < |entries| ==> entries[i].name != entries[j].name)
  }

  predicate Listed(entries: seq<Entry>, k: nat, n: string) {
    exists i :: 0 <= i < k && i < |entries| && entries[i].name == n
  }

  /** The first pass has dealt with `n`: its session is among the first `k` entries. */
  predicate Handled(fs: FS, flat: Dir, entries: seq<Entry>, k: nat, n: string) {
    || (IsSession(fs, flat, n) && Listed(entries, k, n))
    || (Owner(n).Some? && IsSession(fs, flat, Owner(n).value) && Listed(entries, k, Owner(n).value))
  }

  ghost predicate AfterFirst(fs: FS, l: Layout, decode: Decoder, entries: seq<Entry>, k: nat, w: Where) {
    forall n :: n in w ==> FirstAt(fs, l, decode, entries, k, n, w[n])
  }

  ghost predicate AfterSecond(fs: FS, l: Layout, decode: Decoder, entries: seq<Entry>, k: nat, w: Where) {
    forall n :: n in w ==>
      w[n] == if Listed(entries, k, n) then FinalDir(fs, l, decode, n) else FirstDir(fs, l, decode, n)
  }

  /** With renames failing at will, what the first pass has moved by then is still where
      it should go, and what it has not reached is where it was. */
  ghost predicate WithinFirst(fs: FS, l: Layout, decode: Decoder, entries: seq<Entry>, k: nat, w: Where) {
    forall n :: n in w ==>
      w[n] == l.Flat() || (Handled(fs, l.Flat(), entries, k, n) && w[n] == FirstDir(fs, l, decode, n))
  }

  /** The places an interrupted run can leave: each name is still in the flat directory, or
      where the first pass takes it, or where the second takes a leftover. */
  ghost predicate Interrupted(fs: FS, l: Layout, decode: Decoder, w: Where) {
    && WellPlaced(fs, l.Flat(), w)
    && forall n :: n in w ==> LeftAt(fs, l, decode, n, w[n])
  }

  predicate LeftAt(fs: FS, l: Layout, decode: Decoder, n: string, d: Dir) {
    || d == l.Flat() || d == FirstDir(fs, l, decode, n)
    || (LeftOver(fs, l, n) && d == Settle(fs, l.Flat(), n, l.Dest(Dev)))
  }

  function StepAll(fs: FS, flat: Dir, w: Where, names: seq<string>, d: Dir): Where
    decreases names
  {
    if names == [] then w else StepAll(fs, flat, Step(fs, flat, w, names[0], d), names[1..], d)
  }

  lemma {:induction false} StepAllAt(fs: FS, flat: Dir, w: Where, names: seq<string>, d: Dir, n: string)
    ensures n in StepAll(fs, flat, w, names, d) <==> n in w
    ensures n in w ==> StepAll(fs, flat, w, names, d)[n] ==
                         if n in names && w[n] == flat then Settle(fs, flat, n, d) else w[n]
  {
    if names != [] {
      StepAllAt(fs, flat, Step(fs, flat, w, names[0], d), names[1..], d, n);
    }
  }

  /** A session not reached yet still has its .meta beside it, so its profile is the
      original one. */
  lemma ProfileUnchanged(fs: FS, flat: Dir, decode: Decoder, w: Where, s: string)
    requires WellPlaced(fs, flat, w) && (s + META in w ==> w[s + META] == flat)
    ensures ProfileForSession(Placed(fs, flat, w), decode, flat, s) == ProfileForSession(fs, decode, flat, s)
  {
    PlacedKeys(fs, flat, w, Path(flat, s + META));
  }

  ghost predicate FirstAt(fs: FS, l: Layout, decode: Decoder, entries: seq<Entry>, k: nat, n: string, d: Dir) {
    d == if Handled(fs, l.Flat(), entries, k, n) then FirstDir(fs, l, decode, n) else l.Flat()
  }

  /** Where a session and its companions go when the first pass reaches it. */
  function Sent(fs: FS, l: Layout, decode: Decoder, w: Where, s: string): Where {
    StepAll(fs, l.Flat(), w, [s] + Companions(s), l.Dest(ProfileForSession(fs, decode, l.Flat(), s)))
  }

  lemma FirstPassStepAt(fs: FS, l: Layout, decode: Decoder, entries: seq<Entry>, k: nat, w: Where, n: string)
    requires Listing(fs, l.Flat(), entries) && k < |entries| && n in w
    requires FirstAt(fs, l, decode, entries, k, n, w[n])
    requires IsSession(fs, l.Flat(), entries[k].name)
    ensures n in Sent(fs, l, decode, w, entries[k].name)
    ensures FirstAt(fs, l, decode, entries, k + 1, n, Sent(fs, l, decode, w, entries[k].name)[n])
  {
    var s := entries[k].name;
    assert !Listed(entries, k, s);
    SuffixesExclude(s);
    SuffixesExclude(n);
    CompanionsOwned(s, n);
    HandledNext(fs, l.Flat(), entries, k, n);
    StepAllAt(fs, l.Flat(), w, [s] + Companions(s), l.Dest(ProfileForSession(fs, decode, l.Flat(), s)), n);
  }

  lemma FirstPassStep(fs: FS, l: Layout, decode: Decoder, entries: seq<Entry>, k: nat, w: Where)
    requires Listing(fs, l.Flat(), entries) && k < |entries|
    requires AfterFirst(fs, l, decode, entries, k, w)
    requires IsSession(fs, l.Flat(), entries[k].name)
    ensures AfterFirst(fs, l, decode, entries, k + 1, Sent(fs, l, decode, w, entries[k].name))
  {
    var s := entries[k].name;
    forall n | n in Sent(fs, l, decode, w, s)
      ensures FirstAt(fs, l, decode, entries, k + 1, n, Sent(fs, l, decode, w, s)[n])
    {
      StepAllAt(fs, l.Flat(), w, [s] + Companions(s), l.Dest(ProfileForSession(fs, decode, l.Flat(), s)), n);
      FirstPassStepAt(fs, l, decode, entries, k, w, n);
    }
  }

  /** What the first pass reads and does when it visits a session. */
  lemma FirstPassVisit(fs: FS, l: Layout, decode: Decoder, entries: seq<Entry>, k: nat, w: Where)
    requires Listing(fs, l.Flat(), entries) && k < |entries| && WellPlaced(fs, l.Flat(), w)
    requires AfterFirst(fs, l, decode, entries, k, w) && WithinFirst(fs, l, decode, entries, k, w)
    requires IsSession(fs, l.Flat(), entries[k].name)
    ensures var s := entries[k].name; var cur := Placed(fs, l.Flat(), w);
            AfterFirst(fs, l, decode, entries, k + 1,
              StepAll(fs, l.Flat(), w, [s] + Companions(s), l.Dest(ProfileForSession(cur, decode, l.Flat(), s))))
  {
    MetaWithin(fs, l, decode, entries, k, w);
    ProfileUnchanged(fs, l.Flat(), decode, w, entries[k].name);
    FirstPassStep(fs, l, decode, entries, k, w);
  }

  lemma FirstPassSkip(fs: FS, l: Layout, decode: Decoder, entries: seq<Entry>, k: nat, w: Where)
    requires Listing(fs, l.Flat(), entries) && k < |entries|
    requires AfterFirst(fs, l, decode, entries, k, w)
    requires !IsSession(fs, l.Flat(), entries[k].name)
    ensures AfterFirst(fs, l, decode, entries, k + 1, w)
  {
    forall n | n in w ensures FirstAt(fs, l, decode, entries, k + 1, n, w[n]) {
      HandledNext(fs, l.Flat(), entries, k, n);
    }
  }

  lemma FirstPassInit(fs: FS, l: Layout, decode: Decoder, entries: seq<Entry>) returns (w: Where)
    ensures WellPlaced(fs, l.Flat(), w) && Placed(fs, l.Flat(), w) == fs
    ensures AfterFirst(fs, l, decode, entries, 0, w) && WithinFirst(fs, l, decode, entries, 0, w)
  {
    w := Home(fs, l.Flat());
    HomeIsPlaced(fs, l.Flat());
  }

  lemma HandledNext(fs: FS, flat: Dir, entries: seq<Entry>, k: nat, n: string)
    requires k < |entries|
    ensures Handled(fs, flat, entries, k + 1, n) <==>
            Handled(fs, flat, entries, k, n) ||
            (IsSession(fs, flat, entries[k].name) && (n == entries[k].name || Owner(n) == Some(entries[k].name)))
  {
    assert forall m :: Listed(entries, k + 1, m) <==> Listed(entries, k, m) || m == entries[k].name;
  }

  class Disk {
    var fs: FS
    const reliable: bool   // whether every rename succeeds

    constructor (fs: FS, reliable: bool)
      ensures this.fs == fs && this.reliable == reliable
    {
      this.fs, this.reliable := fs, reliable;
    }

    /** The rename of an existing source to a free destination may fail on its own. */
    method MovePathIfExistsExistingOK(src: Path, dst: Path)
      modifies this
      ensures fs == Move(old(fs), src, dst) || (!reliable && fs == old(fs))
    {
      if src !in fs || dst in fs {
        return;
      }
      var failed: bool := *;
      if reliable || !failed {
        fs := fs[dst := fs[src]] - {src};
      }
    }

    method MoveName(ghost base: FS, flat: Dir, ghost w: Where, name: string, d: Dir) returns (ghost w': Where)
      requires WellPlaced(base, flat, w) && fs == Placed(base, flat, w)
      modifies this
      ensures WellPlaced(base, flat, w') && fs == Placed(base, flat, w')
      ensures w' == Step(base, flat, w, name, d) || (!reliable && w' == w)
    {
      MoveIsStep(base, flat, w, name, d);
      ghost var before := fs;
      MovePathIfExistsExistingOK(Path(flat, name), Path(d, name));
      w' := if fs == Move(before, Path(flat, name), Path(d, name)) then Step(base, flat, w, name, d) else w;
    }

    method MoveSessionWithCompanions(ghost base: FS, flat: Dir, ghost w: Where, session: string, d: Dir)
      returns (ghost w': Where)
      requires WellPlaced(base, flat, w) && fs == Placed(base, flat, w)
      modifies this
      ensures WellPlaced(base, flat, w') && fs == Placed(base, flat, w')
      ensures reliable ==> w' == StepAll(base, flat, w, [session] + Companions(session), d)
      ensures SomeStepped(base, flat, w, [session] + Companions(session), d, w')
    {
      hide SomeStepped, Companions, WellPlaced, Placed;
      var names := [session] + Companions(session);
      NoneStepped(base, flat, w, names, d);
      w' := w;
      for i := 0 to |names|
        invariant WellPlaced(base, flat, w') && fs == Placed(base, flat, w')
        invariant reliable ==> StepAll(base, flat, w', names[i..], d) == StepAll(base, flat, w, names, d)
        invariant SomeStepped(base, flat, w, names, d, w')
      {
        assert names[i..][0] == names[i] && names[i..][1..] == names[i + 1..];
        SomeSteppedNext(base, flat, w, names, d, w', names[i]);
        w' := MoveName(base, flat, w', names[i], d);
      }
    }

    /** The order of the entries is arbitrary. */
    method ReadDir(dir: Dir) returns (entries: seq<Entry>)
      ensures Listing(fs, dir, entries)
    {
      entries := [];
      var todo := fs.Keys;
      while todo != {}
        invariant todo <= fs.Keys
        invariant forall i :: 0 <= i < |entries| ==>
                    && Path(dir, entries[i].name) in fs && Path(dir, entries[i].name) !in todo
                    && fs[Path(dir, entries[i].name)].Folder? == entries[i].isDir
        invariant forall n :: Path(dir, n) in fs && Path(dir, n) !in todo ==>
                    exists i :: 0 <= i < |entries| && entries[i].name == n
        invariant forall i, j :: 0 <= i < j < |entries| ==> entries[i].name != entries[j].name
      {
        var p :| p in todo;
        todo := todo - {p};
        if p.dir == dir {
          ghost var before := entries;
          assert p == Path(dir, p.name);
          entries := entries + [Entry(p.name, fs[p].Folder?)];
          assert entries[|before|].name == p.name;
          forall n | Path(dir, n) in fs && Path(dir, n) !in todo
            ensures exists i :: 0 <= i < |entries| && entries[i].name == n
          {
            if n != p.name {
              var i :| 0 <= i < |before| && before[i].name == n;
              assert entries[i].name == n;
            }
          }
        }
      }
    }

    method FirstPassEntry(ghost base: FS, l: Layout, decode: Decoder, entries: seq<Entry>, k: nat,
                          ghost w: Where) returns (ghost w': Where)
      requires Listing(base, l.Flat(), entries) && k < |entries|
      requires WellPlaced(base, l.Flat(), w) && fs == Placed(base, l.Flat(), w)
      requires reliable ==> AfterFirst(base, l, decode, entries, k, w)
      requires WithinFirst(base, l, decode, entries, k, w)
      modifies this
      ensures WellPlaced(base, l.Flat(), w') && fs == Placed(base, l.Flat(), w')
      ensures reliable ==> AfterFirst(base, l, decode, entries, k + 1, w')
      ensures WithinFirst(base, l, decode, entries, k + 1, w')
    {
      var e := entries[k];
      WithinNext(base, l, decode, entries, k, w);
      if e.isDir || !HasSuffix(e.name, JSONL) {
        if reliable { FirstPassSkip(base, l, decode, entries, k, w); }
        return w;
      }
      if reliable { FirstPassVisit(base, l, decode, entries, k, w); }
      MetaWithin(base, l, decode, entries, k, w);
      ProfileUnchanged(base, l.Flat(), decode, w, e.name);
      var profile := ProfileForSession(fs, decode, l.Flat(), e.name);
      w' := MoveSessionWithCompanions(base, l.Flat(), w, e.name, l.Dest(profile));
      WithinVisit(base, l, decode, entries, k, w, w');
    }

    /** Sessions first, each with its companions, so that its .meta is read before it goes. */
    method FirstPass(ghost base: FS, l: Layout, decode: Decoder, entries: seq<Entry>) returns (ghost w: Where)
      requires fs == base && Listing(base, l.Flat(), entries)
      modifies this
      ensures WellPlaced(base, l.Flat(), w) && fs == Placed(base, l.Flat(), w)
      ensures reliable ==> AfterFirst(base, l, decode, entries, |entries|, w)
      ensures WithinFirst(base, l, decode, entries, |entries|, w)
    {
      hide WellPlaced, Placed, AfterFirst, WithinFirst, Listing;
      w := FirstPassInit(base, l, decode, entries);
      for k := 0 to |entries|
        invariant WellPlaced(base, l.Flat(), w) && fs == Placed(base, l.Flat(), w)
        invariant reliable ==> AfterFirst(base, l, decode, entries, k, w)
        invariant WithinFirst(base, l, decode, entries, k, w)
      {
        w := FirstPassEntry(base, l, decode, entries, k, w);
      }
    }

    /** Then whatever else is left. */
    method SecondPass(ghost base: FS, l: Layout, ghost decode: Decoder, entries: seq<Entry>, ghost w0: Where)
      returns (ghost w: Where)
      requires Interrupted(base, l, decode, w0) && fs == Placed(base, l.Flat(), w0)
      requires Listing(base, l.Flat(), entries)
      requires reliable ==> AfterSecond(base, l, decode, entries, 0, w0)
      modifies this
      ensures Interrupted(base, l, decode, w) && fs == Placed(base, l.Flat(), w)
      ensures reliable ==> AfterSecond(base, l, decode, entries, |entries|, w)
    {
      w := w0;
      for k := 0 to |entries|
        invariant Interrupted(base, l, decode, w) && fs == Placed(base, l.Flat(), w)
        invariant reliable ==> AfterSecond(base, l, decode, entries, k, w)
      {
        var e := entries[k];
        if reliable { SecondPassStep(base, l, decode, entries, k, w); }
        if l.Global? && e.isDir && e.name in {"dev", "cowork", "netdev"} {
          continue;
        }
        if !e.isDir && HasSuffix(e.name, JSONL) {
          continue;
        }
        InterruptedStep(base, l, decode, w, e.name);
        w := MoveName(base, l.Flat(), w, e.name, l.Dest(Dev));
      }
    }

    /** Both passes over one flat directory. Whatever renames fail, and so at whatever
        rename the process stops, every file is at its old place or at a free one where a
        pass takes it; if none fails the outcome does not depend on the order of the
        listing. */
    method MigrateFlat(l: Layout, decode: Decoder) returns (ghost w: Where)
      modifies this
      ensures Interrupted(old(fs), l, decode, w) && fs == Placed(old(fs), l.Flat(), w)
      ensures reliable ==> fs == Migrated(old(fs), l, decode)
    {
      ghost var base := fs;
      var entries := ReadDir(l.Flat());
      w := FirstPass(base, l, decode, entries);
      FirstPassLeaves(base, l, decode, entries, w);
      if reliable { FirstPassDone(base, l, decode, entries, w); }
      w := SecondPass(base, l, decode, entries, w);
      if reliable { SecondPassDone(base, l, decode, entries, w); }
    }
  }

  /** Some of the names have taken their step, the others stayed. */
  ghost predicate SomeStepped(fs: FS, flat: Dir, w: Where, names: seq<string>, d: Dir, w': Where) {
    && (forall n :: n in w' <==> n in w)
    && (forall n :: n in w ==> w'[n] == w[n] || (n in names && w[n] == flat && w'[n] == Settle(fs, flat, n, d)))
  }

  lemma NoneStepped(fs: FS, flat: Dir, w: Where, names: seq<string>, d: Dir)
    ensures SomeStepped(fs, flat, w, names, d, w)
  {
  }

  lemma SomeSteppedNext(fs: FS, flat: Dir, w: Where, names: seq<string>, d: Dir, w': Where, n: string)
    requires SomeStepped(fs, flat, w, names, d, w') && n in names
    ensures SomeStepped(fs, flat, w, names, d, Step(fs, flat, w', n, d))
  {
  }

  lemma WithinNext(fs: FS, l: Layout, decode: Decoder, entries: seq<Entry>, k: nat, w: Where)
    requires k < |entries| && WithinFirst(fs, l, decode, entries, k, w)
    ensures WithinFirst(fs, l, decode, entries, k + 1, w)
  {
    forall n | n in w
      ensures w[n] == l.Flat() || (Handled(fs, l.Flat(), entries, k + 1, n) && w[n] == FirstDir(fs, l, decode, n))
    {
      HandledNext(fs, l.Flat(), entries, k, n);
    }
  }

  /** The .meta of a session not yet visited has not been touched, whatever failed before. */
  lemma MetaWithin(fs: FS, l: Layout, decode: Decoder, entries: seq<Entry>, k: nat, w: Where)
    requires Listing(fs, l.Flat(), entries) && k < |entries|
    requires WithinFirst(fs, l, decode, entries, k, w)
    requires IsSession(fs, l.Flat(), entries[k].name)
    ensures entries[k].name + META in w ==> w[entries[k].name + META] == l.Flat()
  {
    var s := entries[k].name;
    SuffixAppend(s, META);
    SuffixesExclude(s + META);
    assert !Listed(entries, k, s);
  }

  lemma WithinVisit(fs: FS, l: Layout, decode: Decoder, entries: seq<Entry>, k: nat, w: Where, w': Where)
    requires k < |entries| && WithinFirst(fs, l, decode, entries, k, w)
    requires IsSession(fs, l.Flat(), entries[k].name)
    requires var s := entries[k].name;
             SomeStepped(fs, l.Flat(), w, [s] + Companions(s), l.Dest(ProfileForSession(fs, decode, l.Flat(), s)), w')
    ensures WithinFirst(fs, l, decode, entries, k + 1, w')
  {
    hide Handled, Companions, Settle;
    var s := entries[k].name;
    forall n | n in w'
      ensures w'[n] == l.Flat() || (Handled(fs, l.Flat(), entries, k + 1, n) && w'[n] == FirstDir(fs, l, decode, n))
    {
      HandledNext(fs, l.Flat(), entries, k, n);
      SuffixesExclude(s);
      SuffixesExclude(n);
      CompanionsOwned(s, n);
    }
  }

  lemma InterruptedStep(fs: FS, l: Layout, decode: Decoder, w: Where, n: string)
    requires Interrupted(fs, l, decode, w) && LeftOver(fs, l, n)
    ensures Interrupted(fs, l, decode, Step(fs, l.Flat(), w, n, l.Dest(Dev)))
  {
    hide FirstDir, LeftOver;
    var w' := Step(fs, l.Flat(), w, n, l.Dest(Dev));
    forall m | m in w' ensures LeftAt(fs, l, decode, m, w'[m]) {
      assert LeftAt(fs, l, decode, m, w[m]);
    }
  }

  lemma FirstPassLeaves(fs: FS, l: Layout, decode: Decoder, entries: seq<Entry>, w: Where)
    requires WellPlaced(fs, l.Flat(), w) && WithinFirst(fs, l, decode, entries, |entries|, w)
    ensures Interrupted(fs, l, decode, w)
  {
    hide FirstDir, Handled;
  }

  lemma FirstPassDone(fs: FS, l: Layout, decode: Decoder, entries: seq<Entry>, w: Where)
    requires Listing(fs, l.Flat(), entries) && WellPlaced(fs, l.Flat(), w)
    requires AfterFirst(fs, l, decode, entries, |entries|, w)
    ensures AfterSecond(fs, l, decode, entries, 0, w)
  {
    forall n | n in w ensures w[n] == FirstDir(fs, l, decode, n) {
      assert IsSession(fs, l.Flat(), n) ==> Listed(entries, |entries|, n);
      if Owner(n).Some? && IsSession(fs, l.Flat(), Owner(n).value) {
        assert Path(l.Flat(), Owner(n).value) in fs;
        assert Listed(entries, |entries|, Owner(n).value);
      }
    }
  }

  lemma ListedNext(entries: seq<Entry>, k: nat, m: string)
    requires k < |entries|
    ensures Listed(entries, k + 1, m) <==> Listed(entries, k, m) || m == entries[k].name
  {
    assert m == entries[k].name ==> Listed(entries, k + 1, m);
  }

  lemma SecondPassStep(fs: FS, l: Layout, decode: Decoder, entries: seq<Entry>, k: nat, w: Where)
    requires Listing(fs, l.Flat(), entries) && k < |entries| && WellPlaced(fs, l.Flat(), w)
    requires AfterSecond(fs, l, decode, entries, k, w)
    ensures var n := entries[k].name;
            AfterSecond(fs, l, decode, entries, k + 1,
              if LeftOver(fs, l, n) then Step(fs, l.Flat(), w, n, l.Dest(Dev)) else w)
  {
    var n := entries[k].name;
    var w' := if LeftOver(fs, l, n) then Step(fs, l.Flat(), w, n, l.Dest(Dev)) else w;
    assert !Listed(entries, k, n);
    hide Listed, Listing, FirstDir, LeftOver, WellPlaced;
    forall m | m in w'
      ensures w'[m] == if Listed(entries, k + 1, m) then FinalDir(fs, l, decode, m) else FirstDir(fs, l, decode, m)
    {
      ListedNext(entries, k, m);
    }
  }

  lemma SecondPassDone(fs: FS, l: Layout, decode: Decoder, entries: seq<Entry>, w: Where)
    requires Listing(fs, l.Flat(), entries) && WellPlaced(fs, l.Flat(), w)
    requires AfterSecond(fs, l, decode, entries, |entries|, w)
    ensures w == FinalWhere(fs, l, decode)
  {
    forall n ensures n in w <==> n in FinalWhere(fs, l, decode)
             ensures n in w ==> w[n] == FinalWhere(fs, l, decode)[n]
    {
      FinalWhereAt(fs, l, decode, n);
      assert n in w ==> Listed(entries, |entries|, n);
    }
  }

  // ---- nothing is lost ----

  lemma {:induction false} TargetsSize(w: Where)
    ensures |Targets(w)| == |w|
    decreases |w|
  {
    if n :| n in w {
      var rest := w - {n};
      TargetsSize(rest);
      forall p ensures p in Targets(w) <==> p in Targets(rest) + {Path(w[n], n)} {
        assert p.name in rest <==> p.name in w && p.name != n;
        if p.name in rest { assert rest[p.name] == w[p.name]; }
      }
      assert Targets(w) == Targets(rest) + {Path(w[n], n)};
      assert rest.Keys == w.Keys - {n} && |rest.Keys| == |rest| && |w.Keys| == |w|;
      assert Path(w[n], n) !in Targets(rest);
    } else {
      assert w == map[];
      assert Targets(w) == {};
    }
  }

  lemma PlacedKeepsFile(fs: FS, flat: Dir, w: Where, p: Path)
    requires WellPlaced(fs, flat, w) && p in fs
    ensures exists d :: Path(d, p.name) in Placed(fs, flat, w) && Placed(fs, flat, w)[Path(d, p.name)] == fs[p]
                        && (p.dir != flat ==> d == p.dir)
  {
    assert p == Path(p.dir, p.name);
    var d := if p.dir == flat then w[p.name] else p.dir;
    PlacedKeys(fs, flat, w, Path(d, p.name));
    assert Path(d, p.name) in Placed(fs, flat, w);
  }

  function Others(fs: FS, flat: Dir): set<Path> { set p | p in fs && p.dir != flat }

  lemma PlacedKeySet(fs: FS, flat: Dir, w: Where)
    requires WellPlaced(fs, flat, w)
    ensures Placed(fs, flat, w).Keys == Others(fs, flat) + Targets(w)
  {
    forall p ensures p in Placed(fs, flat, w).Keys <==> p in Others(fs, flat) + Targets(w) {
      PlacedKeys(fs, flat, w, p);
      assert p == Path(p.dir, p.name);
    }
  }

  lemma UnionSize(m: FS, a: set<Path>, b: set<Path>)
    requires m.Keys == a + b && a !! b
    ensures |m| == |a| + |b|
  {
    assert |m| == |m.Keys|;
  }

  lemma SameKeysSameSize(v: Where, w: Where)
    requires v.Keys == w.Keys
    ensures |v| == |w|
  {
    assert |v| == |v.Keys| && |w| == |w.Keys|;
  }

  lemma PlacedSize(fs: FS, flat: Dir, w: Where)
    requires WellPlaced(fs, flat, w)
    ensures |Placed(fs, flat, w)| == |fs|
  {
    var home := Home(fs, flat);
    HomeIsPlaced(fs, flat);
    hide Placed, Home;
    SameKeysSameSize(home, w);
    TargetsSize(w);
    TargetsSize(home);
    PlacedKeySet(fs, flat, w);
    PlacedKeySet(fs, flat, home);
    UnionSize(fs, Others(fs, flat), Targets(home));
    UnionSize(Placed(fs, flat, w), Others(fs, flat), Targets(w));
  }

  /** However far the passes got: every original file exists under its own name with its
      own content, one outside the flat directory is untouched, and nothing was added. */
  lemma PlacedConserves(fs: FS, flat: Dir, w: Where)
    requires WellPlaced(fs, flat, w)
    ensures forall p :: p in fs ==>
              exists d :: Path(d, p.name) in Placed(fs, flat, w) && Placed(fs, flat, w)[Path(d, p.name)] == fs[p]
                          && (p.dir != flat ==> d == p.dir)
    ensures |Placed(fs, flat, w)| == |fs|
  {
    forall p | p in fs
      ensures exists d :: Path(d, p.name) in Placed(fs, flat, w) && Placed(fs, flat, w)[Path(d, p.name)] == fs[p]
                          && (p.dir != flat ==> d == p.dir)
    {
      PlacedKeepsFile(fs, flat, w, p);
    }
    PlacedSize(fs, flat, w);
  }

  // ---- routing ----

  ghost predicate AllFree(fs: FS, l: Layout) {
    forall n, p :: Path(l.Flat(), n) in fs && l.Dest(p) != l.Flat() ==> Path(l.Dest(p), n) !in fs
  }

  lemma MigratedAt(fs: FS, l: Layout, decode: Decoder, p: Path)
    ensures var r := Migrated(fs, l, decode);
            && (p in r <==> (p.dir != l.Flat() && p in fs) ||
                            (Path(l.Flat(), p.name) in fs && FinalDir(fs, l, decode, p.name) == p.dir))
            && (p.dir != l.Flat() && p in fs ==> r[p] == fs[p])
            && (Path(l.Flat(), p.name) in fs && FinalDir(fs, l, decode, p.name) == p.dir ==>
                  r[p] == fs[Path(l.Flat(), p.name)])
  {
    FinalWhereAt(fs, l, decode, p.name);
    PlacedKeys(fs, l.Flat(), FinalWhere(fs, l, decode), p);
  }

  /** With all destinations free, each session ends in the partition named by its .meta
      and each of its companions ends beside it. */
  lemma SessionsStayTogether(fs: FS, l: Layout, decode: Decoder, session: string, name: string)
    requires AllFree(fs, l) && IsSession(fs, l.Flat(), session)
    requires name in [session] + Companions(session) && Path(l.Flat(), name) in fs
    ensures var d := l.Dest(ProfileForSession(fs, decode, l.Flat(), session));
            && Path(d, name) in Migrated(fs, l, decode)
            && Migrated(fs, l, decode)[Path(d, name)] == fs[Path(l.Flat(), name)]
  {
    var d := l.Dest(ProfileForSession(fs, decode, l.Flat(), session));
    MigratedAt(fs, l, decode, Path(d, name));
    CompanionsOwned(session, name);
    SuffixesExclude(name);
    if name != session {
      assert name in Companions(session);
    }
  }

  // ---- routing, in terms of names and files alone ----

  predicate IsFile(fs: FS, p: Path) { p in fs && fs[p].File? }

  /** The .meta of a session names a profile that reads `key` without capitals and without
      white space around it. */
  predicate MetaSays(fs: FS, decode: Decoder, dir: Dir, session: string, key: string) {
    var meta := Path(dir, session + ".meta");
    IsFile(fs, meta) && decode(fs[meta].data).Some? && ToLower(TrimSpace(decode(fs[meta].data).value)) == key
  }

  /** The session of this stem and what belongs to it. */
  function Family(stem: string): set<string> {
    {stem + ".jsonl", stem + ".jsonl.meta", stem + ".ckpt", stem + ".jsonl.telemetry.json"}
  }

  /** What was `name` in the directory `from` is in `to` now, and only there of the two. */
  predicate Ends(before: FS, after: FS, from: Dir, name: string, to: Dir) {
    && Path(from, name) in before
    && Path(to, name) in after && after[Path(to, name)] == before[Path(from, name)]
    && (to != from ==> Path(from, name) !in after)
  }

  lemma FamilyIs(stem: string)
    ensures HasSuffix(stem + ".jsonl", JSONL) && stem + ".jsonl.meta" == stem + ".jsonl" + ".meta"
    ensures forall n :: n in Family(stem) <==> n == stem + ".jsonl" || n in Companions(stem + ".jsonl")
  {
    SuffixAppend(stem, JSONL);
    assert stem + ".jsonl.meta" == stem + ".jsonl" + META;
    assert stem + ".jsonl.telemetry.json" == stem + ".jsonl" + TELEMETRY;
    hide HasSuffix, TrimSuffix;
  }

  /** Whatever the disk is like: where the first pass wants a session, where it wants what
      belongs to it, and where these end if that place is taken. */
  lemma FamilyEnds(fs: FS, l: Layout, decode: Decoder, stem: string, name: string)
    requires IsFile(fs, Path(l.Flat(), stem + ".jsonl")) && name in Family(stem) && Path(l.Flat(), name) in fs
    ensures var to := l.Dest(ProfileForSession(fs, decode, l.Flat(), stem + ".jsonl"));
            Ends(fs, Migrated(fs, l, decode), l.Flat(), name,
                 if Path(to, name) !in fs then to
                 else if name != stem + ".jsonl" && Path(l.Dest(Dev), name) !in fs then l.Dest(Dev)
                 else l.Flat())
  {
    var s := stem + ".jsonl";
    FamilyIs(stem);
    if name != s {
      CompanionFinal(fs, l, decode, s, name);
    }
    MigratedAt(fs, l, decode, Path(FinalDir(fs, l, decode, name), name));
    MigratedAt(fs, l, decode, Path(l.Flat(), name));
    hide ProfileForSession, Companions, Migrated, Family;
  }

  lemma KeyOfProfile(raw: string)
    ensures ToLower(TrimSpace(raw)) == "cowork" ==> ProfileNamed(raw) == Cowork
    ensures ToLower(TrimSpace(raw)) == "netdev" ==> ProfileNamed(raw) == NetDev
    ensures ToLower(TrimSpace(raw)) != "cowork" && ToLower(TrimSpace(raw)) != "netdev" ==> ProfileNamed(raw) == Dev
  {
    KeysDiffer();
    hide ToLower, TrimSpace;
  }

  lemma KeysDiffer()
    ensures "cowork" != "netdev"
  {
    assert "cowork"[0] != "netdev"[0];
  }

  lemma ProfileSays(fs: FS, decode: Decoder, dir: Dir, s: string)
    ensures ProfileForSession(fs, decode, dir, s) ==
            if MetaSays(fs, decode, dir, s, "cowork") then Cowork
            else if MetaSays(fs, decode, dir, s, "netdev") then NetDev else Dev
  {
    var meta := Path(dir, s + ".meta");
    if IsFile(fs, meta) && decode(fs[meta].data).Some? {
      KeyOfProfile(decode(fs[meta].data).value);
    }
    hide ToLower, TrimSpace, ProfileNamed;
  }

  /** A global session named "cowork" or "netdev" by its .meta ends in the partition of that
      name, and so does each file that belongs to it, unless a file of its name is there; all
      other sessions stay. */
  lemma GlobalSessionEnds(fs: FS, decode: Decoder, stem: string, name: string)
    requires IsFile(fs, Path(Sessions, stem + ".jsonl")) && name in Family(stem) && Path(Sessions, name) in fs
    ensures var to := if MetaSays(fs, decode, Sessions, stem + ".jsonl", "cowork") then Partition(Cowork)
                      else if MetaSays(fs, decode, Sessions, stem + ".jsonl", "netdev") then Partition(NetDev)
                      else Sessions;
            Ends(fs, Migrated(fs, Global, decode), Sessions, name, if Path(to, name) in fs then Sessions else to)
  {
    FamilyEnds(fs, Global, decode, stem, name);
    ProfileSays(fs, decode, Sessions, stem + ".jsonl");
    hide MetaSays, Family, Migrated, Ends, ProfileForSession, IsFile;
  }

  /** The same for a project, whose dev sessions have a partition of their own, which also
      takes what belongs to a session and finds its place taken. */
  lemma ProjectSessionEnds(fs: FS, slug: string, decode: Decoder, stem: string, name: string)
    requires IsFile(fs, Path(Project(slug), stem + ".jsonl"))
    requires name in Family(stem) && Path(Project(slug), name) in fs
    ensures var session := stem + ".jsonl"; var dev := ProjectPartition(slug, Dev);
            var to := if MetaSays(fs, decode, Project(slug), session, "cowork") then ProjectPartition(slug, Cowork)
                      else if MetaSays(fs, decode, Project(slug), session, "netdev") then ProjectPartition(slug, NetDev)
                      else dev;
            Ends(fs, Migrated(fs, OfProject(slug), decode), Project(slug), name,
                 if Path(to, name) !in fs then to
                 else if name != session && Path(dev, name) !in fs then dev else Project(slug))
  {
    FamilyEnds(fs, OfProject(slug), decode, stem, name);
    ProfileSays(fs, decode, Project(slug), stem + ".jsonl");
    hide MetaSays, Family, Migrated, Ends, ProfileForSession, IsFile;
  }

  /** What belongs to no session of the directory stays in the global one and goes to dev in
      a project; so does a folder, whatever it is called. */
  lemma OtherNameEnds(fs: FS, l: Layout, decode: Decoder, name: string)
    requires Path(l.Flat(), name) in fs
    requires forall stem :: name in Family(stem) ==> !IsFile(fs, Path(l.Flat(), stem + ".jsonl"))
    ensures match l
            case Global => Ends(fs, Migrated(fs, l, decode), Sessions, name, Sessions)
            case OfProject(slug) =>
              var dev := ProjectPartition(slug, Dev);
              Ends(fs, Migrated(fs, l, decode), Project(slug), name,
                   if Path(dev, name) in fs then Project(slug) else dev)
  {
    NoFamily(fs, l, name);
    assert FirstDir(fs, l, decode, name) == l.Flat();
    MigratedAt(fs, l, decode, Path(FinalDir(fs, l, decode, name), name));
    MigratedAt(fs, l, decode, Path(l.Flat(), name));
    hide Migrated, Family, ProfileForSession;
  }

  lemma NoFamily(fs: FS, l: Layout, name: string)
    requires Path(l.Flat(), name) in fs
    requires forall stem :: name in Family(stem) ==> !IsFile(fs, Path(l.Flat(), stem + ".jsonl"))
    ensures !IsSession(fs, l.Flat(), name)
    ensures Owner(name).Some? ==> !IsSession(fs, l.Flat(), Owner(name).value)
  {
    if HasSuffix(name, JSONL) {
      InFamily(TrimSuffix(name, JSONL), name, name);
    }
    if Owner(name).Some? && HasSuffix(Owner(name).value, JSONL) {
      InFamily(TrimSuffix(Owner(name).value, JSONL), Owner(name).value, name);
    }
  }

  lemma InFamily(stem: string, session: string, name: string)
    requires HasSuffix(session, JSONL) && stem == TrimSuffix(session, JSONL)
    requires name == session || Owner(name) == Some(session)
    ensures name in Family(stem) && session == stem + ".jsonl"
  {
    FamilyIs(stem);
    SuffixSplit(session, JSONL);
    if name != session {
      CompanionsOwned(session, name);
    }
    hide Family, Companions, Owner, HasSuffix, TrimSuffix;
  }

  /** Outside the flat directory every file stays as it is. */
  lemma OthersUntouched(fs: FS, l: Layout, decode: Decoder, p: Path)
    requires p in fs && p.dir != l.Flat()
    ensures p in Migrated(fs, l, decode) && Migrated(fs, l, decode)[p] == fs[p]
  {
    MigratedAt(fs, l, decode, p);
  }

  // ---- running again ----

  predicate Moved(l: Layout, w: Where, n: string) { n in w && w[n] != l.Flat() }

  /** The profile of a session by its .meta, wherever that is now. */
  function CarriedProfile(r: FS, l: Layout, decode: Decoder, w: Where, s: string): Profile {
    ProfileForSession(r, decode, if s + META in w then w[s + META] else l.Flat(), s)
  }

  /** The session is still in the flat directory, its .meta is not, and there is a place to
      which the next run takes the session or should take it. */
  predicate Misled(r: FS, l: Layout, w: Where, s: string, p: Profile) {
    && !Moved(l, w, s) && Moved(l, w, s + META)
    && (Path(l.Dest(p), s) !in r || (l.Dest(Dev) != l.Flat() && Path(l.Dest(Dev), s) !in r))
  }

  /** The companion is not in the session's partition, though there is room for it, and the
      session, its .meta or the companion itself has moved. */
  predicate LeftBehind(r: FS, l: Layout, w: Where, s: string, p: Profile, n: string) {
    n in w && Path(l.Dest(p), n) !in r && (Moved(l, w, s) || Moved(l, w, s + META) || Moved(l, w, n))
  }

  /** On the disk `r` that the next run finds, with the names of the flat directory at the
      places `w`: a session of a partition other than dev has been separated from its .meta
      or from a companion. */
  ghost predicate Torn(r: FS, l: Layout, decode: Decoder, w: Where, s: string) {
    && s in w && IsSession(r, w[s], s)
    && var p := CarriedProfile(r, l, decode, w, s);
       p != Dev && (Misled(r, l, w, s, p) || exists n :: n in Companions(s) && LeftBehind(r, l, w, s, p, n))
  }

  lemma FoundAt(fs: FS, l: Layout, decode: Decoder, w: Where, n: string, d: Dir)
    requires Interrupted(fs, l, decode, w)
    ensures var r := Placed(fs, l.Flat(), w);
            && (Path(d, n) in r <==> (d != l.Flat() && Path(d, n) in fs) || (n in w && w[n] == d))
            && (n in w && w[n] == d ==> r[Path(d, n)] == fs[Path(l.Flat(), n)])
            && (d != l.Flat() && Path(d, n) in fs ==> r[Path(d, n)] == fs[Path(d, n)])
    ensures n in w <==> Path(l.Flat(), n) in fs
    ensures n in w ==> w[n] == l.Flat() || Path(w[n], n) !in fs
  {
    PlacedKeys(fs, l.Flat(), w, Path(d, n));
  }

  lemma FoundSession(fs: FS, l: Layout, decode: Decoder, w: Where, s: string)
    requires Interrupted(fs, l, decode, w)
    ensures var r := Placed(fs, l.Flat(), w);
            && (IsSession(r, l.Flat(), s) <==> IsSession(fs, l.Flat(), s) && !Moved(l, w, s))
            && (s in w ==> (IsSession(r, w[s], s) <==> IsSession(fs, l.Flat(), s)))
  {
    hide Placed, Interrupted;
    FoundAt(fs, l, decode, w, s, l.Flat());
    if s in w {
      FoundAt(fs, l, decode, w, s, w[s]);
    }
  }

  /** What the next run reads of a session in the flat directory, and what it should read. */
  lemma FoundProfile(fs: FS, l: Layout, decode: Decoder, w: Where, s: string)
    requires Interrupted(fs, l, decode, w)
    ensures var r := Placed(fs, l.Flat(), w); var p := ProfileForSession(fs, decode, l.Flat(), s);
            && ProfileForSession(r, decode, l.Flat(), s) == (if Moved(l, w, s + META) then Dev else p)
            && CarriedProfile(r, l, decode, w, s) == p
  {
    hide Placed, Interrupted;
    var meta := s + META;
    FoundAt(fs, l, decode, w, meta, l.Flat());
    FoundAt(fs, l, decode, w, meta, if meta in w then w[meta] else l.Flat());
  }

  lemma FoundSettle(fs: FS, l: Layout, decode: Decoder, w: Where, n: string, d: Dir)
    requires Interrupted(fs, l, decode, w) && n in w && w[n] == l.Flat()
    ensures var r := Placed(fs, l.Flat(), w);
            && Settle(r, l.Flat(), n, d) == Settle(fs, l.Flat(), n, d)
            && (LeftOver(r, l, n) <==> LeftOver(fs, l, n))
            && (d != l.Flat() ==> (Path(d, n) in r <==> Path(d, n) in fs))
  {
    hide Placed, Interrupted;
    FoundSession(fs, l, decode, w, n);
    FoundAt(fs, l, decode, w, n, d);
    FoundAt(fs, l, decode, w, n, l.Flat());
  }

  /** Where a name is after the next run. */
  function EndDir(fs: FS, l: Layout, decode: Decoder, w: Where, n: string): Dir
    requires n in w
  {
    if w[n] != l.Flat() then w[n] else FinalDir(Placed(fs, l.Flat(), w), l, decode, n)
  }

  lemma SessionEnds(fs: FS, l: Layout, decode: Decoder, w: Where, s: string)
    requires Interrupted(fs, l, decode, w) && s in w && IsSession(fs, l.Flat(), s)
    ensures var p := ProfileForSession(fs, decode, l.Flat(), s);
            EndDir(fs, l, decode, w, s) != FinalDir(fs, l, decode, s) <==>
            p != Dev && Misled(Placed(fs, l.Flat(), w), l, w, s, p)
  {
    var p := ProfileForSession(fs, decode, l.Flat(), s);
    FoundSession(fs, l, decode, w, s);
    FoundProfile(fs, l, decode, w, s);
    assert LeftAt(fs, l, decode, s, w[s]);
    if w[s] == l.Flat() {
      FoundSettle(fs, l, decode, w, s, l.Dest(p));
      FoundSettle(fs, l, decode, w, s, l.Dest(Dev));
    }
    hide Placed, Interrupted, ProfileForSession;
  }

  lemma OwnedEnding(name: string)
    ensures Owner(name).Some? ==> name != [] && name[|name| - 1] in {'a', 't', 'n'}
  {
    assert HasSuffix(name, META) ==> name[|name| - 1] == META[4];
    assert HasSuffix(name, CKPT) ==> name[|name| - 1] == CKPT[4];
    assert HasSuffix(name, TELEMETRY) ==> name[|name| - 1] == TELEMETRY[14];
  }

  /** Where a companion of a session should end. */
  lemma CompanionFinal(fs: FS, l: Layout, decode: Decoder, s: string, n: string)
    requires IsSession(fs, l.Flat(), s) && n in Companions(s) && Path(l.Flat(), n) in fs
    ensures !IsSession(fs, l.Flat(), n) && LeftOver(fs, l, n) && Owner(n) == Some(s)
    ensures var d := l.Dest(ProfileForSession(fs, decode, l.Flat(), s));
            && FirstDir(fs, l, decode, n) == Settle(fs, l.Flat(), n, d)
            && FinalDir(fs, l, decode, n) == if Settle(fs, l.Flat(), n, d) != l.Flat() then Settle(fs, l.Flat(), n, d)
                                             else Settle(fs, l.Flat(), n, l.Dest(Dev))
  {
    CompanionsOwned(s, n);
    SuffixesExclude(n);
    OwnedEnding(n);
    hide ProfileForSession, Settle, Companions;
  }

  /** What the next run does with a companion that is still there. */
  lemma CompanionRerun(fs: FS, l: Layout, decode: Decoder, w: Where, s: string, n: string)
    requires Interrupted(fs, l, decode, w) && IsSession(fs, l.Flat(), s) && n in Companions(s) && n in w
    requires w[n] == l.Flat()
    ensures var p := ProfileForSession(fs, decode, l.Flat(), s); var dev := Settle(fs, l.Flat(), n, l.Dest(Dev));
            var own := Settle(fs, l.Flat(), n, l.Dest(p));
            FinalDir(Placed(fs, l.Flat(), w), l, decode, n) ==
              if Moved(l, w, s) || Moved(l, w, s + META) then dev else if own != l.Flat() then own else dev
  {
    var r := Placed(fs, l.Flat(), w);
    CompanionFinal(fs, l, decode, s, n);
    FoundSession(fs, l, decode, w, s);
    FoundSession(fs, l, decode, w, n);
    FoundProfile(fs, l, decode, w, s);
    FoundSettle(fs, l, decode, w, n, l.Dest(ProfileForSession(fs, decode, l.Flat(), s)));
    FoundSettle(fs, l, decode, w, n, l.Dest(Dev));
    hide Placed, Interrupted, ProfileForSession, Settle, Companions, Owner, LeftOver, IsSession;
  }

  lemma CompanionEnds(fs: FS, l: Layout, decode: Decoder, w: Where, s: string, n: string)
    requires Interrupted(fs, l, decode, w) && IsSession(fs, l.Flat(), s) && n in Companions(s) && n in w
    ensures var p := ProfileForSession(fs, decode, l.Flat(), s);
            EndDir(fs, l, decode, w, n) != FinalDir(fs, l, decode, n) <==>
            p != Dev && LeftBehind(Placed(fs, l.Flat(), w), l, w, s, p, n)
  {
    var p := ProfileForSession(fs, decode, l.Flat(), s);
    CompanionFinal(fs, l, decode, s, n);
    FoundAt(fs, l, decode, w, n, l.Dest(p));
    assert LeftAt(fs, l, decode, n, w[n]);
    if w[n] == l.Flat() {
      CompanionRerun(fs, l, decode, w, s, n);
    }
    hide Placed, Interrupted, ProfileForSession, Companions, Owner, LeftOver, IsSession, FirstDir, FinalDir;
  }

  /** A name that is neither a session nor the companion of one ends where it should. */
  lemma OtherEnds(fs: FS, l: Layout, decode: Decoder, w: Where, n: string)
    requires Interrupted(fs, l, decode, w) && n in w && !IsSession(fs, l.Flat(), n)
    requires Owner(n).Some? ==> !IsSession(fs, l.Flat(), Owner(n).value)
    ensures EndDir(fs, l, decode, w, n) == FinalDir(fs, l, decode, n)
  {
    assert LeftAt(fs, l, decode, n, w[n]);
    FoundSession(fs, l, decode, w, n);
    if Owner(n).Some? {
      FoundSession(fs, l, decode, w, Owner(n).value);
    }
    if w[n] == l.Flat() {
      FoundSettle(fs, l, decode, w, n, l.Dest(Dev));
    }
    hide Placed, Interrupted, ProfileForSession, Owner, LeftOver, IsSession;
  }

  /** The next run succeeds if it takes every name where the first one would have. */
  lemma SameEnds(fs: FS, l: Layout, decode: Decoder, w: Where)
    requires Interrupted(fs, l, decode, w)
    ensures Migrated(Placed(fs, l.Flat(), w), l, decode) == Migrated(fs, l, decode) <==>
            forall n :: n in w ==> EndDir(fs, l, decode, w, n) == FinalDir(fs, l, decode, n)
  {
    hide Placed, Interrupted, Migrated, EndDir, FinalDir;
    var again, once := Migrated(Placed(fs, l.Flat(), w), l, decode), Migrated(fs, l, decode);
    if forall n :: n in w ==> EndDir(fs, l, decode, w, n) == FinalDir(fs, l, decode, n) {
      forall p ensures (p in again <==> p in once) && (p in again ==> again[p] == once[p]) {
        EndsAt(fs, l, decode, w, p.name, p.dir);
        assert p == Path(p.dir, p.name);
      }
    }
    if again == once {
      forall n | n in w ensures EndDir(fs, l, decode, w, n) == FinalDir(fs, l, decode, n) {
        SameDiskSameEnd(fs, l, decode, w, n);
      }
    }
  }

  lemma SameDiskSameEnd(fs: FS, l: Layout, decode: Decoder, w: Where, n: string)
    requires Interrupted(fs, l, decode, w) && n in w
    requires Migrated(Placed(fs, l.Flat(), w), l, decode) == Migrated(fs, l, decode)
    ensures EndDir(fs, l, decode, w, n) == FinalDir(fs, l, decode, n)
  {
    hide Placed, Interrupted, Migrated, EndDir, FinalDir;
    EndsAt(fs, l, decode, w, n, EndDir(fs, l, decode, w, n));
    EndsAt(fs, l, decode, w, n, FinalDir(fs, l, decode, n));
    FinalFree(fs, l, decode, n);
  }

  lemma FinalFree(fs: FS, l: Layout, decode: Decoder, n: string)
    ensures FinalDir(fs, l, decode, n) == l.Flat() || Path(FinalDir(fs, l, decode, n), n) !in fs
  {
    hide ProfileForSession, IsSession, Owner, LeftOver;
  }

  lemma EndsAt(fs: FS, l: Layout, decode: Decoder, w: Where, n: string, d: Dir)
    requires Interrupted(fs, l, decode, w)
    ensures var again := Migrated(Placed(fs, l.Flat(), w), l, decode);
            && (Path(d, n) in again <==>
                  (d != l.Flat() && Path(d, n) in fs) || (n in w && EndDir(fs, l, decode, w, n) == d))
            && (d != l.Flat() && Path(d, n) in fs ==> again[Path(d, n)] == fs[Path(d, n)])
            && (n in w && EndDir(fs, l, decode, w, n) == d ==> again[Path(d, n)] == fs[Path(l.Flat(), n)])
    ensures var once := Migrated(fs, l, decode);
            && (Path(d, n) in once <==>
                  (d != l.Flat() && Path(d, n) in fs) || (n in w && FinalDir(fs, l, decode, n) == d))
            && (d != l.Flat() && Path(d, n) in fs ==> once[Path(d, n)] == fs[Path(d, n)])
            && (n in w && FinalDir(fs, l, decode, n) == d ==> once[Path(d, n)] == fs[Path(l.Flat(), n)])
  {
    hide Placed, Interrupted, Migrated, FinalDir;
    var r := Placed(fs, l.Flat(), w);
    MigratedAt(fs, l, decode, Path(d, n));
    MigratedAt(r, l, decode, Path(d, n));
    FoundAt(fs, l, decode, w, n, d);
    FoundAt(fs, l, decode, w, n, l.Flat());
  }

  /** Running the passes again after a run that stopped, or in which renames failed, makes
      of the disk what an undisturbed run would have made of it, if and only if the first
      one tore no session. Whether they do run again the marker decides. */
  lemma ResumeIff(fs: FS, l: Layout, decode: Decoder, w: Where)
    requires Interrupted(fs, l, decode, w)
    ensures Migrated(Placed(fs, l.Flat(), w), l, decode) == Migrated(fs, l, decode) <==>
            forall s :: !Torn(Placed(fs, l.Flat(), w), l, decode, w, s)
  {
    hide Placed, Interrupted, Migrated, EndDir, FinalDir, Misled, LeftBehind, CarriedProfile;
    var r := Placed(fs, l.Flat(), w);
    SameEnds(fs, l, decode, w);
    forall s ensures Torn(r, l, decode, w, s) <==> WrongEnd(fs, l, decode, w, s) {
      TornEnds(fs, l, decode, w, s);
    }
    if forall s :: !WrongEnd(fs, l, decode, w, s) {
      forall n | n in w ensures EndDir(fs, l, decode, w, n) == FinalDir(fs, l, decode, n) {
        EndsRight(fs, l, decode, w, n);
      }
    }
  }

  /** The session or one of its companions ends elsewhere than it should. */
  ghost predicate WrongEnd(fs: FS, l: Layout, decode: Decoder, w: Where, s: string) {
    && s in w && IsSession(fs, l.Flat(), s)
    && (EndDir(fs, l, decode, w, s) != FinalDir(fs, l, decode, s) ||
        exists n :: n in Companions(s) && n in w && EndDir(fs, l, decode, w, n) != FinalDir(fs, l, decode, n))
  }

  lemma TornEnds(fs: FS, l: Layout, decode: Decoder, w: Where, s: string)
    requires Interrupted(fs, l, decode, w)
    ensures Torn(Placed(fs, l.Flat(), w), l, decode, w, s) <==> WrongEnd(fs, l, decode, w, s)
  {
    hide Placed, Interrupted, EndDir, FinalDir, Misled, CarriedProfile, Companions, ProfileForSession;
    FoundSession(fs, l, decode, w, s);
    FoundProfile(fs, l, decode, w, s);
    if s in w && IsSession(fs, l.Flat(), s) {
      SessionEnds(fs, l, decode, w, s);
      forall n | n in Companions(s) && n in w
        ensures EndDir(fs, l, decode, w, n) != FinalDir(fs, l, decode, n) <==>
                var p := ProfileForSession(fs, decode, l.Flat(), s);
                p != Dev && LeftBehind(Placed(fs, l.Flat(), w), l, w, s, p, n)
      {
        CompanionEnds(fs, l, decode, w, s, n);
      }
    }
  }

  lemma EndsRight(fs: FS, l: Layout, decode: Decoder, w: Where, n: string)
    requires Interrupted(fs, l, decode, w) && n in w && forall s :: !WrongEnd(fs, l, decode, w, s)
    ensures EndDir(fs, l, decode, w, n) == FinalDir(fs, l, decode, n)
  {
    hide Placed, EndDir, FinalDir, Companions;
    if IsSession(fs, l.Flat(), n) {
      assert !WrongEnd(fs, l, decode, w, n);
    } else if Owner(n).Some? && IsSession(fs, l.Flat(), Owner(n).value) {
      var s := Owner(n).value;
      CompanionsOwned(s, n);
      assert s in w && !WrongEnd(fs, l, decode, w, s);
    } else {
      OtherEnds(fs, l, decode, w, n);
    }
  }

  /** A session of a project whose own place is taken, whose place in the dev partition is
      free, and whose .meta can go to either. */
  predicate Stranded(fs: FS, l: Layout, decode: Decoder, s: string) {
    && l.OfProject? && IsSession(fs, l.Flat(), s)
    && var p := ProfileForSession(fs, decode, l.Flat(), s);
       && p != Dev && Path(l.Dest(p), s) in fs && Path(l.Dest(Dev), s) !in fs
       && Path(l.Flat(), s + META) in fs
       && (Path(l.Dest(p), s + META) !in fs || Path(l.Dest(Dev), s + META) !in fs)
  }

  lemma FinalInterrupted(fs: FS, l: Layout, decode: Decoder)
    ensures Interrupted(fs, l, decode, FinalWhere(fs, l, decode))
  {
    var w := FinalWhere(fs, l, decode);
    forall n ensures n in w ==> LeftAt(fs, l, decode, n, w[n]) {
      FinalWhereAt(fs, l, decode, n);
    }
    if n :| n in w {
      FinalWhereAt(fs, l, decode, n);
    } else {
      FinalWhereAt(fs, l, decode, "");
    }
  }

  /** A complete run leaves no companion behind. */
  lemma NoneLeftBehind(fs: FS, l: Layout, decode: Decoder, s: string, n: string)
    requires IsSession(fs, l.Flat(), s) && n in Companions(s)
    requires ProfileForSession(fs, decode, l.Flat(), s) != Dev
    ensures !LeftBehind(Migrated(fs, l, decode), l, FinalWhere(fs, l, decode), s,
                        ProfileForSession(fs, decode, l.Flat(), s), n)
  {
    hide Placed, Interrupted, ProfileForSession, Companions, FinalDir, FirstDir;
    var w, p := FinalWhere(fs, l, decode), ProfileForSession(fs, decode, l.Flat(), s);
    FinalInterrupted(fs, l, decode);
    FinalWhereAt(fs, l, decode, n);
    FoundAt(fs, l, decode, w, n, l.Dest(p));
    if n in w {
      CompanionFinal(fs, l, decode, s, n);
    }
  }

  lemma MisledWhenStranded(fs: FS, l: Layout, decode: Decoder, s: string)
    requires IsSession(fs, l.Flat(), s) && ProfileForSession(fs, decode, l.Flat(), s) != Dev
    ensures Misled(Migrated(fs, l, decode), l, FinalWhere(fs, l, decode), s, ProfileForSession(fs, decode, l.Flat(), s))
            <==> Stranded(fs, l, decode, s)
  {
    hide Placed, Interrupted, ProfileForSession;
    var w, p := FinalWhere(fs, l, decode), ProfileForSession(fs, decode, l.Flat(), s);
    FinalInterrupted(fs, l, decode);
    FinalWhereAt(fs, l, decode, s);
    FinalWhereAt(fs, l, decode, s + META);
    FoundAt(fs, l, decode, w, s, l.Dest(p));
    FoundAt(fs, l, decode, w, s, l.Dest(Dev));
    assert FinalDir(fs, l, decode, s) == Settle(fs, l.Flat(), s, l.Dest(p));
    if s + META in w {
      assert s + META in Companions(s);
      CompanionFinal(fs, l, decode, s, s + META);
    }
    hide FinalDir, FirstDir, FinalWhere, Migrated, IsSession, Companions;
  }

  lemma TornWhenStranded(fs: FS, l: Layout, decode: Decoder, s: string)
    ensures Torn(Migrated(fs, l, decode), l, decode, FinalWhere(fs, l, decode), s) <==> Stranded(fs, l, decode, s)
  {
    hide Placed, Interrupted, CarriedProfile, Companions, FinalWhere, Misled, LeftBehind, ProfileForSession;
    var w, p := FinalWhere(fs, l, decode), ProfileForSession(fs, decode, l.Flat(), s);
    FinalInterrupted(fs, l, decode);
    FinalWhereAt(fs, l, decode, s);
    FoundSession(fs, l, decode, w, s);
    FoundProfile(fs, l, decode, w, s);
    if IsSession(fs, l.Flat(), s) && p != Dev {
      MisledWhenStranded(fs, l, decode, s);
      forall n | n in Companions(s) ensures !LeftBehind(Migrated(fs, l, decode), l, w, s, p, n) {
        NoneLeftBehind(fs, l, decode, s, n);
      }
    }
  }

  /** Running both passes a second time changes nothing more if and only if the first time
      stranded no session. */
  lemma RerunIsNoopIff(fs: FS, l: Layout, decode: Decoder)
    ensures Migrated(Migrated(fs, l, decode), l, decode) == Migrated(fs, l, decode) <==>
            forall s :: !Stranded(fs, l, decode, s)
  {
    hide Placed, Torn, Stranded, Interrupted;
    FinalInterrupted(fs, l, decode);
    ResumeIff(fs, l, decode, FinalWhere(fs, l, decode));
    forall s
      ensures Torn(Migrated(fs, l, decode), l, decode, FinalWhere(fs, l, decode), s) <==> Stranded(fs, l, decode, s)
    {
      TornWhenStranded(fs, l, decode, s);
    }
  }

  lemma FreeIsIdempotent(fs: FS, l: Layout, decode: Decoder)
    requires AllFree(fs, l)
    ensures Migrated(Migrated(fs, l, decode), l, decode) == Migrated(fs, l, decode)
  {
    forall s ensures !Stranded(fs, l, decode, s) {
      var p := ProfileForSession(fs, decode, l.Flat(), s);
      assert IsSession(fs, l.Flat(), s) && l.Dest(p) != l.Flat() ==> Path(l.Dest(p), s) !in fs;
    }
    RerunIsNoopIff(fs, l, decode);
  }

  /** Free destinations do not help a run that stops: after the first rename of a session
      that is not of the dev profile, its .meta still being where it was, running the passes
      again files the .meta under dev and leaves the session in its own partition. */
  lemma StopSplitsSession(fs: FS, l: Layout, decode: Decoder, s: string, w: Where)
    requires AllFree(fs, l) && IsSession(fs, l.Flat(), s) && Path(l.Flat(), s + META) in fs
    requires ProfileForSession(fs, decode, l.Flat(), s) != Dev
    requires w == Home(fs, l.Flat())[s := l.Dest(ProfileForSession(fs, decode, l.Flat(), s))]
    ensures Interrupted(fs, l, decode, w)
    ensures var p := ProfileForSession(fs, decode, l.Flat(), s); var r := Placed(fs, l.Flat(), w);
            && Path(l.Dest(p), s) in Migrated(r, l, decode) && Path(l.Dest(Dev), s + META) in Migrated(r, l, decode)
            && Torn(r, l, decode, w, s) && Migrated(r, l, decode) != Migrated(fs, l, decode)
  {
    var r, p, meta := Placed(fs, l.Flat(), w), ProfileForSession(fs, decode, l.Flat(), s), s + META;
    FirstRename(fs, l, decode, s, w);
    hide Placed, Interrupted, ProfileForSession, FinalDir, FirstDir, Migrated, Home, IsSession, Owner;
    assert meta in Companions(s);
    FoundAt(fs, l, decode, w, meta, l.Dest(p));
    FoundProfile(fs, l, decode, w, s);
    FoundSession(fs, l, decode, w, s);
    CompanionRerun(fs, l, decode, w, s, meta);
    EndsAt(fs, l, decode, w, s, l.Dest(p));
    EndsAt(fs, l, decode, w, meta, l.Dest(Dev));
    assert LeftBehind(r, l, w, s, p, meta);
    ResumeIff(fs, l, decode, w);
  }

  lemma FirstRename(fs: FS, l: Layout, decode: Decoder, s: string, w: Where)
    requires AllFree(fs, l) && IsSession(fs, l.Flat(), s) && Path(l.Flat(), s + META) in fs
    requires ProfileForSession(fs, decode, l.Flat(), s) != Dev
    requires w == Home(fs, l.Flat())[s := l.Dest(ProfileForSession(fs, decode, l.Flat(), s))]
    ensures Interrupted(fs, l, decode, w)
    ensures s in w && s + META in w && w[s] == l.Dest(ProfileForSession(fs, decode, l.Flat(), s)) != l.Flat()
    ensures w[s + META] == l.Flat()
  {
    hide Placed, FirstDir, ProfileForSession, Home, IsSession, LeftOver, AllFree;
    var p := ProfileForSession(fs, decode, l.Flat(), s);
    FreeFirst(fs, l, decode, s);
    HomeIsPlaced(fs, l.Flat());
    HomeAt(fs, l.Flat());
    OneMoved(fs, l.Flat(), Home(fs, l.Flat()), s, l.Dest(p));
    assert |s + META| > |s|;
    forall n | n in w ensures LeftAt(fs, l, decode, n, w[n]) {
      assert n != s ==> w[n] == l.Flat();
    }
  }

  lemma FreeFirst(fs: FS, l: Layout, decode: Decoder, s: string)
    requires AllFree(fs, l) && IsSession(fs, l.Flat(), s) && ProfileForSession(fs, decode, l.Flat(), s) != Dev
    ensures var d := l.Dest(ProfileForSession(fs, decode, l.Flat(), s));
            d != l.Flat() && Path(d, s) !in fs && FirstDir(fs, l, decode, s) == d && Path(l.Flat(), s) in fs
  {
    hide ProfileForSession;
  }

  lemma OneMoved(fs: FS, flat: Dir, w: Where, s: string, d: Dir)
    requires WellPlaced(fs, flat, w) && s in w && Path(d, s) !in fs
    ensures WellPlaced(fs, flat, w[s := d])
  {
  }

  lemma HomeAt(fs: FS, flat: Dir)
    ensures forall n :: n in Home(fs, flat) ==> Home(fs, flat)[n] == flat
  {
  }

  /** The claim that running again is harmless fails on a half-migrated disk: a cowork session of
      a project whose place in the cowork partition is taken stays where it is, its .meta
      does not, and the rerun takes the session for a dev one. */
  lemma TakenPlaceStrands(fs: FS, slug: string, decode: Decoder, s: string)
    requires IsSession(fs, Project(slug), s)
    requires ProfileForSession(fs, decode, Project(slug), s) == Cowork
    requires Path(ProjectPartition(slug, Cowork), s) in fs && Path(ProjectPartition(slug, Cowork), s + META) !in fs
    requires Path(ProjectPartition(slug, Dev), s) !in fs
    ensures Stranded(fs, OfProject(slug), decode, s)
    ensures Path(ProjectPartition(slug, Dev), s) in
            Migrated(Migrated(fs, OfProject(slug), decode), OfProject(slug), decode)
  {
    var l := OfProject(slug);
    SuffixAppend(s, META);
    SuffixesExclude(s + META);
    var r := Migrated(fs, l, decode);
    MigratedAt(fs, l, decode, Path(l.Flat(), s));
    MigratedAt(fs, l, decode, Path(l.Flat(), s + META));
    MigratedAt(fs, l, decode, Path(l.Dest(Dev), s));
    assert FinalDir(r, l, decode, s) == l.Dest(Dev);
    MigratedAt(r, l, decode, Path(l.Dest(Dev), s));
  }
}
