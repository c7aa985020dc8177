/** The profile migration as a whole (`desktop/migrate_profile.go`): every flat directory in
    turn, the marker that makes it a thing of one launch, and the repair of the paths that
    tabs remember. */
module WholeMigration {
  import opened GoStrings
  import opened MigrateProfile
  import SidecarMerge

  // ---- each flat directory is migrated on its own ----

  /** The directories that the migration of one flat directory reads or changes. */
  predicate InZone(l: Layout, d: Dir) { d in {l.Flat(), l.Dest(Dev), l.Dest(Cowork), l.Dest(NetDev)} }

  predicate SameAt(a: FS, b: FS, p: Path) { (p in a <==> p in b) && (p in a ==> a[p] == b[p]) }

  ghost predicate AgreeIn(a: FS, b: FS, l: Layout) { forall p: Path :: InZone(l, p.dir) ==> SameAt(a, b, p) }

  lemma ZonesApart(k: Layout, l: Layout, d: Dir)
    requires k != l && InZone(k, d)
    ensures !InZone(l, d)
  {
  }

  lemma DestInZone(l: Layout, p: Profile)
    ensures InZone(l, l.Dest(p)) && InZone(l, l.Flat())
  {
  }

  lemma LocalSession(a: FS, b: FS, l: Layout, decode: Decoder, s: string)
    requires AgreeIn(a, b, l)
    ensures IsSession(a, l.Flat(), s) <==> IsSession(b, l.Flat(), s)
    ensures forall d :: InZone(l, d) ==> ProfileForSession(a, decode, d, s) == ProfileForSession(b, decode, d, s)
    ensures LeftOver(a, l, s) <==> LeftOver(b, l, s)
  {
    DestInZone(l, Dev);
    assert SameAt(a, b, Path(l.Flat(), s));
    hide InZone;
    forall d | InZone(l, d) ensures ProfileForSession(a, decode, d, s) == ProfileForSession(b, decode, d, s) {
      assert SameAt(a, b, Path(d, s + META));
    }
  }

  lemma LocalSettle(a: FS, b: FS, l: Layout, n: string, p: Profile)
    requires AgreeIn(a, b, l)
    ensures Settle(a, l.Flat(), n, l.Dest(p)) == Settle(b, l.Flat(), n, l.Dest(p))
  {
    DestInZone(l, p);
    assert SameAt(a, b, Path(l.Dest(p), n));
  }

  lemma LocalFinal(a: FS, b: FS, l: Layout, decode: Decoder, n: string)
    requires AgreeIn(a, b, l)
    ensures FirstDir(a, l, decode, n) == FirstDir(b, l, decode, n)
    ensures FinalDir(a, l, decode, n) == FinalDir(b, l, decode, n)
  {
    hide AgreeIn, InZone, IsSession, ProfileForSession, LeftOver, Settle;
    DestInZone(l, Dev);
    LocalSession(a, b, l, decode, n);
    LocalSettle(a, b, l, n, ProfileForSession(a, decode, l.Flat(), n));
    LocalSettle(a, b, l, n, Dev);
    if Owner(n).Some? {
      LocalSession(a, b, l, decode, Owner(n).value);
      LocalSettle(a, b, l, n, ProfileForSession(a, decode, l.Flat(), Owner(n).value));
    }
  }

  lemma PlaceInZone(fs: FS, l: Layout, decode: Decoder, w: Where, n: string)
    requires Interrupted(fs, l, decode, w) && n in w
    ensures InZone(l, w[n])
  {
    assert LeftAt(fs, l, decode, n, w[n]);
    hide InZone, Interrupted, FirstDir, LeftOver;
    DestInZone(l, Dev);
    FirstInZone(fs, l, decode, n);
  }

  lemma FirstInZone(fs: FS, l: Layout, decode: Decoder, n: string)
    ensures InZone(l, FirstDir(fs, l, decode, n))
  {
    hide InZone, IsSession, ProfileForSession, Owner;
    DestInZone(l, ProfileForSession(fs, decode, l.Flat(), n));
    if Owner(n).Some? {
      DestInZone(l, ProfileForSession(fs, decode, l.Flat(), Owner(n).value));
    }
  }

  /** Moving names of one flat directory leaves all other zones alone. */
  lemma PlacedElsewhere(fs: FS, l: Layout, decode: Decoder, w: Where, p: Path)
    requires Interrupted(fs, l, decode, w) && !InZone(l, p.dir)
    ensures SameAt(Placed(fs, l.Flat(), w), fs, p)
  {
    hide Placed, Interrupted;
    assert p == Path(p.dir, p.name);
    FoundAt(fs, l, decode, w, p.name, p.dir);
    if p.name in w {
      PlaceInZone(fs, l, decode, w, p.name);
    }
  }

  lemma LocalInterrupted(a: FS, b: FS, l: Layout, decode: Decoder, w: Where)
    requires AgreeIn(a, b, l) && Interrupted(a, l, decode, w)
    ensures Interrupted(b, l, decode, w)
    ensures AgreeIn(Placed(a, l.Flat(), w), Placed(b, l.Flat(), w), l)
  {
    LocalWellPlaced(a, b, l, decode, w);
    forall n | n in w ensures LeftAt(b, l, decode, n, w[n]) {
      assert LeftAt(a, l, decode, n, w[n]);
      LocalFinal(a, b, l, decode, n);
      LocalSession(a, b, l, decode, n);
      LocalSettle(a, b, l, n, Dev);
    }
    hide Placed;
    forall p: Path | InZone(l, p.dir) ensures SameAt(Placed(a, l.Flat(), w), Placed(b, l.Flat(), w), p) {
      LocalPlaced(a, b, l, decode, w, p);
    }
  }

  lemma LocalWellPlaced(a: FS, b: FS, l: Layout, decode: Decoder, w: Where)
    requires AgreeIn(a, b, l) && Interrupted(a, l, decode, w)
    ensures WellPlaced(b, l.Flat(), w)
  {
    DestInZone(l, Dev);
    forall n
      ensures n in w <==> Path(l.Flat(), n) in b
      ensures n in w ==> w[n] == l.Flat() || Path(w[n], n) !in b
    {
      assert SameAt(a, b, Path(l.Flat(), n));
      if n in w {
        PlaceInZone(a, l, decode, w, n);
        assert SameAt(a, b, Path(w[n], n));
      }
    }
  }

  lemma LocalPlaced(a: FS, b: FS, l: Layout, decode: Decoder, w: Where, p: Path)
    requires AgreeIn(a, b, l) && Interrupted(a, l, decode, w) && Interrupted(b, l, decode, w) && InZone(l, p.dir)
    ensures SameAt(Placed(a, l.Flat(), w), Placed(b, l.Flat(), w), p)
  {
    hide Placed, Interrupted;
    DestInZone(l, Dev);
    assert p == Path(p.dir, p.name);
    assert SameAt(a, b, p) && SameAt(a, b, Path(l.Flat(), p.name));
    FoundAt(a, l, decode, w, p.name, p.dir);
    FoundAt(b, l, decode, w, p.name, p.dir);
  }

  lemma LocalMigrated(a: FS, b: FS, l: Layout, decode: Decoder)
    requires AgreeIn(a, b, l)
    ensures AgreeIn(Migrated(a, l, decode), Migrated(b, l, decode), l)
    ensures FinalWhere(a, l, decode) == FinalWhere(b, l, decode)
  {
    DestInZone(l, Dev);
    var v, w := FinalWhere(a, l, decode), FinalWhere(b, l, decode);
    hide Placed, FinalWhere, FinalDir, Interrupted;
    forall n ensures (n in v <==> n in w) && (n in v ==> v[n] == w[n]) {
      FinalWhereAt(a, l, decode, n);
      FinalWhereAt(b, l, decode, n);
      LocalFinal(a, b, l, decode, n);
      assert SameAt(a, b, Path(l.Flat(), n));
    }
    FinalInterrupted(a, l, decode);
    LocalInterrupted(a, b, l, decode, v);
    assert v == w;
  }

  /** Two place maps that leave the same zone are the same. */
  lemma PlacesDetermined(fs: FS, l: Layout, decode: Decoder, v: Where, w: Where)
    requires Interrupted(fs, l, decode, v) && Interrupted(fs, l, decode, w)
    requires AgreeIn(Placed(fs, l.Flat(), v), Placed(fs, l.Flat(), w), l)
    ensures v == w
  {
    hide Placed, Interrupted;
    forall n ensures (n in v <==> n in w) && (n in v ==> v[n] == w[n]) {
      FoundAt(fs, l, decode, v, n, l.Flat());
      FoundAt(fs, l, decode, w, n, l.Flat());
      if n in v {
        PlaceInZone(fs, l, decode, v, n);
        FoundAt(fs, l, decode, v, n, v[n]);
        FoundAt(fs, l, decode, w, n, v[n]);
        assert SameAt(Placed(fs, l.Flat(), v), Placed(fs, l.Flat(), w), Path(v[n], n));
      }
    }
  }

  lemma LocalTorn(a: FS, b: FS, l: Layout, decode: Decoder, w: Where, s: string)
    requires AgreeIn(a, b, l) && forall n :: n in w ==> InZone(l, w[n])
    ensures Torn(a, l, decode, w, s) <==> Torn(b, l, decode, w, s)
  {
    DestInZone(l, Dev);
    if s in w {
      assert SameAt(a, b, Path(w[s], s));
      LocalSession(a, b, l, decode, s);
      var p := CarriedProfile(a, l, decode, w, s);
      assert CarriedProfile(b, l, decode, w, s) == p;
      DestInZone(l, p);
      assert SameAt(a, b, Path(l.Dest(p), s)) && SameAt(a, b, Path(l.Dest(Dev), s));
      forall n ensures LeftBehind(a, l, w, s, p, n) <==> LeftBehind(b, l, w, s, p, n) {
        assert SameAt(a, b, Path(l.Dest(p), n));
      }
      hide AgreeIn, InZone, LeftBehind, CarriedProfile, Companions;
    }
  }

  // ---- the whole migration ----

  function MigratedAll(fs: FS, ls: seq<Layout>, decode: Decoder): FS
    decreases ls
  {
    if ls == [] then fs else MigratedAll(Migrated(fs, ls[0], decode), ls[1..], decode)
  }

  function Flats(ls: seq<Layout>): set<Dir> { set l | l in ls :: l.Flat() }

  /** Every file exists under its name with its content, outside `flats` at its place. */
  ghost predicate Kept(before: FS, after: FS, flats: set<Dir>) {
    && |after| == |before|
    && forall p :: p in before ==>
         exists d :: Path(d, p.name) in after && after[Path(d, p.name)] == before[p] && (p.dir !in flats ==> d == p.dir)
  }

  lemma KeptNext(a: FS, b: FS, flats: set<Dir>, flat: Dir, w: Where)
    requires Kept(a, b, flats) && WellPlaced(b, flat, w) && flat in flats
    ensures Kept(a, Placed(b, flat, w), flats)
  {
    var c := Placed(b, flat, w);
    PlacedSize(b, flat, w);
    forall p | p in a
      ensures exists d :: Path(d, p.name) in c && c[Path(d, p.name)] == a[p] && (p.dir !in flats ==> d == p.dir)
    {
      var d :| Path(d, p.name) in b && b[Path(d, p.name)] == a[p] && (p.dir !in flats ==> d == p.dir);
      PlacedKeepsFile(b, flat, w, Path(d, p.name));
    }
  }

  ghost predicate DistinctLayouts(ls: seq<Layout>) { forall i, j :: 0 <= i < j < |ls| ==> ls[i] != ls[j] }

  predicate InNoZone(ls: seq<Layout>, d: Dir) { forall l :: l in ls ==> !InZone(l, d) }

  /** What an interrupted migration of all flat directories can leave: in each zone what an
      interrupted run over that directory leaves, elsewhere what was there. */
  ghost predicate InterruptedAll(fs: FS, r: FS, ls: seq<Layout>, decode: Decoder, ws: map<Layout, Where>) {
    && (forall l :: l in ls ==> l in ws && LeftIn(fs, r, l, decode, ws[l]))
    && (forall p: Path :: InNoZone(ls, p.dir) ==> SameAt(r, fs, p))
  }

  ghost predicate LeftIn(fs: FS, r: FS, l: Layout, decode: Decoder, w: Where) {
    Interrupted(fs, l, decode, w) && AgreeIn(r, Placed(fs, l.Flat(), w), l)
  }

  lemma DistinctRest(ls: seq<Layout>)
    requires DistinctLayouts(ls) && ls != []
    ensures DistinctLayouts(ls[1..]) && ls[0] !in ls[1..]
  {
  }

  /** In its zone the whole migration does what the migration of that one directory does,
      and nothing elsewhere. */
  lemma {:induction false} AllAt(fs: FS, ls: seq<Layout>, decode: Decoder, p: Path)
    requires DistinctLayouts(ls)
    ensures forall l :: l in ls && InZone(l, p.dir) ==> SameAt(MigratedAll(fs, ls, decode), Migrated(fs, l, decode), p)
    ensures InNoZone(ls, p.dir) ==> SameAt(MigratedAll(fs, ls, decode), fs, p)
    decreases ls
  {
    if ls != [] {
      var k := ls[0];
      var next := Migrated(fs, k, decode);
      hide Migrated, InZone;
      DistinctRest(ls);
      AllAt(next, ls[1..], decode, p);
      if !InZone(k, p.dir) {
        MigratedElsewhere(fs, k, decode, p);
      }
      forall l | l in ls && InZone(l, p.dir) ensures SameAt(MigratedAll(fs, ls, decode), Migrated(fs, l, decode), p) {
        if l == k {
          forall m | m in ls[1..] ensures !InZone(m, p.dir) { ZonesApart(k, m, p.dir); }
        } else {
          MigratedApart(fs, k, l, decode);
          LocalMigrated(next, fs, l, decode);
        }
      }
    }
  }

  lemma MigratedElsewhere(fs: FS, l: Layout, decode: Decoder, p: Path)
    requires !InZone(l, p.dir)
    ensures SameAt(Migrated(fs, l, decode), fs, p)
  {
    FinalInterrupted(fs, l, decode);
    PlacedElsewhere(fs, l, decode, FinalWhere(fs, l, decode), p);
  }

  lemma MigratedApart(fs: FS, k: Layout, l: Layout, decode: Decoder)
    requires k != l
    ensures AgreeIn(Migrated(fs, k, decode), fs, l)
  {
    hide Migrated, InZone;
    forall p: Path | InZone(l, p.dir) ensures SameAt(Migrated(fs, k, decode), fs, p) {
      ZonesApart(l, k, p.dir);
      MigratedElsewhere(fs, k, decode, p);
    }
  }

  lemma SameEverywhere(a: FS, b: FS)
    requires forall p: Path :: SameAt(a, b, p)
    ensures a == b
  {
    forall p | p in a ensures p in b && a[p] == b[p] { assert SameAt(a, b, p); }
    forall p | p in b ensures p in a { assert SameAt(a, b, p); }
  }

  lemma SomeZone(ls: seq<Layout>, d: Dir) returns (l: Layout)
    requires !InNoZone(ls, d)
    ensures l in ls && InZone(l, d)
  {
    l :| l in ls && InZone(l, d);
  }

  /** Two disks are the same if they are in every zone and elsewhere. */
  lemma SameByZones(a: FS, b: FS, ls: seq<Layout>)
    requires forall l :: l in ls ==> AgreeIn(a, b, l)
    requires forall p: Path :: InNoZone(ls, p.dir) ==> SameAt(a, b, p)
    ensures a == b
  {
    hide InZone, InNoZone;
    forall p: Path ensures SameAt(a, b, p) {
      if !InNoZone(ls, p.dir) {
        var l := SomeZone(ls, p.dir);
        assert AgreeIn(a, b, l);
      }
    }
    SameEverywhere(a, b);
  }

  lemma AllAgrees(fs: FS, ls: seq<Layout>, decode: Decoder, l: Layout)
    requires DistinctLayouts(ls) && l in ls
    ensures AgreeIn(MigratedAll(fs, ls, decode), Migrated(fs, l, decode), l)
  {
    hide Migrated, InZone, DistinctLayouts, MigratedAll;
    forall p: Path | InZone(l, p.dir) ensures SameAt(MigratedAll(fs, ls, decode), Migrated(fs, l, decode), p) {
      AllAt(fs, ls, decode, p);
    }
  }

  /** The zone of one directory after the next run, which finds what an interrupted run
      left. */
  lemma ResumedZone(fs: FS, r: FS, ls: seq<Layout>, decode: Decoder, ws: map<Layout, Where>, l: Layout)
    requires DistinctLayouts(ls) && InterruptedAll(fs, r, ls, decode, ws) && l in ls
    ensures AgreeIn(MigratedAll(r, ls, decode), Migrated(Placed(fs, l.Flat(), ws[l]), l, decode), l)
    ensures forall s :: Torn(r, l, decode, ws[l], s) <==> Torn(Placed(fs, l.Flat(), ws[l]), l, decode, ws[l], s)
  {
    var once := Placed(fs, l.Flat(), ws[l]);
    assert LeftIn(fs, r, l, decode, ws[l]);
    hide Migrated, MigratedAll, DistinctLayouts, InterruptedAll, Placed, Torn;
    AllAgrees(r, ls, decode, l);
    LocalMigrated(r, once, l, decode);
    AgreeChain(MigratedAll(r, ls, decode), Migrated(r, l, decode), Migrated(once, l, decode), l);
    forall n | n in ws[l] ensures InZone(l, ws[l][n]) { PlaceInZone(fs, l, decode, ws[l], n); }
    forall s ensures Torn(r, l, decode, ws[l], s) <==> Torn(once, l, decode, ws[l], s) {
      LocalTorn(r, once, l, decode, ws[l], s);
    }
  }

  lemma AgreeChain(a: FS, b: FS, c: FS, l: Layout)
    requires AgreeIn(a, b, l) && AgreeIn(b, c, l)
    ensures AgreeIn(a, c, l)
  {
    hide InZone;
    forall p: Path | InZone(l, p.dir) ensures SameAt(a, c, p) {
      assert SameAt(a, b, p) && SameAt(b, c, p);
    }
  }

  lemma AgreeBack(a: FS, b: FS, l: Layout)
    requires AgreeIn(a, b, l)
    ensures AgreeIn(b, a, l)
  {
    hide InZone;
    forall p: Path | InZone(l, p.dir) ensures SameAt(b, a, p) {
      assert SameAt(a, b, p);
    }
  }

  /** Outside the zones neither run touched anything. */
  lemma ElsewhereSame(fs: FS, r: FS, ls: seq<Layout>, decode: Decoder, ws: map<Layout, Where>, p: Path)
    requires DistinctLayouts(ls) && InterruptedAll(fs, r, ls, decode, ws) && InNoZone(ls, p.dir)
    ensures SameAt(MigratedAll(r, ls, decode), MigratedAll(fs, ls, decode), p)
    ensures SameAt(r, MigratedAll(fs, ls, decode), p)
  {
    assert SameAt(r, fs, p);
    hide MigratedAll, InZone, InterruptedAll;
    AllAt(r, ls, decode, p);
    AllAt(fs, ls, decode, p);
  }

  /** Two disks left in a zone by the migration of its directory agree there only if they
      are the same. */
  lemma ZoneDetermines(fs: FS, l: Layout, decode: Decoder, w: Where)
    requires Interrupted(fs, l, decode, w)
    requires AgreeIn(Migrated(Placed(fs, l.Flat(), w), l, decode), Migrated(fs, l, decode), l)
    ensures Migrated(Placed(fs, l.Flat(), w), l, decode) == Migrated(fs, l, decode)
  {
    hide Migrated, Placed, InZone, Interrupted;
    var r := Placed(fs, l.Flat(), w);
    forall p: Path ensures SameAt(Migrated(r, l, decode), Migrated(fs, l, decode), p) {
      if !InZone(l, p.dir) {
        MigratedElsewhere(r, l, decode, p);
        MigratedElsewhere(fs, l, decode, p);
        PlacedElsewhere(fs, l, decode, w, p);
      }
    }
    SameEverywhere(Migrated(r, l, decode), Migrated(fs, l, decode));
  }

  lemma AgreeSame(a: FS, l: Layout)
    ensures AgreeIn(a, a, l)
  {
  }

  /** A migration of all directories that was interrupted is completed by another run if and
      only if it tore no session of any directory. */
  lemma ResumeAllIff(fs: FS, r: FS, ls: seq<Layout>, decode: Decoder, ws: map<Layout, Where>)
    requires DistinctLayouts(ls) && InterruptedAll(fs, r, ls, decode, ws)
    ensures MigratedAll(r, ls, decode) == MigratedAll(fs, ls, decode) <==>
            forall l, s :: l in ls ==> !Torn(r, l, decode, ws[l], s)
  {
    hide Migrated, MigratedAll, Placed, Torn, AgreeIn, Interrupted, DistinctLayouts, InNoZone;
    var again, once := MigratedAll(r, ls, decode), MigratedAll(fs, ls, decode);
    forall l | l in ls
      ensures AgreeIn(again, once, l) <==> forall s :: !Torn(r, l, decode, ws[l], s)
    {
      ResumedIn(fs, r, ls, decode, ws, l);
    }
    if forall l, s :: l in ls ==> !Torn(r, l, decode, ws[l], s) {
      forall p: Path | InNoZone(ls, p.dir) ensures SameAt(again, once, p) {
        ElsewhereSame(fs, r, ls, decode, ws, p);
      }
      SameByZones(again, once, ls);
    }
    if again == once {
      forall l, s | l in ls ensures !Torn(r, l, decode, ws[l], s) {
        AgreeSame(once, l);
      }
    }
  }

  lemma ResumedIn(fs: FS, r: FS, ls: seq<Layout>, decode: Decoder, ws: map<Layout, Where>, l: Layout)
    requires DistinctLayouts(ls) && InterruptedAll(fs, r, ls, decode, ws) && l in ls
    ensures AgreeIn(MigratedAll(r, ls, decode), MigratedAll(fs, ls, decode), l) <==>
            forall s :: !Torn(r, l, decode, ws[l], s)
  {
    assert LeftIn(fs, r, l, decode, ws[l]);
    hide Migrated, MigratedAll, Placed, Torn, AgreeIn, Interrupted, DistinctLayouts, InterruptedAll;
    var again, once := MigratedAll(r, ls, decode), MigratedAll(fs, ls, decode);
    var resumed, undisturbed := Migrated(Placed(fs, l.Flat(), ws[l]), l, decode), Migrated(fs, l, decode);
    ResumedZone(fs, r, ls, decode, ws, l);
    AllAgrees(fs, ls, decode, l);
    ResumeIff(fs, l, decode, ws[l]);
    AgreeBack(once, undisturbed, l);
    if resumed == undisturbed {
      AgreeChain(again, undisturbed, once, l);
    }
    if AgreeIn(again, once, l) {
      AgreeBack(again, resumed, l);
      AgreeChain(resumed, again, once, l);
      AgreeChain(resumed, once, undisturbed, l);
      ZoneDetermines(fs, l, decode, ws[l]);
    }
  }

  /** A run leaves what an undisturbed one would have left if and only if every name is
      where that one takes it. */
  lemma CompleteIff(fs: FS, r: FS, ls: seq<Layout>, decode: Decoder, ws: map<Layout, Where>)
    requires DistinctLayouts(ls) && InterruptedAll(fs, r, ls, decode, ws)
    ensures r == MigratedAll(fs, ls, decode) <==> forall l :: l in ls ==> ws[l] == FinalWhere(fs, l, decode)
  {
    hide Migrated, MigratedAll, Placed, AgreeIn, Interrupted, DistinctLayouts, InNoZone, FinalWhere;
    var once := MigratedAll(fs, ls, decode);
    forall l | l in ls ensures AgreeIn(r, once, l) <==> ws[l] == FinalWhere(fs, l, decode) {
      CompleteIn(fs, r, ls, decode, ws, l);
    }
    if forall l :: l in ls ==> ws[l] == FinalWhere(fs, l, decode) {
      forall p: Path | InNoZone(ls, p.dir) ensures SameAt(r, once, p) {
        ElsewhereSame(fs, r, ls, decode, ws, p);
      }
      SameByZones(r, once, ls);
    }
    if r == once {
      forall l | l in ls ensures ws[l] == FinalWhere(fs, l, decode) {
        AgreeSame(once, l);
      }
    }
  }

  lemma CompleteIn(fs: FS, r: FS, ls: seq<Layout>, decode: Decoder, ws: map<Layout, Where>, l: Layout)
    requires DistinctLayouts(ls) && InterruptedAll(fs, r, ls, decode, ws) && l in ls
    ensures AgreeIn(r, MigratedAll(fs, ls, decode), l) <==> ws[l] == FinalWhere(fs, l, decode)
  {
    assert LeftIn(fs, r, l, decode, ws[l]);
    hide MigratedAll, Placed, AgreeIn, Interrupted, DistinctLayouts, InterruptedAll, FinalWhere;
    var once, left := MigratedAll(fs, ls, decode), Placed(fs, l.Flat(), ws[l]);
    AllAgrees(fs, ls, decode, l);
    AgreeBack(once, Migrated(fs, l, decode), l);
    if ws[l] == FinalWhere(fs, l, decode) {
      AgreeChain(r, left, once, l);
    }
    if AgreeIn(r, once, l) {
      AgreeBack(r, left, l);
      AgreeChain(left, r, once, l);
      AgreeChain(left, once, Migrated(fs, l, decode), l);
      FinalInterrupted(fs, l, decode);
      PlacesDetermined(fs, l, decode, ws[l], FinalWhere(fs, l, decode));
    }
  }

  lemma NothingInterrupted(fs: FS, decode: Decoder)
    ensures InterruptedAll(fs, fs, [], decode, map[])
  {
  }

  /** One more directory: its zone has not been touched yet. */
  lemma InterruptedNext(fs: FS, r: FS, ls: seq<Layout>, decode: Decoder, ws: map<Layout, Where>, l: Layout, w: Where)
    requires InterruptedAll(fs, r, ls, decode, ws) && l !in ls && Interrupted(r, l, decode, w)
    ensures InterruptedAll(fs, Placed(r, l.Flat(), w), ls + [l], decode, ws[l := w])
  {
    hide Placed, Interrupted, InZone;
    var r' := Placed(r, l.Flat(), w);
    forall p: Path | InZone(l, p.dir) ensures SameAt(r, fs, p) {
      forall k | k in ls ensures !InZone(k, p.dir) { ZonesApart(l, k, p.dir); }
    }
    LocalInterrupted(r, fs, l, decode, w);
    forall k | k in ls + [l] ensures k in ws[l := w] && LeftIn(fs, r', k, decode, ws[l := w][k]) {
      if k != l {
        assert LeftIn(fs, r, k, decode, ws[k]);
        PlacedApart(r, l, k, decode, w);
        AgreeChain(r', r, Placed(fs, k.Flat(), ws[k]), k);
      }
    }
    forall p: Path | InNoZone(ls + [l], p.dir) ensures SameAt(r', fs, p) {
      assert l in ls + [l] && forall k :: k in ls ==> k in ls + [l];
      PlacedElsewhere(r, l, decode, w, p);
      assert InNoZone(ls, p.dir);
      assert SameAt(r, fs, p);
    }
  }

  lemma PlacedApart(r: FS, l: Layout, k: Layout, decode: Decoder, w: Where)
    requires k != l && Interrupted(r, l, decode, w)
    ensures AgreeIn(Placed(r, l.Flat(), w), r, k)
  {
    hide Placed, Interrupted, InZone;
    forall p: Path | InZone(k, p.dir) ensures SameAt(Placed(r, l.Flat(), w), r, p) {
      ZonesApart(k, l, p.dir);
      PlacedElsewhere(r, l, decode, w, p);
    }
  }

  /** Migrates one flat directory after the other. */
  method MigrateAll(disk: Disk, ls: seq<Layout>, decode: Decoder) returns (ghost ws: map<Layout, Where>)
    modifies disk
    ensures Kept(old(disk.fs), disk.fs, Flats(ls))
    ensures DistinctLayouts(ls) ==> InterruptedAll(old(disk.fs), disk.fs, ls, decode, ws)
    ensures disk.reliable ==> disk.fs == MigratedAll(old(disk.fs), ls, decode)
  {
    hide InterruptedAll, Interrupted, Placed;
    assert forall p :: p in disk.fs ==> p == Path(p.dir, p.name);
    ws := map[];
    NothingInterrupted(disk.fs, decode);
    for i := 0 to |ls|
      invariant Kept(old(disk.fs), disk.fs, Flats(ls))
      invariant DistinctLayouts(ls) ==> InterruptedAll(old(disk.fs), disk.fs, ls[..i], decode, ws)
      invariant disk.reliable ==> MigratedAll(disk.fs, ls[i..], decode) == MigratedAll(old(disk.fs), ls, decode)
    {
      assert ls[i..][0] == ls[i] && ls[i..][1..] == ls[i + 1..];
      assert ls[..i + 1] == ls[..i] + [ls[i]];
      ghost var before := disk.fs;
      ghost var w := disk.MigrateFlat(ls[i], decode);
      WellPlacedLeft(before, ls[i], decode, w);
      KeptNext(old(disk.fs), before, Flats(ls), ls[i].Flat(), w);
      if DistinctLayouts(ls) {
        assert ls[i] !in ls[..i];
        InterruptedNext(old(disk.fs), before, ls[..i], decode, ws, ls[i], w);
      }
      ws := ws[ls[i] := w];
    }
    assert ls[..|ls|] == ls;
  }

  lemma WellPlacedLeft(fs: FS, l: Layout, decode: Decoder, w: Where)
    requires Interrupted(fs, l, decode, w)
    ensures WellPlaced(fs, l.Flat(), w)
  {
  }

  // ---- one launch after the other ----

  /** What the application finds at a launch. The marker is a file of the flat directory of
      the global sessions; the passes never see it, since none runs while it is there. */
  class Installation {
    const disk: Disk
    const sidecars: SidecarMerge.SidecarDisk<string>
    var marked: bool

    constructor (disk: Disk, sidecars: SidecarMerge.SidecarDisk<string>)
      ensures this.disk == disk && this.sidecars == sidecars && !marked
    {
      this.disk, this.sidecars, marked := disk, sidecars, false;
    }

    /** With the marker there, a launch does nothing. Without it, it moves the sessions and
        merges the sidecars, whatever renames and removals fail, and writes the marker at
        its end, unless that fails too, a merge panics, or the process stops before; `stop`
        says after how many directories of sidecars. */
    method MigrateToProfilePartition(ls: seq<Layout>, decode: Decoder, dirs: seq<string>, bases: seq<string>,
                                     stop: Option<nat>, stampFails: bool)
      returns (panicked: bool, ghost ws: map<Layout, Where>, ghost merged: SidecarMerge.Pairs)
      requires DistinctLayouts(ls)
      modifies this, disk, sidecars
      ensures old(marked) ==> marked && !panicked && disk.fs == old(disk.fs) && sidecars.files == old(sidecars.files)
      ensures !old(marked) ==> InterruptedAll(old(disk.fs), disk.fs, ls, decode, ws)
      ensures !old(marked) ==> SidecarMerge.AllSettled(old(sidecars.files), sidecars.files, merged, sidecars.stuck)
      ensures !old(marked) ==> (marked <==> stop.None? && !panicked && !stampFails)
      ensures !old(marked) && stop.None? ==>
                (panicked <==> exists d, b :: d in dirs && b in bases &&
                                              SidecarMerge.Panics(old(sidecars.files), d, b))
      ensures panicked ==> exists d, b :: d in dirs && b in bases && SidecarMerge.Panics(sidecars.files, d, b)
      ensures disk.reliable ==> disk.fs == NextDisk(old(marked), old(disk.fs), ls, decode)
    {
      hide InterruptedAll, SidecarMerge.AllSettled, SidecarMerge.Panics;
      ws, merged, panicked := map[], {}, false;
      if marked {
        return;
      }
      ws := MigrateAll(disk, ls, decode);
      var reached := if stop.None? || stop.value > |dirs| then dirs else dirs[..stop.value];
      ghost var found := sidecars.files;
      panicked, merged := sidecars.MigrateTopicSidecarsByMerge(reached, bases);
      if panicked {
        PanicStays(found, sidecars.files, merged, sidecars.stuck, reached, bases);
      }
      marked := stop.None? && !panicked && !stampFails;
    }
  }

  /** A pair that panics panics again, so a launch that panicked is followed by others that
      do, until the files change. */
  lemma PanicStays(fs: SidecarMerge.Files<string>, now: SidecarMerge.Files<string>, done: SidecarMerge.Pairs,
                   stuck: SidecarMerge.Pairs, dirs: seq<string>, bases: seq<string>)
    requires SidecarMerge.AllSettled(fs, now, done, stuck)
    requires exists d, b :: d in dirs && b in bases && SidecarMerge.Panics(fs, d, b)
    ensures exists d, b :: d in dirs && b in bases && SidecarMerge.Panics(now, d, b)
  {
    hide SidecarMerge.AllSettled, SidecarMerge.Panics;
    var d, b :| d in dirs && b in bases && SidecarMerge.Panics(fs, d, b);
    SidecarMerge.PanicsAsBefore(fs, now, done, stuck, d, b);
  }

  /** The disk after another launch in which no rename fails. */
  function NextDisk(marked: bool, r: FS, ls: seq<Layout>, decode: Decoder): FS {
    if marked then r else MigratedAll(r, ls, decode)
  }

  /** What a launch leaves unfinished the next one finishes as an undisturbed first one would
      have, if and only if: the marker was not written and no session was torn, or it was
      written and there is nothing unfinished. */
  lemma NextLaunchIff(fs: FS, r: FS, ls: seq<Layout>, decode: Decoder, ws: map<Layout, Where>, marked: bool)
    requires DistinctLayouts(ls) && InterruptedAll(fs, r, ls, decode, ws)
    ensures NextDisk(marked, r, ls, decode) == MigratedAll(fs, ls, decode) <==>
            if marked then forall l :: l in ls ==> ws[l] == FinalWhere(fs, l, decode)
            else forall l, s :: l in ls ==> !Torn(r, l, decode, ws[l], s)
  {
    hide Torn, FinalWhere, MigratedAll, InterruptedAll;
    if marked {
      CompleteIff(fs, r, ls, decode, ws);
    } else {
      ResumeAllIff(fs, r, ls, decode, ws);
    }
  }

  /** After a complete launch the next one changes nothing if and only if the marker was
      written or no session was stranded. */
  lemma SecondLaunchIff(fs: FS, ls: seq<Layout>, decode: Decoder, marked: bool)
    requires DistinctLayouts(ls)
    ensures NextDisk(marked, MigratedAll(fs, ls, decode), ls, decode) == MigratedAll(fs, ls, decode) <==>
            marked || forall l, s :: l in ls ==> !Stranded(fs, l, decode, s)
  {
    hide Torn, Stranded, MigratedAll, InterruptedAll, FinalWhere, Migrated;
    var r := MigratedAll(fs, ls, decode);
    var ws := map l | l in ls :: FinalWhere(fs, l, decode);
    CompleteIsInterrupted(fs, ls, decode, ws);
    if !marked {
      ResumeAllIff(fs, r, ls, decode, ws);
      forall l, s | l in ls ensures Torn(r, l, decode, ws[l], s) <==> Stranded(fs, l, decode, s) {
        ResumedZone(fs, r, ls, decode, ws, l);
        ZoneOfComplete(fs, l, decode);
        TornWhenStranded(fs, l, decode, s);
      }
    }
  }

  lemma ZoneOfComplete(fs: FS, l: Layout, decode: Decoder)
    ensures Placed(fs, l.Flat(), FinalWhere(fs, l, decode)) == Migrated(fs, l, decode)
  {
  }

  lemma CompleteIsInterrupted(fs: FS, ls: seq<Layout>, decode: Decoder, ws: map<Layout, Where>)
    requires DistinctLayouts(ls) && forall l :: l in ls ==> l in ws && ws[l] == FinalWhere(fs, l, decode)
    ensures InterruptedAll(fs, MigratedAll(fs, ls, decode), ls, decode, ws)
  {
    hide Migrated, MigratedAll, Placed, AgreeIn, Interrupted, InNoZone, FinalWhere;
    forall l | l in ls ensures LeftIn(fs, MigratedAll(fs, ls, decode), l, decode, ws[l]) {
      FinalInterrupted(fs, l, decode);
      ZoneOfComplete(fs, l, decode);
      AllAgrees(fs, ls, decode, l);
    }
    forall p: Path | InNoZone(ls, p.dir) ensures SameAt(MigratedAll(fs, ls, decode), fs, p) {
      AllAt(fs, ls, decode, p);
    }
  }

  /** A launch in which the one rename that was due fails, and which writes its marker: no
      session is torn, and the session stays where no later launch looks for it. */
  lemma MarkerBuriesFailure(fs: FS, l: Layout, decode: Decoder, s: string)
    requires AllFree(fs, l) && l.OfProject? && IsSession(fs, l.Flat(), s)
    ensures var ws := map[l := Home(fs, l.Flat())];
            && InterruptedAll(fs, fs, [l], decode, ws)
            && (forall t :: !Torn(fs, l, decode, ws[l], t))
            && NextDisk(true, fs, [l], decode) == fs != MigratedAll(fs, [l], decode)
            && NextDisk(false, fs, [l], decode) == MigratedAll(fs, [l], decode)
  {
    var w := Home(fs, l.Flat());
    hide Placed, MigratedAll, Migrated, FinalWhere, FinalDir;
    HomeInterrupted(fs, l, decode);
    AgreeSame(fs, l);
    assert LeftIn(fs, fs, l, decode, w);
    forall t ensures !Torn(fs, l, decode, w, t) {
      NothingTorn(fs, l, decode, t);
    }
    CompleteIff(fs, fs, [l], decode, map[l := w]);
    HomeAt(fs, l.Flat());
    FinalWhereAt(fs, l, decode, s);
    SessionLeaves(fs, l, decode, s);
  }

  lemma HomeInterrupted(fs: FS, l: Layout, decode: Decoder)
    ensures Interrupted(fs, l, decode, Home(fs, l.Flat())) && Placed(fs, l.Flat(), Home(fs, l.Flat())) == fs
  {
    hide Placed, FirstDir, LeftOver;
    HomeIsPlaced(fs, l.Flat());
    HomeAt(fs, l.Flat());
  }

  lemma NothingTorn(fs: FS, l: Layout, decode: Decoder, t: string)
    ensures !Torn(fs, l, decode, Home(fs, l.Flat()), t)
  {
    HomeAt(fs, l.Flat());
    hide Home, IsSession, Companions, ProfileForSession;
  }

  lemma SessionLeaves(fs: FS, l: Layout, decode: Decoder, s: string)
    requires AllFree(fs, l) && l.OfProject? && IsSession(fs, l.Flat(), s)
    ensures FinalDir(fs, l, decode, s) != l.Flat()
  {
    var p := ProfileForSession(fs, decode, l.Flat(), s);
    assert Path(l.Flat(), s) in fs && l.Dest(p) != l.Flat();
    hide ProfileForSession;
  }

  /** The stranded session of a half-migrated project is filed under dev by the next launch
      if and only if the first one could not write its marker. */
  lemma StrandedUnlessMarked(fs: FS, slug: string, decode: Decoder, s: string, marked: bool)
    requires IsSession(fs, Project(slug), s)
    requires ProfileForSession(fs, decode, Project(slug), s) == Cowork
    requires Path(ProjectPartition(slug, Cowork), s) in fs && Path(ProjectPartition(slug, Cowork), s + META) !in fs
    requires Path(ProjectPartition(slug, Dev), s) !in fs
    ensures var first := MigratedAll(fs, [OfProject(slug)], decode);
            Path(ProjectPartition(slug, Dev), s) in NextDisk(marked, first, [OfProject(slug)], decode) <==> !marked
  {
    var l := OfProject(slug);
    OneDirectory(fs, l, decode);
    OneDirectory(Migrated(fs, l, decode), l, decode);
    TakenPlaceStrands(fs, slug, decode, s);
    MigratedAt(fs, l, decode, Path(l.Dest(Dev), s));
    StrandedStays(fs, l, decode, s);
  }

  lemma StrandedStays(fs: FS, l: Layout, decode: Decoder, s: string)
    requires Stranded(fs, l, decode, s)
    ensures FinalDir(fs, l, decode, s) == l.Flat()
  {
    hide ProfileForSession;
  }

  lemma OneDirectory(fs: FS, l: Layout, decode: Decoder)
    ensures MigratedAll(fs, [l], decode) == Migrated(fs, l, decode)
  {
    hide Migrated;
    assert [l][1..] == [];
    assert MigratedAll(Migrated(fs, l, decode), [], decode) == Migrated(fs, l, decode);
  }

  /** The same for a legacy sidecar whose removal failed: what the next launch finds after an
      edit of the dev variant it leaves alone if and only if the first one wrote its marker
      or the edit agrees with every legacy entry. */
  lemma LingeringLegacyNextLaunch(fs: SidecarMerge.Files<string>, dir: string, base: string,
                                  edited: map<string, string>, stuck: SidecarMerge.Pairs, marked: bool)
    requires SidecarMerge.Mergeable(fs, dir, base)
    ensures var dev := SidecarMerge.DevVariant(dir, base);
            var legacy := SidecarMerge.EntriesAt(fs, SidecarMerge.Legacy(dir, base));
            var found := SidecarMerge.MergeOne(fs, dir, base, {(dir, base)})[dev := SidecarMerge.Entries(edited)];
            var next := if marked then found else SidecarMerge.MergeOne(found, dir, base, stuck);
            SidecarMerge.EntriesAt(next, dev) == edited <==>
            marked || forall k :: k in legacy ==> k in edited && edited[k] == legacy[k]
  {
    SidecarMerge.LingeringLegacyHarmlessIff(fs, dir, base, edited, stuck);
    hide SidecarMerge.Mergeable, SidecarMerge.MergeOne;
  }

  // ---- the paths that tabs remember ----

  datatype TabPath = Blank | At(path: Path)

  function CandidatesOf(ls: seq<Layout>): seq<Dir> {
    if ls == [] then []
    else [ls[0].Dest(Dev), ls[0].Dest(Cowork), ls[0].Dest(NetDev)] + CandidatesOf(ls[1..])
  }

  function FindIn(fs: FS, dirs: seq<Dir>, name: string): Option<Dir> {
    if dirs == [] then None
    else if Path(dirs[0], name) in fs then Some(dirs[0])
    else FindIn(fs, dirs[1..], name)
  }

  function Rewritten(fs: FS, dirs: seq<Dir>, t: TabPath): TabPath {
    if t.Blank? || t.path in fs || t.path.name in {"", ".", "/"} || FindIn(fs, dirs, t.path.name).None? then t
    else At(Path(FindIn(fs, dirs, t.path.name).value, t.path.name))
  }

  method RewriteTabSessionPaths(fs: FS, tabs: array<TabPath>, dirs: seq<Dir>) returns (changed: bool)
    modifies tabs
    ensures forall i :: 0 <= i < tabs.Length ==> tabs[i] == Rewritten(fs, dirs, old(tabs[i]))
    ensures changed <==> tabs[..] != old(tabs[..])
  {
    changed := false;
    for i := 0 to tabs.Length
      invariant forall k :: 0 <= k < i ==> tabs[k] == Rewritten(fs, dirs, old(tabs[k]))
      invariant forall k :: i <= k < tabs.Length ==> tabs[k] == old(tabs[k])
      invariant !changed ==> tabs[..] == old(tabs[..])
      invariant changed ==> exists k :: 0 <= k < i && tabs[k] != old(tabs[k])
    {
      var t := tabs[i];
      if t.Blank? || t.path in fs || t.path.name in {"", ".", "/"} {
        continue;
      }
      var found: Option<Dir> := None;
      for j := 0 to |dirs|
        invariant found.None? && FindIn(fs, dirs, t.path.name) == FindIn(fs, dirs[j..], t.path.name)
      {
        assert dirs[j..][0] == dirs[j] && dirs[j..][1..] == dirs[j + 1..];
        if Path(dirs[j], t.path.name) in fs {
          found := Some(dirs[j]);
          break;
        }
      }
      if found.Some? {
        FindInSpec(fs, dirs, t.path.name);
        tabs[i] := At(Path(found.value, t.path.name));
        changed := true;
      }
    }
    if changed {
      ghost var k :| 0 <= k < tabs.Length && tabs[k] != old(tabs[k]);
      assert tabs[..][k] != old(tabs[..])[k];
    }
  }

  lemma {:induction false} FindInSpec(fs: FS, dirs: seq<Dir>, name: string)
    ensures FindIn(fs, dirs, name).Some? ==>
              FindIn(fs, dirs, name).value in dirs && Path(FindIn(fs, dirs, name).value, name) in fs
    ensures FindIn(fs, dirs, name).None? ==> forall d :: d in dirs ==> Path(d, name) !in fs
  {
    if dirs != [] {
      FindInSpec(fs, dirs[1..], name);
    }
  }

  /** `d` is the first of these directories that has the name. */
  ghost predicate FirstWith(fs: FS, dirs: seq<Dir>, name: string, d: Dir) {
    exists j :: 0 <= j < |dirs| && dirs[j] == d && Path(d, name) in fs && NotBefore(fs, dirs[..j], name)
  }

  ghost predicate NotBefore(fs: FS, dirs: seq<Dir>, name: string) { forall d :: d in dirs ==> Path(d, name) !in fs }

  lemma {:induction false} FindInFirst(fs: FS, dirs: seq<Dir>, name: string)
    ensures FindIn(fs, dirs, name).Some? ==> FirstWith(fs, dirs, name, FindIn(fs, dirs, name).value)
    ensures FindIn(fs, dirs, name).None? <==> NotBefore(fs, dirs, name)
  {
    FindInSpec(fs, dirs, name);
    if dirs != [] && Path(dirs[0], name) !in fs && FindIn(fs, dirs, name).Some? {
      FindInFirst(fs, dirs[1..], name);
      var d := FindIn(fs, dirs, name).value;
      var j :| 0 <= j < |dirs| - 1 && dirs[1..][j] == d && Path(d, name) in fs && NotBefore(fs, dirs[1..][..j], name);
      assert dirs[..j + 1] == [dirs[0]] + dirs[1..][..j];
      assert dirs[j + 1] == d && NotBefore(fs, dirs[..j + 1], name);
    } else if dirs != [] && Path(dirs[0], name) in fs {
      assert dirs[0] == FindIn(fs, dirs, name).value && NotBefore(fs, dirs[..0], name);
    }
  }

  /** What becomes of a remembered path: one that is blank or still valid stays; another gets
      the first candidate directory that has a file of its name, and stays if none has. */
  lemma PathsRepaired(fs: FS, dirs: seq<Dir>, t: TabPath)
    ensures t == Blank ==> Rewritten(fs, dirs, t) == t
    ensures t.At? && t.path in fs ==> Rewritten(fs, dirs, t) == t
    ensures t.At? && NotBefore(fs, dirs, t.path.name) ==> Rewritten(fs, dirs, t) == t
    ensures t.At? && t.path !in fs && t.path.name !in {"", ".", "/"} ==>
              forall d :: FirstWith(fs, dirs, t.path.name, d) ==> Rewritten(fs, dirs, t) == At(Path(d, t.path.name))
  {
    if t.At? {
      FindInFirst(fs, dirs, t.path.name);
      forall d | FirstWith(fs, dirs, t.path.name, d) ensures FindIn(fs, dirs, t.path.name) == Some(d) {
        OneFirst(fs, dirs, t.path.name, d);
      }
    }
  }

  lemma {:induction false} OneFirst(fs: FS, dirs: seq<Dir>, name: string, d: Dir)
    requires FirstWith(fs, dirs, name, d)
    ensures FindIn(fs, dirs, name) == Some(d)
  {
    var j :| 0 <= j < |dirs| && dirs[j] == d && Path(d, name) in fs && NotBefore(fs, dirs[..j], name);
    if j > 0 {
      assert dirs[0] in dirs[..j];
      assert dirs[1..][j - 1] == d && dirs[1..][..j - 1] == dirs[..j][1..];
      assert NotBefore(fs, dirs[1..][..j - 1], name);
      OneFirst(fs, dirs[1..], name, d);
    }
  }

  /** The candidates: the three partitions of each flat directory in turn. */
  lemma {:induction false} CandidatesAre(ls: seq<Layout>, i: nat)
    requires i < |ls|
    ensures |CandidatesOf(ls)| == 3 * |ls|
    ensures var three := CandidatesOf(ls)[3 * i..3 * i + 3];
            match ls[i]
            case Global => three == [Sessions, Partition(Cowork), Partition(NetDev)]
            case OfProject(slug) => three == [ProjectPartition(slug, Dev), ProjectPartition(slug, Cowork),
                                              ProjectPartition(slug, NetDev)]
  {
    CandidatesCount(ls);
    var rest := CandidatesOf(ls[1..]);
    if i > 0 {
      CandidatesAre(ls[1..], i - 1);
      assert CandidatesOf(ls)[3 * i..3 * i + 3] == rest[3 * (i - 1)..3 * (i - 1) + 3];
    } else {
      assert CandidatesOf(ls)[0..3] == [ls[0].Dest(Dev), ls[0].Dest(Cowork), ls[0].Dest(NetDev)];
    }
  }

  lemma {:induction false} CandidatesCount(ls: seq<Layout>)
    ensures |CandidatesOf(ls)| == 3 * |ls|
  {
    if ls != [] {
      CandidatesCount(ls[1..]);
    }
  }

  /** The one place of a file name that is unique on the disk. */
  ghost predicate OnlyAt(fs: FS, name: string, d: Dir, n: Node) {
    (forall e :: Path(e, name) in fs <==> e == d) && fs[Path(d, name)] == n
  }

  lemma UniqueFollows(fs: FS, l: Layout, decode: Decoder, name: string, d: Dir, n: Node)
    requires OnlyAt(fs, name, d, n)
    ensures OnlyAt(Migrated(fs, l, decode), name, if d == l.Flat() then FinalDir(fs, l, decode, name) else d, n)
  {
    assert Path(d, name) in fs;
    forall e { MigratedAt(fs, l, decode, Path(e, name)); }
  }

  /** Outside the remaining flat directories the migration leaves a unique file alone. */
  lemma {:induction false} UniqueStays(fs: FS, ls: seq<Layout>, decode: Decoder, name: string, d: Dir, n: Node)
    requires OnlyAt(fs, name, d, n) && d !in Flats(ls)
    ensures OnlyAt(MigratedAll(fs, ls, decode), name, d, n)
    decreases ls
  {
    if ls != [] {
      assert ls[0] in ls;
      UniqueFollows(fs, ls[0], decode, name, d, n);
      forall l | l in ls[1..] ensures l.Flat() != d { assert l in ls; }
      UniqueStays(Migrated(fs, ls[0], decode), ls[1..], decode, name, d, n);
    }
  }

  lemma {:induction false} CandidatesHave(ls: seq<Layout>, l: Layout, p: Profile)
    requires l in ls
    ensures l.Dest(p) in CandidatesOf(ls)
  {
    if l != ls[0] {
      CandidatesHave(ls[1..], l, p);
    }
  }

  /** A session with a unique name ends in one of the candidate directories. */
  lemma {:induction false} SessionArrives(fs: FS, ls: seq<Layout>, decode: Decoder, l: Layout, name: string)
    returns (d: Dir)
    requires DistinctLayouts(ls) && l in ls && IsSession(fs, l.Flat(), name)
    requires OnlyAt(fs, name, l.Flat(), fs[Path(l.Flat(), name)])
    ensures d in CandidatesOf(ls) && OnlyAt(MigratedAll(fs, ls, decode), name, d, fs[Path(l.Flat(), name)])
    decreases ls
  {
    var n := fs[Path(l.Flat(), name)];
    UniqueFollows(fs, ls[0], decode, name, l.Flat(), n);
    if l == ls[0] {
      var p := ProfileForSession(fs, decode, l.Flat(), name);
      d := l.Dest(p);
      assert FinalDir(fs, l, decode, name) == d;
      CandidatesHave(ls, l, p);
      forall k | k in ls[1..] ensures k.Flat() != d {
        var i :| 0 <= i < |ls| - 1 && ls[1..][i] == k;
        assert ls[i + 1] != ls[0];
      }
      UniqueStays(Migrated(fs, l, decode), ls[1..], decode, name, d, n);
    } else {
      d := SessionArrives(Migrated(fs, ls[0], decode), ls[1..], decode, l, name);
    }
  }

  /** After the migration and the rewrite, a tab that named a session of a flat directory
      names an existing file with the same name and the same content. */
  lemma TabStillResolves(fs: FS, ls: seq<Layout>, decode: Decoder, l: Layout, name: string)
    requires DistinctLayouts(ls) && l in ls && IsSession(fs, l.Flat(), name)
    requires OnlyAt(fs, name, l.Flat(), fs[Path(l.Flat(), name)])
    ensures var after := MigratedAll(fs, ls, decode);
            var t := Rewritten(after, CandidatesOf(ls), At(Path(l.Flat(), name)));
            && t.At? && t.path in after && t.path.name == name && after[t.path] == fs[Path(l.Flat(), name)]
  {
    var d := SessionArrives(fs, ls, decode, l, name);
    var after := MigratedAll(fs, ls, decode);
    FindInSpec(after, CandidatesOf(ls), name);
    assert Path(d, name) in after;
    assert HasSuffix(name, JSONL) ==> |name| > 1;
  }
}
