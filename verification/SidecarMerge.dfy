/** The topic sidecars of the profile migration (`desktop/migrate_profile.go`): in every
    directory each legacy file is merged into its dev variant and then removed. A file
    decodes to its entries, or to no map at all (the JSON value null), or does not decode;
    or it is there and cannot be read. Removing a file may fail. */
module SidecarMerge {

  datatype Name = Legacy(dir: string, base: string) | DevVariant(dir: string, base: string)

  datatype Sidecar<V> = Broken | Null | Entries(m: map<string, V>) | Unreadable(m: map<string, V>)

  type Files<V> = map<Name, Sidecar<V>>

  type Pairs = set<(string, string)>

  /** What the merge sees of a file: nothing of one that it cannot read, which it takes for
      an empty one. */
  function EntriesAt<V>(fs: Files<V>, n: Name): map<string, V> {
    if n in fs && fs[n].Entries? then fs[n].m else map[]
  }

  /** What the file holds. */
  function Stored<V>(fs: Files<V>, n: Name): map<string, V> {
    if n in fs && (fs[n].Entries? || fs[n].Unreadable?) then fs[n].m else map[]
  }

  predicate IsUnreadable<V>(fs: Files<V>, n: Name) { n in fs && fs[n].Unreadable? }

  predicate Decodes<V>(fs: Files<V>, n: Name) { n in fs ==> !fs[n].Broken? }

  predicate IsNull<V>(fs: Files<V>, n: Name) { n in fs && fs[n].Null? }

  /** The merge reads two files and assigns the entries of one to the map of the other. */
  predicate Attempted<V>(fs: Files<V>, dir: string, base: string) {
    Legacy(dir, base) in fs && Decodes(fs, Legacy(dir, base)) && Decodes(fs, DevVariant(dir, base))
  }

  /** There is something to assign and no map to assign it to. */
  predicate Panics<V>(fs: Files<V>, dir: string, base: string) {
    Attempted(fs, dir, base) && IsNull(fs, DevVariant(dir, base)) && EntriesAt(fs, Legacy(dir, base)).Keys != {}
  }

  predicate Mergeable<V>(fs: Files<V>, dir: string, base: string) {
    Attempted(fs, dir, base) && !Panics(fs, dir, base)
  }

  /** Both sets of entries; the legacy one wins. */
  function Union<V>(fs: Files<V>, dir: string, base: string): map<string, V> {
    EntriesAt(fs, DevVariant(dir, base)) + EntriesAt(fs, Legacy(dir, base))
  }

  function Merged<V>(fs: Files<V>, dir: string, base: string): Sidecar<V> {
    if IsNull(fs, DevVariant(dir, base)) then Null else Entries(Union(fs, dir, base))
  }

  predicate Same<V(==)>(fs: Files<V>, fs': Files<V>, n: Name) {
    (n in fs' <==> n in fs) && (n in fs ==> fs'[n] == fs[n])
  }

  /** What becomes of one file once the pairs of directory and base in `done` are merged,
      those in `stuck` keeping their legacy file. */
  ghost predicate Settled<V>(fs: Files<V>, fs': Files<V>, done: Pairs, stuck: Pairs, n: Name) {
    if (n.dir, n.base) in done && Mergeable(fs, n.dir, n.base) then
      if n.DevVariant? then n in fs' && fs'[n] == Merged(fs, n.dir, n.base)
      else if (n.dir, n.base) in stuck then Same(fs, fs', n) else n !in fs'
    else Same(fs, fs', n)
  }

  ghost predicate AllSettled<V>(fs: Files<V>, fs': Files<V>, done: Pairs, stuck: Pairs) {
    forall n :: Settled(fs, fs', done, stuck, n)
  }

  function MergeOne<V>(fs: Files<V>, dir: string, base: string, stuck: Pairs): Files<V> {
    if Mergeable(fs, dir, base) then
      var fs1 := fs[DevVariant(dir, base) := Merged(fs, dir, base)];
      if (dir, base) in stuck then fs1 else fs1 - {Legacy(dir, base)}
    else fs
  }

  datatype Outcome<V> = Written(s: Sidecar<V>) | Undecodable | Panicked

  class SidecarDisk<V> {
    var files: Files<V>
    const stuck: Pairs   // where removing the legacy file fails

    constructor (files: Files<V>, stuck: Pairs)
      ensures this.files == files && this.stuck == stuck
    {
      this.files, this.stuck := files, stuck;
    }

    /** The maps are visited in any order. */
    method MergeSidecar(dir: string, base: string) returns (r: Outcome<V>)
      requires Legacy(dir, base) in files
      ensures r == if Mergeable(files, dir, base) then Written(Merged(files, dir, base))
                   else if Panics(files, dir, base) then Panicked else Undecodable
    {
      var legacy, dev := Legacy(dir, base), DevVariant(dir, base);
      if files[legacy].Broken? || (dev in files && files[dev].Broken?) {
        return Undecodable;
      }
      var legacyMap := EntriesAt(files, legacy);
      if IsNull(files, dev) {
        return if legacyMap.Keys != {} then Panicked else Written(Null);
      }
      var merged, keys := EntriesAt(files, dev), legacyMap.Keys;
      while keys != {}
        invariant keys <= legacyMap.Keys
        invariant merged == EntriesAt(files, dev) + (legacyMap - keys)
      {
        var k :| k in keys;
        merged := merged[k := legacyMap[k]];
        keys := keys - {k};
      }
      assert legacyMap - {} == legacyMap;
      return Written(Entries(merged));
    }

    /** Stops with the first base that panics. */
    method MergeTopicSidecarsInDir(dir: string, bases: seq<string>, ghost fs: Files<V>, ghost done: Pairs)
      returns (panicked: bool, ghost now: Pairs)
      requires AllSettled(fs, files, done, stuck)
      modifies this`files
      ensures AllSettled(fs, files, now, stuck) && done <= now
      ensures panicked <==> exists b :: b in bases && Panics(fs, dir, b)
      ensures if panicked then now <= done + InDir(dir, bases) else now == done + InDir(dir, bases)
    {
      hide Settled, AllSettled, Mergeable, Panics, InDir;
      now := done;
      NothingInDir(dir, done);
      for i := 0 to |bases|
        invariant now == done + InDir(dir, bases[..i])
        invariant AllSettled(fs, files, now, stuck)
        invariant forall k :: 0 <= k < i ==> !Panics(fs, dir, bases[k])
      {
        MergeOneSettles(fs, files, now, stuck, dir, bases[i]);
        PanicsAsBefore(fs, files, now, stuck, dir, bases[i]);
        OutcomeIs(files, dir, bases[i]);
        if Legacy(dir, bases[i]) in files {
          var r := MergeSidecar(dir, bases[i]);
          if r.Panicked? {
            InDirGrows(dir, bases, i, done);
            return true, now;
          }
          if r.Written? {
            files := files[DevVariant(dir, bases[i]) := r.s];
            if (dir, bases[i]) !in stuck {
              files := files - {Legacy(dir, bases[i])};
            }
          }
        }
        InDirNext(dir, bases, i, done);
        now := now + {(dir, bases[i])};
      }
      assert bases[..|bases|] == bases;
      return false, now;
    }

    /** All directories, in any order and however often one is listed. The process panics if
        and only if some pair does, with what came before it merged. Otherwise each listed
        pair ends as `Thorough` says, and every other file is as it was. */
    method MigrateTopicSidecarsByMerge(dirs: seq<string>, bases: seq<string>)
      returns (panicked: bool, ghost now: Pairs)
      modifies this`files
      ensures panicked <==> exists d, b :: d in dirs && b in bases && Panics(old(files), d, b)
      ensures AllSettled(old(files), files, now, stuck)
      ensures if panicked then now <= AllPairs(dirs, bases) else now == AllPairs(dirs, bases)
      ensures panicked <==> exists d, b :: d in dirs && b in bases && NoMapFor(old(files), d, b)
      ensures !panicked ==> forall d, b :: d in dirs && b in bases ==> Thorough(old(files), files, stuck, d, b)
      ensures forall n: Name :: n.dir !in dirs || n.base !in bases ==> Same(old(files), files, n)
    {
      hide Settled, AllSettled, InDir, Panics, NoMapFor, Thorough, Same;
      now := {};
      NothingSettled(files, stuck);
      for i := 0 to |dirs|
        invariant now == AllPairs(dirs[..i], bases)
        invariant AllSettled(old(files), files, now, stuck)
        invariant forall k, b :: 0 <= k < i && b in bases ==> !Panics(old(files), dirs[k], b)
      {
        assert dirs[..i + 1][..i] == dirs[..i];
        panicked, now := MergeTopicSidecarsInDir(dirs[i], bases, old(files), now);
        if panicked {
          AllPairsGrow(dirs, bases, i + 1);
          OutsideSame(old(files), files, now, stuck, dirs, bases);
          PanicsWhen(old(files), dirs, bases);
          return true, now;
        }
      }
      assert dirs[..|dirs|] == dirs;
      OutsideSame(old(files), files, now, stuck, dirs, bases);
      PanicsWhen(old(files), dirs, bases);
      forall d, b | d in dirs && b in bases ensures Thorough(old(files), files, stuck, d, b) {
        PairListed(dirs, bases, d, b);
        MergeIsThorough(old(files), files, now, stuck, d, b);
      }
      return false, now;
    }
  }

  function InDir(dir: string, bases: seq<string>): Pairs { set b | b in bases :: (dir, b) }

  function AllPairs(dirs: seq<string>, bases: seq<string>): Pairs {
    if dirs == [] then {} else AllPairs(dirs[..|dirs| - 1], bases) + InDir(dirs[|dirs| - 1], bases)
  }

  /** The legacy file has entries, and the dev variant holds null. */
  predicate NoMapFor<V>(fs: Files<V>, dir: string, base: string) {
    && Legacy(dir, base) in fs && fs[Legacy(dir, base)].Entries? && fs[Legacy(dir, base)].m.Keys != {}
    && DevVariant(dir, base) in fs && fs[DevVariant(dir, base)].Null?
  }

  /** How a pair of files ends. Without a legacy file, or where one of the two does not decode,
      both are as before. Otherwise the legacy file is gone, unless removing it fails, and
      the dev variant is there and holds every entry that was read from either, the legacy
      one first, and no other. */
  ghost predicate Thorough<V>(fs: Files<V>, fs': Files<V>, stuck: Pairs, dir: string, base: string) {
    var legacy, dev := Legacy(dir, base), DevVariant(dir, base);
    if legacy !in fs || fs[legacy].Broken? || (dev in fs && fs[dev].Broken?) then
      Same(fs, fs', legacy) && Same(fs, fs', dev)
    else
      && (legacy in fs' <==> (dir, base) in stuck) && (legacy in fs' ==> fs'[legacy] == fs[legacy])
      && dev in fs' && !fs'[dev].Broken? && !fs'[dev].Unreadable?
      && (fs[legacy].Entries? && fs[legacy].m.Keys != {} ==> fs'[dev].Entries?)
      && (dev !in fs || !fs[dev].Null? ==> fs'[dev].Entries?)
      && (fs'[dev].Entries? && fs[legacy].Entries? ==>
            forall k :: k in fs[legacy].m ==> k in fs'[dev].m && fs'[dev].m[k] == fs[legacy].m[k])
      && (fs'[dev].Entries? && dev in fs && fs[dev].Entries? ==>
            forall k :: k in fs[dev].m && !(fs[legacy].Entries? && k in fs[legacy].m) ==>
              k in fs'[dev].m && fs'[dev].m[k] == fs[dev].m[k])
      && (fs'[dev].Entries? ==> forall k :: k in fs'[dev].m ==>
            (fs[legacy].Entries? && k in fs[legacy].m) || (dev in fs && fs[dev].Entries? && k in fs[dev].m))
  }

  lemma MergeIsThorough<V>(fs: Files<V>, fs': Files<V>, done: Pairs, stuck: Pairs, dir: string, base: string)
    requires AllSettled(fs, fs', done, stuck) && (dir, base) in done && !NoMapFor(fs, dir, base)
    ensures Thorough(fs, fs', stuck, dir, base)
  {
    assert Settled(fs, fs', done, stuck, Legacy(dir, base)) && Settled(fs, fs', done, stuck, DevVariant(dir, base));
  }

  lemma PanicIs<V>(fs: Files<V>, dir: string, base: string)
    ensures Panics(fs, dir, base) <==> NoMapFor(fs, dir, base)
  {
  }

  lemma PanicsWhen<V>(fs: Files<V>, dirs: seq<string>, bases: seq<string>)
    ensures (exists d, b :: d in dirs && b in bases && Panics(fs, d, b)) <==>
            (exists d, b :: d in dirs && b in bases && NoMapFor(fs, d, b))
    ensures forall d, b :: Panics(fs, d, b) <==> NoMapFor(fs, d, b)
  {
    hide Panics, NoMapFor;
    forall d, b ensures Panics(fs, d, b) <==> NoMapFor(fs, d, b) {
      PanicIs(fs, d, b);
    }
  }

  lemma {:induction false} PairListed(dirs: seq<string>, bases: seq<string>, d: string, b: string)
    ensures (d, b) in AllPairs(dirs, bases) <==> d in dirs && b in bases
  {
    if dirs != [] {
      PairListed(dirs[..|dirs| - 1], bases, d, b);
      assert dirs == dirs[..|dirs| - 1] + [dirs[|dirs| - 1]];
    }
  }

  lemma OutsideSame<V>(fs: Files<V>, fs': Files<V>, done: Pairs, stuck: Pairs, dirs: seq<string>, bases: seq<string>)
    requires AllSettled(fs, fs', done, stuck) && done <= AllPairs(dirs, bases)
    ensures forall n: Name :: n.dir !in dirs || n.base !in bases ==> Same(fs, fs', n)
  {
    hide AllPairs, Same;
    forall n: Name | n.dir !in dirs || n.base !in bases ensures Same(fs, fs', n) {
      PairListed(dirs, bases, n.dir, n.base);
      assert Settled(fs, fs', done, stuck, n);
    }
  }

  lemma NothingInDir(dir: string, done: Pairs)
    ensures done + InDir(dir, []) == done
  {
  }

  lemma InDirNext(dir: string, bases: seq<string>, i: nat, done: Pairs)
    requires i < |bases|
    ensures done + InDir(dir, bases[..i + 1]) == done + InDir(dir, bases[..i]) + {(dir, bases[i])}
  {
    assert bases[..i + 1] == bases[..i] + [bases[i]];
  }

  lemma InDirGrows(dir: string, bases: seq<string>, i: nat, done: Pairs)
    requires i <= |bases|
    ensures done + InDir(dir, bases[..i]) <= done + InDir(dir, bases)
  {
  }

  lemma {:induction false} AllPairsGrow(dirs: seq<string>, bases: seq<string>, i: nat)
    requires i <= |dirs|
    ensures AllPairs(dirs[..i], bases) <= AllPairs(dirs, bases)
  {
    hide InDir;
    if i < |dirs| {
      AllPairsGrow(dirs[..|dirs| - 1], bases, i);
      assert dirs[..|dirs| - 1][..i] == dirs[..i];
    } else {
      assert dirs[..i] == dirs;
    }
  }

  lemma OutcomeIs<V>(fs: Files<V>, dir: string, base: string)
    ensures Mergeable(fs, dir, base) || Panics(fs, dir, base) ==> Legacy(dir, base) in fs
    ensures !(Mergeable(fs, dir, base) && Panics(fs, dir, base))
  {
  }

  /** A dev variant that holds null, beside a legacy file with a title in it. */
  lemma NullDevPanics<V>(dir: string, base: string, topic: string, title: V)
    ensures Panics(map[Legacy(dir, base) := Entries(map[topic := title]), DevVariant(dir, base) := Null], dir, base)
  {
    assert topic in map[topic := title].Keys;
  }

  lemma NothingSettled<V>(fs: Files<V>, stuck: Pairs)
    ensures AllSettled(fs, fs, {}, stuck) && forall bases :: AllPairs([], bases) == {}
  {
  }

  /** Merging one more pair settles it and leaves all other files alone; a pair already
      merged has no legacy file left, or merges to the same again. */
  lemma MergeOneSettles<V>(fs: Files<V>, now: Files<V>, done: Pairs, stuck: Pairs, dir: string, base: string)
    requires AllSettled(fs, now, done, stuck)
    ensures AllSettled(fs, MergeOne(now, dir, base, stuck), done + {(dir, base)}, stuck)
  {
    var next := MergeOne(now, dir, base, stuck);
    assert Settled(fs, now, done, stuck, Legacy(dir, base)) && Settled(fs, now, done, stuck, DevVariant(dir, base));
    forall n ensures Settled(fs, next, done + {(dir, base)}, stuck, n) {
      assert Settled(fs, now, done, stuck, n);
    }
  }

  /** Merging other pairs, or the same before, neither causes nor prevents a panic. */
  lemma PanicsAsBefore<V>(fs: Files<V>, now: Files<V>, done: Pairs, stuck: Pairs, dir: string, base: string)
    requires AllSettled(fs, now, done, stuck)
    ensures Panics(now, dir, base) <==> Panics(fs, dir, base)
  {
    assert Settled(fs, now, done, stuck, Legacy(dir, base)) && Settled(fs, now, done, stuck, DevVariant(dir, base));
  }

  /** No entry that the merge reads is lost, by a panic or otherwise: what was listed in
      either file is listed afterwards, in the dev variant unless the pair was not merged,
      with the legacy value where there was one. */
  lemma NoEntryLost<V>(fs: Files<V>, fs': Files<V>, done: Pairs, stuck: Pairs, dir: string, base: string, k: string)
    requires AllSettled(fs, fs', done, stuck)
    requires k in EntriesAt(fs, Legacy(dir, base)) || k in EntriesAt(fs, DevVariant(dir, base))
    ensures k in EntriesAt(fs', DevVariant(dir, base)) || k in EntriesAt(fs', Legacy(dir, base))
    ensures Mergeable(fs, dir, base) && (dir, base) in done ==>
              && k in EntriesAt(fs', DevVariant(dir, base))
              && EntriesAt(fs', DevVariant(dir, base))[k] ==
                 if k in EntriesAt(fs, Legacy(dir, base)) then EntriesAt(fs, Legacy(dir, base))[k]
                 else EntriesAt(fs, DevVariant(dir, base))[k]
  {
    assert Settled(fs, fs', done, stuck, Legacy(dir, base)) && Settled(fs, fs', done, stuck, DevVariant(dir, base));
  }

  /** What the two files hold together, the legacy one winning. */
  function Wanted<V>(fs: Files<V>, dir: string, base: string): map<string, V> {
    Stored(fs, DevVariant(dir, base)) + Stored(fs, Legacy(dir, base))
  }

  ghost predicate Holds<V>(fs: Files<V>, n: Name, k: string, v: V) { k in Stored(fs, n) && Stored(fs, n)[k] == v }

  ghost predicate AllKept<V>(fs: Files<V>, fs': Files<V>, dir: string, base: string) {
    forall k :: k in Wanted(fs, dir, base) ==>
      || Holds(fs', DevVariant(dir, base), k, Wanted(fs, dir, base)[k])
      || Holds(fs', Legacy(dir, base), k, Wanted(fs, dir, base)[k])
  }

  ghost predicate Contained<V>(a: map<string, V>, b: map<string, V>) { forall k :: k in a ==> k in b && b[k] == a[k] }

  /** Every entry survives with its value if and only if the pair was not merged, or what an
      unreadable file of the pair held is in the other one too: a legacy file that could not
      be read is removed all the same, a dev variant that could not be read is overwritten. */
  lemma EntriesKeptIff<V>(fs: Files<V>, fs': Files<V>, done: Pairs, stuck: Pairs, dir: string, base: string)
    requires AllSettled(fs, fs', done, stuck)
    ensures var legacy, dev := Legacy(dir, base), DevVariant(dir, base);
            AllKept(fs, fs', dir, base) <==>
            || (dir, base) !in done || !Mergeable(fs, dir, base)
            || (&& (IsUnreadable(fs, legacy) && (dir, base) !in stuck ==>
                      Contained(Stored(fs, legacy), EntriesAt(fs, dev)))
                && (IsUnreadable(fs, dev) ==> Stored(fs, dev).Keys <= Stored(fs, legacy).Keys))
  {
    var legacy, dev := Legacy(dir, base), DevVariant(dir, base);
    var wanted := Wanted(fs, dir, base);
    assert Settled(fs, fs', done, stuck, legacy) && Settled(fs, fs', done, stuck, dev);
    if (dir, base) in done && Mergeable(fs, dir, base) {
      assert Stored(fs', dev) == Union(fs, dir, base);
      if AllKept(fs, fs', dir, base) {
        forall k | k in Stored(fs, legacy) && IsUnreadable(fs, legacy) && (dir, base) !in stuck
          ensures k in EntriesAt(fs, dev) && EntriesAt(fs, dev)[k] == Stored(fs, legacy)[k]
        {
          assert k in wanted;
        }
        forall k | k in Stored(fs, dev) && IsUnreadable(fs, dev) ensures k in Stored(fs, legacy) {
          assert k in wanted;
        }
      }
    }
  }

  /** So nothing is lost where both files can be read. */
  lemma ReadableKept<V>(fs: Files<V>, fs': Files<V>, done: Pairs, stuck: Pairs, dir: string, base: string)
    requires AllSettled(fs, fs', done, stuck)
    requires !IsUnreadable(fs, Legacy(dir, base)) && !IsUnreadable(fs, DevVariant(dir, base))
    ensures AllKept(fs, fs', dir, base)
  {
    hide Settled, AllKept;
    EntriesKeptIff(fs, fs', done, stuck, dir, base);
  }

  /** An unreadable legacy file with one title, and no dev variant: the title is gone. */
  lemma UnreadableLost<V>(dir: string, base: string, topic: string, title: V)
    ensures var fs := map[Legacy(dir, base) := Unreadable(map[topic := title])];
            !AllKept(fs, MergeOne(fs, dir, base, {}), dir, base)
  {
    var fs := map[Legacy(dir, base) := Unreadable(map[topic := title])];
    assert topic in Wanted(fs, dir, base);
    assert MergeOne(fs, dir, base, {}) == map[DevVariant(dir, base) := Entries(map[])];
  }

  /** Running the merge again changes no dev variant and removes at most the legacy files
      whose removal failed before; where none did it changes nothing. */
  lemma RerunOnlyRemoves<V>(fs: Files<V>, fs': Files<V>, fs'': Files<V>, done: Pairs, stuck: Pairs, stuck': Pairs)
    requires AllSettled(fs, fs', done, stuck) && AllSettled(fs', fs'', done, stuck')
    ensures forall n :: Same(fs', fs'', n) || (n.Legacy? && (n.dir, n.base) in stuck - stuck' && n !in fs'')
    ensures stuck <= stuck' ==> fs'' == fs'
  {
    forall n ensures Same(fs', fs'', n) || (n.Legacy? && (n.dir, n.base) in stuck - stuck' && n !in fs'') {
      RerunAt(fs, fs', fs'', done, stuck, stuck', n);
    }
    if stuck <= stuck' {
      forall n ensures (n in fs'' <==> n in fs') && (n in fs' ==> fs''[n] == fs'[n]) {
        assert Same(fs', fs'', n) || (n.Legacy? && (n.dir, n.base) in stuck - stuck' && n !in fs'');
      }
    }
  }

  lemma RerunAt<V>(fs: Files<V>, fs': Files<V>, fs'': Files<V>, done: Pairs, stuck: Pairs, stuck': Pairs, n: Name)
    requires AllSettled(fs, fs', done, stuck) && AllSettled(fs', fs'', done, stuck')
    ensures Same(fs', fs'', n) || (n.Legacy? && (n.dir, n.base) in stuck - stuck' && n !in fs'')
  {
    assert Settled(fs, fs', done, stuck, Legacy(n.dir, n.base));
    assert Settled(fs, fs', done, stuck, DevVariant(n.dir, n.base));
    assert Settled(fs', fs'', done, stuck', n);
  }

  /** A merge whose removal of the legacy file fails, a change of the dev variant to `edited`,
      and another merge: the legacy entries are back over the edited ones, which is harmless
      if and only if the edit agrees with every one of them. */
  lemma LingeringLegacyHarmlessIff<V>(fs: Files<V>, dir: string, base: string, edited: map<string, V>, stuck: Pairs)
    requires Mergeable(fs, dir, base)
    ensures var dev := DevVariant(dir, base); var legacy := EntriesAt(fs, Legacy(dir, base));
            var failed := MergeOne(fs, dir, base, {(dir, base)});
            var next := EntriesAt(MergeOne(failed[dev := Entries(edited)], dir, base, stuck), dev);
            && next == edited + legacy
            && (next == edited <==> forall k :: k in legacy ==> k in edited && edited[k] == legacy[k])
            && (EntriesAt(failed, dev) == edited ==> next == edited)
  {
    var legacy := EntriesAt(fs, Legacy(dir, base));
    if edited + legacy == edited {
      forall k | k in legacy ensures k in edited && edited[k] == legacy[k] {
        assert k in edited + legacy && (edited + legacy)[k] == legacy[k];
      }
    }
  }
}
