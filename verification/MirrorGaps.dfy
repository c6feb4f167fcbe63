/** How a tracee comes to see what no shared file system holds: what each step that goes wrong needs to have
happened before it, and exactly when it then does. */
module MirrorGaps {
  import opened Prelude
  import opened Disk
  import opened MirrorSpec
  import opened Mirrored
  import opened Renaming
  import opened Refining

  function Reading(p: Path): Op {
    Open(p, ReadOnly, false, false, b => b, 0)
  }

  /* ---- What a read finds ---- */

  /** What a read of a file finds, its folder being listed first if it is not current. */
  function Read(fetchable: bool, found: Cell): Seen {
    var c := if found.current then found else Listed(found);
    if Awaits(c) then (if IsFile(c.remote) && fetchable then Content(c.remote.value.bytes) else Refused)
    else if IsFile(c.local) then Content(c.local.value.bytes)
    else Refused
  }

  /** A read of a file finds it as it is here, or as the target has it where it is still to be fetched; and it is
  refused where it is to be fetched and cannot be: the target has no such file, a folder has the name of its scratch
  file, or that is too long a name. */
  lemma {:induction false} ReadIs(w: World, m: Mirror, fs: Shared, p: Path, mint: Mint)
    requires Inv(w, m) && Stands(m, fs) && Minted(w, m, mint) && p != [] && p in fs && fs[p].Text?
    requires !Refuses(m, Parent(p))
    ensures Step(m, Reading(p), mint).1 == Read(Fetchable(fs, Dir, p), CellAt(m, p))
  {
    hide EnsureDirectory, PrepareOpen, NativeOpen, Minted, Inv, Stands, Sound, Truth, Dirty, CellAt, Refuses, Fetchable,
         Readied, Listed, Current, Step;
    TextThere(w, m, fs, p);
    PathKeeps(w, m, fs, p, mint);
    var m1 := EnsurePath(m, p, mint).0;
    CurrentAt(m, p);
    CurrentAt(m1, p);
    if !Current(m, Parent(p)) {
      DirIs(w, m, fs, Parent(p));
      ListedOnce(w, m, p, mint);
    } else {
      EnsuredOnce(m, Parent(p), mint);
    }
    PlaceSound(w, m1, fs, p);
    FetchableToo(w, m1, fs, p);
    ReadHere(m1, p, mint);
    PrepareTwice(m, m1, Reading(p), mint);
  }

  /** Where a folder is current, a file in it is read as it is. */
  lemma {:induction false} ReadHere(m: Mirror, p: Path, mint: Mint)
    requires p != [] && Current(m, Parent(p)) && CanHold(m.local, Folder, p)
    ensures Step(m, Reading(p), mint).1 == Read(Fetchable(m.local, Folder, p), CellAt(m, p))
  {
    hide EnsureDirectory, PrepareOpen, NativeOpen, Fetchable, Listed;
    var op := Reading(p);
    EnsuredOnce(m, Parent(p), mint);
    PrepareAt(m, m, op, mint);
    ScratchedAt(m, p, p);
    if PrepareOpen(m, op, mint).1 {
      PlacedStill(m, Readied(m, op), PrepareOpen(m, op, mint).0, op, CellAt(m, p));
      NativeAt(PrepareOpen(m, op, mint).0, op);
    }
  }

  lemma {:induction false} PrepareTwice(m: Mirror, m1: Mirror, op: Op, mint: Mint)
    requires op.Open? && op.path != [] && EnsurePath(m, op.path, mint) == (m1, true) && Current(m1, Parent(op.path))
    ensures Step(m, op, mint) == Step(m1, op, mint)
  {
    hide EnsureDirectory, Fetch, NativeOpen;
    EnsuredOnce(m1, Parent(op.path), mint);
  }

  /** What the target is told of a path by the next flush. */
  lemma {:induction false} ToldIs(m: Mirror, mint: Mint, p: Path)
    ensures At(Contents(Flush(m, mint).remote), p) == Truth(CellAt(m, p))
  {
    hide Flush;
    FlushAt(m, mint, p);
    ContentsAt(Flush(m, mint).remote, p);
    assert CellAt(Flush(m, mint), p).remote == At(Flush(m, mint).remote, p);
  }

  /** In a folder not listed since, a file is read right unless it is to be fetched and cannot be. */
  lemma {:induction false} ReadRight(w: World, m: Mirror, fs: Shared, p: Path, mint: Mint)
    requires Inv(w, m) && Clean(m) && Stands(m, fs) && p != [] && p in fs && fs[p].Text?
    requires !Current(m, Parent(p)) && !Refuses(m, Parent(p))
    ensures Step(m, Reading(p), mint).1 ==
            if Fetching(Reading(p), CellAt(m, p)) && !Fetchable(fs, Dir, p) then Refused else Content(fs[p].bytes)
  {
    hide Stands, Sound, Truth, Refuses, Step, Inv, Read, Dirty, Fetching, CellAt;
    CleanMinted(w, m, mint);
    ReadIs(w, m, fs, p, mint);
    PlaceThere(w, m, fs, p);
    CurrentAt(m, p);
    ReadListed(w, p, Fetchable(fs, Dir, p), CellAt(m, p), fs[p].bytes);
  }

  lemma {:induction false} PlaceThere(w: World, m: Mirror, fs: Shared, p: Path)
    requires Inv(w, m) && Stands(m, fs)
    ensures Standing(w) && Sound(w, p, CellAt(m, p)) && Truth(CellAt(m, p)) == At(fs, p)
  {
  }

  lemma {:induction false} ReadListed(w: World, p: Path, fetchable: bool, c: Cell, bytes: Bytes)
    requires Standing(w) && Sound(w, p, c) && !Dirty(c) && !c.current && Truth(c) == Some(Text(bytes))
    ensures Read(fetchable, c) == if Fetching(Reading(p), c) && !fetchable then Refused else Content(bytes)
  {
  }

  /* ---- Fetched through a scratch file ---- */

  /** A file read beside one that has the name of its scratch file: where it is fetched, that one is not found here
  any more, and what was written to it and not pushed the target is never told. */
  lemma {:induction false} FetchedThroughAnother(w: World, m: Mirror, fs: Shared, p: Path, mint: Mint, next: Mint)
    requires Inv(w, m) && Stands(m, fs) && Minted(w, m, mint) && p != [] && p in fs && fs[p].Text?
    requires Scratch(p) in fs && fs[Scratch(p)].Text? && !Refuses(m, Parent(p))
    ensures
      var (m1, s) := (Step(m, Reading(p), mint).0, Scratch(p));
      var fetched := Fetching(Reading(p), CellAt(m, p)) && |p[|p| - 1]| + |SUFFIX| <= NAME_MAX;
      && (Step(m1, Look(s), next).1 == Refused <==> fetched || Missing(CellAt(m, s)))
      && (At(Contents(Flush(m1, next).remote), s) == At(fs, s) <==> !(fetched && Untold(CellAt(m, s))))
  {
    hide EnsureDirectory, Step, Minted, Inv, Stands, Sound, Truth, Dirty, CellAt, Fetchable, Fetching, Missing, Untold,
         Flush, Refuses, Current, Contents;
    var op, s := Reading(p), Scratch(p);
    TextThere(w, m, fs, p);
    PathKeeps(w, m, fs, p, mint);
    var m0, m1 := EnsurePath(m, p, mint).0, Step(m, op, mint).0;
    LostStays(w, m, m0, fs, op, mint);
    FetchableToo(w, m0, fs, p);
    FetchableThere(fs, p);
    AfterRead(w, m, m0, fs, p, mint);
    ScratchedAt(m, p, p);
    MissingStays(w, m, Parent(p), s, mint);
    HereAsThere(w, m0, fs, s);
    LookedAt(m1, s, next);
    ToldIs(m1, next, s);
    PlaceThere(w, m0, fs, s);
    CurrentAt(m0, s);
    LocalAt(m0, s);
    LocalAt(m1, s);
    GoneSound(w, s, CellAt(m0, s));
    UntoldStays(w, m, m0, s);
  }

  /** So it is from the start: of two files of the target's, one with the name of the other's scratch file, reading
  the one loses the other. */
  lemma {:induction false} ReadingLosesItsNeighbour(w: World, remote: Tree, name: Name, mint: Mint, next: Mint)
    requires Standing(w) && Rooted(remote, Folder) && forall p :: p in remote ==> Tells(w, p, remote[p])
    requires IsFile(At(remote, [name])) && IsFile(At(remote, [name + SUFFIX])) && remote[[name]].bytes != []
    requires |name| + |SUFFIX| <= NAME_MAX
    ensures
      var m := Mirror(map[[] := Folder], remote, map[], map[], {}, 0);
      && Step(Step(m, Reading([name]), mint).0, Look([name + SUFFIX]), next).1 == Refused
      && Share(Contents(remote), Look([name + SUFFIX])).1 == Size(|remote[[name + SUFFIX]].bytes|)
  {
    hide Step, Inv, Stands, Flush, Contents, CellAt, Missing, Untold, Fetching, Refuses, Minted;
    var m := Mirror(map[[] := Folder], remote, map[], map[], {}, 0);
    var p := [name];
    MirrorStarts(w, remote);
    assert Parent(p) == [] && Scratch(p) == [name + SUFFIX];
    ContentsAt(remote, p);
    ContentsAt(remote, Scratch(p));
    AtFirst(w, m, remote, p, mint);
    FetchedThroughAnother(w, m, Contents(remote), p, mint, next);
  }

  /** A mirror that holds nothing but its root fetches what has anything in it. */
  lemma {:induction false} AtFirst(w: World, m: Mirror, remote: Tree, p: Path, mint: Mint)
    requires m == Mirror(map[[] := Folder], remote, map[], map[], {}, 0)
    requires p != [] && Parent(p) == [] && IsFile(At(remote, p)) && Tells(w, p, remote[p]) && remote[p].bytes != []
    ensures Fetching(Reading(p), CellAt(m, p)) && !Refuses(m, Parent(p)) && Minted(w, m, mint)
  {
    assert CellAt(m, p) == Cell(None, Some(remote[p]), None, false, false);
  }

  lemma {:induction false} FetchableThere(fs: Shared, p: Path)
    requires p != [] && At(fs, Parent(p)) == Some(Dir) && At(fs, Scratch(p)) != Some(Dir)
    ensures Fetchable(fs, Dir, p) <==> |p[|p| - 1]| + |SUFFIX| <= NAME_MAX
  {
    assert Parent(Scratch(p)) == Parent(p);
  }

  /** What a read leaves at every other path is what its fetch left. */
  lemma {:induction false} AfterRead(w: World, m: Mirror, m0: Mirror, fs: Shared, p: Path, mint: Mint)
    requires p != [] && EnsurePath(m, p, mint) == (m0, true) && Current(m0, Parent(p)) && At(fs, p) != Some(Dir)
    requires Inv(w, m0) && Stands(m0, fs) && CanHold(fs, Dir, p)
    ensures
      var (m1, s) := (Step(m, Reading(p), mint).0, Scratch(p));
      && Current(m1, Parent(p))
      && CellAt(m1, s) == if Awaits(CellAt(m0, p)) && Fetchable(m0.local, Folder, p) then CellAt(m0, s).(local := None)
                          else CellAt(m0, s)
  {
    hide EnsureDirectory, PrepareOpen, Inv, Stands, Sound, Truth, Dirty, Fetchable;
    var op := Reading(p);
    PlaceSound(w, m0, fs, p);
    PrepareAt(m, m0, op, mint);
    ScratchedAt(m0, p, Scratch(p));
    if PrepareOpen(m, op, mint).1 {
      PlacedStill(m0, Readied(m0, op), PrepareOpen(m, op, mint).0, op, CellAt(m0, p));
      assert Step(m, op, mint).0 == PrepareOpen(m, op, mint).0;
    }
  }

  lemma {:induction false} LookedAt(m: Mirror, p: Path, mint: Mint)
    requires p != [] && Current(m, Parent(p))
    ensures Step(m, Look(p), mint).1 == Refused <==> p !in m.local
  {
    EnsuredOnce(m, Parent(p), mint);
  }

  lemma {:induction false} UntoldStays(w: World, m: Mirror, m1: Mirror, p: Path)
    requires Inv(w, m) && p != [] && (if Current(m, Parent(p)) then m1 == m else Clean(m1))
    ensures Untold(CellAt(m, p)) <==> Untold(CellAt(m1, p))
  {
    hide Truth;
    assert Sound(w, p, CellAt(m, p));
    assert m1 != m ==> !Dirty(CellAt(m1, p));
  }

  /* ---- Written over a placeholder, and cut short ---- */

  /** A file still to be fetched, truncated and written without being: the next open that reads it finds what the
  target held before, or nothing at all. */
  lemma {:induction false} TruncatedUnfetched(w: World, m: Mirror, fs: Shared, op: Op, mint: Mint)
    requires op.Open? && op.truncates && op.access.WriteOnly? && op.path != []
    requires Inv(w, m) && Stands(m, fs) && Fair(w, m, op, mint) && !Refuses(m, Parent(op.path))
             && CanHold(fs, Dir, op.path)
    requires Fetches(EnsurePath(m, op.path, mint).0, op.path) && op.path in fs
    requires !Dirty(CellAt(EnsurePath(m, op.path, mint).0, op.path))
    ensures Step(Step(m, op, mint).0, Reading(op.path), mint).1 ==
            if Fetchable(fs, Dir, op.path) then Content(fs[op.path].bytes) else Refused
  {
    hide EnsureDirectory, NativeOpen, PrepareOpen, Minted, Inv, Stands, Sound, Truth, Dirty, CellAt, Fetchable, Read,
         Opened, Refuses;
    var p := op.path;
    PathKeeps(w, m, fs, p, mint);
    var m1 := EnsurePath(m, p, mint).0;
    PlaceSound(w, m1, fs, p);
    PrepareAt(m, m1, op, mint);
    var m2 := PrepareOpen(m, op, mint).0;
    PlacedStill(m1, m1, m2, op, CellAt(m1, p));
    NativeAt(m2, op);
    LocalAt(m1, p);
    var m3 := Step(m, op, mint).0;
    assert m3 == NativeOpen(m2, op).0;
    OthersOn(m1, m2, m3, p);
    FetchableToo(w, m1, fs, p);
    FetchableStays(m1, m3, p);
    UnfetchedCell(m1, p);
    WrittenOver(op, CellAt(m1, p), Fetchable(fs, Dir, p));
    LocalAt(m3, p);
    ReadHere(m3, p, mint);
  }

  lemma {:induction false} FetchableStays(m: Mirror, m1: Mirror, p: Path)
    requires p != [] && Others(m, m1, p)
    ensures Fetchable(m1.local, Folder, p) <==> Fetchable(m.local, Folder, p)
    ensures At(m1.local, Parent(p)) == At(m.local, Parent(p)) && (Current(m1, Parent(p)) <==> Current(m, Parent(p)))
  {
    ScratchedAt(m, p, p);
  }

  lemma {:induction false} UnfetchedCell(m: Mirror, p: Path)
    ensures Fetches(m, p) <==> Awaits(CellAt(m, p))
  {
  }

  lemma {:induction false} WrittenOver(op: Op, c: Cell, fetchable: bool)
    requires op.Open? && op.truncates && op.access.WriteOnly? && c.current && !Dirty(c) && Awaits(c)
    requires c.local != Some(Folder) && Truth(c).Some? && c.remote != Some(Folder)
    ensures
      var c1 := Opened(op, Prepared(c, op));
      && c1.local != Some(Folder) && c1.current
      && Read(fetchable, c1) == if fetchable then Content(TextOf(Truth(c)).value) else Refused
  {
  }

  /** A file cut short by an open that only reads it: the tracee finds nothing in it, and the target is told so
  exactly where the path had been noted as written before, or there was nothing to cut. */
  lemma {:induction false} CutShortUnnoted(w: World, m: Mirror, fs: Shared, op: Op, mint: Mint, next: Mint)
    requires op.Open? && op.truncates && op.access.ReadOnly? && !op.creates && op.path != []
    requires Inv(w, m) && Stands(m, fs) && Fair(w, m, op, mint) && Step(m, op, mint).1 != Refused
    requires CanHold(fs, Dir, op.path) && op.path in fs
    ensures
      var m1 := Step(m, op, mint).0;
      && Step(m, op, mint).1 == Content([]) == Share(fs, op).1
      && At(Contents(Flush(m1, next).remote), op.path) ==
         (if op.path in m.dirty then Some(Text([])) else At(fs, op.path))
      && (AsShared(m, fs, op, mint) <==> (op.path in m.dirty || fs[op.path] == Text([])) && !Overwrites(m, op))
  {
    hide EnsureDirectory, Step, Minted, Inv, Stands, Sound, Truth, Dirty, LostAt, CellAt, Flush, Prepared, Opened,
         Comes, FairAt, Overwrites, Failing;
    var p := op.path;
    var c := CellAt(EnsurePath(m, p, mint).0, p);
    WentOn(w, m, fs, op, mint);
    ToldIs(Step(m, op, mint).0, next, p);
    CandidateStays(w, m, fs, p, mint);
    CutShort(w, op, c);
    WentWrong(w, m, fs, op, mint);
  }

  /** An open of a file there is that is not refused: it has been prepared, and is carried out here. */
  lemma {:induction false} WentOn(w: World, m: Mirror, fs: Shared, op: Op, mint: Mint)
    requires op.Open? && Inv(w, m) && Stands(m, fs) && Fair(w, m, op, mint) && Step(m, op, mint).1 != Refused
    requires CanHold(fs, Dir, op.path)
    ensures
      var c := CellAt(EnsurePath(m, op.path, mint).0, op.path);
      && !Refuses(m, Parent(op.path)) && Sound(w, op.path, c) && c.current && c.remote != Some(Folder)
      && Truth(c) == At(fs, op.path) && Standing(w) && FairAt(w, op, Prepared(c, op)) && !(Needs(op) && Failing(c))
      && CellAt(Step(m, op, mint).0, op.path) == Opened(op, Prepared(c, op))
      && Step(m, op, mint).1 == Comes(op, Prepared(c, op))
      && (LostAt(op, CellAt(m, op.path)) <==> LostAt(op, c))
      && !(Fetching(op, CellAt(m, op.path)) && !Fetchable(fs, Dir, op.path))
  {
    hide EnsureDirectory, NativeOpen, PrepareOpen, Minted, Inv, Stands, Sound, Truth, Dirty, LostAt, CellAt,
         Refuses, Fetchable, Fetching, Prepared, Opened, Comes, Readied, Current;
    var p := op.path;
    PathKeeps(w, m, fs, p, mint);
    var m1 := EnsurePath(m, p, mint).0;
    NotRefused(m, op, mint);
    PlaceSound(w, m1, fs, p);
    PrepareAt(m, m1, op, mint);
    LostStays(w, m, m1, fs, op, mint);
    ReadiedKeeps(w, m1, fs, op);
    FetchableToo(w, m1, fs, p);
    var m2 := PrepareOpen(m, op, mint).0;
    PlacedStill(m1, Readied(m1, op), m2, op, CellAt(m1, p));
    NativeAt(m2, op);
  }

  lemma {:induction false} WentWrong(w: World, m: Mirror, fs: Shared, op: Op, mint: Mint)
    requires op.Open? && Inv(w, m) && Stands(m, fs) && Fair(w, m, op, mint) && Step(m, op, mint).1 != Refused
    requires CanHold(fs, Dir, op.path) && op.path in fs
    ensures
      var c := CellAt(EnsurePath(m, op.path, mint).0, op.path);
      AsShared(m, fs, op, mint) <==> !Overwrites(m, op) && !LostAt(op, c)
  {
    hide Step, Inv, Stands, Fair, AsShared, LostAt, CellAt, Overwrites, Refuses, Fetching, Fetchable, EnsurePath,
         FairAt, Prepared, Opened, Comes;
    WentOn(w, m, fs, op, mint);
    StepRefines(w, m, fs, op, mint);
  }

  lemma {:induction false} NotRefused(m: Mirror, op: Op, mint: Mint)
    requires op.Open? && Step(m, op, mint).1 != Refused
    ensures EnsurePath(m, op.path, mint).1 && PrepareOpen(m, op, mint).1
  {
    hide EnsureDirectory, NativeOpen;
  }

  /** Making sure of a file's path leaves it noted as written, or not. */
  lemma {:induction false} CandidateStays(w: World, m: Mirror, fs: Shared, p: Path, mint: Mint)
    requires Inv(w, m) && Stands(m, fs) && Minted(w, m, mint) && p != [] && CanHold(fs, Dir, p) && p in fs
    requires !Refuses(m, Parent(p))
    ensures CellAt(EnsurePath(m, p, mint).0, p).candidate <==> p in m.dirty
  {
    hide EnsureDirectory, Sound, Truth, Listed, Minted, Dirty;
    if Current(m, Parent(p)) {
      EnsuredOnce(m, Parent(p), mint);
    } else {
      DirIs(w, m, fs, Parent(p));
      ListedOnce(w, m, p, mint);
      assert Truth(CellAt(m, p)) == At(fs, p);
      ListedNote(CellAt(m, p));
    }
  }

  lemma {:induction false} ListedNote(c: Cell)
    requires !Dirty(c) && Truth(c).Some?
    ensures Listed(c).candidate == c.candidate
  {
  }

  lemma {:induction false} CutShort(w: World, op: Op, c: Cell)
    requires op.Open? && op.truncates && op.access.ReadOnly? && !op.creates && Sound(w, op.path, c) && c.current
    requires Truth(c).Some? && Truth(c) != Some(Dir) && c.remote != Some(Folder) && !Failing(c)
    requires FairAt(w, op, Prepared(c, op)) && Standing(w) && Comes(op, Prepared(c, op)) != Refused
    ensures
      var c2 := Opened(op, Prepared(c, op));
      && Truth(c2) == (if c.candidate then Some(Text([])) else Truth(c))
      && (LostAt(op, c) <==> !c.candidate && Truth(c) != Some(Text([])))
      && Comes(op, Prepared(c, op)) == Content([])
  {
  }

  /* ---- Forgotten before it was fetched ---- */

  /** A file nothing is known of is read as it is here, in a folder that is current, and is otherwise to be fetched
  unless there is nothing in it. */
  lemma {:induction false} ReadBlind(w: World, m: Mirror, fs: Shared, p: Path, mint: Mint)
    requires Inv(w, m) && Clean(m) && Stands(m, fs) && p != [] && p in fs && fs[p].Text? && p !in m.files
    requires !Refuses(m, Parent(p))
    ensures Step(m, Reading(p), mint).1 == Content(fs[p].bytes) <==>
            if Current(m, Parent(p)) then BytesOf(At(m.local, p)) == Some(fs[p].bytes)
            else fs[p].bytes == [] || Fetchable(fs, Dir, p)
  {
    hide Stands, Sound, Truth, Refuses, Step, Inv, Read, Dirty, Fetchable, CellAt;
    CleanMinted(w, m, mint);
    ReadIs(w, m, fs, p, mint);
    PlaceThere(w, m, fs, p);
    CurrentAt(m, p);
    LocalAt(m, p);
    UnfetchedCell(m, p);
    UnknownCell(m, p);
    ReadUnknown(w, p, Fetchable(fs, Dir, p), CellAt(m, p), fs[p].bytes);
  }

  lemma {:induction false} UnknownCell(m: Mirror, p: Path)
    ensures CellAt(m, p).record.None? <==> p !in m.files
  {
  }

  lemma {:induction false} ReadUnknown(w: World, p: Path, fetchable: bool, c: Cell, bytes: Bytes)
    requires Standing(w) && Sound(w, p, c) && !Dirty(c) && c.record.None? && Truth(c) == Some(Text(bytes))
    ensures Read(fetchable, c) == Content(bytes) <==>
            if c.current then BytesOf(c.local) == Some(bytes) else bytes == [] || fetchable
  {
  }

  /** A path looked up below a file: the listing fails, and all that is known of the file is dropped.  A read of it
  then goes wrong exactly where its folder is current, and what is here is neither modified nor the same, or where
  its folder is not and it cannot be fetched. */
  lemma {:induction false} LookedUpBelowAFile(w: World, m: Mirror, fs: Shared, file: Path, name: Name, mint: Mint)
    requires Inv(w, m) && Stands(m, fs) && Minted(w, m, mint) && file != [] && file in fs && fs[file].Text?
    requires !Refuses(m, Parent(file))
    ensures
      var m1 := Step(m, Look(file + [name]), mint).0;
      && Stands(m1, fs)
      && (Step(m1, Reading(file), mint).1 != Content(fs[file].bytes) <==>
            if Current(m, Parent(file))
            then !Dirty(CellAt(m, file)) && BytesOf(At(m.local, file)) != Some(fs[file].bytes)
            else fs[file].bytes != [] && !Fetchable(fs, Dir, file))
  {
    hide EnsureDirectory, Stands, Minted, Sound, Truth, Dirty, Refuses, Flush, DropLocal, Step;
    var below := file + [name];
    assert Parent(below) == file;
    DirIs(w, m, fs, file);
    assert !Refuses(m, file) by {
      NotInTheWay(w, m, file);
    }
    DroppedFile(w, m, fs, file, mint);
    var m1 := EnsureDirectory(m, file, mint).0;
    assert Step(m, Look(below), mint).0 == m1 by {
      LookedUp(m, below, mint);
    }
    ReadAfter(w, m, m1, fs, file, mint);
  }

  lemma {:induction false} LookedUp(m: Mirror, p: Path, mint: Mint)
    requires p != []
    ensures Step(m, Look(p), mint).0 == EnsureDirectory(m, Parent(p), mint).0
  {
    hide EnsureDirectory;
  }

  /** What a listing of a file leaves: nothing known of it, and what is here and on the target as a flush leaves
  it. */
  lemma {:induction false} DroppedFile(w: World, m: Mirror, fs: Shared, file: Path, mint: Mint)
    requires Inv(w, m) && Stands(m, fs) && Minted(w, m, mint) && file != [] && file in fs && fs[file].Text?
    ensures
      var m1 := EnsureDirectory(m, file, mint).0;
      && Inv(w, m1) && Clean(m1) && Stands(m1, fs) && file !in m1.files && file !in m1.dirty && m1.gen == m.gen
      && (Current(m1, Parent(file)) <==> Current(m, Parent(file)))
      && (Current(m, Parent(file)) ==> At(m1.local, file) == At(m.local, file))
      && At(m1.remote, file) == Flushed(CellAt(m, file), mint(file)).remote
      && (Refuses(m1, Parent(file)) ==> Refuses(m, Parent(file)))
  {
    hide Flush, Sound, Blocked, Truth, Dirty, Minted, DropLocal, Flushed;
    DirIs(w, m, fs, file);
    assert !Current(m, file) && Covers(file, file);
    FlushKeeps(w, m, mint);
    FlushStands(m, mint);
    FlushAt(m, mint, file);
    var m1 := Flush(m, mint);
    DropMarked(m1, file);
    DropKeeps(w, m1, file);
    SameStands(m, m1, fs);
    SameStands(m1, DropLocal(m1, file), fs);
    DroppedIs(w, m1, file);
  }

  lemma {:induction false} DroppedIs(w: World, m: Mirror, file: Path)
    requires Inv(w, m) && At(m.remote, file) != Some(Folder) && file != []
    ensures
      var m1 := DropLocal(m, file);
      && file !in m1.dirty && m1.remote == m.remote
      && (Current(m, Parent(file)) ==> At(m1.local, file) == At(m.local, file))
      && (Blocked(m1.local, Parent(file)) ==> Blocked(m.local, Parent(file)))
  {
    assert Covers(file, file);
    assert Sound(w, file, CellAt(m, file));
    if Blocked(DropLocal(m, file).local, Parent(file)) {
      var i :| 0 <= i <= |Parent(file)| && IsFile(At(DropLocal(m, file).local, Parent(file)[..i]));
      assert IsFile(At(m.local, Parent(file)[..i]));
    }
  }

  /** A read of a file nothing is known of. */
  lemma {:induction false} ReadAfter(w: World, m: Mirror, m1: Mirror, fs: Shared, file: Path, mint: Mint)
    requires Inv(w, m) && Stands(m, fs) && file != [] && file in fs && fs[file].Text?
    requires Inv(w, m1) && Clean(m1) && Stands(m1, fs) && file !in m1.files && file !in m1.dirty
    requires Current(m1, Parent(file)) <==> Current(m, Parent(file))
    requires Current(m, Parent(file)) ==> At(m1.local, file) == At(m.local, file)
    requires At(m1.remote, file) == Flushed(CellAt(m, file), mint(file)).remote
    requires !Refuses(m1, Parent(file))
    ensures
      Step(m1, Reading(file), mint).1 != Content(fs[file].bytes) <==>
        if Current(m, Parent(file)) then !Dirty(CellAt(m, file)) && BytesOf(At(m.local, file)) != Some(fs[file].bytes)
        else fs[file].bytes != [] && !Fetchable(fs, Dir, file)
  {
    hide Stands, Sound, Truth, Refuses, Step, Share, Inv, Clean, Fetchable;
    TextThere(w, m, fs, file);
    ReadBlind(w, m1, fs, file, mint);
  }

  lemma {:induction false} TextThere(w: World, m: Mirror, fs: Shared, p: Path)
    requires Inv(w, m) && Stands(m, fs) && p != [] && p in fs && fs[p].Text?
    ensures At(fs, Parent(p)) == Some(Dir) && CanHold(fs, Dir, p)
    ensures Dirty(CellAt(m, p)) ==> BytesOf(At(m.local, p)) == Some(fs[p].bytes)
    ensures !Dirty(CellAt(m, p)) ==> BytesOf(At(m.remote, p)) == Some(fs[p].bytes)
  {
    FsRooted(w, m, fs);
    assert Truth(CellAt(m, p)) == At(fs, p);
  }

  /** A file renamed onto itself: its record goes with the target's, and it is read as it is here, which is wrong
  exactly where that is neither modified nor the same. */
  lemma {:induction false} RenamedOntoItself(w: World, m: Mirror, fs: Shared, p: Path, mint: Mint)
    requires Inv(w, m) && Stands(m, fs) && Minted(w, m, mint) && p != [] && p in fs && fs[p].Text?
    requires !Refuses(m, Parent(p))
    ensures
      var m1 := Step(m, Rename(p, p), mint).0;
      var c := CellAt(EnsurePath(m, p, mint).0, p);
      && Stands(m1, fs)
      && (Step(m1, Reading(p), mint).1 != Content(fs[p].bytes) <==> !Dirty(c) && BytesOf(c.local) != Some(fs[p].bytes))
  {
    hide *;
    PathKeeps(w, m, fs, p, mint);
    var m1 := EnsurePath(m, p, mint).0;
    TextThere(w, m, fs, p);
    EnsuredOnce(m1, Parent(p), mint);
    OntoItselfRead(w, m1, fs, p, mint);
    OntoStep(m, m1, fs, p, mint);
  }

  /** The same, of a file whose folder is current. */
  lemma {:induction false} OntoItselfRead(w: World, m: Mirror, fs: Shared, p: Path, mint: Mint)
    requires Inv(w, m) && Stands(m, fs) && Minted(w, m, mint) && p != [] && p in fs && fs[p].Text?
    requires Current(m, Parent(p))
    ensures
      var m1 := Forget(Flush(m, mint), p);
      && Stands(m1, fs) && fs == Contents(Flush(m, mint).remote) && Flush(m, mint).local == m.local
      && (Step(m1, Reading(p), mint).1 != Content(fs[p].bytes) <==>
            !Dirty(CellAt(m, p)) && BytesOf(At(m.local, p)) != Some(fs[p].bytes))
  {
    hide Stands, Minted, Sound, Truth, Dirty, Flush, Inv, Clean, CellAt, Forget, Step, EnsureDirectory, Contents;
    FlushKeeps(w, m, mint);
    FlushStands(m, mint);
    var m2 := Flush(m, mint);
    SameStands(m, m2, fs);
    CleanIs(m2, fs);
    TextThere(w, m, fs, p);
    ForgetKeeps(w, m2, p);
    SameStands(m2, Forget(m2, p), fs);
    CleanHere(w, m2, p);
    ContentsAt(m2.remote, p);
    ForgottenIs(m2, p);
    ReadBlind(w, Forget(m2, p), fs, p, mint);
  }

  lemma {:induction false} ForgottenIs(m: Mirror, p: Path)
    requires p != []
    ensures
      var m1 := Forget(m, p);
      && p !in m1.files && m1.local == m.local && (Current(m1, Parent(p)) <==> Current(m, Parent(p)))
  {
    assert Covers(p, p);
  }

  lemma {:induction false} OntoStep(m: Mirror, m1: Mirror, fs: Shared, p: Path, mint: Mint)
    requires p != [] && EnsurePath(m, p, mint) == (m1, true) && EnsureDirectory(m1, Parent(p), mint) == (m1, true)
    requires fs == Contents(Flush(m1, mint).remote) && p in fs && fs[p].Text? && At(fs, Parent(p)) == Some(Dir)
    ensures Step(m, Rename(p, p), mint).0 == Forget(Flush(m1, mint), p)
    ensures CellAt(m1, p).local == At(m1.local, p)
  {
    hide EnsureDirectory, Flush, Forget;
    var m2 := Flush(m1, mint);
    SameMovable(m2.remote, p, p);
    OntoItself(m2, p);
    MovedOnto(m2, p);
  }

  lemma {:induction false} MovedOnto(m: Mirror, p: Path)
    ensures MoveRecords(m.(remote := Renamed(m.remote, p, p)), p, p) == Forget(m, p)
    ensures Forget(m, p).(local := Renamed(m.local, p, p)) == Forget(m, p)
  {
    OntoItself(m, p);
    assert m.(remote := Renamed(m.remote, p, p)) == m;
  }

  /* ---- Folders turned ---- */

  /** After a command, a file is read right exactly where nothing that now holds it is still a file here, and it can
  be fetched if it has to be. */
  lemma {:induction false} TurnedIntoAFolder(w: World, m: Mirror, fs: Shared, op: Op, p: Path, mint: Mint, next: Mint)
    requires op.Command? && Inv(w, m) && Stands(m, fs) && Fair(w, m, op, mint)
    requires p != [] && p in op.change(fs) && op.change(fs)[p].Text?
    ensures
      var m1 := Step(m, op, mint).0;
      Step(m1, Reading(p), next).1 ==
      if Blocked(m.local, Parent(p)) || (Fetching(Reading(p), CellAt(m1, p)) && !Fetchable(op.change(fs), Dir, p))
      then Refused else Content(op.change(fs)[p].bytes)
  {
    hide Inv, Stands, Flush, Blocked, EnsureDirectory, LostAt, Fetching, Fetchable, CellAt;
    var fs1, m1 := op.change(fs), Step(m, op, mint).0;
    CommandRefines(w, m, fs, op, mint);
    AfterCommand(w, m, op, mint);
    CleanMinted(w, m1, next);
    TextThere(w, m1, fs1, p);
    DirIs(w, m1, fs1, Parent(p));
    if Blocked(m1.local, Parent(p)) {
      assert Refuses(m1, Parent(p));
      PathKeeps(w, m1, fs1, p, next);
    } else {
      ReadRight(w, m1, fs1, p, next);
    }
  }

  lemma {:induction false} AfterCommand(w: World, m: Mirror, op: Op, mint: Mint)
    requires op.Command? && Inv(w, m) && Fair(w, m, op, mint)
    ensures
      var m1 := Step(m, op, mint).0;
      Clean(m1) && m1.local == m.local && m1.files.Keys >= m.files.Keys && forall d :: !Current(m1, d)
  {
    hide Flush, Sound, Truth;
    var m1 := Step(m, op, mint).0;
    FlushKeeps(w, m, mint);
    FlushStands(m, mint);
    forall p
      ensures !Dirty(CellAt(m1, p))
    {
      assert !Dirty(CellAt(Flush(m, mint), p));
    }
    FlushKnows(m, mint);
  }

  lemma {:induction false} FlushKnows(m: Mirror, mint: Mint)
    ensures Flush(m, mint).files.Keys >= m.files.Keys
  {
  }

  /** After a command, an empty folder is removed on both sides exactly where it is empty here too. */
  lemma {:induction false} EmptiedElsewhere(w: World, m: Mirror, fs: Shared, op: Op, p: Path, mint: Mint, next: Mint)
    requires op.Command? && Inv(w, m) && Stands(m, fs) && Fair(w, m, op, mint) && !Blocked(m.local, Parent(p))
    requires p != [] && At(op.change(fs), p) == Some(Dir) && Children(op.change(fs), p) == {}
    ensures AsShared(Step(m, op, mint).0, op.change(fs), RemoveDir(p), next) <==> Children(m.local, p) == {}
  {
    hide Inv, Stands, Flush, Blocked, EnsureDirectory, AsShared;
    var fs1, m1 := op.change(fs), Step(m, op, mint).0;
    CommandRefines(w, m, fs, op, mint) by {
      hide *;
    }
    Commanded(w, m, fs, op, mint);
    AfterCommand(w, m, op, mint);
    CleanMinted(w, m1, next);
    StepRefines(w, m1, fs1, RemoveDir(p), next);
  }

  lemma {:induction false} Commanded(w: World, m: Mirror, fs: Shared, op: Op, mint: Mint)
    requires op.Command? && Inv(w, m) && Stands(m, fs) && Fair(w, m, op, mint)
    ensures Inv(w, Step(m, op, mint).0) && Stands(Step(m, op, mint).0, op.change(fs))
  {
    hide Inv, Stands, Step;
    CommandRefines(w, m, fs, op, mint);
    assert Share(fs, op).0 == op.change(fs);
  }

  /** A look at something whose folder is here, and not listed since. */
  lemma {:induction false} LookLists(w: World, m: Mirror, q: Path, mint: Mint)
    requires Inv(w, m) && Clean(m) && q != [] && q in m.local && q in m.remote && !Current(m, Parent(q))
    ensures
      var m1 := Step(m, Look(q), mint).0;
      && m1 == ListedMirror(m, Parent(q)) && Inv(w, m1) && Clean(m1) && m1.remote == m.remote
      && (forall e :: Current(m1, e) ==> Current(m, e) || e == Parent(q)) && forall p :: ListsAt(m, m1, Parent(q), p)
  {
    hide ApplyListing, Sound, Truth, Dirty, Flush, ListsAt, Listings;
    var d := Parent(q);
    FlushIdle(m, mint);
    forall i | 0 <= i <= |d|
      ensures !IsFile(At(m.local, d[..i]))
    {
      RootedAbove(m.local, Folder, d[..i], q);
    }
    ListKeeps(w, m, d);
  }

  /** What a look leaves of what is in a folder, where the folder has become a file, and where it has become one
  again. */
  lemma {:induction false} LookLeaves(m: Mirror, m1: Mirror, q: Path, p: Path)
    requires q != [] && p != [] && Parent(p) == q && ListsAt(m, m1, Parent(q), p) && ListsAt(m, m1, Parent(q), q)
    requires q in m.remote && p !in m.remote
    ensures At(m1.files, p) == At(m.files, p) && (q in m1.local)
    ensures m.remote[q].File? ==> p !in m1.local
    ensures m.remote[q].Folder? ==> At(m1.local, p) == At(m.local, p) && At(m1.local, q) == Some(Folder)
  {
    BranchIs(Parent(q), p);
    assert Branch(Parent(q), p) == q;
  }

  /** What a command leaves known of a path with nothing to be told of it. */
  lemma {:induction false} CommandLeaves(w: World, m: Mirror, op: Op, p: Path, mint: Mint)
    requires op.Command? && Inv(w, m) && Fair(w, m, op, mint) && !Dirty(CellAt(m, p))
    ensures At(Step(m, op, mint).0.files, p) == At(m.files, p)
  {
    hide Flush, Sound;
    FlushAt(m, mint, p);
    assert CellAt(Flush(m, mint), p).record == At(Flush(m, mint).files, p);
  }

  ghost predicate Leads(m: Mirror, op: Op, mint: Mint, m1: Mirror) {
    m1 == Step(m, op, mint).0
  }

  /** A command, and a look at what then holds a path it has left nothing at. */
  lemma {:induction false} CommandedAndSeen(w: World, m: Mirror, m1: Mirror, m2: Mirror, fs: Shared, p: Path, op: Op,
                                        mint: Mint)
    requires Inv(w, m) && Stands(m, fs) && |p| > 1 && Parent(p) in m.local && !Dirty(CellAt(m, p))
    requires op.Command? && Fair(w, m, op, mint) && Parent(p) in op.change(fs) && p !in op.change(fs)
    requires Leads(m, op, mint, m1) && Leads(m1, Look(Parent(p)), mint, m2)
    ensures Inv(w, m2) && Stands(m2, op.change(fs)) && At(m2.files, p) == At(m.files, p) && Parent(p) in m2.local
    ensures p !in m2.remote
    ensures if op.change(fs)[Parent(p)].Text? then p !in m2.local else At(m2.local, p) == At(m.local, p)
  {
    hide Step, Inv, Stands, Fair, Clean, CellAt, Dirty, Current;
    Commanded(w, m, fs, op, mint);
    AfterCommand(w, m, op, mint);
    CommandLeaves(w, m, op, p, mint);
    LookAtIt(w, m1, m2, op.change(fs), p, mint);
  }

  /** A folder with a file still to be fetched in it, turned into a file and back into an empty folder, and looked
  at each time: what was known of the file is still known, and a file made there anew is refused, as one that
  would be fetched. */
  lemma {:induction false} TurnedAndBack(w: World, m: Mirror, m1: Mirror, m2: Mirror, m3: Mirror, m4: Mirror,
                                        fs: Shared, p: Path, first: Op, second: Op, op: Op, mint: Mint)
    requires Inv(w, m) && Stands(m, fs) && |p| > 1 && Current(m, Parent(p)) && Fetches(m, p) && !Dirty(CellAt(m, p))
    requires first.Command? && Fair(w, m, first, mint) && IsText(first.change(fs), Parent(p))
    requires Leads(m, first, mint, m1) && Leads(m1, Look(Parent(p)), mint, m2)
    requires second.Command? && Fair(w, m2, second, mint)
    requires IsEmptied(second.change(first.change(fs)), Parent(p))
    requires Leads(m2, second, mint, m3) && Leads(m3, Look(Parent(p)), mint, m4)
    requires op.Open? && op.path == p && op.creates && Needs(op) && Fair(w, m4, op, mint)
    ensures
      var fs2 := second.change(first.change(fs));
      Inv(w, m4) && Stands(m4, fs2) && Share(fs2, op).1 != Refused && !AsShared(m4, fs2, op, mint)
  {
    hide Step, Inv, Stands, Fair, AsShared, CellAt, Dirty, Current, Children, Leads;
    var fs1 := first.change(fs);
    var fs2 := second.change(fs1);
    CurrentHere(w, m, Parent(p));
    FairCommand(w, m, fs, first, mint);
    NothingBelow(fs1, Parent(p), p);
    CommandedAndSeen(w, m, m1, m2, fs, p, first, mint);
    NotHere(m2, p);
    EmptiedOf(fs2, p);
    CommandedAndSeen(w, m2, m3, m4, fs1, p, second, mint);
    KnownAndGone(w, m4, fs2, op, mint);
  }

  lemma {:induction false} FairCommand(w: World, m: Mirror, fs: Shared, op: Op, mint: Mint)
    requires op.Command? && Inv(w, m) && Stands(m, fs) && Fair(w, m, op, mint)
    ensures Rooted(op.change(fs), Dir)
  {
    hide Step;
    Commanded(w, m, fs, op, mint);
    FsRooted(w, Step(m, op, mint).0, op.change(fs));
  }

  lemma {:induction false} EmptiedOf(fs: Shared, p: Path)
    requires p != [] && IsEmptied(fs, Parent(p))
    ensures p !in fs && At(fs, Parent(p)) == Some(Dir)
  {
    assert p in fs ==> p in Children(fs, Parent(p));
  }

  predicate IsText(fs: Shared, p: Path) {
    p in fs && fs[p].Text?
  }

  predicate IsEmptied(fs: Shared, d: Path) {
    At(fs, d) == Some(Dir) && Children(fs, d) == {}
  }

  /** A look at what held a file that has gone, after a command. */
  lemma {:induction false} LookAtIt(w: World, m: Mirror, m1: Mirror, fs: Shared, p: Path, mint: Mint)
    requires Inv(w, m) && Stands(m, fs) && Clean(m) && |p| > 1 && Parent(p) in m.local && Parent(p) in fs && p !in fs
    requires !Current(m, Parent(Parent(p))) && Leads(m, Look(Parent(p)), mint, m1)
    ensures Inv(w, m1) && Stands(m1, fs) && At(m1.files, p) == At(m.files, p) && Parent(p) in m1.local
            && p !in m1.remote
    ensures if fs[Parent(p)].Text? then p !in m1.local else At(m1.local, p) == At(m.local, p)
  {
    hide Step, Inv, Stands, Clean, CellAt, ListsAt, Dirty, ListedMirror, Current;
    var q := Parent(p);
    ThereToo(w, m, fs, q);
    ThereToo(w, m, fs, p);
    LookLists(w, m, q, mint);
    LookLeaves(m, m1, q, p);
    LookStands(w, m, m1, fs, q, mint);
  }

  lemma {:induction false} CurrentHere(w: World, m: Mirror, q: Path)
    requires Inv(w, m) && Current(m, q)
    ensures At(m.local, q) == Some(Folder)
  {
  }

  lemma {:induction false} NotHere(m: Mirror, p: Path)
    requires p !in m.local
    ensures !Dirty(CellAt(m, p))
  {
  }

  /** With everything pushed, what is on the file system is on the target. */
  lemma {:induction false} ThereToo(w: World, m: Mirror, fs: Shared, p: Path)
    requires Inv(w, m) && Stands(m, fs) && Clean(m)
    ensures p in fs <==> p in m.remote
    ensures p in fs ==> fs[p] == Shown(m.remote[p])
  {
    hide Inv;
    CleanIs(m, fs);
  }

  lemma {:induction false} NothingBelow(fs: Shared, q: Path, p: Path)
    requires Rooted(fs, Dir) && IsText(fs, q) && p != [] && Parent(p) == q
    ensures p !in fs
  {
  }

  lemma {:induction false} LookStands(w: World, m: Mirror, m1: Mirror, fs: Shared, q: Path, mint: Mint)
    requires Inv(w, m) && Stands(m, fs) && Clean(m) && Clean(m1) && m1.remote == m.remote
    ensures Stands(m1, fs)
  {
    forall p
      ensures Truth(CellAt(m1, p)) == At(fs, p)
    {
      assert Truth(CellAt(m, p)) == At(fs, p) && !Dirty(CellAt(m, p)) && !Dirty(CellAt(m1, p));
    }
  }

  /** A file made where one is still known that has gone before it was fetched. */
  lemma {:induction false} KnownAndGone(w: World, m: Mirror, fs: Shared, op: Op, mint: Mint)
    requires op.Open? && op.creates && Needs(op) && Inv(w, m) && Stands(m, fs) && Fair(w, m, op, mint)
    requires op.path != [] && CanHold(fs, Dir, op.path) && op.path !in fs
    requires Fetches(m, op.path) && op.path !in m.local && op.path !in m.remote
    ensures Share(fs, op).1 != Refused && !AsShared(m, fs, op, mint)
  {
    hide Inv, Stands, Fair, AsShared;
    StepRefines(w, m, fs, op, mint);
  }
}
