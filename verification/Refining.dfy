/** What a tracee sees through the mirror is what it would see on one shared file system, and exactly when not. */
module Refining {
  import opened Prelude
  import opened Disk
  import opened MirrorSpec
  import opened Mirrored
  import opened Renaming

  /** The file system a mirror and its target stand for. */
  ghost predicate Stands(m: Mirror, fs: Shared) {
    forall p :: Truth(CellAt(m, p)) == At(fs, p)
  }

  /* ---- What goes wrong ---- */

  predicate Needs(op: Op)
    requires op.Open?
  {
    !(op.truncates && op.access.WriteOnly?)
  }

  /** A record of a file still to be fetched. */
  predicate Awaits(c: Cell) {
    c.record.Some? && !c.record.value.present
  }

  /** One which the target does not have. */
  predicate Failing(c: Cell) {
    Awaits(c) && !IsFile(c.remote)
  }

  /** Whether an open fetches, its folder being listed first if it is not current. */
  predicate Fetching(op: Op, c: Cell)
    requires op.Open?
  {
    Needs(op) && Awaits(if c.current then c else Listed(c))
  }

  /** What is modified here, and not as the target has it. */
  predicate Untold(c: Cell) {
    Dirty(c) && BytesOf(c.remote) != Some(c.local.value.bytes)
  }

  /** Whether an open fetches through a file the target has not been told of. */
  predicate Overwrites(m: Mirror, op: Op)
    requires op.Open?
  {
    && Needs(op) && Fetches(m, op.path) && Fetchable(m.local, Folder, op.path)
    && Untold(CellAt(m, Scratch(op.path)))
  }

  /** The opens that go wrong: one that would fetch what the target no longer has; one that needs the bytes of a
  file written over its placeholder, or forgotten while it was one; one that cuts a file short which only reads it;
  and one that does not fetch a file whose name another's scratch file had, unless it makes it and is to find
  nothing in it. */
  predicate LostAt(op: Op, c: Cell)
    requires op.Open?
  {
    || (Needs(op) && Failing(c) && (c.local.None? || Dirty(c)))
    || (!op.truncates && Dirty(c) && Awaits(c)
        && IsFile(c.remote) && c.remote.value.bytes != c.local.value.bytes)
    || (!op.truncates && c.current && IsFile(c.local) && !Dirty(c) && c.record.None?
        && IsFile(c.remote) && c.remote.value.bytes != c.local.value.bytes)
    || (op.truncates && op.access.ReadOnly? && !op.creates && !c.candidate
        && IsFile(c.remote) && c.remote.value.bytes != [])
    || (Missing(c) && !(Needs(op) && Awaits(c)) && (!op.creates || (!op.truncates && c.remote.value.bytes != [])))
  }

  /** The steps that go wrong: an open that fetches through a file the target has not been told of; and of those
  one file system would carry out, one whose listing a file is in the way of; an open that `LostAt` names, or
  that fetches where no scratch file can be made; one that looks for a file whose name a scratch file had; and one
  that needs a folder to be empty here which has been emptied on the target and not looked at since. */
  ghost predicate Lost(m: Mirror, fs: Shared, op: Op, mint: Mint) {
    || (op.Open? && Overwrites(m, op))
    || (Share(fs, op).1 != Refused &&
        match op
        case Open(p, _, _, _, _, _) =>
          || Refuses(m, Parent(p)) || LostAt(op, CellAt(m, p))
          || (Fetching(op, CellAt(m, p)) && !Fetchable(fs, Dir, p))
        case Look(p) => p != [] && (Refuses(m, Parent(p)) || Missing(CellAt(m, p)))
        case List(d) => (d != [] && Refuses(m, Parent(d))) || exists p :: p in Children(fs, d) && Missing(CellAt(m, p))
        case Unlink(p) => Refuses(m, Parent(p)) || Missing(CellAt(m, p))
        case MakeDir(p) => Refuses(m, Parent(p))
        case RemoveDir(p) => Refuses(m, Parent(p)) || Children(m.local, p) != {}
        case Rename(p, t) =>
          || Refuses(m, Parent(p)) || Refuses(EnsureDirectory(m, Parent(p), mint).0, Parent(t))
          || Missing(CellAt(m, p)) || (p != t && At(fs, t) == Some(Dir) && Children(m.local, t) != {})
        case Command(_, _) => false)
  }

  /* ---- What a step may be assumed to do ---- */

  /** What an open writes is stamped by what it is, and where the target has no file, not as one that is gone. */
  predicate FairAt(w: World, op: Op, c: Cell)
    requires op.Open?
  {
    Writes(op, IsFile(c.local)) ==>
      var left := Leaves(op, BytesOf(c.local));
      && Tells(w, op.path, left)
      && (!IsFile(c.remote) && c.record.Some? ==> c.record.value.local != left.stamp)
  }

  /** Stamps tell what they are put on, here and on the target, and across the two paths of a rename; and what a
  command leaves is a tree. */
  ghost predicate Fair(w: World, m: Mirror, op: Op, mint: Mint) {
    Minted(w, m, mint) &&
    match op
    case Open(p, _, _, _, _, _) => FairAt(w, op, CellAt(PrepareOpen(m, op, mint).0, p))
    case Rename(p, t) => forall below, stamp :: w.text(p + below, stamp) == w.text(t + below, stamp)
    case Command(change, stamps) =>
      var made := change(Contents(Flush(m, mint).remote));
      Rooted(made, Dir) && forall p :: p in made ==> Tells(w, p, Stamped(made[p], stamps(p)))
    case _ => true
  }

  /** How far a step through the mirror is what it would be on one file system. */
  ghost predicate AsShared(m: Mirror, fs: Shared, op: Op, mint: Mint) {
    var (m1, seen) := Step(m, op, mint);
    var (fs1, shown) := Share(fs, op);
    Stands(m1, fs1) && seen == shown
  }

  /* ---- What there is, here and there ---- */

  /** The file system's folders are the target's. */
  lemma {:induction false} DirIs(w: World, m: Mirror, fs: Shared, p: Path)
    requires Inv(w, m) && Stands(m, fs)
    ensures At(fs, p) == Some(Dir) <==> At(m.remote, p) == Some(Folder)
  {
    assert Sound(w, p, CellAt(m, p));
    assert Truth(CellAt(m, p)) == At(fs, p);
  }

  lemma {:induction false} SameStands(m: Mirror, m1: Mirror, fs: Shared)
    requires Same(m, m1)
    ensures Stands(m, fs) <==> Stands(m1, fs)
  {
    forall p
      ensures Truth(CellAt(m1, p)) == Truth(CellAt(m, p))
    {
    }
  }

  /** With everything pushed, the file system is what the target has. */
  lemma {:induction false} CleanIs(m: Mirror, fs: Shared)
    requires Clean(m) && Stands(m, fs)
    ensures fs == Contents(m.remote)
  {
    forall p
      ensures At(fs, p) == At(Contents(m.remote), p)
    {
      assert Truth(CellAt(m, p)) == At(fs, p) && !Dirty(CellAt(m, p));
    }
    SameTables(fs, Contents(m.remote));
  }

  /** In a current folder, what is here and how long it says it is are as the file system has them, and what is
  not is nothing, or missing. */
  lemma {:induction false} HereAsThere(w: World, m: Mirror, fs: Shared, p: Path)
    requires Inv(w, m) && Stands(m, fs) && p != [] && Current(m, Parent(p))
    ensures p in m.local ==> p in fs
    ensures p in fs && p !in m.local <==> Missing(CellAt(m, p))
    ensures p in m.local ==> (m.local[p].Folder? <==> fs[p].Dir?)
    ensures p in m.local && fs[p].Text? ==> m.local[p].stamp.size == |fs[p].bytes|
  {
    assert Sound(w, p, CellAt(m, p));
    assert Truth(CellAt(m, p)) == At(fs, p);
  }

  /** Where nothing is current and the listing found no folder, there is nothing. */
  lemma {:induction false} NowhereHere(w: World, m: Mirror, fs: Shared, p: Path)
    requires Inv(w, m) && Stands(m, fs) && p != [] && At(m.remote, Parent(p)) != Some(Folder)
    requires At(m.local, Parent(p)) != Some(Folder)
    ensures p !in m.local && p !in fs
  {
    assert Sound(w, p, CellAt(m, p));
    assert Truth(CellAt(m, p)) == At(fs, p);
  }

  /** The path of a step made sure of, unless that is refused: nothing has changed. */
  lemma {:induction false} PathKeeps(w: World, m: Mirror, fs: Shared, p: Path, mint: Mint)
    requires Inv(w, m) && Stands(m, fs) && Minted(w, m, mint) && p != []
    ensures
      var (m1, ok) := EnsurePath(m, p, mint);
      && Inv(w, m1) && Stands(m1, fs) && Minted(w, m1, mint) && (ok <==> !Refuses(m, Parent(p)))
      && (ok ==> if At(fs, Parent(p)) == Some(Dir) then Current(m1, Parent(p))
                 else At(m1.local, Parent(p)) != Some(Folder) && forall q :: Covers(Parent(p), q) ==> q !in m1.files)
      && (if Current(m, Parent(p)) then m1 == m else Clean(m1)) && (forall e :: Current(m, e) ==> Current(m1, e))
  {
    hide EnsureDirectory, Inv, Stands, Minted, Refuses, Same, Clean;
    EnsureKeeps(w, m, Parent(p), mint);
    SameStands(m, EnsurePath(m, p, mint).0, fs);
    DirIs(w, m, fs, Parent(p));
  }

  /* ---- Opening ---- */

  function Fetched(c: Cell): Cell {
    if Awaits(c) && IsFile(c.remote) then
      c.(local := c.remote, record := Some(Record(c.remote.value.stamp, true, c.remote.value.stamp)))
    else c
  }

  /** What preparing an open leaves at its path. */
  function Prepared(c: Cell, op: Op): Cell
    requires op.Open?
  {
    var c1 := if Needs(op) then Fetched(c) else c;
    if op.access.ReadOnly? && !op.creates then c1 else c1.(candidate := true)
  }

  /** What a native open does at its path. */
  function Opened(op: Op, c: Cell): Cell
    requires op.Open?
  {
    if Writes(op, IsFile(c.local)) then c.(local := Some(Leaves(op, BytesOf(c.local)))) else c
  }

  ghost predicate Others(m: Mirror, m1: Mirror, p: Path) {
    && (forall q :: q != p ==> At(m1.local, q) == At(m.local, q) && At(m1.files, q) == At(m.files, q)
                               && (q in m1.dirty <==> q in m.dirty))
    && m1.remote == m.remote && m1.dirs == m.dirs && m1.gen == m.gen
  }

  /** The mirror an open works on, once it has fetched through a scratch file if it does. */
  function Readied(m: Mirror, op: Op): Mirror
    requires op.Open?
  {
    if Needs(op) then Scratched(m, op.path) else m
  }

  /** What has gone with a scratch file is what had its name. */
  lemma {:induction false} ScratchedAt(m: Mirror, p: Path, q: Path)
    requires p != []
    ensures
      var (m1, s) := (Scratched(m, p), Scratch(p));
      && s != p && s != [] && Parent(s) == Parent(p) && m1 == m.(local := m1.local)
      && CellAt(m1, q) == if q == s && Fetches(m, p) && Fetchable(m.local, Folder, p) then CellAt(m, q).(local := None)
                          else CellAt(m, q)
  {
    var s := Scratch(p);
    assert s[|s| - 1] == p[|p| - 1] + SUFFIX;
  }

  lemma {:induction false} FetchAt(m: Mirror, p: Path)
    requires p != [] && At(m.local, p) != Some(Folder)
    ensures
      var ((m1, ok), c) := (Fetch(m, p), CellAt(m, p));
      if Awaits(c) && (!Fetchable(m.local, Folder, p) || Failing(c)) then !ok && m1 == Scratched(m, p)
      else ok && CellAt(m1, p) == Fetched(c) && Others(Scratched(m, p), m1, p)
  {
    ScratchedAt(m, p, p);
  }

  lemma {:induction false} NoteAt(m: Mirror, p: Path)
    ensures CellAt(NoteWrite(m, p), p) == CellAt(m, p).(candidate := true) && Others(m, NoteWrite(m, p), p)
    ensures NoteWrite(m, p).local == m.local
  {
  }

  /** A folder that is current is made sure of by doing nothing. */
  lemma {:induction false} EnsuredOnce(m: Mirror, d: Path, mint: Mint)
    requires Current(m, d)
    ensures EnsureDirectory(m, d, mint) == (m, true)
  {
  }

  /** Preparing an open in a current folder. */
  lemma {:induction false} PrepareAt(m: Mirror, m1: Mirror, op: Op, mint: Mint)
    requires op.Open? && op.path != [] && EnsurePath(m, op.path, mint) == (m1, true) && Current(m1, Parent(op.path))
    requires At(m1.local, op.path) != Some(Folder)
    ensures
      var (m2, ok) := PrepareOpen(m, op, mint);
      var c := CellAt(m1, op.path);
      if Needs(op) && Awaits(c) && (!Fetchable(m1.local, Folder, op.path) || Failing(c))
      then m2 == Readied(m1, op) && !ok
      else ok && CellAt(m2, op.path) == Prepared(c, op) && Others(Readied(m1, op), m2, op.path)
  {
    hide EnsureDirectory, Fetch, NoteWrite, CellAt, Failing, Fetched, Awaits, Scratched, Fetchable;
    var p := op.path;
    EnsuredOnce(m1, Parent(p), mint);
    FetchAt(m1, p);
    var m2 := if Needs(op) then Fetch(m1, p).0 else m1;
    NoteAt(m2, p);
    OthersOn(Readied(m1, op), m2, NoteWrite(m2, p), p);
  }

  lemma {:induction false} OthersOn(m: Mirror, m1: Mirror, m2: Mirror, p: Path)
    requires (Others(m, m1, p) || m1 == m) && Others(m1, m2, p)
    ensures Others(m, m2, p)
  {
  }

  lemma {:induction false} NativeAt(m: Mirror, op: Op)
    requires op.Open? && CanHold(m.local, Folder, op.path)
    ensures
      var (m1, seen) := NativeOpen(m, op);
      var c := CellAt(m, op.path);
      && CellAt(m1, op.path) == Opened(op, c) && Others(m, m1, op.path)
      && seen == Comes(op, c)
  {
  }

  function TextOf(t: Option<Thing>): Option<Bytes> {
    if t.Some? && t.value.Text? then Some(t.value.bytes) else None
  }

  /** What an open comes to natively, of what it finds here. */
  function Comes(op: Op, c: Cell): Seen
    requires op.Open?
  {
    if c.local.None? && !op.creates then Refused else Content(Found(op, BytesOf(c.local)))
  }

  /** One open at its path, in a current folder, of a file there is or is to be made: what it leaves is what every
  step keeps and what one file system would have, and what it finds what that would find, exactly where it is
  none of those that go wrong. */
  lemma {:induction false} OpenSound(w: World, op: Op, c: Cell)
    requires op.Open? && Standing(w) && Sound(w, op.path, c) && c.current && c.remote != Some(Folder)
    requires Truth(c).Some? || op.creates
    requires !(Needs(op) && Failing(c)) && FairAt(w, op, Prepared(c, op))
    ensures
      var c1, content := Prepared(c, op), TextOf(Truth(c));
      var c2 := Opened(op, c1);
      if LostAt(op, c)
      then !(Truth(c2) == Some(Text(Left(op, content))) && Comes(op, c1) == Content(Found(op, content)))
      else
        && Sound(w, op.path, c2) && Truth(c2) == Some(Text(Left(op, content))) && IsFile(c2.local)
        && Comes(op, c1) == Content(Found(op, content))
  {
    if op.truncates {
      TruncatingSound(w, op, c);
    } else {
      ReadingSound(w, op, c);
    }
  }

  /** An open that finds nothing of what was there. */
  lemma {:induction false} TruncatingSound(w: World, op: Op, c: Cell)
    requires op.Open? && Standing(w) && Sound(w, op.path, c) && c.current && c.remote != Some(Folder)
    requires (Truth(c).Some? || op.creates) && op.truncates
    requires !(Needs(op) && Failing(c)) && FairAt(w, op, Prepared(c, op))
    ensures
      var c1, c2 := Prepared(c, op), Opened(op, Prepared(c, op));
      if LostAt(op, c) then Truth(c2) != Some(Text(Left(op, None))) || Comes(op, c1) == Refused
      else
        && Sound(w, op.path, c2) && Truth(c2) == Some(Text(Left(op, None))) && IsFile(c2.local)
        && Comes(op, c1) == Content([])
  {
  }

  /** An open that finds what was there. */
  lemma {:induction false} ReadingSound(w: World, op: Op, c: Cell)
    requires op.Open? && Standing(w) && Sound(w, op.path, c) && c.current && c.remote != Some(Folder)
    requires (Truth(c).Some? || op.creates) && !op.truncates
    requires !(Needs(op) && Failing(c)) && FairAt(w, op, Prepared(c, op))
    ensures
      var c1, content := Prepared(c, op), TextOf(Truth(c));
      var c2 := Opened(op, c1);
      && (LostAt(op, c) ==> Comes(op, c1) != Content(Found(op, content)))
      && (!LostAt(op, c) ==>
            && Sound(w, op.path, c2) && Truth(c2) == Some(Text(Left(op, content))) && IsFile(c2.local)
            && Comes(op, c1) == Content(Found(op, content)))
  {
  }

  /** A file changed, made or noted at one path, and nothing else. */
  lemma {:induction false} OthersKeep(w: World, m: Mirror, m1: Mirror, p: Path)
    requires Inv(w, m) && Others(m, m1, p) && Sound(w, p, CellAt(m1, p))
    requires At(m1.local, p) == At(m.local, p) || (CanHold(m.local, Folder, p) && IsFile(At(m1.local, p)))
    ensures Inv(w, m1) && forall q :: q != p ==> CellAt(m1, q) == CellAt(m, q)
  {
    hide Sound;
    forall q
      ensures Sound(w, q, CellAt(m1, q)) && (q != p ==> CellAt(m1, q) == CellAt(m, q))
    {
      assert Sound(w, q, CellAt(m, q));
    }
    forall q | q in m1.local && q != []
      ensures At(m1.local, Parent(q)) == Some(Folder)
    {
      assert At(m1.local, q) == At(m.local, q) || q == p;
      assert Parent(q) != q;
    }
    assert At(m.local, []) == Some(Folder);
  }

  /** In a folder not listed since, or with everything pushed, there is nothing the target has not been told of. */
  lemma {:induction false} OverwritesNothing(w: World, m: Mirror, op: Op)
    requires op.Open? && Inv(w, m) && (Clean(m) || !Current(m, Parent(op.path)))
    ensures !Overwrites(m, op)
  {
    hide Fetches, Truth;
    if op.path != [] {
      ScratchedAt(m, op.path, op.path);
      var s := Scratch(op.path);
      assert Sound(w, s, CellAt(m, s));
    }
  }

  /** A path made sure of leaves it as it was whether an open goes through a file the target has not been told of. */
  lemma {:induction false} OverwritesStays(w: World, m: Mirror, m1: Mirror, op: Op)
    requires op.Open? && Inv(w, m) && Inv(w, m1) && (m1 == m || (!Current(m, Parent(op.path)) && Clean(m1)))
    ensures Overwrites(m1, op) <==> Overwrites(m, op)
  {
    hide Overwrites, Inv, Clean;
    if m1 != m {
      OverwritesNothing(w, m, op);
      OverwritesNothing(w, m1, op);
    }
  }

  lemma {:induction false} OpenRefused(w: World, m: Mirror, fs: Shared, op: Op, mint: Mint)
    requires op.Open? && Inv(w, m) && Stands(m, fs) && Fair(w, m, op, mint) && op.path != []
    requires Refuses(m, Parent(op.path))
    ensures Inv(w, Step(m, op, mint).0) && (AsShared(m, fs, op, mint) <==> !Lost(m, fs, op, mint))
  {
    hide EnsureDirectory, Inv, Stands, Share, Current, Overwrites;
    PathKeeps(w, m, fs, op.path, mint);
    RefusedStays(fs, op);
    OverwritesNothing(w, m, op);
  }

  lemma {:induction false} RefusedStays(fs: Shared, op: Op)
    ensures Share(fs, op).1 == Refused ==> Share(fs, op).0 == fs
  {
  }

  /** A path noted as written where nothing is to be told of it. */
  lemma {:induction false} NoteKeeps(w: World, m: Mirror, p: Path)
    requires Inv(w, m) && !IsFile(At(m.local, p))
    ensures Inv(w, NoteWrite(m, p)) && Same(m, NoteWrite(m, p))
  {
    var m1 := NoteWrite(m, p);
    assert Sound(w, p, CellAt(m, p));
    NoteAt(m, p);
    OthersKeep(w, m, m1, p);
    forall q
      ensures Truth(CellAt(m1, q)) == Truth(CellAt(m, q))
    {
    }
  }

  /** An open of what is no file's place is refused, and changes nothing but what its scratch file was. */
  lemma {:induction false} OpenNowhere(w: World, m: Mirror, fs: Shared, op: Op, mint: Mint)
    requires op.Open? && Inv(w, m) && Stands(m, fs) && Minted(w, m, mint) && !CanHold(fs, Dir, op.path)
    requires op.path != [] ==> !Refuses(m, Parent(op.path))
    ensures Inv(w, Step(m, op, mint).0) && (Stands(Step(m, op, mint).0, fs) <==> !Overwrites(m, op))
    ensures Step(m, op, mint).1 == Refused
  {
    hide EnsureDirectory, Inv, Stands, Refuses, CellAt, Minted, NoteWrite, Truth, Overwrites, Scratched, Fetch;
    var p := op.path;
    var m1 := EnsurePath(m, p, mint).0;
    if p != [] {
      PathKeeps(w, m, fs, p, mint);
    }
    OverwritesStays(w, m, m1, op);
    PathAgain(w, m1, fs, op, mint);
    var m2 := if Needs(op) then EnsurePath(m1, p, mint).0 else m1;
    ReadiedKeeps(w, m2, fs, op);
    FetchNowhere(w, m2, fs, p);
    var m3 := Readied(m2, op);
    NowhereSound(w, m2, fs, p);
    if !op.access.ReadOnly? || op.creates {
      NoteKeeps(w, m3, p);
      SameStands(m3, NoteWrite(m3, p), fs);
      NoteAt(m3, p);
    }
  }

  /** A path made sure of, made sure of again. */
  lemma {:induction false} PathAgain(w: World, m: Mirror, fs: Shared, op: Op, mint: Mint)
    requires op.Open? && Inv(w, m) && Stands(m, fs) && Minted(w, m, mint)
    requires op.path != [] ==>
               if At(fs, Parent(op.path)) == Some(Dir) then Current(m, Parent(op.path))
               else At(m.local, Parent(op.path)) != Some(Folder)
                    && forall q :: Covers(Parent(op.path), q) ==> q !in m.files
    ensures
      var (m1, ok) := EnsurePath(m, op.path, mint);
      && ok && Inv(w, m1) && Stands(m1, fs) && (Overwrites(m1, op) <==> Overwrites(m, op))
      && (op.path != [] ==>
            if At(fs, Parent(op.path)) == Some(Dir) then Current(m1, Parent(op.path))
            else At(m1.local, Parent(op.path)) != Some(Folder) && op.path !in m1.files)
    ensures op.path != [] && At(fs, Parent(op.path)) != Some(Dir) ==> op.path !in m.files
  {
    hide EnsureDirectory, Inv, Stands, Minted, Truth, Overwrites, Clean;
    var p := op.path;
    if p != [] {
      assert Covers(Parent(p), p);
      DirIs(w, m, fs, Parent(p));
      PathKeeps(w, m, fs, p, mint);
      OverwritesStays(w, m, EnsurePath(m, p, mint).0, op);
    }
  }

  /** Where no file can stand, none does here either. */
  lemma {:induction false} NowhereSound(w: World, m: Mirror, fs: Shared, p: Path)
    requires Inv(w, m) && Stands(m, fs) && !CanHold(fs, Dir, p)
    requires p != [] ==>
               if At(fs, Parent(p)) == Some(Dir) then Current(m, Parent(p)) else At(m.local, Parent(p)) != Some(Folder)
    ensures !CanHold(m.local, Folder, p) && !IsFile(At(m.local, p))
  {
    if p == [] {
      assert At(m.local, []) == Some(Folder);
    } else {
      DirIs(w, m, fs, Parent(p));
      DirIs(w, m, fs, p);
      if At(fs, Parent(p)) == Some(Dir) {
        assert Sound(w, p, CellAt(m, p));
      } else {
        assert p !in m.local;
      }
    }
  }

  /** Nothing is fetched where no file can stand. */
  lemma {:induction false} FetchNowhere(w: World, m: Mirror, fs: Shared, p: Path)
    requires Inv(w, m) && Stands(m, fs) && !CanHold(fs, Dir, p)
    ensures Fetch(m, p).0 == Scratched(m, p)
  {
    hide Stands, Sound, Fetchable;
    if p != [] {
      DirIs(w, m, fs, Parent(p));
      DirIs(w, m, fs, p);
    } else {
      assert At(m.remote, p) == Some(Folder);
    }
  }

  /** What a fetch does to what had its scratch file's name: what every step keeps is kept, and what one file system
  holds is, exactly where the target had been told. */
  lemma {:induction false} ReadiedKeeps(w: World, m: Mirror, fs: Shared, op: Op)
    requires op.Open? && Inv(w, m) && Stands(m, fs)
    requires op.path != [] && Fetches(m, op.path) ==> Current(m, Parent(op.path))
    ensures
      var m1, p := Readied(m, op), op.path;
      && Inv(w, m1) && (Stands(m1, fs) <==> !Overwrites(m, op)) && m1 == m.(local := m1.local)
      && (p != [] ==> CellAt(m1, p) == CellAt(m, p)) && At(m1.local, p) == At(m.local, p)
      && At(m1.local, Parent(p)) == At(m.local, Parent(p))
  {
    hide Sound, Truth, Dirty;
    var m1, p := Readied(m, op), op.path;
    if Needs(op) && Fetches(m, p) && Fetchable(m.local, Folder, p) {
      var s := Scratch(p);
      ScratchedAt(m, p, p);
      forall q
        ensures Sound(w, q, CellAt(m1, q))
        ensures q != s ==> Truth(CellAt(m1, q)) == At(fs, q)
        ensures q == s ==> (Truth(CellAt(m1, q)) == At(fs, q) <==> !Untold(CellAt(m, s)))
      {
        assert Sound(w, q, CellAt(m, q)) && Truth(CellAt(m, q)) == At(fs, q);
        ScratchedAt(m, p, q);
        if q == s {
          GoneSound(w, s, CellAt(m, s));
        }
      }
      FileRemoved(m.local, s);
      assert At(m1.local, Parent(p)) == At(m.local, Parent(p));
      assert !Current(m, s);
    }
  }

  lemma {:induction false} GoneSound(w: World, p: Path, c: Cell)
    requires Sound(w, p, c) && c.current && c.local != Some(Folder)
    ensures Sound(w, p, c.(local := None)) && (Truth(c.(local := None)) == Truth(c) <==> !Untold(c))
  {
  }

  lemma {:induction false} FileRemoved(tree: Tree, p: Path)
    requires Rooted(tree, Folder) && p != [] && At(tree, p) != Some(Folder)
    ensures Rooted(tree - {p}, Folder)
  {
    forall q | q in tree && q != []
      ensures Parent(q) != p
    {
      assert At(tree, Parent(q)) == Some(Folder);
    }
    LeafRemoved(tree, p);
  }

  lemma {:induction false} OpenPlaced(w: World, m: Mirror, fs: Shared, op: Op, mint: Mint)
    requires op.Open? && Inv(w, m) && Stands(m, fs) && Fair(w, m, op, mint) && CanHold(fs, Dir, op.path)
    requires !Refuses(m, Parent(op.path))
    ensures AsShared(m, fs, op, mint) <==> !Lost(m, fs, op, mint)
    ensures !Lost(m, fs, op, mint) ==> Inv(w, Step(m, op, mint).0)
  {
    hide EnsureDirectory, PrepareOpen, NativeOpen, Sound, Truth, Minted, Refuses, CellAt, LostAt, FairAt, Prepared,
         Opened, Inv, Stands, Overwrites, Readied, Fetchable, Fetching;
    var p := op.path;
    PathKeeps(w, m, fs, p, mint);
    var m1 := EnsurePath(m, p, mint).0;
    var c := CellAt(m1, p);
    PlaceSound(w, m1, fs, p);
    PrepareAt(m, m1, op, mint);
    LostStays(w, m, m1, fs, op, mint);
    OverwritesStays(w, m, m1, op);
    ReadiedKeeps(w, m1, fs, op);
    FetchableToo(w, m1, fs, p);
    if Needs(op) && Awaits(c) && (!Fetchable(m1.local, Folder, p) || Failing(c)) {
      RefusedStays(fs, op);
      if Failing(c) {
        FailingOpen(w, m1, fs, op, c);
      }
    } else {
      var m2 := PrepareOpen(m, op, mint).0;
      PlacedStill(m1, Readied(m1, op), m2, op, c);
      NativeAt(m2, op);
      if Overwrites(m, op) {
        OthersOn(Readied(m1, op), m2, NativeOpen(m2, op).0, p);
        StillFalls(Readied(m1, op), NativeOpen(m2, op).0, fs, op);
      } else {
        OpenedIs(w, Readied(m1, op), m2, NativeOpen(m2, op).0, fs, op, c);
      }
    }
  }

  /** Where one file system already parts from the mirror at some other path, it still does after an open. */
  lemma {:induction false} StillFalls(m: Mirror, m1: Mirror, fs: Shared, op: Op)
    requires op.Open? && Others(m, m1, op.path) && !Stands(m, fs) && Truth(CellAt(m, op.path)) == At(fs, op.path)
    ensures !Stands(m1, Share(fs, op).0)
  {
    hide Truth;
    var q :| Truth(CellAt(m, q)) != At(fs, q);
    assert CellAt(m1, q) == CellAt(m, q);
    assert At(Share(fs, op).0, q) == At(fs, q);
  }

  /** In a current folder, a scratch file can be made here where it could be on the one file system. */
  lemma {:induction false} FetchableToo(w: World, m: Mirror, fs: Shared, p: Path)
    requires Inv(w, m) && Stands(m, fs) && p != [] && Current(m, Parent(p))
    ensures Fetchable(m.local, Folder, p) <==> Fetchable(fs, Dir, p)
  {
    hide Truth;
    ScratchedAt(m, p, p);
    DirIs(w, m, fs, Parent(p));
    DirIs(w, m, fs, Scratch(p));
    assert Sound(w, Scratch(p), CellAt(m, Scratch(p)));
  }

  /** A path a file can stand at, in a current folder. */
  lemma {:induction false} PlaceSound(w: World, m: Mirror, fs: Shared, p: Path)
    requires Inv(w, m) && Stands(m, fs) && CanHold(fs, Dir, p) && Current(m, Parent(p))
    ensures
      var c := CellAt(m, p);
      && Sound(w, p, c) && c.current && c.remote != Some(Folder) && Truth(c) == At(fs, p) && CanHold(m.local, Folder, p)
      && Standing(w)
  {
    DirIs(w, m, fs, p);
    assert Sound(w, p, CellAt(m, p));
  }

  lemma {:induction false} PlacedStill(m: Mirror, m1: Mirror, m2: Mirror, op: Op, c: Cell)
    requires op.Open? && CanHold(m.local, Folder, op.path) && Others(m1, m2, op.path) && c == CellAt(m, op.path)
    requires At(m1.local, Parent(op.path)) == At(m.local, Parent(op.path))
    requires CellAt(m2, op.path) == Prepared(c, op)
    ensures CanHold(m2.local, Folder, op.path)
  {
  }

  /** Whether an open goes wrong does not depend on whether its folder has been listed. */
  lemma {:induction false} LostStays(w: World, m: Mirror, m1: Mirror, fs: Shared, op: Op, mint: Mint)
    requires op.Open? && op.path != [] && Inv(w, m) && Stands(m, fs) && Minted(w, m, mint)
    requires At(fs, Parent(op.path)) == Some(Dir) && At(fs, op.path) != Some(Dir)
    requires !Refuses(m, Parent(op.path)) && EnsurePath(m, op.path, mint) == (m1, true)
    ensures LostAt(op, CellAt(m, op.path)) <==> LostAt(op, CellAt(m1, op.path))
    ensures Fetching(op, CellAt(m, op.path)) <==> Needs(op) && Awaits(CellAt(m1, op.path))
  {
    hide EnsureDirectory, Sound, Truth, LostAt, CellAt, Flush, ApplyListing, Blocked, ListsAt;
    var d := Parent(op.path);
    CurrentAt(m, op.path);
    if !Current(m, d) {
      DirIs(w, m, fs, d);
      ListedOnce(w, m, op.path, mint);
      DirIs(w, m, fs, op.path);
      LocalAt(m, op.path);
      LostListed(w, op, CellAt(m, op.path), CellAt(m1, op.path));
    } else {
      EnsuredOnce(m, d, mint);
    }
  }

  /** A folder listed only now had nothing to be told of what is in it. */
  lemma {:induction false} ListedOnce(w: World, m: Mirror, p: Path, mint: Mint)
    requires Inv(w, m) && Minted(w, m, mint) && p != [] && !Current(m, Parent(p)) && !Refuses(m, Parent(p))
    requires At(m.remote, Parent(p)) == Some(Folder)
    ensures !Dirty(CellAt(m, p)) && !CellAt(m, p).current && Sound(w, p, CellAt(m, p))
    ensures CellAt(EnsurePath(m, p, mint).0, p) == Listed(CellAt(m, p))
  {
    hide Flush, ApplyListing, Blocked, Sound, Truth, Listed, Flushed, Minted;
    var d := Parent(p);
    assert Sound(w, p, CellAt(m, p));
    NotCurrent(w, p, CellAt(m, p));
    FlushKeeps(w, m, mint);
    FlushStands(m, mint);
    FlushAt(m, mint, p);
    var m1 := Flush(m, mint);
    FlushedNot(CellAt(m, p), mint(p));
    ListKeeps(w, m1, d);
    assert ListsAt(m1, ListedMirror(m1, d), d, p);
    assert Under(d, p) && p == Branch(d, p);
  }

  lemma {:induction false} NotCurrent(w: World, p: Path, c: Cell)
    requires Sound(w, p, c) && !c.current
    ensures !Dirty(c)
  {
  }

  lemma {:induction false} FlushedNot(c: Cell, stamp: Stamp)
    requires !Dirty(c)
    ensures Flushed(c, stamp) == c
  {
  }

  lemma {:induction false} CurrentAt(m: Mirror, p: Path)
    ensures CellAt(m, p).current <==> p != [] && Current(m, Parent(p))
  {
  }

  lemma {:induction false} LostListed(w: World, op: Op, c: Cell, c1: Cell)
    requires op.Open? && Sound(w, op.path, c) && !c.current && c.remote != Some(Folder) && c1 == Listed(c)
    ensures LostAt(op, c) <==> LostAt(op, c1)
  {
  }

  /** An open that would fetch what is not there. */
  lemma {:induction false} FailingOpen(w: World, m: Mirror, fs: Shared, op: Op, c: Cell)
    requires op.Open? && c == CellAt(m, op.path) && Sound(w, op.path, c) && c.current && c.remote != Some(Folder)
    requires CanHold(fs, Dir, op.path) && Truth(c) == At(fs, op.path) && Needs(op) && Failing(c)
    ensures Share(fs, op).1 != Refused ==> LostAt(op, c)
    ensures Share(fs, op).1 == Refused ==> Share(fs, op).0 == fs
  {
  }

  /** What the open comes to, beside what one file system shows. */
  lemma {:induction false} OpenedIs(w: World, m: Mirror, m1: Mirror, m2: Mirror, fs: Shared, op: Op, c: Cell)
    requires op.Open? && Inv(w, m) && Stands(m, fs) && c == CellAt(m, op.path) && Sound(w, op.path, c) && c.current
    requires c.remote != Some(Folder) && CanHold(fs, Dir, op.path) && CanHold(m.local, Folder, op.path)
    requires Others(m, m1, op.path) && CellAt(m1, op.path) == Prepared(c, op) && !(Needs(op) && Failing(c))
    requires Others(m1, m2, op.path) && CellAt(m2, op.path) == Opened(op, Prepared(c, op))
    requires FairAt(w, op, Prepared(c, op))
    ensures
      var seen := Comes(op, Prepared(c, op));
      var (fs1, shown) := Share(fs, op);
      var lost := shown != Refused && LostAt(op, c);
      && (Stands(m2, fs1) && seen == shown <==> !lost) && (!lost ==> Inv(w, m2))
  {
    hide Sound, Truth, CellAt, LostAt, FairAt, Prepared, Opened, Comes, Inv;
    var p := op.path;
    assert Truth(c) == At(fs, p);
    StandingOf(w, m);
    OthersOn(m, m1, m2, p);
    LocalAt(m2, p);
    LocalAt(m, p);
    if Truth(c).Some? || op.creates {
      OpenSound(w, op, c);
      if !LostAt(op, c) {
        OthersKeep(w, m, m2, p);
        OthersStand(m, m2, fs, p, Text(Left(op, TextOf(Truth(c)))));
      } else {
        OthersFall(m2, fs, p, Text(Left(op, TextOf(Truth(c)))));
      }
    } else {
      NothingOpened(w, op, c);
      OthersKeep(w, m, m2, p);
      OthersSame(m, m2, fs, p);
    }
  }

  lemma {:induction false} StandingOf(w: World, m: Mirror)
    requires Inv(w, m)
    ensures Standing(w)
  {
  }

  lemma {:induction false} LocalAt(m: Mirror, p: Path)
    ensures CellAt(m, p).local == At(m.local, p) && CellAt(m, p).remote == At(m.remote, p)
  {
  }

  /** An open of nothing, which makes nothing. */
  lemma {:induction false} NothingOpened(w: World, op: Op, c: Cell)
    requires op.Open? && Sound(w, op.path, c) && c.current && c.remote != Some(Folder) && Truth(c).None? && !op.creates
    ensures
      var c2 := Opened(op, Prepared(c, op));
      && c.local.None? && c2.local.None? && Comes(op, Prepared(c, op)) == Refused && Sound(w, op.path, c2)
      && Truth(c2).None?
  {
  }

  lemma {:induction false} OthersStand(m: Mirror, m1: Mirror, fs: Shared, p: Path, left: Thing)
    requires Stands(m, fs) && (forall q :: q != p ==> CellAt(m1, q) == CellAt(m, q))
             && Truth(CellAt(m1, p)) == Some(left)
    ensures Stands(m1, fs[p := left])
  {
    hide Truth, CellAt;
    forall q
      ensures Truth(CellAt(m1, q)) == At(fs[p := left], q)
    {
      assert Truth(CellAt(m, q)) == At(fs, q);
    }
  }

  lemma {:induction false} OthersFall(m: Mirror, fs: Shared, p: Path, left: Thing)
    ensures Truth(CellAt(m, p)) != Some(left) ==> !Stands(m, fs[p := left])
  {
    assert At(fs[p := left], p) == Some(left);
  }

  lemma {:induction false} OthersSame(m: Mirror, m1: Mirror, fs: Shared, p: Path)
    requires Stands(m, fs) && (forall q :: q != p ==> CellAt(m1, q) == CellAt(m, q))
    requires Truth(CellAt(m1, p)) == Truth(CellAt(m, p))
    ensures Stands(m1, fs)
  {
    hide Truth, CellAt;
    forall q
      ensures Truth(CellAt(m1, q)) == At(fs, q)
    {
      assert Truth(CellAt(m, q)) == At(fs, q);
    }
  }

  lemma {:induction false} OpenRefines(w: World, m: Mirror, fs: Shared, op: Op, mint: Mint)
    requires op.Open? && Inv(w, m) && Stands(m, fs) && Fair(w, m, op, mint)
    ensures AsShared(m, fs, op, mint) <==> !Lost(m, fs, op, mint)
    ensures !Lost(m, fs, op, mint) ==> Inv(w, Step(m, op, mint).0)
  {
    var p := op.path;
    if p != [] && Refuses(m, Parent(p)) {
      OpenRefused(w, m, fs, op, mint);
    } else if !CanHold(fs, Dir, p) {
      hide Step, Inv, Stands, Refuses, LostAt;
      OpenNowhere(w, m, fs, op, mint);
    } else {
      OpenPlaced(w, m, fs, op, mint);
    }
  }

  /* ---- Looking and listing ---- */

  lemma {:induction false} LookRefines(w: World, m: Mirror, fs: Shared, op: Op, mint: Mint)
    requires op.Look? && Inv(w, m) && Stands(m, fs) && Fair(w, m, op, mint)
    ensures Inv(w, Step(m, op, mint).0) && (AsShared(m, fs, op, mint) <==> !Lost(m, fs, op, mint))
  {
    hide EnsureDirectory, Sound, Truth, CellAt, Minted, Stands, Inv, Refuses;
    var p := op.path;
    if p == [] {
      RootIs(w, m, fs);
    } else {
      PathKeeps(w, m, fs, p, mint);
      if !Refuses(m, Parent(p)) {
        var m1 := EnsurePath(m, p, mint).0;
        DirIs(w, m1, fs, Parent(p));
        MissingStays(w, m, Parent(p), p, mint);
        if At(fs, Parent(p)) == Some(Dir) {
          HereAsThere(w, m1, fs, p);
        } else {
          NowhereHere(w, m1, fs, p);
        }
      }
    }
  }

  /** Making sure of a folder makes nothing missing, and finds nothing that was. */
  lemma {:induction false} MissingStays(w: World, m: Mirror, d: Path, p: Path, mint: Mint)
    requires Inv(w, m) && Minted(w, m, mint)
    ensures Missing(CellAt(EnsureDirectory(m, d, mint).0, p)) <==> Missing(CellAt(m, p))
  {
    hide Flush, Sound, Truth, Blocked, ApplyListing, DropLocal, ListsAt, Rooted, Minted, Dirty;
    if !Current(m, d) {
      var m1 := Flush(m, mint);
      FlushKeeps(w, m, mint);
      FlushStands(m, mint);
      MissingFlushed(m, p, mint);
      if At(m1.remote, d) != Some(Folder) {
        DropMarked(m1, d);
        DropKeeps(w, m1, d);
        DroppedMissing(w, m1, d, p);
      } else if !Blocked(m1.local, d) {
        ListKeeps(w, m1, d);
        ListedMissing(w, m1, ListedMirror(m1, d), d, p);
      }
    }
  }

  lemma {:induction false} MissingFlushed(m: Mirror, p: Path, mint: Mint)
    ensures Missing(CellAt(Flush(m, mint), p)) <==> Missing(CellAt(m, p))
  {
    hide Flush;
    FlushAt(m, mint, p);
  }

  lemma {:induction false} DroppedMissing(w: World, m: Mirror, d: Path, p: Path)
    requires Inv(w, m) && At(m.remote, d) != Some(Folder)
    requires forall e :: Current(m, e) <==> Current(DropLocal(m, d), e)
    ensures Missing(CellAt(DropLocal(m, d), p)) <==> Missing(CellAt(m, p))
  {
    hide Sound;
    if At(m.local, d) == Some(Folder) && Covers(d, p) {
      DroppedGone(w, m, d, p);
    }
  }

  lemma {:induction false} ListedMissing(w: World, m: Mirror, m1: Mirror, d: Path, p: Path)
    requires Inv(w, m) && Inv(w, m1) && !Current(m, d) && At(m.remote, d) == Some(Folder) && ListsAt(m, m1, d, p)
    requires (forall e :: Current(m, e) ==> Current(m1, e)) && (forall e :: Current(m1, e) ==> Current(m, e) || e == d)
    requires Current(m1, d)
    ensures Missing(CellAt(m1, p)) <==> Missing(CellAt(m, p))
  {
    hide Sound, Rooted;
    if Under(d, p) {
      BranchIs(d, p);
      if p == Branch(d, p) {
        assert CellAt(m1, p) == Listed(CellAt(m, p));
      } else if At(m.remote, Branch(d, p)) != Some(Folder) {
        BelowFile(m.remote, Branch(d, p), p);
      }
    } else {
      NotUnder(d, p);
      if Covers(p, d) {
        AboveFolder(m, p, d);
      }
    }
  }

  lemma {:induction false} RootIs(w: World, m: Mirror, fs: Shared)
    requires Inv(w, m) && Stands(m, fs)
    ensures At(m.local, []) == Some(Folder) && At(m.remote, []) == Some(Folder) && At(fs, []) == Some(Dir)
  {
    DirIs(w, m, fs, []);
  }

  /** A folder made sure of, as a folder: listed, or not one. */
  lemma {:induction false} FolderKeeps(w: World, m: Mirror, fs: Shared, d: Path, mint: Mint)
    requires Inv(w, m) && Stands(m, fs) && Minted(w, m, mint)
    ensures
      var (m1, ok) := EnsureDirectory(m, d, mint);
      && Inv(w, m1) && Stands(m1, fs) && (ok <==> !Refuses(m, d))
      && (ok ==> if At(fs, d) == Some(Dir) then Current(m1, d) && At(m1.local, d) == Some(Folder)
                 else At(m1.local, d) != Some(Folder))
  {
    hide EnsureDirectory, Stands, Minted, Refuses, Same, Clean;
    EnsureKeeps(w, m, d, mint);
    SameStands(m, EnsureDirectory(m, d, mint).0, fs);
    DirIs(w, m, fs, d);
    if Current(EnsureDirectory(m, d, mint).0, d) {
      CurrentFolder(w, EnsureDirectory(m, d, mint).0, d);
    }
  }

  /** No file is in the way of a folder in one that is current. */
  lemma {:induction false} NotInTheWay(w: World, m: Mirror, d: Path)
    requires Inv(w, m) && (d == [] || Current(m, Parent(d)) || At(m.remote, d) != Some(Folder))
    ensures !Refuses(m, d)
  {
    if At(m.remote, d) == Some(Folder) {
      if d != [] {
        assert Sound(w, d, CellAt(m, d));
      }
      forall i | 0 <= i <= |d|
        ensures !IsFile(At(m.local, d[..i]))
      {
        if i < |d| {
          RootedAbove(m.local, Folder, d[..i], d);
        } else {
          assert d[..i] == d;
        }
      }
    }
  }

  /** A current folder holds here what it does on the one file system, but for what is missing. */
  lemma {:induction false} SameNames(w: World, m: Mirror, fs: Shared, d: Path)
    requires Inv(w, m) && Stands(m, fs) && Current(m, d)
    ensures Children(m.local, d) == Children(fs, d) <==> !exists p :: p in Children(fs, d) && Missing(CellAt(m, p))
  {
    hide Inv, Stands, CellAt, Missing;
    forall p
      ensures p in Children(m.local, d) <==> p in Children(fs, d) && !Missing(CellAt(m, p))
    {
      if p != [] && Parent(p) == d {
        HereAsThere(w, m, fs, p);
      }
    }
  }

  lemma {:induction false} ListRefines(w: World, m: Mirror, fs: Shared, op: Op, mint: Mint)
    requires op.List? && Inv(w, m) && Stands(m, fs) && Fair(w, m, op, mint)
    ensures Inv(w, Step(m, op, mint).0) && (AsShared(m, fs, op, mint) <==> !Lost(m, fs, op, mint))
  {
    hide EnsureDirectory, Sound, Truth, CellAt, Minted, Stands, Inv, Refuses, Children, Missing;
    var d := op.path;
    var m1 := EnsurePath(m, d, mint).0;
    if d != [] {
      PathKeeps(w, m, fs, d, mint);
    }
    if d == [] || !Refuses(m, Parent(d)) {
      ParentMade(w, m1, fs, d);
      NotInTheWay(w, m1, d);
      FolderKeeps(w, m1, fs, d, mint);
      if At(fs, d) == Some(Dir) {
        SameNames(w, EnsureDirectory(m1, d, mint).0, fs, d);
        forall p
          ensures Missing(CellAt(EnsureDirectory(m1, d, mint).0, p)) <==> Missing(CellAt(m, p))
        {
          MissingStays(w, m1, d, p, mint);
          if d != [] {
            MissingStays(w, m, Parent(d), p, mint);
          }
        }
      }
    }
  }

  /** What is a folder stands in one. */
  lemma {:induction false} ParentMade(w: World, m: Mirror, fs: Shared, d: Path)
    requires Inv(w, m) && Stands(m, fs) && (d != [] && At(fs, Parent(d)) == Some(Dir) ==> Current(m, Parent(d)))
    ensures d == [] || Current(m, Parent(d)) || At(m.remote, d) != Some(Folder)
  {
    if d != [] && At(m.remote, d) == Some(Folder) {
      assert At(m.remote, Parent(d)) == Some(Folder);
      DirIs(w, m, fs, Parent(d));
    }
  }

  /* ---- One path removed or made ---- */

  /** Before a change is replayed: its path made sure of, and everything pushed. */
  lemma {:induction false} ReadyToReplay(w: World, m: Mirror, fs: Shared, p: Path, mint: Mint)
    requires Inv(w, m) && Stands(m, fs) && Minted(w, m, mint) && (p != [] ==> !Refuses(m, Parent(p)))
    ensures
      var (m1, ok) := EnsurePath(m, p, mint);
      var m2 := Flush(m1, mint);
      && ok && Inv(w, m2) && Clean(m2) && Stands(m2, fs) && fs == Contents(m2.remote) && m2.local == m1.local
      && (p != [] && At(fs, Parent(p)) == Some(Dir) ==> Current(m2, Parent(p)))
      && (forall e :: Current(m, e) ==> Current(m2, e))
  {
    hide EnsureDirectory, Flush, Inv, Stands, Minted, Refuses, Clean, Same;
    if p != [] {
      PathKeeps(w, m, fs, p, mint);
    }
    var m1 := EnsurePath(m, p, mint).0;
    FlushKeeps(w, m1, mint);
    FlushStands(m1, mint);
    SameStands(m1, Flush(m1, mint), fs);
    CleanIs(Flush(m1, mint), fs);
  }

  /** What is here at a path whose folder is current, with everything pushed, is what the target has. */
  lemma {:induction false} CleanHere(w: World, m: Mirror, p: Path)
    requires Inv(w, m) && Clean(m) && p != [] && Current(m, Parent(p))
    ensures At(m.local, p) == Some(Folder) <==> At(m.remote, p) == Some(Folder)
    ensures IsFile(At(m.remote, p)) <==> IsFile(At(m.local, p)) || Missing(CellAt(m, p))
    ensures At(m.local, Parent(p)) == Some(Folder) && At(m.remote, Parent(p)) == Some(Folder)
  {
    assert Sound(w, p, CellAt(m, p)) && !Dirty(CellAt(m, p));
  }

  lemma {:induction false} ContentsAt(tree: Tree, p: Path)
    ensures At(Contents(tree), p) == if p in tree then Some(Shown(tree[p])) else None
  {
  }

  /** A file removed, or an empty folder, on both sides. */
  lemma {:induction false} RemovedKeeps(w: World, m: Mirror, p: Path)
    requires Inv(w, m) && Clean(m) && p != [] && p in m.remote && p in m.local && Current(m, Parent(p))
    requires Children(m.remote, p) == {} && Children(m.local, p) == {}
    ensures
      var m1 := Forget(m.(remote := m.remote - {p}), p).(local := m.local - {p});
      Inv(w, m1) && Stands(m1, Contents(m.remote) - {p})
  {
    hide Sound, Truth, Dirty, Forget;
    var m1 := Forget(m.(remote := m.remote - {p}), p).(local := m.local - {p});
    forall q
      ensures Sound(w, q, CellAt(m1, q)) && Truth(CellAt(m1, q)) == At(Contents(m.remote) - {p}, q)
    {
      RemovedCell(w, m, m1, p, q);
    }
    ForgetAt(m.(remote := m.remote - {p}), p, p);
    LeafRemoved(m.local, p);
    LeafRemoved(m.remote, p);
    RemovedListings(w, m, m1, p);
  }

  lemma {:induction false} RemovedListings(w: World, m: Mirror, m1: Mirror, p: Path)
    requires Listings(m) && m1 == Forget(m.(remote := m.remote - {p}), p).(local := m.local - {p})
    ensures Listings(m1)
  {
    forall e | e in m1.dirs
      ensures e in m.dirs && m1.dirs[e] == m.dirs[e] && e != p
    {
      assert Covers(p, p);
    }
  }

  lemma {:induction false} LeafRemoved(tree: Tree, p: Path)
    requires Rooted(tree, Folder) && p != [] && Children(tree, p) == {}
    ensures Rooted(tree - {p}, Folder)
  {
    var less := tree - {p};
    assert At(tree, []) == Some(Folder);
    forall q | q in less && q != []
      ensures At(less, Parent(q)) == Some(Folder)
    {
      assert q !in Children(tree, p);
    }
  }

  lemma {:induction false} RemovedCell(w: World, m: Mirror, m1: Mirror, p: Path, q: Path)
    requires Inv(w, m) && Clean(m) && p != [] && p in m.remote && Children(m.remote, p) == {}
             && Children(m.local, p) == {}
    requires m1 == Forget(m.(remote := m.remote - {p}), p).(local := m.local - {p})
    ensures Sound(w, q, CellAt(m1, q)) && Truth(CellAt(m1, q)) == At(Contents(m.remote) - {p}, q)
  {
    hide Sound, Truth, Dirty;
    var c, c1 := CellAt(m, q), CellAt(m1, q);
    assert Sound(w, q, c) && !Dirty(c);
    ForgetAt(m.(remote := m.remote - {p}), p, q);
    if q != [] {
      ForgetAt(m.(remote := m.remote - {p}), p, Parent(q));
    }
    ContentsAt(m.remote, q);
    if !Covers(p, q) {
      CleanTruth(c);
      if q != [] {
        ParentOutside(p, q);
      }
      assert c1 == c;
    } else {
      if q != p {
        NoneBelow(m.local, p, q);
        NoneBelow(m.remote, p, q);
      }
      assert c1 == Cell(None, None, None, false, c1.current);
      NothingAt(w, q, c1.current);
    }
  }

  lemma {:induction false} NoneBelow(tree: Tree, p: Path, q: Path)
    requires Rooted(tree, Folder) && Children(tree, p) == {} && Covers(p, q) && q != p
    ensures q !in tree
  {
    if q in tree {
      ChildBelow(tree, Folder, p, q);
    }
  }

  lemma {:induction false} CleanTruth(c: Cell)
    requires !Dirty(c)
    ensures Truth(c) == if c.remote.Some? then Some(Shown(c.remote.value)) else None
  {
  }

  /** A path with nothing at it, and nothing known of it. */
  lemma {:induction false} NothingAt(w: World, p: Path, current: bool)
    ensures Sound(w, p, Cell(None, None, None, false, current)) && Truth(Cell(None, None, None, false, current)).None?
  {
  }

  /** A folder made on both sides, where there is nothing. */
  lemma {:induction false} MadeKeeps(w: World, m: Mirror, p: Path)
    requires Inv(w, m) && Clean(m) && p !in m.local && p !in m.remote
    requires CanHold(m.remote, Folder, p) && CanHold(m.local, Folder, p)
    ensures
      var m1 := m.(remote := m.remote[p := Folder], local := m.local[p := Folder]);
      Inv(w, m1) && Stands(m1, Contents(m.remote)[p := Dir])
  {
    hide Sound, Truth, Dirty;
    var m1 := m.(remote := m.remote[p := Folder], local := m.local[p := Folder]);
    forall q
      ensures Sound(w, q, CellAt(m1, q)) && Truth(CellAt(m1, q)) == At(Contents(m.remote)[p := Dir], q)
    {
      var c, c1 := CellAt(m, q), CellAt(m1, q);
      assert Sound(w, q, c) && !Dirty(c);
      ContentsAt(m.remote, q);
      CleanTruth(c);
      if q == p {
        FolderMade(w, q, c);
      }
    }
    MadeThere(m.local, p);
    MadeThere(m.remote, p);
  }

  lemma {:induction false} MadeThere(tree: Tree, p: Path)
    requires Rooted(tree, Folder) && CanHold(tree, Folder, p)
    ensures Rooted(tree[p := Folder], Folder)
  {
  }

  lemma {:induction false} FolderMade(w: World, p: Path, c: Cell)
    requires Sound(w, p, c) && !Dirty(c) && c.local.None? && c.remote.None?
    ensures
      var c1 := c.(local := Some(Folder), remote := Some(Folder));
      Sound(w, p, c1) && Truth(c1) == Some(Dir)
  {
  }

  predicate Changes(op: Op) {
    op.Unlink? || op.MakeDir? || op.RemoveDir?
  }

  /** A change of one path, once everything is pushed and its folder is current. */
  lemma {:induction false} ReplayRefines(w: World, m: Mirror, fs: Shared, op: Op)
    requires Changes(op) && Inv(w, m) && Clean(m) && Stands(m, fs) && fs == Contents(m.remote)
    requires op.path != [] && At(fs, Parent(op.path)) == Some(Dir) ==> Current(m, Parent(op.path))
    ensures
      var ((m1, seen), (fs1, shown)) := (Replays(m, op), Share(fs, op));
      var lost := shown != Refused
                  && ((op.RemoveDir? && Children(m.local, op.path) != {})
                      || (op.Unlink? && Missing(CellAt(m, op.path))));
      (Stands(m1, fs1) && seen == shown <==> !lost) && (!lost ==> Inv(w, m1))
  {
    hide Inv, Stands, Clean, Forget, CellAt, Contents;
    var p := op.path;
    ContentsAt(m.remote, p);
    ContentsAt(m.remote, Parent(p));
    SameChildren(m.remote, p);
    RootIs(w, m, fs);
    if Share(fs, op).1 != Refused {
      ChangedPlace(w, m, fs, op);
      CleanHere(w, m, p);
      match op
      case Unlink(_) =>
        LocalAt(m, p);
        if !Missing(CellAt(m, p)) {
          FileAlone(w, m, p);
          RemovedKeeps(w, m, p);
        }
      case MakeDir(_) => MadeKeeps(w, m, p);
      case RemoveDir(_) =>
        if Children(m.local, p) == {} {
          RemovedKeeps(w, m, p);
        }
    }
  }

  /** What is changed stands in a folder, which is current. */
  lemma {:induction false} ChangedPlace(w: World, m: Mirror, fs: Shared, op: Op)
    requires Changes(op) && Inv(w, m) && Stands(m, fs) && Share(fs, op).1 != Refused && fs == Contents(m.remote)
    requires op.path != [] && At(fs, Parent(op.path)) == Some(Dir) ==> Current(m, Parent(op.path))
    ensures op.path != [] && Current(m, Parent(op.path))
  {
    RootIs(w, m, fs);
    if op.path in fs {
      assert At(m.remote, Parent(op.path)) == Some(Folder);
      DirIs(w, m, fs, Parent(op.path));
    }
  }

  lemma {:induction false} SameChildren(tree: Tree, d: Path)
    ensures Children(Contents(tree), d) == Children(tree, d)
  {
  }

  lemma {:induction false} FileAlone(w: World, m: Mirror, p: Path)
    requires Inv(w, m) && IsFile(At(m.local, p)) && IsFile(At(m.remote, p))
    ensures Children(m.local, p) == {} && Children(m.remote, p) == {}
  {
  }

  lemma {:induction false} ChangeRefines(w: World, m: Mirror, fs: Shared, op: Op, mint: Mint)
    requires Changes(op) && Inv(w, m) && Stands(m, fs) && Fair(w, m, op, mint)
    ensures AsShared(m, fs, op, mint) <==> !Lost(m, fs, op, mint)
    ensures !Lost(m, fs, op, mint) ==> Inv(w, Step(m, op, mint).0)
  {
    hide EnsureDirectory, Flush, Sound, Truth, CellAt, Minted, Stands, Inv, Refuses, Children, Replays, Clean;
    var p := op.path;
    if p != [] && Refuses(m, Parent(p)) {
      PathKeeps(w, m, fs, p, mint);
      RefusedStays(fs, op);
    } else {
      ReadyToReplay(w, m, fs, p, mint);
      var m2 := Flush(EnsurePath(m, p, mint).0, mint);
      ReplayRefines(w, m2, fs, op);
      if p == [] {
        RootChanged(w, m, fs, op);
      } else if op.RemoveDir? && Share(fs, op).1 != Refused {
        FolderStands(w, m, fs, p);
        ChildrenStay(w, m, fs, p, p, mint);
      } else if op.Unlink? {
        MissingStays(w, m, Parent(p), p, mint);
        MissingFlushed(EnsurePath(m, p, mint).0, p, mint);
      }
    }
  }

  /** A folder stands in one. */
  lemma {:induction false} FolderStands(w: World, m: Mirror, fs: Shared, p: Path)
    requires Inv(w, m) && Stands(m, fs) && At(fs, p) == Some(Dir) && p != []
    ensures At(fs, Parent(p)) == Some(Dir) && !Covers(p, Parent(p))
  {
    DirIs(w, m, fs, p);
    DirIs(w, m, fs, Parent(p));
  }

  lemma {:induction false} RootChanged(w: World, m: Mirror, fs: Shared, op: Op)
    requires Inv(w, m) && Stands(m, fs) && Changes(op) && op.path == []
    ensures Share(fs, op).1 == Refused
  {
    RootIs(w, m, fs);
  }

  /** Making sure of a path leaves what is in a folder that is not above it as it was. */
  lemma {:induction false} ChildrenStay(w: World, m: Mirror, fs: Shared, p: Path, t: Path, mint: Mint)
    requires Inv(w, m) && Stands(m, fs) && Minted(w, m, mint) && p != [] && !Refuses(m, Parent(p))
    requires At(fs, Parent(p)) == Some(Dir) && At(fs, t) == Some(Dir) && !Covers(t, Parent(p))
    ensures Children(EnsurePath(m, p, mint).0.local, t) == Children(m.local, t)
  {
    hide Flush, ApplyListing, Blocked, Sound, Truth, CellAt, Minted, ListsAt, Inv, Stands, Clean;
    var d := Parent(p);
    DirIs(w, m, fs, d);
    DirIs(w, m, fs, t);
    if !Current(m, d) {
      FlushKeeps(w, m, mint);
      FlushStands(m, mint);
      var m1 := Flush(m, mint);
      ListKeeps(w, m1, d);
      forall q
        ensures q in Children(ListedMirror(m1, d).local, t) <==> q in Children(m1.local, t)
      {
        assert ListsAt(m1, ListedMirror(m1, d), d, q);
        if q != [] && Parent(q) == t {
          ChildStays(w, m1, ListedMirror(m1, d), d, t, q);
        }
      }
    }
  }

  lemma {:induction false} ChildStays(w: World, m: Mirror, m1: Mirror, d: Path, t: Path, q: Path)
    requires Inv(w, m) && ListsAt(m, m1, d, q) && !Covers(t, d) && At(m.remote, t) == Some(Folder)
    requires q != [] && Parent(q) == t
    ensures At(m1.local, q) == At(m.local, q)
  {
    CoversOn(q, d);
    if Under(d, q) {
      BranchIs(d, q);
      if q != Branch(d, q) {
        BranchIs(d, t);
        AboveFolder(m, Branch(d, t), t);
      }
    }
  }

  lemma {:induction false} CoversOn(q: Path, d: Path)
    ensures Covers(q, d) ==> Covers(Parent(q), d)
    ensures Covers(d, d)
  {
  }

  /* ---- Renaming ---- */

  /** The same rename may be made of a tree and of what is shown of it, and comes to the same. */
  lemma {:induction false} SameRename(tree: Tree, p: Path, t: Path)
    ensures Movable(Contents(tree), Dir, p, t) <==> Movable(tree, Folder, p, t)
    ensures Apart(p, t) || p == t ==> Renamed(Contents(tree), p, t) == Contents(Renamed(tree, p, t))
  {
    SameMovable(tree, p, t);
    hide Moved, Movable, Apart, Contents;
    if Apart(p, t) && p != t {
      forall q
        ensures At(Moved(Contents(tree), p, t), q) == At(Contents(Moved(tree, p, t)), q)
      {
        SameMoved(tree, p, t, q);
      }
      SameTables(Moved(Contents(tree), p, t), Contents(Moved(tree, p, t)));
    }
  }

  lemma {:induction false} SameMovable(tree: Tree, p: Path, t: Path)
    ensures Movable(Contents(tree), Dir, p, t) <==> Movable(tree, Folder, p, t)
  {
    hide Contents, Children;
    ContentsAt(tree, p);
    ContentsAt(tree, t);
    ContentsAt(tree, Parent(t));
    SameChildren(tree, t);
  }

  lemma {:induction false} SameMoved(tree: Tree, p: Path, t: Path, q: Path)
    requires Apart(p, t)
    ensures At(Moved(Contents(tree), p, t), q) == At(Contents(Moved(tree, p, t)), q)
  {
    hide Moved, Contents;
    MovedFrom(tree, p, t, q);
    MovedFrom(Contents(tree), p, t, q);
    ContentsAt(Moved(tree, p, t), q);
    ContentsAt(tree, q);
    if Covers(t, q) {
      ContentsAt(tree, p + q[|t|..]);
    }
  }

  /** What a rename does to one path. */
  ghost predicate RenamesAt(m: Mirror, m1: Mirror, s: Path, t: Path, q: Path) {
    if Covers(t, q) then
      var o := s + q[|t|..];
      && At(m1.local, q) == At(m.local, o) && At(m1.remote, q) == At(m.remote, o) && At(m1.files, q) == At(m.files, o)
      && At(m1.dirs, q) == At(m.dirs, o) && (q in m1.dirty <==> o in m.dirty)
    else if Covers(s, q) then
      At(m1.local, q) == None && At(m1.remote, q) == None && At(m1.files, q) == None && At(m1.dirs, q) == None
      && q !in m1.dirty
    else
      At(m1.local, q) == At(m.local, q) && At(m1.remote, q) == At(m.remote, q) && At(m1.files, q) == At(m.files, q)
      && At(m1.dirs, q) == At(m.dirs, q) && (q in m1.dirty <==> q in m.dirty)
  }

  ghost function RenamedMirror(m: Mirror, s: Path, t: Path): Mirror {
    MoveRecords(m.(remote := Renamed(m.remote, s, t)), s, t).(local := Renamed(m.local, s, t))
  }

  lemma {:induction false} RenamedAt(m: Mirror, s: Path, t: Path, q: Path)
    requires Apart(s, t)
    ensures RenamesAt(m, RenamedMirror(m, s, t), s, t, q)
  {
    hide Moved;
    assert s != t by {
      assert Covers(s, s);
    }
    MovedFrom(m.local, s, t, q);
    MovedFrom(m.remote, s, t, q);
    MovedFrom(m.files, s, t, q);
    MovedFrom(m.dirs, s, t, q);
    RenameMovesNotes(m, s, t);
  }

  lemma {:induction false} RenamedCell(m: Mirror, m1: Mirror, s: Path, t: Path, q: Path)
    requires Apart(s, t) && m1.gen == m.gen && (forall x :: RenamesAt(m, m1, s, t, x))
    requires s != [] && t != [] && Current(m, Parent(s)) && Current(m, Parent(t))
    ensures
      CellAt(m1, q) ==
      if Covers(t, q) then CellAt(m, s + q[|t|..])
      else if Covers(s, q) then Cell(None, None, None, false, CellAt(m1, q).current)
      else CellAt(m, q)
  {
    assert RenamesAt(m, m1, s, t, q) && RenamesAt(m, m1, s, t, Parent(q));
    ParentOfEnd(s, t);
    if Covers(t, q) {
      if q == t {
        assert s + q[|t|..] == s;
      } else {
        ParentMoved(s, t, q);
      }
    } else if !Covers(s, q) && q != [] {
      ParentOutside(s, q);
      ParentOutside(t, q);
    }
  }

  /** A rename of one thing to another place, once everything is pushed and both folders are current. */
  lemma {:induction false} MovedKeeps(w: World, m: Mirror, s: Path, t: Path)
    requires Inv(w, m) && Clean(m) && Apart(s, t) && Movable(m.remote, Folder, s, t) && Movable(m.local, Folder, s, t)
    requires Current(m, Parent(s)) && Current(m, Parent(t))
    requires forall below, stamp :: w.text(s + below, stamp) == w.text(t + below, stamp)
    ensures Inv(w, RenamedMirror(m, s, t)) && Stands(RenamedMirror(m, s, t), Contents(Renamed(m.remote, s, t)))
  {
    hide Sound, Truth, Dirty, MoveRecords, Renamed, Movable, RenamesAt, Contents;
    var m1 := RenamedMirror(m, s, t);
    forall q
      ensures RenamesAt(m, m1, s, t, q)
    {
      RenamedAt(m, s, t, q);
    }
    RenamedKeeps(m, s, t);
    EndsNamed(m.remote, s, t);
    forall q
      ensures Sound(w, q, CellAt(m1, q)) && Truth(CellAt(m1, q)) == At(Contents(m1.remote), q)
    {
      RenamedCell(m, m1, s, t, q);
      MovedCell(w, m, m1, s, t, q);
    }
    RenamedRooted(m.local, Folder, s, t);
    RenamedRooted(m.remote, Folder, s, t);
    MovedListings(m, m1, s, t);
  }

  lemma {:induction false} EndsNamed(tree: Tree, s: Path, t: Path)
    requires Movable(tree, Folder, s, t)
    ensures s != [] && t != []
  {
  }

  lemma {:induction false} RenamedKeeps(m: Mirror, s: Path, t: Path)
    ensures
      var m1 := RenamedMirror(m, s, t);
      m1.gen == m.gen && m1.remote == Renamed(m.remote, s, t) && m1.local == Renamed(m.local, s, t)
  {
  }

  lemma {:induction false} MovedListings(m: Mirror, m1: Mirror, s: Path, t: Path)
    requires Listings(m) && m1.gen == m.gen && forall q :: RenamesAt(m, m1, s, t, q)
    ensures Listings(m1)
  {
    forall e | e in m1.dirs
      ensures m1.dirs[e] <= m1.gen
      ensures m1.dirs[e] == m1.gen ==> At(m1.local, e) == Some(Folder) && At(m1.remote, e) == Some(Folder)
    {
      assert RenamesAt(m, m1, s, t, e);
    }
  }

  /** What was sound where it was is sound where it has been moved to. */
  lemma {:induction false} AlikeSound(w: World, p: Path, q: Path, c: Cell)
    requires Sound(w, p, c) && forall stamp :: w.text(p, stamp) == w.text(q, stamp)
    ensures Sound(w, q, c)
  {
  }

  lemma {:induction false} MovedCell(w: World, m: Mirror, m1: Mirror, s: Path, t: Path, q: Path)
    requires Inv(w, m) && Clean(m) && Apart(s, t) && RenamesAt(m, m1, s, t, q)
    requires forall below, stamp :: w.text(s + below, stamp) == w.text(t + below, stamp)
    requires
      CellAt(m1, q) ==
      if Covers(t, q) then CellAt(m, s + q[|t|..])
      else if Covers(s, q) then Cell(None, None, None, false, CellAt(m1, q).current)
      else CellAt(m, q)
    ensures Sound(w, q, CellAt(m1, q)) && Truth(CellAt(m1, q)) == At(Contents(m1.remote), q)
  {
    hide Sound, Truth, Dirty;
    ContentsAt(m1.remote, q);
    if Covers(t, q) {
      var o := s + q[|t|..];
      assert q == t + q[|t|..];
      assert Sound(w, o, CellAt(m, o)) && !Dirty(CellAt(m, o));
      AlikeSound(w, o, q, CellAt(m, o));
      CleanTruth(CellAt(m, o));
    } else if Covers(s, q) {
      NothingAt(w, q, CellAt(m1, q).current);
    } else {
      assert Sound(w, q, CellAt(m, q)) && !Dirty(CellAt(m, q));
      CleanTruth(CellAt(m, q));
    }
  }

  lemma {:induction false} MovedOntoItself<T>(held: map<Path, T>, p: Path)
    ensures Moved(held, p, p) == Without(held, p)
  {
    var kept := Without(held, p);
    forall q | q in kept
      ensures Rebase(p, p, q) == q && Origin(p, p, q) == q
    {
    }
    forall q
      ensures q in Moved(held, p, p) <==> q in kept
    {
      if q in kept {
        assert Rebase(p, p, q) == q;
      }
    }
  }

  /** A rename onto itself forgets what is known of a path, and does nothing else. */
  lemma {:induction false} OntoItself(m: Mirror, p: Path)
    ensures RenamedMirror(m, p, p) == Forget(m, p)
    ensures MoveRecords(m, p, p) == Forget(m, p)
  {
    MovedOntoItself(m.files, p);
    MovedOntoItself(m.dirs, p);
    forall q
      ensures q in MoveRecords(m, p, p).dirty <==> q in Forget(m, p).dirty
    {
      if q in Forget(m, p).dirty {
        assert Rebase(p, p, q) == q;
      }
    }
  }

  /** A rename the target does, carried out here unless what it would replace is not empty here. */
  lemma {:induction false} LocalMovable(w: World, m: Mirror, s: Path, t: Path)
    requires Inv(w, m) && Clean(m) && Movable(m.remote, Folder, s, t)
    requires Current(m, Parent(s)) && Current(m, Parent(t))
    ensures Movable(m.local, Folder, s, t) <==>
              !Missing(CellAt(m, s)) && (s == t || At(m.remote, t) != Some(Folder) || Children(m.local, t) == {})
  {
    CleanHere(w, m, s);
    CleanHere(w, m, t);
    if s != t {
      MovableApart(m.remote, Folder, s, t);
    }
  }

  lemma {:induction false} RelateRefines(w: World, m: Mirror, fs: Shared, s: Path, t: Path)
    requires Inv(w, m) && Clean(m) && Stands(m, fs) && fs == Contents(m.remote)
    requires Movable(fs, Dir, s, t) ==> Current(m, Parent(s)) && Current(m, Parent(t))
    requires forall below, stamp :: w.text(s + below, stamp) == w.text(t + below, stamp)
    ensures
      var ((m1, seen), (fs1, shown)) := (Relates(m, s, t), Share(fs, Rename(s, t)));
      var lost := shown != Refused
                  && (Missing(CellAt(m, s)) || (s != t && At(fs, t) == Some(Dir) && Children(m.local, t) != {}));
      (Stands(m1, fs1) && seen == shown <==> !lost) && (!lost ==> Inv(w, m1))
  {
    hide Inv, Stands, Clean, MoveRecords, CellAt, Contents, Movable, Renamed, Children;
    SameRename(m.remote, s, t);
    ContentsAt(m.remote, t);
    if Movable(m.remote, Folder, s, t) {
      LocalMovable(w, m, s, t);
      if s == t {
        RenamedItself(m, s);
        ForgetKeeps(w, m, s);
        SameStands(m, Forget(m, s), fs);
      } else {
        RemoteApart(w, m, s, t);
        if Movable(m.local, Folder, s, t) {
          MovedKeeps(w, m, s, t);
        }
      }
    }
  }

  lemma {:induction false} RenamedItself(m: Mirror, p: Path)
    ensures RenamedMirror(m, p, p) == Forget(m, p) && Renamed(m.remote, p, p) == m.remote
    ensures Renamed(Contents(m.remote), p, p) == Contents(m.remote)
  {
    OntoItself(m, p);
  }

  lemma {:induction false} RemoteApart(w: World, m: Mirror, s: Path, t: Path)
    requires Inv(w, m) && Movable(m.remote, Folder, s, t) && s != t
    ensures Apart(s, t)
  {
    MovableApart(m.remote, Folder, s, t);
  }

  lemma {:induction false} RenameRefines(w: World, m: Mirror, fs: Shared, op: Op, mint: Mint)
    requires op.Rename? && Inv(w, m) && Stands(m, fs) && Fair(w, m, op, mint)
    ensures AsShared(m, fs, op, mint) <==> !Lost(m, fs, op, mint)
    ensures !Lost(m, fs, op, mint) ==> Inv(w, Step(m, op, mint).0)
  {
    hide EnsureDirectory, Flush, Sound, Truth, CellAt, Minted, Stands, Inv, Refuses, Children, Relates, Clean, Movable;
    var s, t := op.path, op.target;
    RefusedStays(fs, op);
    if s == [] || t == [] {
      NotTheRoot(fs, s, t);
      RootRenamed(w, m, fs, op, mint);
    } else {
      PathKeeps(w, m, fs, s, mint);
      var m1 := EnsurePath(m, s, mint).0;
      if !Refuses(m, Parent(s)) {
        PathKeeps(w, m1, fs, t, mint);
        if !Refuses(m1, Parent(t)) {
          NamedRenamed(w, m, m1, fs, op, mint);
        }
      }
    }
  }

  lemma {:induction false} NotTheRoot(fs: Shared, s: Path, t: Path)
    ensures s == [] || t == [] ==> !Movable(fs, Dir, s, t)
  {
  }

  /** A rename of the root, or onto it. */
  lemma {:induction false} RootRenamed(w: World, m: Mirror, fs: Shared, op: Op, mint: Mint)
    requires op.Rename? && Inv(w, m) && Stands(m, fs) && Minted(w, m, mint) && (op.path == [] || op.target == [])
    ensures Inv(w, Step(m, op, mint).0) && Stands(Step(m, op, mint).0, fs) && Step(m, op, mint).1 == Refused
  {
    hide EnsureDirectory, Flush, Sound, Truth, CellAt, Minted, Stands, Inv, Refuses, Children, Clean;
    var m1 := EnsurePath(m, op.path, mint).0;
    if op.path != [] {
      PathKeeps(w, m, fs, op.path, mint);
    }
    if op.path == [] || !Refuses(m, Parent(op.path)) {
      if op.target != [] {
        PathKeeps(w, m1, fs, op.target, mint);
      }
      if op.target == [] || !Refuses(m1, Parent(op.target)) {
        ReadyToReplay(w, m1, fs, op.target, mint);
      }
    }
  }

  lemma {:induction false} NamedRenamed(w: World, m: Mirror, m1: Mirror, fs: Shared, op: Op, mint: Mint)
    requires op.Rename? && Inv(w, m) && Stands(m, fs) && Fair(w, m, op, mint) && op.path != [] && op.target != []
    requires !Refuses(m, Parent(op.path)) && EnsurePath(m, op.path, mint) == (m1, true) && Inv(w, m1) && Stands(m1, fs)
    requires Minted(w, m1, mint) && !Refuses(m1, Parent(op.target))
    requires At(fs, Parent(op.path)) == Some(Dir) ==> Current(m1, Parent(op.path))
    ensures AsShared(m, fs, op, mint) <==> !Lost(m, fs, op, mint)
    ensures !Lost(m, fs, op, mint) ==> Inv(w, Step(m, op, mint).0)
  {
    hide EnsureDirectory, Flush, Sound, Truth, CellAt, Minted, Stands, Inv, Refuses, Children, Relates, Clean, Movable,
         Missing;
    var s, t := op.path, op.target;
    ReadyToReplay(w, m1, fs, t, mint);
    var m3 := Flush(EnsurePath(m1, t, mint).0, mint);
    if Movable(fs, Dir, s, t) {
      EndsStand(w, m, fs, s, t);
    }
    RelateRefines(w, m3, fs, s, t);
    MissingStays(w, m, Parent(s), s, mint);
    MissingStays(w, m1, Parent(t), s, mint);
    MissingFlushed(EnsurePath(m1, t, mint).0, s, mint);
    if Movable(fs, Dir, s, t) && s != t && At(fs, t) == Some(Dir) {
      NotAbove(w, m, fs, s, t);
      ChildrenStay(w, m, fs, s, t, mint);
      ChildrenStay(w, m1, fs, t, t, mint);
    }
  }

  lemma {:induction false} EndsStand(w: World, m: Mirror, fs: Shared, s: Path, t: Path)
    requires Inv(w, m) && Stands(m, fs) && Movable(fs, Dir, s, t)
    ensures At(fs, Parent(s)) == Some(Dir) && At(fs, Parent(t)) == Some(Dir)
  {
    assert Sound(w, s, CellAt(m, s)) && Truth(CellAt(m, s)) == At(fs, s);
    DirIs(w, m, fs, Parent(s));
    if Dirty(CellAt(m, s)) {
      DirtyHeld(w, m, s);
    }
  }

  lemma {:induction false} NotAbove(w: World, m: Mirror, fs: Shared, s: Path, t: Path)
    requires Inv(w, m) && Stands(m, fs) && Movable(fs, Dir, s, t) && s != t && At(fs, t) == Some(Dir)
    ensures !Covers(t, Parent(s)) && !Covers(t, Parent(t))
  {
    FsRooted(w, m, fs);
    MovableApart(fs, Dir, s, t);
    assert Covers(t, Parent(s)) ==> Covers(t, s);
  }

  /** What a mirror and its target stand for is a tree. */
  lemma {:induction false} FsRooted(w: World, m: Mirror, fs: Shared)
    requires Inv(w, m) && Stands(m, fs)
    ensures Rooted(fs, Dir)
  {
    hide Sound, Truth;
    RootIs(w, m, fs);
    forall p | p in fs && p != []
      ensures At(fs, Parent(p)) == Some(Dir)
    {
      assert Truth(CellAt(m, p)) == At(fs, p);
      DirIs(w, m, fs, Parent(p));
      if Dirty(CellAt(m, p)) {
        DirtyHeld(w, m, p);
      } else {
        CleanTruth(CellAt(m, p));
      }
    }
  }

  /* ---- Commands ---- */

  lemma {:induction false} CommandRefines(w: World, m: Mirror, fs: Shared, op: Op, mint: Mint)
    requires op.Command? && Inv(w, m) && Stands(m, fs) && Fair(w, m, op, mint)
    ensures Inv(w, Step(m, op, mint).0) && AsShared(m, fs, op, mint)
  {
    hide Flush, Inv, Stands, Clean;
    FlushKeeps(w, m, mint);
    FlushStands(m, mint);
    var m1 := Flush(m, mint);
    SameStands(m, m1, fs);
    CleanIs(m1, fs);
    CommandKeeps(w, m1, op.change(fs), op.stamps);
  }

  /** A command that ends, having run while others acted: it is handed what the target has by then, and only now is
  every listing out of date. */
  ghost function Ended(m: Mirror, op: Op): Mirror
    requires op.Command?
  {
    m.(remote := Made(op.change(Contents(m.remote)), op.stamps), gen := m.gen + 1)
  }

  /** What a command is handed that has been running while others acted is what the shared file system holds exactly
  where the target has been told of every file; and where nothing is modified it leaves what it would there.  One
  that nothing happens beside begins by telling the target everything. */
  lemma {:induction false} CommandMeanwhile(w: World, m: Mirror, fs: Shared, op: Op, mint: Mint)
    requires op.Command? && Inv(w, m) && Stands(m, fs)
    requires Rooted(op.change(fs), Dir)
    requires forall p :: p in op.change(fs) ==> Tells(w, p, Stamped(op.change(fs)[p], op.stamps(p)))
    ensures Contents(m.remote) == fs <==> forall p :: !Untold(CellAt(m, p))
    ensures Clean(m) ==> Inv(w, Ended(m, op)) && Stands(Ended(m, op), op.change(fs))
    ensures Step(m, op, mint) == (Ended(Flush(m, mint), op), Done)
  {
    hide Flush, Inv, Made, Rooted, Tells;
    forall p
      ensures At(Contents(m.remote), p) == At(fs, p) <==> !Untold(CellAt(m, p))
    {
      assert Truth(CellAt(m, p)) == At(fs, p);
      ContentsAt(m.remote, p);
    }
    if forall p :: !Untold(CellAt(m, p)) {
      SameTables(Contents(m.remote), fs);
    }
    if Clean(m) {
      CleanIs(m, fs);
      CommandKeeps(w, m, op.change(fs), op.stamps);
    }
  }

  /** Whatever a command does on the target, to files and to folders, when nothing is left to tell it. */
  lemma {:induction false} CommandKeeps(w: World, m: Mirror, made: Shared, stamps: Path -> Stamp)
    requires Inv(w, m) && Clean(m) && Rooted(made, Dir)
    requires forall p :: p in made ==> Tells(w, p, Stamped(made[p], stamps(p)))
    ensures
      var m1 := m.(remote := Made(made, stamps), gen := m.gen + 1);
      Inv(w, m1) && Stands(m1, made)
  {
    hide Sound, Truth, Dirty, Rooted, Made, Tells;
    var m1 := m.(remote := Made(made, stamps), gen := m.gen + 1);
    MadeRooted(made, stamps);
    forall p
      ensures Sound(w, p, CellAt(m1, p)) && Truth(CellAt(m1, p)) == At(made, p)
    {
      assert Sound(w, p, CellAt(m, p)) && !Dirty(CellAt(m, p));
      MadeAt(made, stamps, p);
      CommandCell(w, p, CellAt(m, p), CellAt(m1, p));
      CleanTruth(CellAt(m1, p));
    }
  }

  lemma {:induction false} MadeAt(made: Shared, stamps: Path -> Stamp, p: Path)
    ensures At(Made(made, stamps), p) == if p in made then Some(Stamped(made[p], stamps(p))) else None
    ensures p in made ==> Shown(Stamped(made[p], stamps(p))) == made[p]
  {
  }

  lemma {:induction false} MadeRooted(made: Shared, stamps: Path -> Stamp)
    requires Rooted(made, Dir)
    ensures Rooted(Made(made, stamps), Folder)
  {
    hide Made;
    MadeAt(made, stamps, []);
    forall p | p in Made(made, stamps) && p != []
      ensures At(Made(made, stamps), Parent(p)) == Some(Folder)
    {
      MadeAt(made, stamps, p);
      MadeAt(made, stamps, Parent(p));
    }
  }

  lemma {:induction false} CommandCell(w: World, p: Path, c: Cell, c1: Cell)
    requires Sound(w, p, c) && !Dirty(c) && c1 == c.(remote := c1.remote, current := false)
    requires c1.remote.Some? ==> Tells(w, p, c1.remote.value)
    ensures Sound(w, p, c1) && !Dirty(c1)
  {
  }

  /* ---- Whole runs ---- */

  /** One step, of whatever kind: it is what it would be on one shared file system exactly where it is none of
  those that go wrong, and then it keeps what every step keeps. */
  lemma {:induction false} StepRefines(w: World, m: Mirror, fs: Shared, op: Op, mint: Mint)
    requires Inv(w, m) && Stands(m, fs) && Fair(w, m, op, mint)
    ensures AsShared(m, fs, op, mint) <==> !Lost(m, fs, op, mint)
    ensures !Lost(m, fs, op, mint) ==> Inv(w, Step(m, op, mint).0)
  {
    hide Inv, Stands, Fair, Step, AsShared, Share, Refuses, LostAt, Children;
    match op
    case Open(_, _, _, _, _, _) => OpenRefines(w, m, fs, op, mint);
    case Look(_) => LookRefines(w, m, fs, op, mint);
    case List(_) => ListRefines(w, m, fs, op, mint);
    case Unlink(_) => ChangeRefines(w, m, fs, op, mint);
    case MakeDir(_) => ChangeRefines(w, m, fs, op, mint);
    case RemoveDir(_) => ChangeRefines(w, m, fs, op, mint);
    case Rename(_, _) => RenameRefines(w, m, fs, op, mint);
    case Command(_, _) => CommandRefines(w, m, fs, op, mint);
  }

  /** One step, and what the target stamps what it is handed in it. */
  datatype Turn = Turn(op: Op, mint: Mint)

  ghost function Mirrors(m: Mirror, turns: seq<Turn>): (r: (Mirror, seq<Seen>))
    ensures |r.1| == |turns|
    decreases |turns|
  {
    if turns == [] then (m, [])
    else
      var (m1, seen) := Step(m, turns[0].op, turns[0].mint);
      var (m2, rest) := Mirrors(m1, turns[1..]);
      (m2, [seen] + rest)
  }

  ghost function Shares(fs: Shared, turns: seq<Turn>): (r: (Shared, seq<Seen>))
    ensures |r.1| == |turns|
    decreases |turns|
  {
    if turns == [] then (fs, [])
    else
      var (fs1, seen) := Share(fs, turns[0].op);
      var (fs2, rest) := Shares(fs1, turns[1..]);
      (fs2, [seen] + rest)
  }

  /** A run whose every step is fair and none of whose steps goes wrong. */
  ghost predicate FairRun(w: World, m: Mirror, fs: Shared, turns: seq<Turn>)
    decreases |turns|
  {
    turns == []
    || (Fair(w, m, turns[0].op, turns[0].mint) && !Lost(m, fs, turns[0].op, turns[0].mint)
        && FairRun(w, Step(m, turns[0].op, turns[0].mint).0, Share(fs, turns[0].op).0, turns[1..]))
  }

  /** Over every run: each read, listing and look sees what one shared file system would show, each
  step is refused where that would refuse it, and so every command finds the target as that is. */
  lemma {:induction false} RunsRefine(w: World, m: Mirror, fs: Shared, turns: seq<Turn>)
    requires Inv(w, m) && Stands(m, fs) && FairRun(w, m, fs, turns)
    ensures Mirrors(m, turns).1 == Shares(fs, turns).1
    ensures Inv(w, Mirrors(m, turns).0) && Stands(Mirrors(m, turns).0, Shares(fs, turns).0)
    decreases |turns|
  {
    hide Inv, Stands, Fair, Step, Lost, Share;
    if turns != [] {
      var Turn(op, mint) := turns[0];
      StepRefines(w, m, fs, op, mint);
      RunsRefine(w, Step(m, op, mint).0, Share(fs, op).0, turns[1..]);
    }
  }

  /** A mirror that holds nothing but its root stands for the target as it is. */
  lemma {:induction false} MirrorStarts(w: World, remote: Tree)
    requires Standing(w) && Rooted(remote, Folder) && forall p :: p in remote ==> Tells(w, p, remote[p])
    ensures
      var m := Mirror(map[[] := Folder], remote, map[], map[], {}, 0);
      Inv(w, m) && Stands(m, Contents(remote))
  {
  }
}
