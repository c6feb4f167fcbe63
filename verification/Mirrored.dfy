/** The mirror is one shared file system: what every step keeps at every path, and what listing a folder and
pushing what is modified do to it. */
module Mirrored {
  import opened Prelude
  import opened Disk
  import opened MirrorSpec

  /* ---- One path at a time ---- */

  /** All there is to say about one path.  `candidate` is whether it was noted as written, and
  `current` whether the folder holding it was listed in this generation. */
  datatype Cell = Cell(local: Option<Item>, remote: Option<Item>, record: Option<Record>,
                       candidate: bool, current: bool)

  function CellAt(m: Mirror, p: Path): Cell {
    Cell(At(m.local, p), At(m.remote, p), At(m.files, p), p in m.dirty, p != [] && Current(m, Parent(p)))
  }

  predicate Dirty(c: Cell) {
    c.candidate && IsFile(c.local) && (c.record.None? || c.record.value.local != c.local.value.stamp)
  }

  /** What is at a path, as one file system would have it: what is modified here, or else what the target has. */
  function Truth(c: Cell): Option<Thing> {
    if Dirty(c) then Some(Text(c.local.value.bytes))
    else if c.remote.Some? then Some(Shown(c.remote.value))
    else None
  }

  /** Whether a file says by its stamp what it holds. */
  predicate Tells(w: World, p: Path, f: Item) {
    f.File? ==> f.bytes == w.text(p, f.stamp) && |f.bytes| == f.stamp.size
  }

  /** Whether a file here is as its record says. */
  predicate Kept(c: Cell) {
    c.record.Some? && IsFile(c.local) && c.record.value.local == c.local.value.stamp
  }

  /** What every step keeps at one path whose folder is current. */
  predicate Agrees(w: World, p: Path, c: Cell) {
    && (c.local == Some(Folder) <==> c.remote == Some(Folder))
    && (IsFile(c.local) ==> Dirty(c) || IsFile(c.remote))
    && (c.record.Some? && IsFile(c.remote) ==> c.record.value.remote == c.remote.value.stamp)
    && (IsFile(c.local) && !Dirty(c) && !Kept(c) ==>
          var (here, there) := (c.local.value, c.remote.value);
          && |here.bytes| == |there.bytes| && (here.stamp == there.stamp || Tells(w, p, here))
          && (c.record.Some? ==> here.bytes == there.bytes))
  }

  /** A file of the target's that is not here, though its folder is current: one whose name another's scratch file
  had. */
  predicate Missing(c: Cell) {
    c.current && c.local.None? && IsFile(c.remote)
  }

  /** What every step keeps, at one path. */
  predicate Sound(w: World, p: Path, c: Cell) {
    && (IsFile(c.remote) ==> Tells(w, p, c.remote.value))
    && (IsFile(c.local) ==> |c.local.value.bytes| == c.local.value.stamp.size)
    && (c.record.Some? ==>
          if c.record.value.present then w.text(p, c.record.value.local) == w.text(p, c.record.value.remote)
          else c.record.value.local == c.record.value.remote)
    && (Kept(c) && c.record.value.present ==> Tells(w, p, c.local.value))
    && (Dirty(c) ==> c.current && Tells(w, p, c.local.value))
    && (c.current ==> Agrees(w, p, c))
  }

  /** Stamps say how long a file is. */
  ghost predicate Standing(w: World) {
    forall p, stamp :: |w.text(p, stamp)| == stamp.size
  }

  /** What is current is a folder on both sides. */
  predicate Listings(m: Mirror) {
    forall d :: d in m.dirs ==>
      m.dirs[d] <= m.gen && (m.dirs[d] == m.gen ==> At(m.local, d) == Some(Folder) && At(m.remote, d) == Some(Folder))
  }

  ghost predicate AllSound(w: World, m: Mirror) {
    forall p :: Sound(w, p, CellAt(m, p))
  }

  ghost predicate Inv(w: World, m: Mirror) {
    Standing(w) && Rooted(m.local, Folder) && Rooted(m.remote, Folder) && Listings(m) && AllSound(w, m)
  }

  /** Nothing modified that the target has not been told. */
  ghost predicate Clean(m: Mirror) {
    forall p :: !Dirty(CellAt(m, p))
  }

  /** Two states one file system stands for. */
  ghost predicate Same(m: Mirror, m1: Mirror) {
    forall p :: Truth(CellAt(m1, p)) == Truth(CellAt(m, p))
  }

  /** Whether a flush is stamped as stamps must be: by what it pushes. */
  predicate Minted(w: World, m: Mirror, mint: Mint) {
    forall p :: p in m.dirty && Modified(m, p) ==> Tells(w, p, File(m.local[p].bytes, mint(p)))
  }

  /* ---- Pushing ---- */

  function Flushed(c: Cell, stamp: Stamp): Cell {
    if Dirty(c) then
      c.(remote := Some(File(c.local.value.bytes, stamp)), record := Some(Record(stamp, true, c.local.value.stamp)))
    else c
  }

  lemma {:induction false} FlushAt(m: Mirror, mint: Mint, p: Path)
    ensures CellAt(Flush(m, mint), p) == Flushed(CellAt(m, p), mint(p))
    ensures Dirty(CellAt(m, p)) <==> p in Pushing(m)
  {
    assert Dirty(CellAt(m, p)) <==> p in Pushing(m);
  }

  lemma {:induction false} FlushStands(m: Mirror, mint: Mint)
    ensures
      var m1 := Flush(m, mint);
      m1.dirs == m.dirs && m1.gen == m.gen && m1.local == m.local && m1.dirty == m.dirty
  {
  }

  lemma {:induction false} FlushedSound(w: World, p: Path, c: Cell, stamp: Stamp)
    requires Sound(w, p, c) && (Dirty(c) ==> Tells(w, p, File(c.local.value.bytes, stamp)))
    ensures Sound(w, p, Flushed(c, stamp)) && Truth(Flushed(c, stamp)) == Truth(c) && !Dirty(Flushed(c, stamp))
    ensures c.remote == Some(Folder) <==> Flushed(c, stamp).remote == Some(Folder)
  {
  }

  lemma {:induction false} FlushKeeps(w: World, m: Mirror, mint: Mint)
    requires Inv(w, m) && Minted(w, m, mint)
    ensures Inv(w, Flush(m, mint)) && Same(m, Flush(m, mint)) && Clean(Flush(m, mint))
    ensures forall p :: At(Flush(m, mint).remote, p) == Some(Folder) <==> At(m.remote, p) == Some(Folder)
  {
    hide Flush, Sound, Truth, Dirty, Tells, Modified, Minted, Rooted, CellAt;
    var m1 := Flush(m, mint);
    FlushStands(m, mint);
    forall p
      ensures Sound(w, p, CellAt(m1, p)) && Truth(CellAt(m1, p)) == Truth(CellAt(m, p)) && !Dirty(CellAt(m1, p))
      ensures At(m1.remote, p) == Some(Folder) <==> At(m.remote, p) == Some(Folder)
    {
      assert Sound(w, p, CellAt(m, p));
      FlushCell(w, m, mint, p);
    }
    FlushRooted(w, m, mint);
    FlushListings(m, m1);
  }

  lemma {:induction false} FlushListings(m: Mirror, m1: Mirror)
    requires Listings(m) && m1.dirs == m.dirs && m1.gen == m.gen && m1.local == m.local
    requires forall p :: At(m1.remote, p) == Some(Folder) <==> At(m.remote, p) == Some(Folder)
    ensures Listings(m1)
  {
  }

  lemma {:induction false} FlushCell(w: World, m: Mirror, mint: Mint, p: Path)
    requires Sound(w, p, CellAt(m, p)) && Minted(w, m, mint)
    ensures
      var c, c1 := CellAt(m, p), CellAt(Flush(m, mint), p);
      && Sound(w, p, c1) && Truth(c1) == Truth(c) && !Dirty(c1)
      && (At(Flush(m, mint).remote, p) == Some(Folder) <==> At(m.remote, p) == Some(Folder))
  {
    hide Flush, Sound, Truth, Dirty, Tells, Modified, Minted, Flushed;
    FlushAt(m, mint, p);
    DirtyTold(w, m, mint, p);
    FlushedSound(w, p, CellAt(m, p), mint(p));
    assert CellAt(Flush(m, mint), p).remote == At(Flush(m, mint).remote, p) && CellAt(m, p).remote == At(m.remote, p);
  }

  lemma {:induction false} DirtyTold(w: World, m: Mirror, mint: Mint, p: Path)
    requires Minted(w, m, mint)
    ensures Dirty(CellAt(m, p)) ==> Tells(w, p, File(CellAt(m, p).local.value.bytes, mint(p)))
  {
    assert Dirty(CellAt(m, p)) ==> Modified(m, p);
  }

  /** What is modified stands in a folder the target has. */
  lemma {:induction false} DirtyHeld(w: World, m: Mirror, p: Path)
    requires Inv(w, m) && Dirty(CellAt(m, p))
    ensures p != [] && Current(m, Parent(p)) && At(m.remote, Parent(p)) == Some(Folder)
            && At(m.remote, p) != Some(Folder)
  {
    assert Sound(w, p, CellAt(m, p));
  }

  lemma {:induction false} FlushRooted(w: World, m: Mirror, mint: Mint)
    requires Inv(w, m)
    requires forall p :: At(Flush(m, mint).remote, p) == Some(Folder) <==> At(m.remote, p) == Some(Folder)
    ensures Rooted(Flush(m, mint).remote, Folder)
  {
    hide Flush, Sound;
    var remote := Flush(m, mint).remote;
    assert At(m.remote, []) == Some(Folder);
    forall p | p in remote && p != []
      ensures At(remote, Parent(p)) == Some(Folder)
    {
      FlushAt(m, mint, p);
      assert CellAt(Flush(m, mint), p).remote == At(remote, p);
      if Dirty(CellAt(m, p)) {
        DirtyHeld(w, m, p);
      }
    }
  }

  lemma {:induction false} FlushIdle(m: Mirror, mint: Mint)
    requires Clean(m)
    ensures Pushing(m) == {} && Flush(m, mint) == m
  {
    forall p
      ensures !Modified(m, p)
    {
      assert !Dirty(CellAt(m, p));
    }
    assert Pushing(m) == {};
    assert Flush(m, mint).remote == m.remote && Flush(m, mint).files == m.files;
  }

  /** A flush tells the target every modified file and nothing else, and leaves nothing for a second
  one to push. */
  lemma {:induction false} FlushPushes(m: Mirror, mint: Mint, again: Mint)
    ensures forall p :: Modified(m, p) ==> At(Contents(Flush(m, mint).remote), p) == Some(Text(m.local[p].bytes))
    ensures forall p :: !Modified(m, p) ==> At(Flush(m, mint).remote, p) == At(m.remote, p)
    ensures Flush(m, mint).local == m.local
    ensures Pushing(Flush(m, mint)) == {} && Flush(Flush(m, mint), again) == Flush(m, mint)
  {
    FlushStands(m, mint);
    forall p
      ensures Modified(m, p) ==> At(Contents(Flush(m, mint).remote), p) == Some(Text(m.local[p].bytes))
      ensures !Modified(m, p) ==> At(Flush(m, mint).remote, p) == At(m.remote, p)
    {
      FlushAt(m, mint, p);
      assert CellAt(Flush(m, mint), p).remote == At(Flush(m, mint).remote, p);
      assert Modified(m, p) <==> Dirty(CellAt(m, p));
    }
    FlushCleans(m, mint);
    FlushIdle(Flush(m, mint), again);
  }

  lemma {:induction false} FlushCleans(m: Mirror, mint: Mint)
    ensures Clean(Flush(m, mint))
  {
    forall p
      ensures !Dirty(CellAt(Flush(m, mint), p))
    {
      FlushAt(m, mint, p);
    }
  }

  lemma {:induction false} CleanMinted(w: World, m: Mirror, mint: Mint)
    requires Clean(m)
    ensures Minted(w, m, mint)
  {
    forall p
      ensures !(p in m.dirty && Modified(m, p))
    {
      assert !Dirty(CellAt(m, p));
    }
  }

  /* ---- Where paths are ---- */

  /** Whether a path is below another, and what of it is just below. */
  predicate Under(d: Path, p: Path) {
    |p| > |d| && Covers(d, p)
  }

  function Branch(d: Path, p: Path): Path
    requires Under(d, p)
  {
    p[..|d| + 1]
  }

  lemma {:induction false} BranchIs(d: Path, p: Path)
    requires Under(d, p)
    ensures Branch(d, p) != [] && Parent(Branch(d, p)) == d && Covers(Branch(d, p), p)
    ensures Parent(p) == d <==> p == Branch(d, p)
    ensures p != Branch(d, p) ==> Under(d, Parent(p)) && Branch(d, Parent(p)) == Branch(d, p)
  {
  }

  lemma {:induction false} NotUnder(d: Path, p: Path)
    requires !Under(d, p)
    ensures p != [] ==> Parent(p) != d && !Under(d, Parent(p))
    ensures Covers(p, d) && p != [] ==> Covers(Parent(p), d)
  {
  }

  /** What stands in a tree stands in folders all the way. */
  lemma {:induction false} RootedAbove<T(!new)>(tree: map<Path, T>, folder: T, q: Path, p: Path)
    requires Rooted(tree, folder) && p in tree && Covers(q, p) && q != p
    ensures At(tree, q) == Some(folder)
    decreases |p|
  {
    var above := Parent(p);
    assert At(tree, above) == Some(folder);
    assert Covers(q, above);
    if q != above {
      RootedAbove(tree, folder, q, above);
    }
  }

  /** Of one folder's children, only one covers a path below it. */
  lemma {:induction false} ChildCovers(d: Path, roots: set<Path>, p: Path)
    requires forall q :: q in roots ==> q != [] && Parent(q) == d
    ensures CoveredBy(roots, p) <==> Under(d, p) && Branch(d, p) in roots
  {
    if CoveredBy(roots, p) {
      var root :| root in roots && Covers(root, p);
      assert |root| == |d| + 1 && root[..|d|] == d;
      assert p[..|d| + 1] == root;
    }
    if Under(d, p) && Branch(d, p) in roots {
      BranchIs(d, p);
      assert Covers(Branch(d, p), p);
    }
  }

  lemma {:induction false} MakeDirsAt(local: Tree, d: Path, p: Path)
    ensures At(MakeDirs(local, d), p) == if Covers(p, d) then Some(Folder) else At(local, p)
    decreases |d|
  {
    if d == [] {
      assert Covers(p, d) <==> p == [];
    } else {
      MakeDirsAt(local, Parent(d), p);
      assert Covers(p, d) <==> p == d || Covers(p, Parent(d));
    }
  }

  /* ---- Listing a folder ---- */

  /** What listing its folder makes of a path. */
  function Listed(c: Cell): Cell {
    match c.remote
    case None => Cell(None, None, if c.local.Some? then None else c.record, c.local.None? && c.candidate, true)
    case Some(Folder) => Cell(Some(Folder), c.remote, None, c.candidate, true)
    case Some(File(_, stamp)) =>
      if c.record.Some? && c.record.value.remote == stamp && Kept(c) then c.(current := true)
      else Cell(Some(Placeholder(c.remote.value)), c.remote, Some(Unfetched(stamp)), c.candidate, true)
  }

  /** A path below something that is no folder on the target: nothing there, and no more known than before. */
  predicate Cleared(c: Cell, c1: Cell) {
    && c1.local.None? && c1.remote.None? && c.remote.None? && !c1.current
    && (c1.record == c.record || c1.record.None?) && (c1.candidate ==> c.candidate)
  }

  lemma {:induction false} ClearedSound(w: World, p: Path, c: Cell, c1: Cell)
    requires Sound(w, p, c) && !Dirty(c) && Cleared(c, c1)
    ensures Sound(w, p, c1) && !Dirty(c1) && Truth(c1) == Truth(c)
  {
  }

  lemma {:induction false} ListedSound(w: World, p: Path, c: Cell)
    requires Standing(w) && Sound(w, p, c) && !Dirty(c)
    ensures Sound(w, p, Listed(c)) && !Dirty(Listed(c)) && Truth(Listed(c)) == Truth(c)
  {
    if IsFile(c.remote) && c.remote.value.stamp.size == 0 {
      assert |w.text(p, c.remote.value.stamp)| == 0;
      assert Zeros(0) == w.text(p, c.remote.value.stamp);
    }
  }

  /** The mirror of a folder the target has, with the folder listed. */
  ghost function ListedMirror(m: Mirror, d: Path): Mirror {
    var m1 := ApplyListing(m, d);
    m1.(dirs := m1.dirs[d := m1.gen])
  }

  /** What listing a folder does to one path, but for what is current. */
  ghost predicate ListsAt(m: Mirror, m1: Mirror, d: Path, p: Path) {
    && At(m1.remote, p) == At(m.remote, p)
    && if !Under(d, p) then
         At(m1.local, p) == (if Covers(p, d) then Some(Folder) else At(m.local, p))
         && At(m1.files, p) == At(m.files, p) && (p in m1.dirty <==> p in m.dirty)
       else if p == Branch(d, p) then
         Cell(At(m1.local, p), At(m1.remote, p), At(m1.files, p), p in m1.dirty, true) == Listed(CellAt(m, p))
       else if At(m.remote, Branch(d, p)) == Some(Folder) then
         At(m1.local, p) == At(m.local, p) && At(m1.files, p) == At(m.files, p) && (p in m1.dirty <==> p in m.dirty)
       else
         At(m1.local, p) == None && (At(m1.files, p) == At(m.files, p) || At(m1.files, p) == None)
         && (p in m1.dirty ==> p in m.dirty)
         && (At(m.remote, Branch(d, p)) != None ==> At(m1.files, p) == At(m.files, p))
  }

  lemma {:induction false} EntriesAt(m: Mirror, d: Path, p: Path)
    requires Rooted(m.local, Folder) && At(m.remote, d) == Some(Folder)
    ensures
      var m1 := ApplyEntries(m, Children(m.remote, d));
      && m1.remote == m.remote && m1.dirs == m.dirs && m1.gen == m.gen && m1.dirty == m.dirty
      && (!Under(d, p) ==> At(m1.local, p) == At(m.local, p) && At(m1.files, p) == At(m.files, p))
      && (Under(d, p) ==>
            if p == Branch(d, p) then
              if p in m.remote
              then Cell(At(m1.local, p), At(m1.remote, p), At(m1.files, p), p in m1.dirty, true) == Listed(CellAt(m, p))
              else At(m1.local, p) == At(m.local, p) && At(m1.files, p) == At(m.files, p)
            else
              At(m1.files, p) == At(m.files, p)
              && At(m1.local, p) == if Branch(d, p) in Stale(m, Children(m.remote, d)) then None else At(m.local, p))
  {
    var entries := Children(m.remote, d);
    var folders, stale := Folders(m, entries), Stale(m, entries);
    var m1 := ApplyEntries(m, entries);
    ChildCovers(d, stale, p);
    if Under(d, p) {
      BranchIs(d, p);
    }
    assert p in entries <==> p in m.remote && p != [] && Parent(p) == d;
    assert At(m1.local, p) == if p in folders + stale then Some(Placeholder(m.remote[p]))
                              else if CoveredBy(stale, p) then None else At(m.local, p);
    assert At(m1.files, p) == if p in stale then Some(Unfetched(StampOf(m.remote[p])))
                              else if p in folders then None else At(m.files, p);
  }

  lemma {:induction false} RemovedAt(m: Mirror, d: Path, p: Path)
    ensures
      var m1 := RemoveVanished(m, Vanished(m, d));
      var gone := Under(d, p) && Branch(d, p) in m.local && Branch(d, p) !in m.remote;
      && m1.remote == m.remote && m1.gen == m.gen
      && At(m1.local, p) == (if gone then None else At(m.local, p))
      && At(m1.files, p) == (if gone then None else At(m.files, p))
      && At(m1.dirs, p) == (if gone then None else At(m.dirs, p))
      && (p in m1.dirty <==> p in m.dirty && !gone)
  {
    var gone := Vanished(m, d);
    ChildCovers(d, gone, p);
    if Under(d, p) {
      BranchIs(d, p);
      assert Branch(d, p) in gone <==> Branch(d, p) in m.local && Branch(d, p) !in m.remote;
    }
  }

  lemma {:induction false} MadeRooted(m: Mirror, d: Path)
    requires Rooted(m.local, Folder) && !Blocked(m.local, d)
    ensures Rooted(MakeDirs(m.local, d), Folder)
  {
    var local := MakeDirs(m.local, d);
    MakeDirsAt(m.local, d, []);
    forall p | p in local && p != []
      ensures At(local, Parent(p)) == Some(Folder)
    {
      MakeDirsAt(m.local, d, p);
      MakeDirsAt(m.local, d, Parent(p));
      if !Under(d, p) {
        NotUnder(d, p);
      }
    }
  }

  /** Nothing is below a file. */
  lemma {:induction false} BelowFile(tree: Tree, q: Path, p: Path)
    requires Rooted(tree, Folder) && Covers(q, p) && q != p && At(tree, q) != Some(Folder)
    ensures p !in tree
  {
    if p in tree {
      RootedAbove(tree, Folder, q, p);
    }
  }

  lemma {:induction false} ListAt(m: Mirror, d: Path, p: Path)
    requires Rooted(m.local, Folder) && Rooted(m.remote, Folder) && At(m.remote, d) == Some(Folder)
             && !Blocked(m.local, d)
    ensures ListsAt(m, ApplyListing(m, d), d, p) && ApplyListing(m, d).gen == m.gen
    ensures
      var m1 := ApplyListing(m, d);
      At(m1.dirs, p) == At(m.dirs, p) || (At(m1.dirs, p) == None && Under(d, p) && At(m.remote, Branch(d, p)) == None)
  {
    hide ApplyEntries, RemoveVanished, Vanished, Blocked, MakeDirs, Stale;
    var m1 := m.(local := MakeDirs(m.local, d));
    var m2 := ApplyEntries(m1, Children(m1.remote, d));
    MadeRooted(m, d);
    MakeDirsAt(m.local, d, p);
    EntriesAt(m1, d, p);
    RemovedAt(m2, d, p);
    if Under(d, p) {
      BranchIs(d, p);
      var q := Branch(d, p);
      MakeDirsAt(m.local, d, q);
      EntriesAt(m1, d, q);
      assert Under(d, q) && Branch(d, q) == q;
      if p != q {
        BelowBranch(m1, d, q, p);
      } else {
        ChildAt(m, m1, d, p);
      }
    }
  }

  lemma {:induction false} ChildAt(m: Mirror, m1: Mirror, d: Path, p: Path)
    requires p != [] && m1 == m.(local := m1.local) && At(m1.local, p) == At(m.local, p)
    ensures CellAt(m1, p) == CellAt(m, p)
  {
  }

  /** Below what a listing finds: nothing here where the target has a file, or nothing. */
  lemma {:induction false} BelowBranch(m: Mirror, d: Path, q: Path, p: Path)
    requires Rooted(m.local, Folder) && Covers(q, p) && q != p && Parent(q) == d && q != []
    ensures At(m.local, q) == None ==> At(m.local, p) == None
    ensures IsFile(At(m.remote, q)) && q !in Stale(m, Children(m.remote, d)) ==> At(m.local, p) == None
    ensures At(m.remote, q) == Some(Folder) || At(m.remote, q) == None ==> q !in Stale(m, Children(m.remote, d))
  {
    if At(m.local, q) != Some(Folder) {
      BelowFile(m.local, q, p);
    }
    if IsFile(At(m.remote, q)) && q !in Stale(m, Children(m.remote, d)) {
      assert q in Children(m.remote, d);
      assert Intact(m, q);
    }
  }

  lemma {:induction false} ListingRooted(m: Mirror, m1: Mirror, d: Path)
    requires Rooted(m.local, Folder) && Rooted(m.remote, Folder) && At(m.remote, d) == Some(Folder)
    requires forall p :: ListsAt(m, m1, d, p)
    ensures Rooted(m1.local, Folder)
  {
    assert ListsAt(m, m1, d, []);
    forall p | p in m1.local && p != []
      ensures At(m1.local, Parent(p)) == Some(Folder)
    {
      var above := Parent(p);
      assert ListsAt(m, m1, d, p) && ListsAt(m, m1, d, above);
      if Under(d, p) {
        BranchIs(d, p);
        if p == Branch(d, p) {
          assert above == d && !Under(d, d) && Covers(d, d);
        } else {
          assert p in m.local;
          assert At(m.local, above) == Some(Folder);
          if above == Branch(d, p) {
            assert At(m.remote, above) == Some(Folder);
          }
        }
      } else {
        NotUnder(d, p);
      }
    }
  }

  /** What is current is not below anything that is no folder on the target. */
  lemma {:induction false} CurrentBelow(m: Mirror, d: Path, e: Path)
    requires Rooted(m.remote, Folder) && Listings(m) && Current(m, e) && Under(d, e)
    ensures At(m.remote, Branch(d, e)) == Some(Folder)
  {
    BranchIs(d, e);
    if e != Branch(d, e) {
      RootedAbove(m.remote, Folder, Branch(d, e), e);
    }
  }

  /** Listing a folder changes nothing a file system holds, and leaves current what was. */
  lemma {:induction false} ListKeeps(w: World, m: Mirror, d: Path)
    requires Inv(w, m) && Clean(m) && At(m.remote, d) == Some(Folder) && !Blocked(m.local, d)
    ensures
      var m1 := ListedMirror(m, d);
      && Inv(w, m1) && Same(m, m1) && Clean(m1) && m1.gen == m.gen && Current(m1, d)
      && (forall e :: Current(m, e) ==> Current(m1, e)) && (forall e :: Current(m1, e) ==> Current(m, e) || e == d)
      && m1.remote == m.remote && forall p :: ListsAt(m, m1, d, p)
  {
    hide Blocked, ApplyListing, Sound, Truth, Dirty, Listed, ListsAt;
    var m1 := ListedMirror(m, d);
    Unblocked(m.local, d);
    ListingStays(w, m, d);
    forall p
      ensures ListsAt(m, m1, d, p)
    {
      ListAt(m, d, p);
      ListsStill(m, ApplyListing(m, d), m1, d, p);
    }
    ListingRooted(m, m1, d);
    forall p
      ensures Sound(w, p, CellAt(m1, p)) && Truth(CellAt(m1, p)) == Truth(CellAt(m, p)) && !Dirty(CellAt(m1, p))
    {
      ListedCell(w, m, m1, d, p);
    }
    RemoteStays(m, m1, d);
    ListedListings(m, m1, d);
  }

  lemma {:induction false} Unblocked(local: Tree, d: Path)
    requires !Blocked(local, d)
    ensures forall i :: 0 <= i <= |d| ==> !IsFile(At(local, d[..i]))
  {
  }

  lemma {:induction false} ListsStill(m: Mirror, m1: Mirror, m2: Mirror, d: Path, p: Path)
    requires ListsAt(m, m1, d, p) && m2 == m1.(dirs := m2.dirs)
    ensures ListsAt(m, m2, d, p)
  {
  }

  lemma {:induction false} RemoteStays(m: Mirror, m1: Mirror, d: Path)
    requires forall p :: ListsAt(m, m1, d, p)
    ensures m1.remote == m.remote
  {
    forall p
      ensures At(m1.remote, p) == At(m.remote, p)
    {
      assert ListsAt(m, m1, d, p);
    }
    SameTables(m1.remote, m.remote);
  }

  lemma {:induction false} ListingStays(w: World, m: Mirror, d: Path)
    requires Inv(w, m) && At(m.remote, d) == Some(Folder) && !Blocked(m.local, d)
    ensures
      var m1 := ListedMirror(m, d);
      && m1.gen == m.gen && Current(m1, d) && (forall e :: Current(m, e) ==> Current(m1, e))
      && (forall e :: Current(m1, e) ==> Current(m, e) || e == d)
      && (forall e :: e in m1.dirs ==> e in m.dirs || e == d)
      && (forall e :: e in m1.dirs && e != d ==> m1.dirs[e] == m.dirs[e])
  {
    hide ApplyListing, Blocked, Sound, ListsAt;
    var m1 := ListedMirror(m, d);
    forall e
      ensures Current(m, e) ==> Current(m1, e)
      ensures At(m1.dirs, e) == At(m.dirs, e) || At(m1.dirs, e) == None || e == d
      ensures m1.gen == m.gen
    {
      ListAt(m, d, e);
      if Current(m, e) && Under(d, e) {
        CurrentBelow(m, d, e);
      }
      assert e != d ==> At(m1.dirs, e) == At(ApplyListing(m, d).dirs, e);
    }
    assert At(m1.dirs, d) == Some(m1.gen);
    forall e | e in m1.dirs && e != d
      ensures e in m.dirs && m1.dirs[e] == m.dirs[e]
    {
      assert At(m1.dirs, e) == At(m.dirs, e);
    }
  }

  lemma {:induction false} ListedListings(m: Mirror, m1: Mirror, d: Path)
    requires Listings(m) && Rooted(m.remote, Folder) && m1.gen == m.gen && m1.remote == m.remote
    requires At(m.remote, d) == Some(Folder)
    requires forall e :: e in m1.dirs ==> (e in m.dirs && m1.dirs[e] == m.dirs[e]) || (e == d && m1.dirs[e] == m1.gen)
    requires forall p :: ListsAt(m, m1, d, p)
    ensures Listings(m1)
  {
    hide Listed;
    forall e | e in m1.dirs && m1.dirs[e] == m1.gen
      ensures At(m1.local, e) == Some(Folder) && At(m1.remote, e) == Some(Folder)
    {
      assert ListsAt(m, m1, d, e);
      if e == d {
        assert !Under(d, d);
      } else {
        assert Current(m, e);
        if Under(d, e) {
          CurrentBelow(m, d, e);
          ListedFolder(CellAt(m, e));
        }
      }
    }
  }

  lemma {:induction false} ListedFolder(c: Cell)
    requires c.remote == Some(Folder)
    ensures Listed(c).local == Some(Folder)
  {
  }

  /** One path of a folder just listed. */
  lemma {:induction false} ListedCell(w: World, m: Mirror, m1: Mirror, d: Path, p: Path)
    requires Inv(w, m) && Clean(m) && ListsAt(m, m1, d, p) && At(m.remote, d) == Some(Folder) && Current(m1, d)
    requires (forall e :: Current(m, e) ==> Current(m1, e)) && (forall e :: Current(m1, e) ==> Current(m, e) || e == d)
    requires forall i :: 0 <= i <= |d| ==> !IsFile(At(m.local, d[..i]))
    ensures Sound(w, p, CellAt(m1, p)) && Truth(CellAt(m1, p)) == Truth(CellAt(m, p)) && !Dirty(CellAt(m1, p))
  {
    hide Sound, Truth, Dirty, Listed, Agrees, Rooted, Listings;
    var c, c1 := CellAt(m, p), CellAt(m1, p);
    assert Sound(w, p, c) && !Dirty(c);
    if !Under(d, p) {
      NotUnder(d, p);
      assert c1 == c.(local := c1.local);
      if Covers(p, d) {
        assert d[..|p|] == p;
        AboveFolder(m, p, d);
        FolderAbove(w, p, c, c1);
      } else {
        assert c1 == c;
      }
    } else {
      BranchIs(d, p);
      if p == Branch(d, p) {
        assert c1 == Listed(c);
        ListedSound(w, p, c);
      } else if At(m.remote, Branch(d, p)) == Some(Folder) {
        assert c1 == c;
      } else {
        NotCurrentBelow(m, m1, d, p);
        ClearedSound(w, p, c, c1);
      }
    }
  }

  lemma {:induction false} AboveFolder(m: Mirror, p: Path, d: Path)
    requires Rooted(m.remote, Folder) && At(m.remote, d) == Some(Folder) && Covers(p, d)
    ensures At(m.remote, p) == Some(Folder)
  {
    if p != d {
      RootedAbove(m.remote, Folder, p, d);
    }
  }

  /** A folder made here over nothing, which the target has. */
  lemma {:induction false} FolderAbove(w: World, p: Path, c: Cell, c1: Cell)
    requires Sound(w, p, c) && !IsFile(c.local) && c1 == c.(local := Some(Folder)) && c.remote == Some(Folder)
    ensures Sound(w, p, c1) && Truth(c1) == Truth(c) && !Dirty(c1)
  {
  }

  lemma {:induction false} NotCurrentBelow(m: Mirror, m1: Mirror, d: Path, p: Path)
    requires Rooted(m.remote, Folder) && Listings(m) && (forall e :: Current(m1, e) ==> Current(m, e) || e == d)
    requires Under(d, p) && p != Branch(d, p) && At(m.remote, Branch(d, p)) != Some(Folder)
    ensures !CellAt(m1, p).current && At(m.remote, p) == None
  {
    BranchIs(d, p);
    BelowFile(m.remote, Branch(d, p), p);
    if Current(m1, Parent(p)) {
      assert Parent(p) != d;
      CurrentBelow(m, d, Parent(p));
    }
  }

  /* ---- A folder the target does not have ---- */

  lemma {:induction false} ForgetAt(m: Mirror, root: Path, p: Path)
    ensures
      var m1 := Forget(m, root);
      && m1.local == m.local && m1.remote == m.remote && m1.gen == m.gen
      && At(m1.files, p) == (if Covers(root, p) then None else At(m.files, p))
      && At(m1.dirs, p) == (if Covers(root, p) then None else At(m.dirs, p))
      && (p in m1.dirty <==> p in m.dirty && !Covers(root, p))
  {
  }

  lemma {:induction false} WithoutAt<T>(tree: map<Path, T>, root: Path, p: Path)
    ensures At(Without(tree, root), p) == if Covers(root, p) then None else At(tree, p)
  {
  }

  lemma {:induction false} WithoutRooted(tree: Tree, root: Path)
    requires Rooted(tree, Folder) && root != []
    ensures Rooted(Without(tree, root), Folder)
  {
    var less := Without(tree, root);
    WithoutAt(tree, root, []);
    forall p | p in less && p != []
      ensures At(less, Parent(p)) == Some(Folder)
    {
      WithoutAt(tree, root, p);
      WithoutAt(tree, root, Parent(p));
    }
  }

  /** What is known of a path forgotten where there is nothing to be told; what is here stays, or goes with a
  folder the target does not have. */
  predicate Unknown(c: Cell, c1: Cell) {
    && c1.remote == c.remote && c1.record.None? && !c1.candidate
    && (c1.local == c.local || (c1.local.None? && !c1.current))
    && (c1.current ==> c.current)
  }

  lemma {:induction false} UnknownSound(w: World, p: Path, c: Cell, c1: Cell)
    requires Sound(w, p, c) && !Dirty(c) && Unknown(c, c1)
    ensures Sound(w, p, c1) && !Dirty(c1) && Truth(c1) == Truth(c)
  {
  }

  /** The same path, once its folder may no longer be current. */
  lemma {:induction false} LessCurrent(w: World, p: Path, c: Cell)
    requires Sound(w, p, c) && !Dirty(c)
    ensures Sound(w, p, c.(current := false)) && Truth(c.(current := false)) == Truth(c)
    ensures !Dirty(c.(current := false))
  {
  }

  /** What is known of a path and below it forgotten, with nothing to be told. */
  lemma {:induction false} ForgetKeeps(w: World, m: Mirror, root: Path)
    requires Inv(w, m) && Clean(m)
    ensures Inv(w, Forget(m, root)) && Same(m, Forget(m, root)) && Clean(Forget(m, root))
  {
    hide Sound, Truth, Dirty;
    var m1 := Forget(m, root);
    forall p
      ensures Sound(w, p, CellAt(m1, p)) && Truth(CellAt(m1, p)) == Truth(CellAt(m, p)) && !Dirty(CellAt(m1, p))
    {
      assert Sound(w, p, CellAt(m, p)) && !Dirty(CellAt(m, p));
      ForgetAt(m, root, p);
      var c, c1 := CellAt(m, p), CellAt(m1, p);
      assert c1.current ==> c.current;
      if Covers(root, p) {
        UnknownSound(w, p, c, c1);
      } else {
        LessCurrent(w, p, c);
        assert c1 == c || c1 == c.(current := false);
      }
    }
  }

  /** The mirror of a folder the target does not have, dropped: nothing a file system holds has changed. */
  lemma {:induction false} DropKeeps(w: World, m: Mirror, d: Path)
    requires Inv(w, m) && Clean(m) && At(m.remote, d) != Some(Folder)
    ensures
      var m1 := DropLocal(m, d);
      && Inv(w, m1) && Same(m, m1) && Clean(m1) && m1.gen == m.gen && !Current(m1, d) && At(m1.local, d) != Some(Folder)
      && (forall e :: Current(m, e) <==> Current(m1, e)) && d !in m1.files && m1.remote == m.remote
      && forall p :: Covers(d, p) ==> p !in m1.files
  {
    hide Sound, Truth, Dirty;
    var m1 := DropLocal(m, d);
    assert d != [];
    assert Covers(d, d);
    forall e
      ensures Current(m, e) <==> Current(m1, e)
    {
      if Current(m, e) && Covers(d, e) {
        AboveFolder(m, d, e);
      }
    }
    if At(m.local, d) == Some(Folder) {
      WithoutRooted(m.local, d);
    }
    forall p
      ensures Sound(w, p, CellAt(m1, p)) && Truth(CellAt(m1, p)) == Truth(CellAt(m, p)) && !Dirty(CellAt(m1, p))
    {
      DroppedCell(w, m, d, p);
    }
    DroppedListings(m, d);
  }

  lemma {:induction false} DroppedListings(m: Mirror, d: Path)
    requires Rooted(m.remote, Folder) && Listings(m) && At(m.remote, d) != Some(Folder)
    ensures Listings(DropLocal(m, d))
  {
    var m1 := DropLocal(m, d);
    forall e | e in m1.dirs && m1.dirs[e] == m1.gen
      ensures At(m1.local, e) == Some(Folder) && At(m1.remote, e) == Some(Folder)
    {
      assert !Covers(d, e);
    }
  }

  lemma {:induction false} DroppedCell(w: World, m: Mirror, d: Path, p: Path)
    requires Inv(w, m) && Clean(m) && At(m.remote, d) != Some(Folder)
    requires forall e :: Current(m, e) <==> Current(DropLocal(m, d), e)
    ensures
      var c, c1 := CellAt(m, p), CellAt(DropLocal(m, d), p);
      Sound(w, p, c1) && Truth(c1) == Truth(c) && !Dirty(c1)
  {
    hide Sound, Truth, Dirty;
    var c, c1 := CellAt(m, p), CellAt(DropLocal(m, d), p);
    assert Sound(w, p, c) && !Dirty(c);
    if !Covers(d, p) {
      assert c1 == c;
    } else {
      if At(m.local, d) == Some(Folder) {
        DroppedGone(w, m, d, p);
      }
      UnknownSound(w, p, c, c1);
    }
  }

  /** A folder here that the target does not have holds nothing current, and is not in one that is. */
  lemma {:induction false} DroppedGone(w: World, m: Mirror, d: Path, p: Path)
    requires Inv(w, m) && At(m.remote, d) != Some(Folder) && At(m.local, d) == Some(Folder) && Covers(d, p)
    ensures !CellAt(m, p).current
  {
    if p == d {
      assert Sound(w, d, CellAt(m, d));
    } else if Current(m, Parent(p)) {
      AboveFolder(m, d, Parent(p));
    }
  }

  /* ---- A folder made sure of ---- */

  /** Whether a listing is refused: the target has the folder, and a file is in its way here. */
  predicate Refuses(m: Mirror, d: Path) {
    !Current(m, d) && At(m.remote, d) == Some(Folder) && Blocked(m.local, d)
  }

  /** A folder listed, or found not to be one, or refused: nothing a file system holds has changed.  It is
  refused exactly where a file is in its way, and is current afterwards exactly where it is a folder and was
  not refused. */
  lemma {:induction false} EnsureKeeps(w: World, m: Mirror, d: Path, mint: Mint)
    requires Inv(w, m) && Minted(w, m, mint)
    ensures
      var (m1, ok) := EnsureDirectory(m, d, mint);
      && Inv(w, m1) && Same(m, m1) && Minted(w, m1, mint)
      && (ok <==> !Refuses(m, d))
      && (ok ==> (At(m.remote, d) == Some(Folder) <==> Current(m1, d)))
      && (forall e :: Current(m, e) ==> Current(m1, e))
      && (ok && At(m.remote, d) != Some(Folder) ==>
            At(m1.local, d) != Some(Folder) && forall p :: Covers(d, p) ==> p !in m1.files)
      && m1.gen == m.gen && (if Current(m, d) then m1 == m else Clean(m1))
      && (forall p :: At(m1.remote, p) == Some(Folder) <==> At(m.remote, p) == Some(Folder))
  {
    hide Flush, Sound, Truth, CellAt, Tells, Forget, Minted, Dirty, Blocked, ApplyListing, DropLocal, ListsAt, Rooted;
    if !Current(m, d) {
      FlushKeeps(w, m, mint);
      FlushStands(m, mint);
      var m1 := Flush(m, mint);
      if At(m1.remote, d) == Some(Folder) {
        if !Blocked(m1.local, d) {
          ListKeeps(w, m1, d);
        }
      } else {
        DropMarked(m1, d);
        DropKeeps(w, m1, d);
      }
      CleanMinted(w, EnsureDirectory(m, d, mint).0, mint);
    } else {
      CurrentFolder(w, m, d);
    }
  }

  lemma {:induction false} CurrentFolder(w: World, m: Mirror, d: Path)
    requires Inv(w, m) && Current(m, d)
    ensures At(m.remote, d) == Some(Folder) && At(m.local, d) == Some(Folder)
  {
  }

  /** What is dropped of a folder includes that it was looked at. */
  lemma {:induction false} DropMarked(m: Mirror, d: Path)
    ensures DropLocal(m.(dirs := m.dirs[d := m.gen]), d) == DropLocal(m, d)
  {
    assert Covers(d, d);
    assert Without(m.dirs[d := m.gen], d) == Without(m.dirs, d);
  }
}
