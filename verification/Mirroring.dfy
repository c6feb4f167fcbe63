/** The mirror as it works in place, and the handlers that drive it: each call leaves the tables and
the two disks exactly as the function of the same step says, and answers false where the source raises. */
module Mirroring {
  import opened Prelude
  import opened Disk
  import opened MirrorSpec

  /** `local` and `remote` are the two disks: what the kernel and the target answer from. */
  class ShadowTree {
    var local: Tree
    var remote: Tree
    var files: map<Path, Record>
    var dirs: map<Path, nat>
    var dirty: set<Path>
    var gen: nat

    constructor (remote: Tree)
      ensures State() == Mirror(map[[] := Folder], remote, map[], map[], {}, 0)
    {
      this.remote := remote;
      local, files, dirs, dirty, gen := map[[] := Folder], map[], map[], {}, 0;
    }

    function State(): Mirror
      reads this
    {
      Mirror(local, remote, files, dirs, dirty, gen)
    }

    /* ---- The tree ---- */

    method Invalidate()
      modifies this
      ensures State() == old(State()).(gen := old(gen) + 1)
    {
      gen := gen + 1;
    }

    method EnsurePath(p: Path, mint: Mint) returns (ok: bool)
      modifies this
      ensures (State(), ok) == MirrorSpec.EnsurePath(old(State()), p, mint)
    {
      if p == [] {
        return true;
      }
      ok := EnsureDirectory(Parent(p), mint);
    }

    method EnsureDirectory(d: Path, mint: Mint) returns (ok: bool)
      modifies this
      ensures (State(), ok) == MirrorSpec.EnsureDirectory(old(State()), d, mint)
    {
      if d in dirs && dirs[d] == gen {
        return true;
      }
      var _ := Flush(mint);
      if At(remote, d) != Some(Folder) {
        dirs := dirs[d := gen];
        DropLocal(d);
        return true;
      }
      ok := ApplyListing(d);
      if ok {
        dirs := dirs[d := gen];
      }
    }

    method EnsureContent(p: Path, mint: Mint) returns (ok: bool)
      modifies this
      ensures (State(), ok) == MirrorSpec.EnsureContent(old(State()), p, mint)
    {
      ok := EnsurePath(p, mint);
      if !ok || p !in files || files[p].present {
        return;
      }
      if !Fetchable(local, Folder, p) {
        return false;
      }
      local := local - {Scratch(p)};
      if p !in remote || !remote[p].File? || At(local, p) == Some(Folder) {
        return false;
      }
      local := local[p := remote[p]];
      files := files[p := Record(remote[p].stamp, true, local[p].stamp)];
    }

    method NoteWrite(p: Path)
      modifies this
      ensures State() == MirrorSpec.NoteWrite(old(State()), p)
    {
      dirty := dirty + {p};
    }

    method Forget(root: Path)
      modifies this
      ensures State() == MirrorSpec.Forget(old(State()), root)
    {
      files := Without(files, root);
      dirs := Without(dirs, root);
      dirty := set p | p in dirty && !Covers(root, p);
    }

    method DropLocal(d: Path)
      modifies this
      ensures State() == MirrorSpec.DropLocal(old(State()), d)
    {
      if At(local, d) == Some(Folder) {
        local := Without(local, d);
      }
      Forget(d);
    }

    /** Cached state carried across a rename: the target's forgotten, then the source's re-rooted. */
    method Rename(source: Path, target: Path)
      modifies this
      ensures State() == MoveRecords(old(State()), source, target)
    {
      Forget(target);
      assert Without(files, target) == files && Without(dirs, target) == dirs;
      files := Reroot(files, source, target);
      dirs := Reroot(dirs, source, target);
      dirty := set p | p in dirty :: Rebase(source, target, p);
    }

    method Flush(mint: Mint) returns (pushed: nat)
      modifies this
      ensures State() == MirrorSpec.Flush(old(State()), mint) && pushed == |Pushing(old(State()))|
    {
      hide PushAll, Pushing, AllFiles, HandedRecords, Handed;
      ghost var m := State();
      pushed := 0;
      var remaining := dirty;
      ghost var all := Pushing(m);
      PushNone(m, mint);
      PushingFiles(m);
      assert all - remaining == {};
      SomeFiles(m.local, all, all - remaining);
      while remaining != {}
        invariant AllFiles(m.local, all - remaining)
        invariant State() == PushAll(m, all - remaining, mint) && pushed == |all - remaining|
        invariant remaining <= m.dirty
      {
        var p :| p in remaining;
        DoneMore(all, remaining, p);
        PushedAt(m, all - remaining, mint, p);
        SomeFiles(m.local, all, all - (remaining - {p}));
        if p in local && local[p].File? && (p !in files || files[p].local != local[p].stamp) {
          PushedOne(m, all - remaining, mint, p);
          Push(p, mint(p));
          pushed := pushed + 1;
        }
        remaining := remaining - {p};
      }
      assert all - {} == all;
    }

    method Push(p: Path, stamp: Stamp)
      requires p in local && local[p].File?
      modifies this
      ensures State() == old(State()).(remote := old(remote)[p := File(old(local)[p].bytes, stamp)],
                                       files := old(files)[p := Record(stamp, true, old(local)[p].stamp)])
    {
      remote := remote[p := File(local[p].bytes, stamp)];
      files := files[p := Record(stamp, true, local[p].stamp)];
    }

    /** A listing applied, unless a file is in the way of the folder. */
    method ApplyListing(d: Path) returns (ok: bool)
      modifies this
      ensures ok == !Blocked(old(local), d)
      ensures State() == if ok then MirrorSpec.ApplyListing(old(State()), d) else old(State())
    {
      if Blocked(local, d) {
        return false;
      }
      hide ApplyEntries, RemoveVanished, Vanished, Blocked, MakeDirs;
      local := MakeDirs(local, d);
      ApplyAll(d);
      SweepVanished(d);
      return true;
    }

    /** Every entry of a listing, in whatever order. */
    method ApplyAll(d: Path)
      modifies this
      ensures State() == ApplyEntries(old(State()), Children(old(remote), d))
    {
      hide ApplyEntries;
      ghost var m := State();
      var remaining := Children(remote, d);
      ghost var entries := remaining;
      ApplyNone(m);
      assert entries - remaining == {};
      while remaining != {}
        invariant remaining <= entries && entries - remaining <= m.remote.Keys
        invariant State() == ApplyEntries(m, entries - remaining)
      {
        var p :| p in remaining;
        AppliedOne(m, entries - remaining, p, d);
        ApplyEntry(p);
        assert entries - (remaining - {p}) == entries - remaining + {p};
        remaining := remaining - {p};
      }
      assert entries - {} == entries;
    }

    /** One entry of a listing. */
    method ApplyEntry(p: Path)
      requires p in remote
      modifies this
      ensures State() == ApplyEntries(old(State()), {p})
    {
      if remote[p].Folder? {
        ApplyDir(p);
      } else {
        ApplyFile(p);
      }
    }

    /** A folder takes the place of a file, and its record says nothing that is read. */
    method ApplyDir(p: Path)
      requires p in remote && remote[p].Folder?
      modifies this
      ensures State() == ApplyEntries(old(State()), {p})
    {
      AppliedDir(State(), p);
      local := local[p := Folder];
      files := files - {p};
    }

    /** A file takes the place of a folder, and of all that is in it. */
    method ApplyFile(p: Path)
      requires p in remote && remote[p].File?
      modifies this
      ensures State() == ApplyEntries(old(State()), {p})
    {
      AppliedFile(State(), p);
      var stamp := remote[p].stamp;
      if p in files && files[p].remote == stamp && p in local && local[p].File? && local[p].stamp == files[p].local {
        return;
      }
      local := Without(local, p)[p := Placeholder(remote[p])];
      files := files[p := Unfetched(stamp)];
    }

    method SweepVanished(d: Path)
      modifies this
      ensures State() == RemoveVanished(old(State()), Vanished(old(State()), d))
    {
      ghost var m := State();
      var remaining := Vanished(State(), d);
      ghost var gone := remaining;
      SweptNone(m);
      assert gone - remaining == {};
      while remaining != {}
        invariant remaining <= gone
        invariant State() == RemoveVanished(m, gone - remaining)
      {
        var p :| p in remaining;
        SweptOne(m, gone - remaining, p);
        local := Without(local, p);
        Forget(p);
        assert gone - (remaining - {p}) == gone - remaining + {p};
        remaining := remaining - {p};
      }
      assert gone - {} == gone;
    }

    /* ---- The handlers, and what the tracee then does ---- */

    method PrepareOpen(op: Op, mint: Mint) returns (ok: bool)
      requires op.Open?
      modifies this
      ensures (State(), ok) == MirrorSpec.PrepareOpen(old(State()), op, mint)
    {
      hide MirrorSpec.EnsureDirectory;
      ok := EnsurePath(op.path, mint);
      if !ok {
        return;
      }
      var writable := !op.access.ReadOnly? || op.creates;
      if !(op.truncates && op.access.WriteOnly?) {
        ok := EnsureContent(op.path, mint);
        if !ok {
          return;
        }
      }
      if writable {
        NoteWrite(op.path);
      }
    }

    method Open(op: Op, mint: Mint) returns (seen: Seen)
      requires op.Open?
      modifies this
      ensures (State(), seen) == Step(old(State()), op, mint)
    {
      hide MirrorSpec.PrepareOpen;
      var ok := PrepareOpen(op, mint);
      var p := op.path;
      if !ok || !CanHold(local, Folder, p) || (p !in local && !op.creates) {
        return Refused;
      }
      var content := BytesOf(At(local, p));
      if Writes(op, p in local) {
        local := local[p := Leaves(op, content)];
      }
      return Content(Found(op, content));
    }

    method Look(p: Path, mint: Mint) returns (seen: Seen)
      modifies this
      ensures (State(), seen) == Step(old(State()), Op.Look(p), mint)
    {
      hide MirrorSpec.EnsureDirectory;
      var ok := EnsurePath(p, mint);
      return if ok then Looked(local, p) else Refused;
    }

    method List(d: Path, mint: Mint) returns (seen: Seen)
      modifies this
      ensures (State(), seen) == Step(old(State()), Op.List(d), mint)
    {
      hide MirrorSpec.EnsureDirectory;
      var ok := EnsurePath(d, mint);
      if ok {
        ok := EnsureDirectory(d, mint);
      }
      return if ok then Listing(local, d) else Refused;
    }

    method Remove(p: Path, isDir: bool, mint: Mint) returns (seen: Seen)
      modifies this
      ensures (State(), seen) == Step(old(State()), if isDir then RemoveDir(p) else Unlink(p), mint)
    {
      hide MirrorSpec.EnsureDirectory, MirrorSpec.Flush;
      var ok := EnsurePath(p, mint);
      if !ok {
        return Refused;
      }
      var _ := Flush(mint);
      if if isDir then !Removable(remote, p) else !IsFile(At(remote, p)) {
        return Refused;
      }
      remote := remote - {p};
      Forget(p);
      if if isDir then !Removable(local, p) else !IsFile(At(local, p)) {
        return Refused;
      }
      local := local - {p};
      return Done;
    }

    method MakeDir(p: Path, mint: Mint) returns (seen: Seen)
      modifies this
      ensures (State(), seen) == Step(old(State()), Op.MakeDir(p), mint)
    {
      hide MirrorSpec.EnsureDirectory, MirrorSpec.Flush;
      var ok := EnsurePath(p, mint);
      if !ok {
        return Refused;
      }
      var _ := Flush(mint);
      if !CanHold(remote, Folder, p) || p in remote {
        return Refused;
      }
      remote := remote[p := Folder];
      if !CanHold(local, Folder, p) || p in local {
        return Refused;
      }
      local := local[p := Folder];
      return Done;
    }

    method Relate(p: Path, t: Path, mint: Mint) returns (seen: Seen)
      modifies this
      ensures (State(), seen) == Step(old(State()), Op.Rename(p, t), mint)
    {
      hide MirrorSpec.EnsureDirectory, MirrorSpec.Flush, Movable;
      var ok := EnsurePath(p, mint);
      if ok {
        ok := EnsurePath(t, mint);
      }
      if !ok {
        return Refused;
      }
      var _ := Flush(mint);
      if !Movable(remote, Folder, p, t) {
        return Refused;
      }
      remote := Carried(remote, p, t);
      Rename(p, t);
      if !Movable(local, Folder, p, t) {
        return Refused;
      }
      local := Carried(local, p, t);
      return Done;
    }

    method Run(change: Shared -> Shared, stamps: Path -> Stamp, mint: Mint) returns (seen: Seen)
      modifies this
      ensures (State(), seen) == Step(old(State()), Command(change, stamps), mint)
    {
      hide MirrorSpec.Flush;
      var _ := Flush(mint);
      var contents := Everything(remote);
      remote := Leftover(change(contents), stamps);
      Invalidate();
      return Done;
    }
  }

  /** What a command is handed, and what it leaves. */
  method Everything(tree: Tree) returns (fs: Shared)
    ensures fs == Contents(tree)
  {
    fs := Tabulate(tree.Keys, p requires p in tree => Shown(tree[p]));
    assert fs == Contents(tree);
  }

  method Leftover(made: Shared, stamps: Path -> Stamp) returns (tree: Tree)
    ensures tree == Made(made, stamps)
  {
    tree := Tabulate(made.Keys, p requires p in made => Stamped(made[p], stamps(p)));
    assert tree == Made(made, stamps);
  }

  lemma {:induction false} PushingFiles(m: Mirror)
    ensures Pushing(m) <= m.dirty && AllFiles(m.local, Pushing(m))
  {
  }

  lemma {:induction false} SomeFiles(tree: Tree, all: set<Path>, some: set<Path>)
    requires AllFiles(tree, all) && some <= all
    ensures AllFiles(tree, some)
  {
  }

  /** What is done once one more has been gone through. */
  lemma {:induction false} DoneMore(all: set<Path>, remaining: set<Path>, p: Path)
    requires p in remaining
    ensures all - (remaining - {p}) == if p in all then all - remaining + {p} else all - remaining
    ensures p in all ==> |all - (remaining - {p})| == |all - remaining| + 1
  {
  }

  lemma {:induction false} PushNone(m: Mirror, mint: Mint)
    ensures PushAll(m, {}, mint) == m
  {
    assert PushAll(m, {}, mint).remote == m.remote && PushAll(m, {}, mint).files == m.files;
  }

  /** What a flush part of the way has done to one path it has still to come to. */
  lemma {:induction false} PushedAt(m: Mirror, done: set<Path>, mint: Mint, p: Path)
    requires AllFiles(m.local, done) && p !in done && p in m.dirty
    ensures
      var m1 := PushAll(m, done, mint);
      && At(m1.local, p) == At(m.local, p) && At(m1.files, p) == At(m.files, p) && m1.dirty == m.dirty
      && (p in Pushing(m) <==>
            p in m1.local && m1.local[p].File? && (p !in m1.files || m1.files[p].local != m1.local[p].stamp))
  {
  }

  lemma {:induction false} PushedOne(m: Mirror, done: set<Path>, mint: Mint, p: Path)
    requires AllFiles(m.local, done) && p in m.local && m.local[p].File?
    ensures
      var m1 := PushAll(m, done, mint);
      && p in m1.local
      && m1.(remote := m1.remote[p := File(m1.local[p].bytes, mint(p))],
             files := m1.files[p := Record(mint(p), true, m1.local[p].stamp)]) == PushAll(m, done + {p}, mint)
  {
    OneMore(m.remote, Handed(m.local, done, mint), Handed(m.local, done + {p}, mint), p);
    OneMore(m.files, HandedRecords(m.local, done, mint), HandedRecords(m.local, done + {p}, mint), p);
  }

  lemma {:induction false} OneMore<T>(held: map<Path, T>, some: map<Path, T>, more: map<Path, T>, p: Path)
    requires more.Keys == some.Keys + {p} && forall q :: q in some && q != p ==> more[q] == some[q]
    ensures held + more == (held + some)[p := more[p]]
  {
  }

  /** What some of a listing's entries make of one path. */
  lemma {:induction false} AppliedAt(m: Mirror, folders: set<Path>, stale: set<Path>, q: Path)
    requires folders + stale <= m.remote.Keys
    ensures
      var m1 := Apply(m, folders, stale);
      && At(m1.local, q) == (if q in folders + stale then Some(Placeholder(m.remote[q]))
                             else if CoveredBy(stale, q) then None else At(m.local, q))
      && At(m1.files, q) == (if q in stale then Some(Unfetched(StampOf(m.remote[q])))
                             else if q in folders then None else At(m.files, q))
      && m1.remote == m.remote && m1.dirs == m.dirs && m1.dirty == m.dirty && m1.gen == m.gen
  {
  }

  lemma {:induction false} ApplyNone(m: Mirror)
    ensures ApplyEntries(m, {}) == m
  {
    hide Apply;
    assert Folders(m, {}) == {} && Stale(m, {}) == {};
    NothingApplied(m);
  }

  lemma {:induction false} NothingApplied(m: Mirror)
    ensures Apply(m, {}, {}) == m
  {
    var m1 := Apply(m, {}, {});
    forall q
      ensures At(m1.local, q) == At(m.local, q) && At(m1.files, q) == At(m.files, q)
    {
      AppliedAt(m, {}, {}, q);
    }
    SameTables(m1.local, m.local);
    SameTables(m1.files, m.files);
  }

  /** One more entry of the same listing: the others say nothing of it. */
  lemma {:induction false} AppliedOne(m: Mirror, done: set<Path>, p: Path, d: Path)
    requires done <= m.remote.Keys && p in m.remote && p !in done && p != [] && Parent(p) == d
    requires forall q :: q in done ==> q != [] && Parent(q) == d
    ensures ApplyEntries(m, done).remote == m.remote
    ensures ApplyEntries(ApplyEntries(m, done), {p}) == ApplyEntries(m, done + {p})
  {
    hide Apply, Intact;
    var folders, stale := Folders(m, done), Stale(m, done);
    var m1 := ApplyEntries(m, done);
    forall q | q in done
      ensures !Covers(q, p) && |q| == |p|
    {
      Beside(q, p);
    }
    AppliedAt(m, folders, stale, p);
    IntactStill(m, m1, p);
    assert Folders(m, done + {p}) == folders + Folders(m, {p});
    assert Stale(m, done + {p}) == stale + Stale(m, {p});
    assert Folders(m1, {p}) == Folders(m, {p}) && Stale(m1, {p}) == Stale(m, {p});
    AppliedTwice(m, folders, stale, Folders(m, {p}), Stale(m, {p}), p);
  }

  lemma {:induction false} SameLength(p: Path, q: Path)
    requires |p| == |q|
    ensures Covers(p, q) <==> p == q
  {
    assert q[..|p|] == q;
  }

  lemma {:induction false} Beside(p: Path, q: Path)
    requires p != [] && q != [] && Parent(p) == Parent(q)
    ensures |p| == |q| && (Covers(p, q) <==> p == q)
  {
    assert |Parent(p)| == |p| - 1 && |Parent(q)| == |q| - 1;
    SameLength(p, q);
  }

  lemma {:induction false} IntactStill(m: Mirror, m1: Mirror, p: Path)
    requires m1.remote == m.remote && At(m1.local, p) == At(m.local, p) && At(m1.files, p) == At(m.files, p)
    ensures Intact(m1, p) <==> Intact(m, p)
  {
  }

  lemma {:induction false} AppliedTwice(m: Mirror, folders: set<Path>, stale: set<Path>, folder: set<Path>,
                                        file: set<Path>, p: Path)
    requires folders + stale <= m.remote.Keys && folder + file <= {p} && p in m.remote && p !in folders + stale
    requires folder * file == {} && folders * stale == {}
    requires forall q :: q in folders + stale ==> |q| == |p|
    ensures Apply(m, folders, stale).remote == m.remote
    ensures Apply(Apply(m, folders, stale), folder, file) == Apply(m, folders + folder, stale + file)
  {
    hide Apply;
    var m1 := Apply(m, folders, stale);
    AppliedAt(m, folders, stale, p);
    var a, b := Apply(m1, folder, file), Apply(m, folders + folder, stale + file);
    AppliedAt(m1, folder, file, p);
    AppliedAt(m, folders + folder, stale + file, p);
    forall q
      ensures At(a.local, q) == At(b.local, q) && At(a.files, q) == At(b.files, q)
    {
      AppliedOver(m, folders, stale, folder, file, p, q);
    }
    SameTables(a.local, b.local);
    SameTables(a.files, b.files);
  }

  lemma {:induction false} AppliedOver(m: Mirror, folders: set<Path>, stale: set<Path>, folder: set<Path>,
                                       file: set<Path>, p: Path, q: Path)
    requires folders + stale <= m.remote.Keys && folder + file <= {p} && p in m.remote && p !in folders + stale
    requires folder * file == {} && folders * stale == {} && Apply(m, folders, stale).remote == m.remote
    requires forall q :: q in folders + stale ==> |q| == |p|
    ensures
      var a, b := Apply(Apply(m, folders, stale), folder, file), Apply(m, folders + folder, stale + file);
      At(a.local, q) == At(b.local, q) && At(a.files, q) == At(b.files, q)
  {
    hide Apply;
    AppliedAt(m, folders, stale, q);
    AppliedAt(Apply(m, folders, stale), folder, file, q);
    AppliedAt(m, folders + folder, stale + file, q);
    CoveredMore(stale, file, q);
    if CoveredBy(file, q) && q in folders + stale {
      var root :| root in file && Covers(root, q);
      SameLength(root, q);
    }
  }

  lemma {:induction false} CoveredMore(some: set<Path>, more: set<Path>, q: Path)
    ensures CoveredBy(some + more, q) <==> CoveredBy(some, q) || CoveredBy(more, q)
  {
    if CoveredBy(some, q) {
      var root :| root in some && Covers(root, q);
      assert root in some + more;
    }
    if CoveredBy(more, q) {
      var root :| root in more && Covers(root, q);
      assert root in some + more;
    }
  }

  lemma {:induction false} CoveredByOne(p: Path, q: Path)
    ensures CoveredBy({p}, q) <==> Covers(p, q)
    ensures !CoveredBy({}, q)
  {
    assert p in {p};
  }

  lemma {:induction false} AppliedDir(m: Mirror, p: Path)
    requires p in m.remote && m.remote[p].Folder?
    ensures ApplyEntries(m, {p}) == m.(local := m.local[p := Folder], files := m.files - {p})
  {
    assert Folders(m, {p}) == {p} && Stale(m, {p}) == {};
    var a, b := ApplyEntries(m, {p}), m.(local := m.local[p := Folder], files := m.files - {p});
    forall q
      ensures At(a.local, q) == At(b.local, q) && At(a.files, q) == At(b.files, q)
    {
      AppliedAt(m, {p}, {}, q);
      CoveredByOne(p, q);
    }
    SameTables(a.local, b.local);
    SameTables(a.files, b.files);
  }

  lemma {:induction false} AppliedFile(m: Mirror, p: Path)
    requires p in m.remote && m.remote[p].File?
    ensures ApplyEntries(m, {p}) ==
            if Intact(m, p) then m
            else m.(local := Without(m.local, p)[p := Placeholder(m.remote[p])],
                    files := m.files[p := Unfetched(m.remote[p].stamp)])
  {
    hide Apply;
    assert Folders(m, {p}) == {};
    if Intact(m, p) {
      assert Stale(m, {p}) == {};
      NothingApplied(m);
    } else {
      assert Stale(m, {p}) == {p};
      var b := m.(local := Without(m.local, p)[p := Placeholder(m.remote[p])],
                  files := m.files[p := Unfetched(m.remote[p].stamp)]);
      var a := Apply(m, {}, {p});
      AppliedAt(m, {}, {p}, []);
      forall q
        ensures At(a.local, q) == At(b.local, q) && At(a.files, q) == At(b.files, q)
      {
        AppliedAt(m, {}, {p}, q);
        CoveredByOne(p, q);
      }
      SameTables(a.local, b.local);
      SameTables(a.files, b.files);
    }
  }

  /** The keys a rename moves, and what they are mapped to, in a new table. */
  method Reroot<T>(held: map<Path, T>, source: Path, target: Path) returns (moved: map<Path, T>)
    requires Without(held, target) == held
    ensures moved == Moved(held, source, target)
  {
    moved := map[];
    var remaining := held.Keys;
    while remaining != {}
      invariant remaining <= held.Keys
      invariant moved.Keys == set p | p in held.Keys - remaining :: Rebase(source, target, p)
      invariant forall q :: q in moved ==>
                  Origin(source, target, q) in held && moved[q] == held[Origin(source, target, q)]
    {
      var p :| p in remaining;
      assert !Covers(target, p);
      OriginOfRebased(source, target, p);
      moved, remaining := moved[Rebase(source, target, p) := held[p]], remaining - {p};
    }
  }

  /** A tree with what is at one path carried to another. */
  method Carried(tree: Tree, source: Path, target: Path) returns (carried: Tree)
    ensures carried == Renamed(tree, source, target)
  {
    if source == target {
      return tree;
    }
    var kept := Without(tree, target);
    WithoutAgain(tree, source, target);
    carried := Reroot(kept, source, target);
  }

  lemma {:induction false} WithoutAgain<T>(held: map<Path, T>, source: Path, target: Path)
    ensures Without(Without(held, target), target) == Without(held, target)
    ensures Moved(Without(held, target), source, target) == Moved(held, source, target)
  {
    var kept := Without(held, target);
    assert Without(kept, target) == kept;
    assert Moved(kept, source, target) == Moved(held, source, target);
  }

  lemma {:induction false} SweptNone(m: Mirror)
    ensures RemoveVanished(m, {}) == m
  {
    forall p
      ensures !CoveredBy({}, p)
    {
      CoveredByOne([], p);
    }
    var m1 := RemoveVanished(m, {});
    assert m1.local == m.local && m1.files == m.files && m1.dirs == m.dirs && m1.dirty == m.dirty;
  }

  /** One more of what vanished removed and forgotten. */
  lemma {:induction false} SweptOne(m: Mirror, gone: set<Path>, p: Path)
    ensures
      var m1 := RemoveVanished(m, gone);
      Forget(m1.(local := Without(m1.local, p)), p) == RemoveVanished(m, gone + {p})
  {
    hide CoveredBy;
    var m1 := RemoveVanished(m, gone);
    forall q
      ensures CoveredBy(gone + {p}, q) <==> CoveredBy(gone, q) || Covers(p, q)
    {
      CoveredMore(gone, {p}, q);
      CoveredByOne(p, q);
    }
    var a, b := Forget(m1.(local := Without(m1.local, p)), p), RemoveVanished(m, gone + {p});
    assert a.local == b.local && a.files == b.files && a.dirs == b.dirs && a.dirty == b.dirty;
  }
}
