/** What a rename does to the tables a mirror keeps: keys moved, one to one, and none lost. */
module Renaming {
  import opened Prelude
  import opened Disk
  import opened MirrorSpec

  /** Neither path is the other or holds it. */
  predicate Apart(source: Path, target: Path) {
    !Covers(source, target) && !Covers(target, source)
  }

  lemma {:induction false} RebaseIs(source: Path, target: Path, p: Path, q: Path)
    requires Apart(source, target) && !Covers(target, p)
    ensures Rebase(source, target, p) == q <==>
              if Covers(target, q) then p == source + q[|target|..] else p == q && !Covers(source, p)
  {
    if Covers(source, p) {
      assert p == source + p[|source|..];
      assert (target + p[|source|..])[|target|..] == p[|source|..];
      assert Covers(target, target + p[|source|..]);
      if Covers(target, q) {
        assert q == target + q[|target|..];
        assert (source + q[|target|..])[|source|..] == q[|target|..];
      }
    }
  }

  lemma {:induction false} BelowApart(source: Path, target: Path, below: Path)
    requires Apart(source, target)
    ensures !Covers(target, source + below)
  {
    assert (source + below)[..|source|] == source;
    assert |target| <= |source| ==> (source + below)[..|target|] == source[..|target|];
  }

  /** Renaming drops what the target held and moves what the source holds to the same places
  under the target; everything else stays, and no two keys meet. */
  lemma {:induction false} RenameMovesRecords<T>(held: map<Path, T>, source: Path, target: Path)
    requires Apart(source, target)
    ensures forall q ::
              At(Moved(held, source, target), q) ==
              if Covers(target, q) then At(held, source + q[|target|..])
              else if Covers(source, q) then None
              else At(held, q)
    ensures |Moved(held, source, target)| == |Without(held, target)|
  {
    var kept, moved := Without(held, target), Moved(held, source, target);
    forall q
      ensures At(moved, q) == if Covers(target, q) then At(held, source + q[|target|..])
                              else if Covers(source, q) then None else At(held, q)
    {
      MovedFrom(held, source, target, q);
    }
    forall p | p in kept
      ensures Origin(source, target, Rebase(source, target, p)) == p
    {
      OriginOfRebased(source, target, p);
    }
    SameCount(kept.Keys, moved.Keys, p => Rebase(source, target, p), q => Origin(source, target, q));
  }

  lemma {:induction false} MovedFrom<T>(held: map<Path, T>, source: Path, target: Path, q: Path)
    requires Apart(source, target)
    ensures At(Moved(held, source, target), q) ==
            if Covers(target, q) then At(held, source + q[|target|..])
            else if Covers(source, q) then None
            else At(held, q)
  {
    var kept, moved := Without(held, target), Moved(held, source, target);
    var o := if Covers(target, q) then source + q[|target|..] else q;
    if Covers(target, q) {
      BelowApart(source, target, q[|target|..]);
    }
    assert !Covers(target, o);
    RebaseIs(source, target, o, q);
    if q in moved {
      var p :| p in kept && Rebase(source, target, p) == q;
      RebaseIs(source, target, p, q);
    }
    assert o in kept && Rebase(source, target, o) == q ==> q in moved;
  }

  /** As many of one as of the other. */
  lemma {:induction false} SameCount(a: set<Path>, b: set<Path>, to: Path -> Path, back: Path -> Path)
    requires forall p :: p in a ==> to(p) in b && back(to(p)) == p
    requires forall q :: q in b ==> exists p :: p in a && to(p) == q
    ensures |a| == |b|
    decreases a
  {
    if a == {} {
      assert b == {};
    } else {
      var p :| p in a;
      forall q | q in b - {to(p)}
        ensures exists p1 :: p1 in a - {p} && to(p1) == q
      {
        var p1 :| p1 in a && to(p1) == q;
      }
      SameCount(a - {p}, b - {to(p)}, to, back);
    }
  }

  /** The paths noted as written move the same way. */
  lemma {:induction false} RenameMovesNotes(m: Mirror, source: Path, target: Path)
    requires Apart(source, target)
    ensures forall q ::
              q in MoveRecords(m, source, target).dirty <==>
              if Covers(target, q) then source + q[|target|..] in m.dirty
              else !Covers(source, q) && q in m.dirty
  {
    forall q
      ensures q in MoveRecords(m, source, target).dirty <==>
              if Covers(target, q) then source + q[|target|..] in m.dirty
              else !Covers(source, q) && q in m.dirty
    {
      var o := if Covers(target, q) then source + q[|target|..] else q;
      if Covers(target, q) {
        BelowApart(source, target, q[|target|..]);
      }
      RebaseIs(source, target, o, q);
      if q in MoveRecords(m, source, target).dirty {
        var p :| p in m.dirty && !Covers(target, p) && Rebase(source, target, p) == q;
        RebaseIs(source, target, p, q);
      }
    }
  }

  /* ---- Trees ---- */

  /** Whatever is below a folder is below one of its children. */
  lemma {:induction false} ChildBelow<T(!new)>(tree: map<Path, T>, folder: T, d: Path, p: Path)
    requires Rooted(tree, folder) && p in tree && Covers(d, p) && p != d
    ensures Children(tree, d) != {}
    decreases |p|
  {
    if Parent(p) == d {
      assert p in Children(tree, d);
    } else {
      assert Covers(d, Parent(p));
      ChildBelow(tree, folder, d, Parent(p));
    }
  }

  /** Two paths one of which may be renamed to the other are apart, or the same. */
  lemma {:induction false} MovableApart<T(!new)>(tree: map<Path, T>, folder: T, source: Path, target: Path)
    requires Rooted(tree, folder) && Movable(tree, folder, source, target) && source != target
    ensures Apart(source, target)
  {
    if Covers(source, target) {
      assert Covers(source, Parent(target));
      FolderAbove(tree, folder, source, Parent(target));
    }
    if Covers(target, source) {
      ChildBelow(tree, folder, target, source);
      FolderAbove(tree, folder, target, Parent(source));
    }
  }

  lemma {:induction false} FolderAbove<T(!new)>(tree: map<Path, T>, folder: T, q: Path, p: Path)
    requires Rooted(tree, folder) && At(tree, p) == Some(folder) && Covers(q, p)
    ensures At(tree, q) == Some(folder)
    decreases |p|
  {
    if q != p {
      assert Covers(q, Parent(p));
      FolderAbove(tree, folder, q, Parent(p));
    }
  }

  /** The folder of what was moved is where the folder it was in has been moved. */
  lemma {:induction false} ParentMoved(source: Path, target: Path, q: Path)
    requires Covers(target, q) && q != target
    ensures Covers(target, Parent(q)) && source + Parent(q)[|target|..] == Parent(source + q[|target|..])
    ensures source + q[|target|..] != source && Covers(source, source + q[|target|..])
  {
  }

  /** The folder of what is outside both is outside both. */
  lemma {:induction false} ParentOutside(root: Path, q: Path)
    requires q != [] && !Covers(root, q)
    ensures !Covers(root, Parent(q))
  {
  }

  lemma {:induction false} RenamedRooted<T(!new)>(tree: map<Path, T>, folder: T, source: Path, target: Path)
    requires Rooted(tree, folder) && Movable(tree, folder, source, target)
    ensures Rooted(Renamed(tree, source, target), folder)
  {
    hide Moved, Movable;
    if source != target {
      MovableApart(tree, folder, source, target);
      RenameMovesRecords(tree, source, target);
      var moved := Moved(tree, source, target);
      assert At(moved, []) == Some(folder) by {
        RootStays(tree, folder, source, target);
      }
      forall p | p in moved && p != []
        ensures At(moved, Parent(p)) == Some(folder)
      {
        MovedParent(tree, folder, source, target, p);
      }
    }
  }

  lemma {:induction false} RootStays<T(!new)>(tree: map<Path, T>, folder: T, source: Path, target: Path)
    requires Rooted(tree, folder) && Movable(tree, folder, source, target)
    ensures !Covers(source, []) && !Covers(target, [])
  {
  }

  lemma {:induction false} MovedParent<T(!new)>(tree: map<Path, T>, folder: T, source: Path, target: Path, p: Path)
    requires Rooted(tree, folder) && Movable(tree, folder, source, target) && Apart(source, target)
    requires p in Moved(tree, source, target) && p != []
    ensures At(Moved(tree, source, target), Parent(p)) == Some(folder)
  {
    hide Moved;
    var moved, above := Moved(tree, source, target), Parent(p);
    MovedFrom(tree, source, target, p);
    MovedFrom(tree, source, target, above);
    if Covers(target, p) && p != target {
      ParentMoved(source, target, p);
    } else if p == target {
      ParentOfEnd(source, target);
    } else {
      ParentOutside(target, p);
      ParentOutside(source, p);
    }
  }

  /** What holds the place something is moved to is neither moved nor replaced. */
  lemma {:induction false} ParentOfEnd(source: Path, target: Path)
    requires Apart(source, target)
    ensures target != [] && !Covers(target, Parent(target)) && !Covers(source, Parent(target))
  {
    assert Covers(source, Parent(target)) ==> Covers(source, target);
  }
}
