/** What the one shared file system does, call by call, as any file system would; and so what a tracee gets through
the mirror, wherever nothing goes wrong. */
module FileLaws {
  import opened Prelude
  import opened Disk
  import opened MirrorSpec
  import opened Mirrored
  import opened Renaming
  import opened Refining

  /** Whether something stands properly below a path. */
  ghost predicate Holds(fs: Shared, p: Path) {
    exists q :: q in fs && p <= q && q != p
  }

  /** One folder up is a folder. */
  predicate InFolder(fs: Shared, p: Path) {
    p != [] && p[..|p| - 1] in fs && fs[p[..|p| - 1]].Dir?
  }

  /** Everywhere but at one path, what there was. */
  ghost predicate OnlyAt(fs: Shared, fs1: Shared, p: Path) {
    forall q :: q != p ==> (q in fs1 <==> q in fs) && (q in fs ==> fs1[q] == fs[q])
  }

  lemma {:induction false} ChildrenHeld(fs: Shared, p: Path)
    requires Rooted(fs, Dir)
    ensures Children(fs, p) == {} <==> !Holds(fs, p)
  {
    if Holds(fs, p) {
      var q :| q in fs && p <= q && q != p;
      ChildBelow(fs, Dir, p, q);
    }
    if Children(fs, p) != {} {
      var q :| q in Children(fs, p);
      assert p <= q && q != p;
    }
  }

  /** An open is of a file that is there, or is made where it says so, in a folder: it finds the bytes there are, or
  none where there were none or it cuts them short, and leaves what the tracee makes of them, and nothing else is
  touched.  Any other is refused. */
  lemma {:induction false} OpenIs(fs: Shared, op: Op)
    requires op.Open?
    ensures
      var ((fs1, seen), p) := (Share(fs, op), op.path);
      if InFolder(fs, p) && (if p in fs then fs[p].Text? else op.creates) then
        var found := if p in fs && !op.truncates then fs[p].bytes else [];
        && seen == Content(found) && OnlyAt(fs, fs1, p) && p in fs1
        && fs1[p] == Text(if op.access == ReadOnly then found else op.edit(found))
      else seen == Refused && fs1 == fs
  {
  }

  lemma {:induction false} LookIs(fs: Shared, p: Path)
    ensures
      Share(fs, Look(p)) ==
      (fs, if p !in fs then Refused else match fs[p] case Dir => IsFolder case Text(bytes) => Size(|bytes|))
  {
  }

  /** A listing names just what stands one below a folder. */
  lemma {:induction false} ListIs(fs: Shared, d: Path)
    ensures
      var (fs1, seen) := Share(fs, List(d));
      && fs1 == fs && (seen.Names? <==> d in fs && fs[d].Dir?) && (!seen.Names? ==> seen == Refused)
      && (seen.Names? ==> forall p :: p in seen.names <==> p in fs && |p| == |d| + 1 && d <= p)
  {
    forall p
      ensures p in Children(fs, d) <==> p in fs && |p| == |d| + 1 && d <= p
    {
      assert p != [] ==> (Parent(p) == d <==> |p| == |d| + 1 && d <= p);
    }
  }

  /** A file that is there is removed, an empty folder that is there, and a folder is made where nothing is. */
  lemma {:induction false} RemoveIs(fs: Shared, op: Op)
    requires Rooted(fs, Dir) && Changes(op)
    ensures
      var ((fs1, seen), p) := (Share(fs, op), op.path);
      var may :=
        match op
        case Unlink(_) => p in fs && fs[p].Text?
        case RemoveDir(_) => p != [] && p in fs && fs[p].Dir? && !Holds(fs, p)
        case MakeDir(_) => p !in fs && InFolder(fs, p);
      if may then seen == Done && OnlyAt(fs, fs1, p) && (if op.MakeDir? then p in fs1 && fs1[p] == Dir else p !in fs1)
      else seen == Refused && fs1 == fs
  {
    ChildrenHeld(fs, op.path);
  }

  /** Whether rename() may rename one path to another: a file over a file or over nothing, a folder over nothing or
  over an empty folder but not into itself, and anything over itself, in a folder there is. */
  ghost predicate MayRename(fs: Shared, p: Path, t: Path) {
    && p != [] && p in fs && InFolder(fs, t)
    && (p == t
        || (fs[p].Text? && (t !in fs || fs[t].Text?))
        || (fs[p].Dir? && !(p <= t) && (t !in fs || (fs[t].Dir? && !Holds(fs, t)))))
  }

  /** What a rename leaves: at the target and below it just what the source held, nothing at the source, and
  elsewhere what there was; and where the two are one, everything as it was. */
  ghost predicate RenamesTo(fs: Shared, fs1: Shared, p: Path, t: Path) {
    if p == t then fs1 == fs
    else
      forall q ::
        At(fs1, q) == if t <= q then At(fs, p + q[|t|..]) else if p <= q then None else At(fs, q)
  }

  lemma {:induction false} RenameIs(fs: Shared, p: Path, t: Path)
    requires Rooted(fs, Dir)
    ensures
      var (fs1, seen) := Share(fs, Rename(p, t));
      if MayRename(fs, p, t) then seen == Done && RenamesTo(fs, fs1, p, t) else seen == Refused && fs1 == fs
  {
    hide Moved;
    ChildrenHeld(fs, t);
    MayIs(fs, p, t);
    if Movable(fs, Dir, p, t) && p != t {
      MovableApart(fs, Dir, p, t);
      forall q
        ensures At(Moved(fs, p, t), q) ==
                if t <= q then At(fs, p + q[|t|..]) else if p <= q then None else At(fs, q)
      {
        MovedFrom(fs, p, t, q);
      }
    }
  }

  lemma {:induction false} MayIs(fs: Shared, p: Path, t: Path)
    requires Rooted(fs, Dir) && (Children(fs, t) == {} <==> !Holds(fs, t))
    ensures MayRename(fs, p, t) <==> Movable(fs, Dir, p, t)
  {
    hide Children, Holds;
  }

  /* ---- Through the mirror ---- */

  /** Where no step goes wrong, a tracee is answered as a file system answers, and the target is left, with what is
  still to be pushed, as that would be. */
  lemma {:induction false} RenamedThrough(w: World, m: Mirror, fs: Shared, p: Path, t: Path, mint: Mint)
    requires Inv(w, m) && Stands(m, fs) && Fair(w, m, Rename(p, t), mint) && !Lost(m, fs, Rename(p, t), mint)
    ensures
      var (m1, seen) := Step(m, Rename(p, t), mint);
      && seen == (if MayRename(fs, p, t) then Done else Refused)
      && exists fs1 :: Stands(m1, fs1) && (if seen == Done then RenamesTo(fs, fs1, p, t) else fs1 == fs)
  {
    hide Inv, Stands, Fair, Lost, Step, MayRename, RenamesTo, Share;
    StepRefines(w, m, fs, Rename(p, t), mint);
    FsRooted(w, m, fs);
    RenameIs(fs, p, t);
    assert Stands(Step(m, Rename(p, t), mint).0, Share(fs, Rename(p, t)).0);
  }
}
