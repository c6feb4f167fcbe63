/** Paths, trees of files and folders, and the one shared file system a tracee should believe it is on. */
module Disk {
  import opened Prelude

  /** A path's components, below the root of the layout it is in. */
  type Path = seq<Name>

  /** What a size and a modification time are compared by. */
  datatype Stamp = Stamp(size: nat, mtime: int)

  /** What stands at a path. */
  datatype Item = Folder | File(bytes: Bytes, stamp: Stamp)

  type Tree = map<Path, Item>

  /** What a file at one path holds whenever it has one stamp. */
  datatype World = World(text: (Path, Stamp) -> Bytes)

  function Parent(p: Path): Path {
    if p == [] then [] else p[..|p| - 1]
  }

  /** Whether a path is another or anything below it. */
  predicate Covers(root: Path, p: Path) {
    root <= p
  }

  function Zeros(n: nat): (zeros: Bytes)
    ensures |zeros| == n
  {
    seq(n, _ => 0)
  }

  /* ---- Trees, of whatever their folders are ---- */

  /** A tree has its root, and everything in it stands in a folder. */
  ghost predicate Rooted<T(!new)>(tree: map<Path, T>, folder: T) {
    At(tree, []) == Some(folder) && forall p :: p in tree && p != [] ==> At(tree, Parent(p)) == Some(folder)
  }

  /** Whether a file can stand at a path. */
  predicate CanHold<T(==)>(tree: map<Path, T>, folder: T, p: Path) {
    p != [] && At(tree, Parent(p)) == Some(folder) && At(tree, p) != Some(folder)
  }

  function Children<T>(tree: map<Path, T>, d: Path): set<Path> {
    set p | p in tree && p != [] && Parent(p) == d
  }

  /** Whether one path may be renamed to another: a file onto no folder, a folder onto nothing but an empty
  one and not into itself, and anything onto itself. */
  predicate Movable<T(==)>(tree: map<Path, T>, folder: T, source: Path, target: Path) {
    && source != [] && target != [] && source in tree && At(tree, Parent(target)) == Some(folder)
    && (source == target
        || if tree[source] == folder
           then !Covers(source, target) && (target in tree ==> tree[target] == folder && Children(tree, target) == {})
           else At(tree, target) != Some(folder))
  }

  function Without<T>(held: map<Path, T>, root: Path): map<Path, T> {
    held - set p | p in held && Covers(root, p)
  }

  function Rebase(source: Path, target: Path, p: Path): Path {
    if Covers(source, p) then target + p[|source|..] else p
  }

  /** Where what has been moved to a path was before. */
  function Origin(source: Path, target: Path, q: Path): Path {
    if Covers(target, q) then source + q[|target|..] else q
  }

  lemma {:induction false} OriginOfRebased(source: Path, target: Path, p: Path)
    requires !Covers(target, p)
    ensures Origin(source, target, Rebase(source, target, p)) == p
  {
    if Covers(source, p) {
      assert (target + p[|source|..])[|target|..] == p[|source|..];
      assert source + p[|source|..] == p;
    }
  }

  /** A table with the keys under one path moved to the same places under another, over whatever
  was there. */
  ghost function Moved<T>(held: map<Path, T>, source: Path, target: Path): map<Path, T> {
    var kept := Without(held, target);
    assert forall p :: p in kept ==> Origin(source, target, Rebase(source, target, p)) == p by {
      forall p | p in kept
        ensures Origin(source, target, Rebase(source, target, p)) == p
      {
        OriginOfRebased(source, target, p);
      }
    }
    Build((set p | p in kept :: Rebase(source, target, p)),
          q requires Origin(source, target, q) in kept => kept[Origin(source, target, q)])
  }

  /** A rename of anything onto itself does nothing. */
  ghost function Renamed<T>(tree: map<Path, T>, source: Path, target: Path): map<Path, T> {
    if source == target then tree else Moved(tree, source, target)
  }

  /* ---- One shared file system ---- */

  datatype Thing = Dir | Text(bytes: Bytes)

  type Shared = map<Path, Thing>

  datatype Access = ReadOnly | WriteOnly | ReadWrite

  /** What a tracee does.  `edit` is what it makes of the content it finds, where it opened the
  file to write; `mtime` is what the kernel stamps the file with. */
  datatype Op =
    | Open(path: Path, access: Access, creates: bool, truncates: bool, edit: Bytes -> Bytes, mtime: int)
    | Look(path: Path)
    | List(path: Path)
    | Unlink(path: Path)
    | MakeDir(path: Path)
    | RemoveDir(path: Path)
    | Rename(path: Path, target: Path)
    | Command(change: Shared -> Shared, stamps: Path -> Stamp)

  datatype Seen =
    | Refused
    | Done
    | Content(bytes: Bytes)
    | Size(size: nat)
    | IsFolder
    | Names(names: set<Path>)

  /** What an open finds, and what it leaves. */
  function Found(op: Op, content: Option<Bytes>): Bytes
    requires op.Open?
  {
    if content.None? || op.truncates then [] else content.value
  }

  function Left(op: Op, content: Option<Bytes>): Bytes
    requires op.Open?
  {
    if op.access.ReadOnly? then Found(op, content) else op.edit(Found(op, content))
  }

  function TextAt(fs: Shared, p: Path): Option<Bytes> {
    if p in fs && fs[p].Text? then Some(fs[p].bytes) else None
  }

  /** One step on one file system everything shares. */
  ghost function Share(fs: Shared, op: Op): (Shared, Seen) {
    match op
    case Open(p, _, creates, _, _, _) =>
      if !CanHold(fs, Dir, p) || (p !in fs && !creates) then (fs, Refused)
      else (fs[p := Text(Left(op, TextAt(fs, p)))], Content(Found(op, TextAt(fs, p))))
    case Look(p) =>
      (fs, if p !in fs then Refused else if fs[p].Dir? then IsFolder else Size(|fs[p].bytes|))
    case List(d) => (fs, if At(fs, d) == Some(Dir) then Names(Children(fs, d)) else Refused)
    case Unlink(p) => if p in fs && fs[p].Text? then (fs - {p}, Done) else (fs, Refused)
    case MakeDir(p) => if CanHold(fs, Dir, p) && p !in fs then (fs[p := Dir], Done) else (fs, Refused)
    case RemoveDir(p) =>
      if p != [] && At(fs, p) == Some(Dir) && Children(fs, p) == {} then (fs - {p}, Done) else (fs, Refused)
    case Rename(p, t) => if Movable(fs, Dir, p, t) then (Renamed(fs, p, t), Done) else (fs, Refused)
    case Command(change, _) => (change(fs), Done)
  }
}
