/** The lazy mirror of a target: what each call on it does, as functions on its state.  Where a call of the source
raises, its function answers false. */
module MirrorSpec {
  import opened Prelude
  import opened Disk

  /** What was last known about one file: how the target stamped it, whether its content is here,
  and how it was stamped here. */
  datatype Record = Record(remote: Stamp, present: bool, local: Stamp)

  datatype Mirror = Mirror(
    local: Tree,
    remote: Tree,
    files: map<Path, Record>,
    dirs: map<Path, nat>,
    dirty: set<Path>,
    gen: nat)

  /** What the target stamps each file it is handed in one flush. */
  type Mint = Path -> Stamp

  predicate Current(m: Mirror, d: Path) {
    d in m.dirs && m.dirs[d] == m.gen
  }

  predicate IsFile(item: Option<Item>) {
    item.Some? && item.value.File?
  }

  /* ---- Pushing ---- */

  /** Whether a path may hold what the target has not been told. */
  predicate Modified(m: Mirror, p: Path) {
    p in m.dirty && p in m.local && m.local[p].File? && (p !in m.files || m.files[p].local != m.local[p].stamp)
  }

  function Pushing(m: Mirror): set<Path> {
    set p | p in m.dirty && Modified(m, p)
  }

  predicate AllFiles(tree: Tree, which: set<Path>) {
    forall p :: p in which ==> p in tree && tree[p].File?
  }

  /** What the target has of some files once it has been handed them, and what is then known. */
  ghost function Handed(local: Tree, which: set<Path>, mint: Mint): (remote: Tree)
    requires AllFiles(local, which)
    ensures remote.Keys == which && forall p :: p in which ==> remote[p] == File(local[p].bytes, mint(p))
  {
    Build(which, p requires p in local && local[p].File? => File(local[p].bytes, mint(p)))
  }

  ghost function HandedRecords(local: Tree, which: set<Path>, mint: Mint): (files: map<Path, Record>)
    requires AllFiles(local, which)
    ensures files.Keys == which && forall p :: p in which ==> files[p] == Record(mint(p), true, local[p].stamp)
  {
    Build(which, p requires p in local && local[p].File? => Record(mint(p), true, local[p].stamp))
  }

  ghost function PushAll(m: Mirror, which: set<Path>, mint: Mint): Mirror
    requires AllFiles(m.local, which)
  {
    m.(remote := m.remote + Handed(m.local, which, mint), files := m.files + HandedRecords(m.local, which, mint))
  }

  /** Everything modified pushed. */
  ghost function Flush(m: Mirror, mint: Mint): Mirror {
    PushAll(m, Pushing(m), mint)
  }

  /** Everything known about a path and what is below it, dropped. */
  function Forget(m: Mirror, root: Path): Mirror {
    m.(files := Without(m.files, root), dirs := Without(m.dirs, root),
       dirty := set p | p in m.dirty && !Covers(root, p))
  }

  /* ---- Listing a folder ---- */

  /** Whether a file is still as it was left on both sides. */
  predicate Intact(m: Mirror, p: Path) {
    && p in m.remote && m.remote[p].File? && p in m.files && m.files[p].remote == m.remote[p].stamp
    && p in m.local && m.local[p].File? && m.local[p].stamp == m.files[p].local
  }

  /** What there is locally in a folder that the target does not list. */
  function Vanished(m: Mirror, d: Path): set<Path> {
    Children(m.local, d) - m.remote.Keys
  }

  predicate CoveredBy(roots: set<Path>, p: Path) {
    exists root :: root in roots && Covers(root, p)
  }

  /** Some of a listing's entries: a folder stands where one is listed, and a file is kept where nothing has
  moved on either side, and otherwise made a placeholder, over a folder and all that is in it if need be. */
  ghost function ApplyEntries(m: Mirror, entries: set<Path>): Mirror
    requires entries <= m.remote.Keys
  {
    Apply(m, Folders(m, entries), Stale(m, entries))
  }

  function Folders(m: Mirror, entries: set<Path>): set<Path> {
    set p | p in entries && p in m.remote && m.remote[p].Folder?
  }

  function Stale(m: Mirror, entries: set<Path>): set<Path> {
    set p | p in entries && p in m.remote && m.remote[p].File? && !Intact(m, p)
  }

  ghost function Apply(m: Mirror, folders: set<Path>, stale: set<Path>): Mirror
    requires folders + stale <= m.remote.Keys
  {
    m.(local := (m.local - set p | p in m.local && CoveredBy(stale, p)) + Laid(m.remote, folders + stale),
       files := (m.files - folders) + Unknown(m.remote, stale))
  }

  ghost function Laid(remote: Tree, entries: set<Path>): (local: Tree)
    requires entries <= remote.Keys
    ensures local.Keys == entries && forall p :: p in entries ==> local[p] == Placeholder(remote[p])
  {
    Build(entries, p requires p in remote => Placeholder(remote[p]))
  }

  ghost function Unknown(remote: Tree, stale: set<Path>): (files: map<Path, Record>)
    requires stale <= remote.Keys
    ensures files.Keys == stale && forall p :: p in stale ==> files[p] == Unfetched(StampOf(remote[p]))
  {
    Build(stale, p requires p in remote => Unfetched(StampOf(remote[p])))
  }

  function StampOf(item: Item): Stamp {
    if item.File? then item.stamp else Stamp(0, 0)
  }

  /** A file of the right size and time, and the record of one: there is nothing to fetch where
  there is nothing in it. */
  function Placeholder(item: Item): Item {
    if item.File? then File(Zeros(item.stamp.size), item.stamp) else Folder
  }

  function Unfetched(stamp: Stamp): Record {
    Record(stamp, stamp.size == 0, stamp)
  }

  /** What has gone on the target removed here, and forgotten. */
  function RemoveVanished(m: Mirror, gone: set<Path>): Mirror {
    m.(local := m.local - (set p | p in m.local && CoveredBy(gone, p)),
       files := m.files - (set p | p in m.files && CoveredBy(gone, p)),
       dirs := m.dirs - (set p | p in m.dirs && CoveredBy(gone, p)),
       dirty := set p | p in m.dirty && !CoveredBy(gone, p))
  }

  /** A folder made, with those it stands in. */
  function MakeDirs(local: Tree, d: Path): Tree {
    if d == [] then local[[] := Folder] else MakeDirs(local, Parent(d))[d := Folder]
  }

  /** Whether a file is in the way of a folder. */
  predicate Blocked(local: Tree, d: Path) {
    exists i :: 0 <= i <= |d| && IsFile(At(local, d[..i]))
  }

  ghost function ApplyListing(m: Mirror, d: Path): Mirror {
    var m1 := m.(local := MakeDirs(m.local, d));
    var m2 := ApplyEntries(m1, Children(m1.remote, d));
    RemoveVanished(m2, Vanished(m2, d))
  }

  /** The mirror of a folder the target does not have. */
  function DropLocal(m: Mirror, d: Path): Mirror {
    Forget(if At(m.local, d) == Some(Folder) then m.(local := Without(m.local, d)) else m, d)
  }

  /** One folder mirrored, at most once a generation; refused where a file is in its way.  One the target does
  not have is dropped, and with it that it was looked at. */
  ghost function EnsureDirectory(m: Mirror, d: Path, mint: Mint): (Mirror, bool) {
    if Current(m, d) then (m, true)
    else
      var m1 := Flush(m, mint);
      if At(m1.remote, d) == Some(Folder) then
        if Blocked(m1.local, d) then (m1, false)
        else
          var m2 := ApplyListing(m1, d);
          (m2.(dirs := m2.dirs[d := m2.gen]), true)
      else (DropLocal(m1.(dirs := m1.dirs[d := m1.gen]), d), true)
  }

  /** The folder holding a path; what holds the root is not the mirror's. */
  ghost function EnsurePath(m: Mirror, p: Path, mint: Mint): (Mirror, bool) {
    if p == [] then (m, true) else EnsureDirectory(m, Parent(p), mint)
  }

  /* ---- Contents and records ---- */

  predicate Fetches(m: Mirror, p: Path) {
    p in m.files && !m.files[p].present
  }

  /** What is put after a file's name while its bytes come in, and how long a name can be, each character of
  one being a byte. */
  const SUFFIX: Name := ".humanize-fetch"
  const NAME_MAX := 255

  /** The scratch file that a file's bytes come in through, beside it. */
  function Scratch(p: Path): Path
    requires p != []
  {
    Parent(p) + [p[|p| - 1] + SUFFIX]
  }

  /** Whether a scratch file can be made, over a file if there is one. */
  predicate Fetchable<T(==)>(tree: map<Path, T>, folder: T, p: Path) {
    p != [] && |p[|p| - 1]| + |SUFFIX| <= NAME_MAX && CanHold(tree, folder, Scratch(p))
  }

  /** The mirror once a file has been fetched, or found to be none: whatever file had its scratch file's name was
  written over, and has gone with it. */
  function Scratched(m: Mirror, p: Path): Mirror {
    if Fetches(m, p) && Fetchable(m.local, Folder, p) then m.(local := m.local - {Scratch(p)}) else m
  }

  /** A file's bytes, where its placeholder is all there is; refused where its scratch file cannot be made, and where
  the target has no such file. */
  function Fetch(m: Mirror, p: Path): (Mirror, bool) {
    if !Fetches(m, p) then (m, true)
    else
      var m1 := Scratched(m, p);
      if !Fetchable(m.local, Folder, p) || !IsFile(At(m.remote, p)) || At(m.local, p) == Some(Folder) then (m1, false)
      else
        (m1.(local := m1.local[p := m.remote[p]],
             files := m.files[p := Record(m.remote[p].stamp, true, m.remote[p].stamp)]), true)
  }

  ghost function EnsureContent(m: Mirror, p: Path, mint: Mint): (Mirror, bool) {
    var (m1, ok) := EnsurePath(m, p, mint);
    if ok then Fetch(m1, p) else (m1, false)
  }

  function NoteWrite(m: Mirror, p: Path): Mirror {
    m.(dirty := m.dirty + {p})
  }

  ghost function MoveRecords(m: Mirror, source: Path, target: Path): Mirror {
    m.(files := Moved(m.files, source, target), dirs := Moved(m.dirs, source, target),
       dirty := set p | p in m.dirty && !Covers(target, p) :: Rebase(source, target, p))
  }

  /* ---- What a tracee does, as the handlers let it ---- */

  /** Everything a file needs before it is opened: its folder, its content unless it is truncated unread, and a
  note that it may be written. */
  ghost function PrepareOpen(m: Mirror, op: Op, mint: Mint): (Mirror, bool)
    requires op.Open?
  {
    var (m1, ok) := EnsurePath(m, op.path, mint);
    if !ok then (m1, false)
    else
      var (m2, fetched) :=
        if op.truncates && op.access.WriteOnly? then (m1, true) else EnsureContent(m1, op.path, mint);
      if !fetched then (m2, false)
      else (if op.access.ReadOnly? && !op.creates then m2 else NoteWrite(m2, op.path), true)
  }

  /** Whether an open leaves a file written: made, or there and written or cut short. */
  predicate Writes(op: Op, there: bool)
    requires op.Open?
  {
    if there then !op.access.ReadOnly? || op.truncates else op.creates
  }

  function BytesOf(item: Option<Item>): Option<Bytes> {
    if IsFile(item) then Some(item.value.bytes) else None
  }

  function Leaves(op: Op, content: Option<Bytes>): Item
    requires op.Open?
  {
    File(Left(op, content), Stamp(|Left(op, content)|, op.mtime))
  }

  /** The open itself, and what the tracee does with the file: all of it here. */
  function NativeOpen(m: Mirror, op: Op): (Mirror, Seen)
    requires op.Open?
  {
    var p := op.path;
    if !CanHold(m.local, Folder, p) || (p !in m.local && !op.creates) then (m, Refused)
    else
      var content := BytesOf(At(m.local, p));
      (if Writes(op, p in m.local) then m.(local := m.local[p := Leaves(op, content)]) else m,
       Content(Found(op, content)))
  }

  /** What a lookup and a listing find here. */
  function Looked(local: Tree, p: Path): Seen {
    if p !in local then Refused else if local[p].Folder? then IsFolder else Size(local[p].stamp.size)
  }

  function Listing(local: Tree, d: Path): Seen {
    if At(local, d) == Some(Folder) then Names(Children(local, d)) else Refused
  }

  /** One step as the mirror and the target take it. */
  ghost function Step(m: Mirror, op: Op, mint: Mint): (Mirror, Seen) {
    match op
    case Open(_, _, _, _, _, _) =>
      var (m1, ok) := PrepareOpen(m, op, mint);
      if ok then NativeOpen(m1, op) else (m1, Refused)
    case Look(p) =>
      var (m1, ok) := EnsurePath(m, p, mint);
      (m1, if ok then Looked(m1.local, p) else Refused)
    case List(d) =>
      var (m1, ok) := EnsurePath(m, d, mint);
      if !ok then (m1, Refused)
      else
        var (m2, listed) := EnsureDirectory(m1, d, mint);
        (m2, if listed then Listing(m2.local, d) else Refused)
    case Unlink(p) => Replayed(m, op, mint)
    case MakeDir(p) => Replayed(m, op, mint)
    case RemoveDir(p) => Replayed(m, op, mint)
    case Rename(p, t) =>
      var (m1, ok) := EnsurePath(m, p, mint);
      if !ok then (m1, Refused)
      else
        var (m2, there) := EnsurePath(m1, t, mint);
        if !there then (m2, Refused) else Relates(Flush(m2, mint), p, t)
    case Command(change, stamps) =>
      var m1 := Flush(m, mint);
      var made := change(Contents(m1.remote));
      (m1.(remote := Made(made, stamps), gen := m1.gen + 1), Done)
  }

  /** A change of one path, replayed on the target once that has been told everything, and carried out here only
  where the target did it. */
  ghost function Replayed(m: Mirror, op: Op, mint: Mint): (Mirror, Seen)
    requires op.Unlink? || op.MakeDir? || op.RemoveDir?
  {
    var (m1, ok) := EnsurePath(m, op.path, mint);
    if !ok then (m1, Refused) else Replays(Flush(m1, mint), op)
  }

  function Replays(m: Mirror, op: Op): (Mirror, Seen)
    requires op.Unlink? || op.MakeDir? || op.RemoveDir?
  {
    var p := op.path;
    match op
    case Unlink(_) =>
      if !IsFile(At(m.remote, p)) then (m, Refused)
      else
        var m1 := Forget(m.(remote := m.remote - {p}), p);
        if IsFile(At(m.local, p)) then (m1.(local := m.local - {p}), Done) else (m1, Refused)
    case MakeDir(_) =>
      if !CanHold(m.remote, Folder, p) || p in m.remote then (m, Refused)
      else
        var m1 := m.(remote := m.remote[p := Folder]);
        if CanHold(m.local, Folder, p) && p !in m.local then (m1.(local := m.local[p := Folder]), Done)
        else (m1, Refused)
    case RemoveDir(_) =>
      if !Removable(m.remote, p) then (m, Refused)
      else
        var m1 := Forget(m.(remote := m.remote - {p}), p);
        if Removable(m.local, p) then (m1.(local := m.local - {p}), Done) else (m1, Refused)
  }

  predicate Removable(tree: Tree, p: Path) {
    p != [] && At(tree, p) == Some(Folder) && Children(tree, p) == {}
  }

  /** A rename, replayed on the target and then carried out here. */
  ghost function Relates(m: Mirror, p: Path, t: Path): (Mirror, Seen) {
    if !Movable(m.remote, Folder, p, t) then (m, Refused)
    else
      var m1 := MoveRecords(m.(remote := Renamed(m.remote, p, t)), p, t);
      if Movable(m.local, Folder, p, t) then (m1.(local := Renamed(m.local, p, t)), Done) else (m1, Refused)
  }

  function Shown(item: Item): Thing {
    if item.Folder? then Dir else Text(item.bytes)
  }

  ghost function Contents(tree: Tree): (fs: Shared)
    ensures fs.Keys == tree.Keys && forall p :: p in tree ==> fs[p] == Shown(tree[p])
  {
    Build(tree.Keys, p requires p in tree => Shown(tree[p]))
  }

  function Stamped(thing: Thing, stamp: Stamp): Item {
    if thing.Dir? then Folder else File(thing.bytes, stamp)
  }

  /** What a command leaves on the target, stamped. */
  ghost function Made(made: Shared, stamps: Path -> Stamp): (tree: Tree)
    ensures tree.Keys == made.Keys && forall p :: p in made ==> tree[p] == Stamped(made[p], stamps(p))
  {
    Build(made.Keys, p requires p in made => Stamped(made[p], stamps(p)))
  }
}
