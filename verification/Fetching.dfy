/** What a listing makes of what is here already, and so what has to be fetched again. */
module Fetching {
  import opened Prelude
  import opened Disk
  import opened MirrorSpec
  import opened Mirrored

  /** Neither side of a file has changed since they were last the same. */
  predicate Unmoved(m: Mirror, p: Path) {
    && p in m.files && p in m.local && p in m.remote && m.local[p].File? && m.remote[p].File?
    && m.local[p].stamp == m.files[p].local && m.remote[p].stamp == m.files[p].remote
  }

  /** Whether an open would have to get a file's bytes from the target. */
  predicate ToFetch(m: Mirror, p: Path) {
    p in m.files && !m.files[p].present
  }

  /** What a folder's listing leaves at each of its entries: nothing where the target has nothing, a folder for a
  folder, a file that neither side has changed as it was, and for any other a file of the right length with nothing
  of the content in it. */
  lemma {:induction false} ListingIs(m: Mirror, d: Path, p: Path)
    requires Rooted(m.local, Folder) && Rooted(m.remote, Folder) && At(m.remote, d) == Some(Folder)
    requires !Blocked(m.local, d) && p != [] && Parent(p) == d
    ensures
      var m1 := ApplyListing(m, d);
      if p !in m.remote then p !in m1.local && (p in m.local ==> p !in m1.files && p !in m1.dirty)
      else if m.remote[p].Folder? then At(m1.local, p) == Some(Folder) && p !in m1.files
      else if Unmoved(m, p) then At(m1.local, p) == At(m.local, p) && At(m1.files, p) == At(m.files, p)
      else
        var stamp := m.remote[p].stamp;
        && At(m1.local, p) == Some(File(Zeros(stamp.size), stamp))
        && At(m1.files, p) == Some(Record(stamp, stamp.size == 0, stamp))
  {
    hide ApplyListing, Blocked;
    ListAt(m, d, p);
    assert Under(d, p) && Branch(d, p) == p;
  }

  /** What has been fetched is fetched again only once one side has changed: a listing leaves it as it is. */
  lemma {:induction false} FetchedStays(m: Mirror, d: Path, p: Path)
    requires Rooted(m.local, Folder) && Rooted(m.remote, Folder) && At(m.remote, d) == Some(Folder)
    requires !Blocked(m.local, d) && p != [] && Parent(p) == d
    requires IsFile(At(m.remote, p)) && !ToFetch(m, p) && p in m.files
    ensures ToFetch(ApplyListing(m, d), p) <==> !Unmoved(m, p) && m.remote[p].stamp.size != 0
  {
    hide ApplyListing, Blocked;
    ListingIs(m, d, p);
  }

  /** A fetch leaves the bytes the target has, and both sides unmoved, so that there is nothing to fetch again. */
  lemma {:induction false} FetchIs(m: Mirror, p: Path)
    requires ToFetch(m, p) && Fetch(m, p).1
    ensures
      var m1 := Fetch(m, p).0;
      && p in m.remote && m.remote[p].File? && At(m1.local, p) == At(m.remote, p)
      && Unmoved(m1, p) && !ToFetch(m1, p) && Fetch(m1, p) == (m1, true)
      && m1.remote == m.remote && m1.dirty == m.dirty && m1.dirs == m.dirs && m1.gen == m.gen
      && (forall q :: q != p ==> At(m1.files, q) == At(m.files, q))
      && (forall q :: q != p && q != Scratch(p) ==> At(m1.local, q) == At(m.local, q))
  {
  }
}
