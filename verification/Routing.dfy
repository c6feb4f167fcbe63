/** How a path the agent names is put back onto the one spelling this machine keeps it at. */
module Routing {
  import opened Prelude
  import opened Sorting

  type Text = string

  const PRIVATE: Text := "/private"
  const ALIASED: seq<Text> := ["/etc", "/tmp", "/var"]

  /** Per-character case folding, as it is or not at all. */
  datatype Folding = Folding(on: bool, fold: char -> char)

  /** A fold tells a slash from everything else. */
  ghost predicate Folds(f: Folding) {
    forall c :: f.fold(c) == '/' <==> c == '/'
  }

  function Cased(f: Folding, text: Text): (cased: Text)
    ensures |cased| == |text|
  {
    if f.on then seq(|text|, i requires 0 <= i < |text| => f.fold(text[i])) else text
  }

  /** Whether a path is one of the three a Mac keeps under `/private`, or below one. */
  predicate IsAliased(path: Text) {
    |path| >= 12 && path[..8] == PRIVATE && path[8..12] in ALIASED
    && (|path| == 12 || path[12] == '/' || path[12..] == "\n")
  }

  function Key(path: Text): Text {
    if IsAliased(path) then path[8..] else path
  }

  function Lstrip(text: Text): (left: Text)
    ensures left != "" ==> left[0] != '/'
    ensures text != "" && text[0] != '/' ==> left == text
  {
    if text != "" && text[0] == '/' then Lstrip(text[1..]) else text
  }

  function Rstrip(text: Text): Text {
    if text != "" && text[|text| - 1] == '/' then Rstrip(text[..|text| - 1]) else text
  }

  /** What of a path lies below a root, and nothing where it is somewhere else. */
  function Within(f: Folding, path: Text, root: Text): Option<Text> {
    var below, above := Key(path), Rstrip(Key(root));
    if above == "" then Some(Lstrip(below))
    else if |below| < |above| then None
    else
      var tail := below[|above|..];
      if Cased(f, below[..|above|]) != Cased(f, above) then None
      else if tail == "" then Some("")
      else if tail[0] == '/' then Some(Lstrip(tail))
      else None
  }

  function Join(root: Text, suffix: Text): Text {
    if suffix != "" && suffix[0] == '/' then suffix
    else if root == "" || root[|root| - 1] == '/' then root + suffix
    else root + "/" + suffix
  }

  datatype Layout = Layout(localRoot: Text, virtualRoot: Text)

  datatype Router = Router(layouts: seq<Layout>, localPaths: seq<Text>, folding: Folding)

  /** The first layout a path is in. */
  function Owner(f: Folding, layouts: seq<Layout>, path: Text): Option<Layout> {
    if layouts == [] then None
    else if Within(f, path, layouts[0].localRoot).Some? then Some(layouts[0])
    else Owner(f, layouts[1..], path)
  }

  function Spelled(f: Folding, layout: Layout, path: Text): Text
    requires Within(f, path, layout.localRoot).Some?
  {
    var suffix := Within(f, path, layout.localRoot).value;
    if suffix == "" then layout.localRoot else Join(layout.localRoot, suffix)
  }

  lemma {:induction false} OwnerHolds(f: Folding, layouts: seq<Layout>, path: Text)
    ensures Owner(f, layouts, path).Some? ==>
              Owner(f, layouts, path).value in layouts && Within(f, path, Owner(f, layouts, path).value.localRoot).Some?
  {
    if layouts != [] {
      OwnerHolds(f, layouts[1..], path);
    }
  }

  /** The other name of a directory, where it has one. */
  function Spellings(path: Text): seq<Text> {
    if Key(path) != path then [path, Key(path)]
    else if Key(PRIVATE + path) != PRIVATE + path then [path, PRIVATE + path]
    else [path]
  }

  predicate SpelledTwice(path: Text) {
    var root := Rstrip(path);
    |Spellings(root)| > 1 || exists a :: a in ALIASED && root + "/" <= PRIVATE + a
  }

  predicate Settles(r: Router) {
    r.folding.on || exists i :: 0 <= i < |r.layouts| && SpelledTwice(r.layouts[i].localRoot)
  }

  /** What looking through the layouts comes to. */
  function Settled(r: Router, path: Text): Text {
    OwnerHolds(r.folding, r.layouts, path);
    match Owner(r.folding, r.layouts, path)
    case None => path
    case Some(layout) => Spelled(r.folding, layout, path)
  }

  function Canonical(r: Router, path: Text): Text {
    if !Settles(r) then path else Settled(r, path)
  }

  function LayoutFor(r: Router, path: Text): Option<Layout> {
    if exists i :: 0 <= i < |r.localPaths| && Within(r.folding, path, r.localPaths[i]).Some? then None
    else Owner(r.folding, r.layouts, path)
  }

  /** How the target names a path of a layout's: by the characters where they settle it, and by
  folding case where they do not. */
  function ToVirtual(f: Folding, layout: Layout, path: Text): Option<Text> {
    var plain := Within(f.(on := false), path, layout.localRoot);
    var suffix := if plain.Some? then plain else Within(f.(on := true), path, layout.localRoot);
    match suffix
    case None => None
    case Some(s) => Some(if s == "" then layout.virtualRoot else Join(layout.virtualRoot, s))
  }

  /* ---- Paths as they come ---- */

  /** An absolute path with nothing doubled, and nothing trailing. */
  predicate Normal(path: Text) {
    && path != "" && path[0] == '/'
    && (path == "/" || path[|path| - 1] != '/')
    && forall i :: 0 <= i < |path| - 1 ==> !(path[i] == '/' && path[i + 1] == '/')
  }

  /** Whether what lies below a root begins with one of the segments that are aliased, or is one with a line ended
  after it, which the pattern lets by. */
  predicate BeginsAliased(suffix: Text) {
    |suffix| >= 3 && "/" + suffix[..3] in ALIASED && (|suffix| == 3 || suffix[3] == '/' || suffix[3..] == "\n")
  }

  /** Whether a root is aliased only as far as nothing is put below it. */
  predicate EndsLine(root: Text) {
    IsAliased(root) && root[12..] == "\n"
  }

  /** Whether what lies below a root is aliased where the root is. */
  predicate Holds(root: Text, suffix: Text) {
    Normal(root) && (root == PRIVATE ==> !BeginsAliased(suffix)) && (EndsLine(root) ==> suffix == "")
  }

  lemma {:induction false} RstripNormal(path: Text)
    requires Normal(path)
    ensures Rstrip(path) == if path == "/" then "" else path
  {
    assert "/"[..0] == "";
  }

  lemma {:induction false} KeyNormal(path: Text)
    requires Normal(path)
    ensures Normal(Key(path)) && !IsAliased(Key(path)) && Rstrip(Key(path)) == if path == "/" then "" else Key(path)
  {
    RstripNormal(path);
    if IsAliased(path) {
      var key := path[8..];
      assert key[..4] == path[8..12] && key[0] == '/' && key[|key| - 1] == path[|path| - 1];
      forall i | 0 <= i < |key| - 1
        ensures !(key[i] == '/' && key[i + 1] == '/')
      {
        assert key[i] == path[i + 8] && key[i + 1] == path[i + 9];
      }
      assert |key| >= 2 ==> key[1] in "etv";
      RstripNormal(key);
    }
  }

  lemma {:induction false} AliasLetters(a: Text)
    requires a in ALIASED
    ensures |a| == 4 && forall i :: 0 < i < 4 ==> a[i] != '/'
  {
  }

  /** What is below `/private` is aliased where it begins with an aliased segment. */
  lemma {:induction false} BelowPrivate(suffix: Text)
    ensures IsAliased(PRIVATE + "/" + suffix) <==> BeginsAliased(suffix)
    ensures !IsAliased(PRIVATE)
  {
    var path := PRIVATE + "/" + suffix;
    assert path[..8] == PRIVATE;
    if |suffix| >= 3 {
      assert path[8..12] == "/" + suffix[..3];
      assert path[12..] == suffix[3..];
    }
  }

  /** A root and something below it are aliased together, or not at all. */
  lemma {:induction false} KeyOfJoined(root: Text, suffix: Text)
    requires Holds(root, suffix) && root != "/" && suffix != ""
    ensures Key(root + "/" + suffix) == Key(root) + "/" + suffix
  {
    var path := root + "/" + suffix;
    if root == PRIVATE {
      BelowPrivate(suffix);
    } else if |root| >= 12 {
      assert path[..12] == root[..12] && path[..8] == root[..8] && path[8..12] == root[8..12];
      assert |root| > 12 ==> path[12] == root[12];
      assert |root| == 12 ==> path[12] == '/';
      assert IsAliased(path) <==> IsAliased(root);
      if IsAliased(root) {
        assert path[8..] == root[8..] + "/" + suffix;
      }
    } else {
      assert path[|root|] == '/' && path[..|root|] == root;
      assert |root| < 8 ==> PRIVATE[|root|] != '/';
      assert |root| < 8 && |path| >= 12 ==> path[..8][|root|] == '/';
      if |path| >= 12 && path[8..12] in ALIASED {
        AliasLetters(path[8..12]);
        assert forall i :: 8 < i < 12 ==> path[i] == path[8..12][i - 8];
      }
      assert |path| >= 12 && path[..8] == PRIVATE && |root| == 8 ==> root == PRIVATE;
    }
  }

  /* ---- Where a path is ---- */

  lemma {:induction false} CasedParts(f: Folding, a: Text, n: nat)
    requires n <= |a|
    ensures Cased(f, a[..n]) == Cased(f, a)[..n]
  {
  }

  /** Whether a key is in a root depends on the key's cased characters alone, and what is below the root
  is what is left of the key. */
  lemma {:induction false} WithinIs(f: Folding, path: Text, root: Text)
    requires Folds(f) && Normal(path) && Normal(root) && root != "/"
    ensures
      var key, above := Key(path), Key(root);
      && (Within(f, path, root).Some? <==>
            |key| >= |above| && Cased(f, key)[..|above|] == Cased(f, above)
            && (|key| == |above| || Cased(f, key)[|above|] == '/'))
      && (Within(f, path, root).Some? && |key| > |above| ==> key[|above|] == '/')
      && (Within(f, path, root).Some? ==>
            Within(f, path, root).value == if |key| == |above| then "" else key[|above| + 1..])
  {
    var key, above := Key(path), Key(root);
    KeyNormal(path);
    KeyNormal(root);
    assert above != "";
    if |key| >= |above| {
      CasedParts(f, key, |above|);
      if |key| > |above| {
        assert Cased(f, key)[|above|] == '/' <==> key[|above|] == '/';
        if key[|above|] == '/' {
          var tail := key[|above|..];
          assert tail[1..] == key[|above| + 1..];
          assert |tail| > 1 ==> tail[1] == key[|above| + 1];
          assert |key| - 1 == |above| ==> key == "/";
          assert Lstrip(tail) == Lstrip(tail[1..]);
        }
      }
    }
  }

  lemma {:induction false} WithinAll(f: Folding, path: Text)
    requires Normal(path)
    ensures Within(f, path, "/") == Some(Key(path)[1..])
  {
    KeyNormal(path);
    KeyNormal("/");
    var key := Key(path);
    assert Key("/") == "/" && Rstrip("/") == "";
    assert Lstrip(key) == Lstrip(key[1..]);
    assert |key| > 1 ==> key[1..][0] == key[1];
  }

  /** Two paths whose keys case the same are in the same roots. */
  lemma {:induction false} SameRoots(f: Folding, path: Text, other: Text, root: Text)
    requires Folds(f) && Normal(path) && Normal(other) && Normal(root)
    requires Cased(f, Key(path)) == Cased(f, Key(other))
    ensures Within(f, path, root).Some? <==> Within(f, other, root).Some?
  {
    if root == "/" {
      WithinAll(f, path);
      WithinAll(f, other);
    } else {
      WithinIs(f, path, root);
      WithinIs(f, other, root);
    }
  }

  predicate RootsNormal(layouts: seq<Layout>) {
    forall i :: 0 <= i < |layouts| ==> Normal(layouts[i].localRoot)
  }

  lemma {:induction false} SameOwner(f: Folding, layouts: seq<Layout>, path: Text, other: Text)
    requires Folds(f) && Normal(path) && Normal(other) && RootsNormal(layouts)
    requires Cased(f, Key(path)) == Cased(f, Key(other))
    ensures Owner(f, layouts, path) == Owner(f, layouts, other)
  {
    if layouts != [] {
      SameRoots(f, path, other, layouts[0].localRoot);
      SameOwner(f, layouts[1..], path, other);
    }
  }

  /** A path put back onto its layout's root: still normal, the same key but for case, and the same
  below that root. */
  lemma {:induction false} SpelledSame(f: Folding, layout: Layout, path: Text)
    requires Folds(f) && Normal(path) && Within(f, path, layout.localRoot).Some?
    requires Holds(layout.localRoot, Within(f, path, layout.localRoot).value)
    ensures
      var q := Spelled(f, layout, path);
      && Normal(q) && Cased(f, Key(q)) == Cased(f, Key(path))
      && Within(f, q, layout.localRoot) == Within(f, path, layout.localRoot)
      && Within(f.(on := false), q, layout.localRoot) == Within(f, path, layout.localRoot)
  {
    var root := layout.localRoot;
    var s, q := Within(f, path, root).value, Spelled(f, layout, path);
    KeyNormal(path);
    KeyNormal(root);
    if root == "/" {
      WithinAll(f, path);
      assert q == Key(path);
      assert Key(q) == q;
      WithinAll(f, q);
      WithinAll(f.(on := false), q);
    } else {
      WithinIs(f, path, root);
      SpelledBelow(f, layout, path);
      WithinIs(f, q, root);
      WithinIs(f.(on := false), q, root);
    }
  }

  lemma {:induction false} SpelledBelow(f: Folding, layout: Layout, path: Text)
    requires Folds(f) && Normal(path) && layout.localRoot != "/" && Within(f, path, layout.localRoot).Some?
    requires Holds(layout.localRoot, Within(f, path, layout.localRoot).value)
    ensures
      var (q, s) := (Spelled(f, layout, path), Within(f, path, layout.localRoot).value);
      && Normal(q) && Key(q) == Key(layout.localRoot) + (if s == "" then "" else "/" + s)
      && Cased(f, Key(q)) == Cased(f, Key(path))
  {
    hide Key, Normal, Cased, IsAliased, Within, BeginsAliased;
    var root := layout.localRoot;
    var s := Within(f, path, root).value;
    if s == "" {
      RootItself(f, Key(path), Key(root), path, root);
    } else {
      JoinedBelow(f, root, path, s);
    }
  }

  lemma {:induction false} JoinedBelow(f: Folding, root: Text, path: Text, s: Text)
    requires Folds(f) && Normal(path) && Normal(root) && root != "/" && Within(f, path, root) == Some(s)
    requires Holds(root, s) && s != ""
    ensures Join(root, s) == root + "/" + s && Normal(root + "/" + s) && Key(root + "/" + s) == Key(root) + "/" + s
    ensures Key(root) + "/" + s == Key(root) + ("/" + s) && Cased(f, Key(root + "/" + s)) == Cased(f, Key(path))
  {
    hide *;
    var key, above := Key(path), Key(root);
    KeyBelow(f, root, path, s);
    KeyNormal(path);
    BelowSplit(key, above, s);
    JoinedNormal(root, key, s);
    KeyOfJoined(root, s);
    CasedJoined(f, above, key, s);
    assert above + "/" + s == above + ("/" + s);
  }

  lemma {:induction false} KeyBelow(f: Folding, root: Text, path: Text, s: Text)
    requires Folds(f) && Normal(path) && Normal(root) && root != "/" && Within(f, path, root) == Some(s) && s != ""
    ensures
      var key, above := Key(path), Key(root);
      && |key| > |above| && key[|above|] == '/' && s == key[|above| + 1..]
      && Cased(f, key)[..|above|] == Cased(f, above)
  {
    hide *;
    WithinIs(f, path, root);
  }

  lemma {:induction false} RootItself(f: Folding, key: Text, above: Text, path: Text, root: Text)
    requires Folds(f) && Normal(path) && Normal(root) && root != "/" && key == Key(path) && above == Key(root)
    requires Within(f, path, root) == Some("")
    ensures above + "" == above && Cased(f, above) == Cased(f, key)
  {
    WithinIs(f, path, root);
    KeyNormal(path);
    assert |key| == |above|;
    assert Cased(f, key)[..|above|] == Cased(f, key);
    assert above + "" == above;
  }

  lemma {:induction false} BelowSplit(key: Text, above: Text, s: Text)
    requires |key| > |above| && key[|above|] == '/' && s == key[|above| + 1..]
    ensures |key| == |above| + 1 + |s| && key == key[..|above|] + "/" + s && s == key[|key| - |s|..]
    ensures key[|key| - |s| - 1] == '/'
  {
  }

  lemma {:induction false} JoinedNormal(root: Text, key: Text, s: Text)
    requires Normal(root) && root != "/" && Normal(key) && s != "" && |s| < |key|
    requires key[|key| - |s| - 1] == '/' && s == key[|key| - |s|..]
    ensures Normal(root + "/" + s) && s[0] != '/' && Join(root, s) == root + "/" + s
  {
    var q, at := root + "/" + s, |key| - |s|;
    assert s[0] == key[at];
    forall i | 0 <= i < |q| - 1
      ensures !(q[i] == '/' && q[i + 1] == '/')
    {
      if i > |root| {
        assert q[i] == key[at + i - |root| - 1] && q[i + 1] == key[at + i - |root|];
      }
    }
    assert q[|q| - 1] == key[|key| - 1];
  }

  lemma {:induction false} CasedJoined(f: Folding, above: Text, key: Text, s: Text)
    requires |key| == |above| + 1 + |s| && key == key[..|above|] + "/" + s
    requires Cased(f, key)[..|above|] == Cased(f, above)
    ensures Cased(f, above + "/" + s) == Cased(f, key)
  {
    var a, b := Cased(f, above + "/" + s), Cased(f, key);
    forall i | 0 <= i < |key|
      ensures a[i] == b[i]
    {
      if i < |above| {
        assert b[..|above|][i] == Cased(f, above)[i];
        assert (above + "/" + s)[i] == above[i];
      } else {
        assert (above + "/" + s)[i] == key[i];
      }
    }
  }

  /* ---- What canonical promises ---- */

  predicate RouterOk(r: Router) {
    RootsNormal(r.layouts) && forall i :: 0 <= i < |r.localPaths| ==> Normal(r.localPaths[i])
  }

  lemma {:induction false} SameHoles(r: Router, path: Text, other: Text)
    requires RouterOk(r) && Folds(r.folding) && Normal(path) && Normal(other)
    requires Cased(r.folding, Key(path)) == Cased(r.folding, Key(other))
    ensures LayoutFor(r, path) == LayoutFor(r, other)
  {
    forall i | 0 <= i < |r.localPaths|
      ensures Within(r.folding, path, r.localPaths[i]).Some? <==> Within(r.folding, other, r.localPaths[i]).Some?
    {
      SameRoots(r.folding, path, other, r.localPaths[i]);
    }
    SameOwner(r.folding, r.layouts, path, other);
  }

  /** Whether settling a path settles it once and for all, leaves it in the layout it was in or in none, and
  keeps what is below that layout's root, and so the file it names on the target. */
  predicate SettlesOnce(r: Router, path: Text) {
    var q, owner := Canonical(r, path), Owner(r.folding, r.layouts, path);
    && Normal(q) && Canonical(r, q) == q
    && LayoutFor(r, q) == LayoutFor(r, path) && Owner(r.folding, r.layouts, q) == owner
    && (owner.Some? ==>
          var layout := owner.value;
          && Within(r.folding, q, layout.localRoot) == Within(r.folding, path, layout.localRoot)
          && ToVirtual(r.folding, layout, q) == ToVirtual(r.folding, layout, path))
  }

  /** Whether a path is in a layout rooted where the aliases are kept, below one of their own segments, or below a
  root that is aliased only as far as nothing is put below it. */
  predicate Slips(r: Router, path: Text) {
    var owner := Owner(r.folding, r.layouts, path);
    owner.Some? && SlipsBelow(r.folding, owner.value.localRoot, path)
  }

  predicate SlipsBelow(f: Folding, root: Text, path: Text) {
    var below := Within(f, path, root);
    below.Some? && ((root == PRIVATE && BeginsAliased(below.value)) || (EndsLine(root) && below.value != ""))
  }

  /** For every router and path: settling settles once exactly where the path does not slip. */
  lemma {:induction false} CanonicalSettlesOnce(r: Router, path: Text)
    requires RouterOk(r) && Folds(r.folding) && Normal(path)
    ensures SettlesOnce(r, path) <==> !Slips(r, path)
  {
    hide Key, Cased, Normal, Within, Spelled, ToVirtual, BeginsAliased;
    OwnerHolds(r.folding, r.layouts, path);
    var owner := Owner(r.folding, r.layouts, path);
    if Slips(r, path) {
      SlippedIsOut(r, path);
    } else if owner.Some? && Settles(r) {
      OwnedSettlesOnce(r, path, owner.value);
    }
  }

  lemma {:induction false} OwnedSettlesOnce(r: Router, path: Text, layout: Layout)
    requires RouterOk(r) && Folds(r.folding) && Normal(path) && !Slips(r, path) && Settles(r)
    requires Owner(r.folding, r.layouts, path) == Some(layout)
    ensures SettlesOnce(r, path)
  {
    hide Key, Cased, Normal, Within, Spelled, ToVirtual, BeginsAliased;
    OwnerHolds(r.folding, r.layouts, path);
    var i :| 0 <= i < |r.layouts| && r.layouts[i] == layout;
    var q := Canonical(r, path);
    SpelledSame(r.folding, layout, path);
    SameHoles(r, path, q);
    SameOwner(r.folding, r.layouts, path, q);
    SpelledAgain(r.folding, layout, path, q);
  }

  /** A path that slips is put where the alias takes it out of its layout again. */
  lemma {:induction false} SlippedIsOut(r: Router, path: Text)
    requires RouterOk(r) && Folds(r.folding) && Normal(path) && Slips(r, path)
    ensures Within(r.folding, Canonical(r, path), Owner(r.folding, r.layouts, path).value.localRoot).None?
    ensures !SettlesOnce(r, path)
  {
    hide Within, Spelled, SpelledTwice, IsAliased, BeginsAliased, Normal, EndsLine, ToVirtual;
    OwnerHolds(r.folding, r.layouts, path);
    var owner := Owner(r.folding, r.layouts, path).value;
    var i :| 0 <= i < |r.layouts| && r.layouts[i] == owner;
    if owner.localRoot == PRIVATE && BeginsAliased(Within(r.folding, path, PRIVATE).value) {
      PrivateTwice();
      SlippedBelowPrivate(r.folding, owner, path);
    } else {
      LineTwice(owner.localRoot);
      SlippedBelowLine(r.folding, owner, path);
    }
    assert Settles(r) by {
      assert SpelledTwice(r.layouts[i].localRoot);
    }
    OwnerHolds(r.folding, r.layouts, Canonical(r, path));
  }

  lemma {:induction false} SlippedBelowPrivate(f: Folding, layout: Layout, path: Text)
    requires Folds(f) && layout.localRoot == PRIVATE && Within(f, path, PRIVATE).Some?
    requires BeginsAliased(Within(f, path, PRIVATE).value)
    ensures Within(f, Spelled(f, layout, path), PRIVATE).None?
  {
    hide Within, IsAliased;
    var s := Within(f, path, PRIVATE).value;
    AliasLetters("/" + s[..3]);
    assert ("/" + s[..3])[1] == s[0];
    BelowPrivate(s);
    AliasIsOut(f, PRIVATE + "/" + s);
  }

  /** What is put below a root whose name ends its line is not aliased any more. */
  lemma {:induction false} SlippedBelowLine(f: Folding, layout: Layout, path: Text)
    requires Folds(f) && EndsLine(layout.localRoot) && Within(f, path, layout.localRoot).Some?
    requires Within(f, path, layout.localRoot).value != ""
    ensures Within(f, Spelled(f, layout, path), layout.localRoot).None?
  {
    var root, s := layout.localRoot, Within(f, path, layout.localRoot).value;
    var q := root + "/" + s;
    assert s[0] != '/' && Join(root, s) == q;
    assert root == PRIVATE + root[8..12] + "\n";
    assert q[12] == '\n' && |q[12..]| > 1 && Key(q) == q && |Key(root)| == 5;
    assert Key(root)[4] == '\n' && Rstrip(Key(root)) == Key(root);
    assert q[..8] == PRIVATE && q[5..][0] == q[5] == PRIVATE[5] == 'a';
  }

  lemma {:induction false} LineTwice(root: Text)
    requires EndsLine(root)
    ensures SpelledTwice(root)
  {
    assert root[|root| - 1] == '\n' && Rstrip(root) == root;
  }

  /** An aliased path is not in the root the aliases are kept under. */
  lemma {:induction false} AliasIsOut(f: Folding, path: Text)
    requires Folds(f)
    ensures IsAliased(path) ==> Within(f, path, PRIVATE).None?
  {
    var key := Key(path);
    RstripNormal(PRIVATE);
    assert |PRIVATE| == 8 && Key(PRIVATE) == PRIVATE;
    if IsAliased(path) && |key| >= 8 {
      assert key[4] == path[12] == '/' && PRIVATE[4] != '/';
      assert Cased(f, key[..8])[4] != Cased(f, PRIVATE)[4];
    }
  }

  lemma {:induction false} PrivateTwice()
    ensures SpelledTwice(PRIVATE)
  {
    RstripNormal(PRIVATE);
    assert ALIASED[0] in ALIASED && PRIVATE + "/" <= PRIVATE + ALIASED[0];
  }

  /** A path slips only where case is folded, and only where it is not spelled as the root already, unless the
  root's own name ends its line. */
  lemma {:induction false} SlipsByCase(r: Router, path: Text)
    requires RouterOk(r) && Folds(r.folding) && Normal(path) && Slips(r, path)
    ensures
      var root := Owner(r.folding, r.layouts, path).value.localRoot;
      EndsLine(root) || (root == PRIVATE && r.folding.on && path[..8] != PRIVATE)
  {
    hide Cased, Normal, Within, BeginsAliased, IsAliased, EndsLine, Owner;
    if !EndsLine(Owner(r.folding, r.layouts, path).value.localRoot) {
      var f := r.folding;
      var key, s := Key(path), Within(f, path, PRIVATE).value;
      AliasIsOut(f, path);
      OneName(path);
      PrivateIsNormal();
      WithinIs(f, path, PRIVATE);
      KeyNormal(path);
      if |key| > 8 {
        NotThere(key, s);
        PlainCased(f.(on := false), key, PRIVATE);
      } else {
        NothingBegins();
      }
    }
  }

  lemma {:induction false} NothingBegins()
    ensures !BeginsAliased("")
  {
  }

  lemma {:induction false} PrivateIsNormal()
    ensures Normal(PRIVATE) && Key(PRIVATE) == PRIVATE
  {
  }

  lemma {:induction false} NotThere(key: Text, s: Text)
    requires |key| > 8 && key[8] == '/' && s == key[9..] && !IsAliased(key) && BeginsAliased(s)
    ensures key[..8] != PRIVATE
  {
    hide IsAliased, BeginsAliased;
    BelowPrivate(s);
    assert key == key[..8] + "/" + s;
  }

  lemma {:induction false} SpelledAgain(f: Folding, layout: Layout, path: Text, q: Text)
    requires Folds(f) && Normal(path) && Normal(q) && Normal(layout.localRoot)
    requires Within(f, path, layout.localRoot).Some?
             && Within(f, q, layout.localRoot) == Within(f, path, layout.localRoot)
    requires Within(f.(on := false), q, layout.localRoot) == Within(f, path, layout.localRoot)
    ensures Spelled(f, layout, q) == Spelled(f, layout, path)
    ensures ToVirtual(f, layout, q) == ToVirtual(f, layout, path)
  {
    hide Key, Cased, Normal, Within;
    PlainIsWithin(f, path, layout.localRoot);
  }

  /** A root matched by the characters is matched by folding them too, and leaves the same below it. */
  lemma {:induction false} PlainIsWithin(f: Folding, path: Text, root: Text)
    requires Folds(f) && Normal(path) && Normal(root)
    ensures
      var plain, folded := Within(f.(on := false), path, root), Within(f.(on := true), path, root);
      plain.Some? ==> folded == plain
  {
    if root == "/" {
      WithinAll(f.(on := false), path);
      WithinAll(f.(on := true), path);
    } else {
      WithinIs(f.(on := false), path, root);
      WithinIs(f.(on := true), path, root);
      var key, above := Key(path), Key(root);
      if |key| >= |above| && key[..|above|] == above {
        CasedParts(f.(on := true), key, |above|);
        assert |key| > |above| ==> (Cased(f.(on := true), key)[|above|] == '/' <==> key[|above|] == '/');
      }
    }
  }

  /** Where nothing could be spelled two ways, looking through the layouts would change nothing: the
  answer given without looking is the answer. */
  lemma {:induction false} UnlookedIsRight(r: Router, path: Text)
    requires !Settles(r) && Folds(r.folding) && Normal(path) && RootsNormal(r.layouts)
    ensures Settled(r, path) == path
  {
    OwnerHolds(r.folding, r.layouts, path);
    var owner := Owner(r.folding, r.layouts, path);
    if owner.Some? {
      var i :| 0 <= i < |r.layouts| && r.layouts[i] == owner.value;
      assert !SpelledTwice(r.layouts[i].localRoot);
      PlainRoot(r.folding, owner.value, path);
    }
  }

  lemma {:induction false} OneName(path: Text)
    ensures Key(path) == path <==> !IsAliased(path)
  {
    assert IsAliased(path) ==> |path[8..]| < |path|;
  }

  lemma {:induction false} PlainCased(f: Folding, key: Text, root: Text)
    requires !f.on
    ensures Cased(f, key) == key && Cased(f, root) == root
  {
  }

  lemma {:induction false} RootTwice()
    ensures SpelledTwice("/")
  {
    RstripNormal("/");
    assert ALIASED[0] in ALIASED && "" + "/" <= PRIVATE + ALIASED[0];
  }

  /** A root with one name holds nothing that has two. */
  lemma {:induction false} PlainRoot(f: Folding, layout: Layout, path: Text)
    requires !f.on && Folds(f) && Normal(path) && Normal(layout.localRoot) && !SpelledTwice(layout.localRoot)
    requires Within(f, path, layout.localRoot).Some?
    ensures Spelled(f, layout, path) == path
  {
    hide Cased, IsAliased, Normal, Key;
    var root := layout.localRoot;
    RootTwice();
    RstripNormal(root);
    if root != "/" {
      assert Key(root) == root && Key(PRIVATE + root) == PRIVATE + root;
      WithinIs(f, path, root);
      PlainCased(f, Key(path), root);
      OneName(PRIVATE + root);
      AliasedNot(root, path);
      OneName(path);
      if |path| > |root| {
        PathBelow(root, path);
      }
    }
  }

  lemma {:induction false} PathBelow(root: Text, path: Text)
    requires Normal(root) && root != "/" && Normal(path) && |path| > |root| && path[..|root|] == root
             && path[|root|] == '/'
    ensures path[|root| + 1..] != "" && Join(root, path[|root| + 1..]) == path
  {
    var s := path[|root| + 1..];
    assert |path| - 1 != |root|;
    assert s != "" ==> s[0] == path[|root| + 1];
    assert path == root + "/" + s;
  }

  /** Whatever holds an aliased path by its other name is aliased itself. */
  lemma {:induction false} AliasedRoot(root: Text, path: Text)
    requires Normal(root) && root != "/" && Normal(path) && IsAliased(path)
    requires |Key(path)| >= |root| && Key(path)[..|root|] == root && (|Key(path)| == |root| || Key(path)[|root|] == '/')
    ensures IsAliased(PRIVATE + root)
  {
    var key, long := Key(path), PRIVATE + root;
    assert key[..4] == path[8..12];
    AliasLetters(key[..4]);
    assert forall i :: 0 < i < 4 ==> key[i] == key[..4][i];
    assert |root| >= 4;
    assert long[8..12] == root[..4] == key[..4];
    assert long[..8] == PRIVATE;
    assert |root| > 4 ==> long[12] == root[4] == key[4] == path[12];
    assert |root| > 4 && path[12] != '/' ==> path[12..] == "\n" && long[12..] == "\n";
  }

  lemma {:induction false} AliasedNot(root: Text, path: Text)
    requires Normal(root) && root != "/" && Normal(path)
    requires |Key(path)| >= |root| && Key(path)[..|root|] == root && (|Key(path)| == |root| || Key(path)[|root|] == '/')
    ensures IsAliased(path) ==> IsAliased(PRIVATE + root)
  {
    if IsAliased(path) {
      AliasedRoot(root, path);
    }
  }

  /* ---- The path that comes of it ---- */

  /** What is left of a path, slash and all, put below a root. */
  function Put(root: Text, tail: Text): Text {
    if root != "/" then root + tail else if tail == "" then "/" else tail
  }

  /** What is left of a path's key after as many characters as the root's has. */
  function Tail(path: Text, root: Text): Text {
    var key, above := Key(path), if root == "/" then "" else Key(root);
    if key == "/" || |key| < |above| then "" else key[|above|..]
  }

  lemma {:induction false} JoinIs(root: Text, tail: Text)
    requires Normal(root) && |tail| > 1 && tail[0] == '/' && tail[1] != '/'
    ensures Join(root, tail[1..]) == Put(root, tail) && tail[1..] != ""
  {
    assert tail == "/" + tail[1..];
    assert root + "/" + tail[1..] == root + tail;
  }

  /** What is below a root is what its tail leaves, less the slash. */
  lemma {:induction false} TailIs(f: Folding, path: Text, root: Text)
    requires Folds(f) && Normal(path) && Normal(root) && Within(f, path, root).Some?
    ensures
      var tail := Tail(path, root);
      if tail == "" then Within(f, path, root) == Some("")
      else |tail| > 1 && tail[0] == '/' && tail[1] != '/' && Within(f, path, root) == Some(tail[1..])
  {
    var key := Key(path);
    KeyNormal(path);
    KeyNormal(root);
    if root == "/" {
      WithinAll(f, path);
      assert key[0..] == key && (key == "/" ==> key[1..] == "");
    } else {
      WithinIs(f, path, root);
      var above := Key(root);
      if |key| > |above| {
        assert key[|above|..][1..] == key[|above| + 1..];
        assert key[|key| - 1] != '/';
      }
    }
  }

  lemma {:induction false} PutBelow(f: Folding, path: Text, root: Text, other: Text)
    requires Folds(f) && Normal(path) && Normal(root) && Normal(other) && Within(f, path, root).Some?
    ensures
      var s := Within(f, path, root).value;
      (if s == "" then other else Join(other, s)) == Put(other, Tail(path, root))
  {
    hide Normal, Key, Within, Join, Tail;
    TailIs(f, path, root);
    if Tail(path, root) != "" {
      JoinIs(other, Tail(path, root));
    } else {
      assert other + "" == other;
    }
  }

  /** The target's name for a path: the layout's root there, and then the path's key from where the local root's
  ends.  There is one exactly where the key begins, but for case, as the root's does, and goes on below it. */
  lemma {:induction false} ToVirtualIs(f: Folding, layout: Layout, path: Text)
    requires Folds(f) && Normal(path) && Normal(layout.localRoot) && Normal(layout.virtualRoot)
    ensures
      var named, key, above := ToVirtual(f, layout, path), Key(path), Key(layout.localRoot);
      && (layout.localRoot == "/" ==> named.Some?)
      && (layout.localRoot != "/" ==>
            (named.Some? <==>
               |key| >= |above| && (forall i :: 0 <= i < |above| ==> f.fold(key[i]) == f.fold(above[i]))
               && (|key| == |above| || key[|above|] == '/')))
      && (named.Some? ==> named.value == Put(layout.virtualRoot, Tail(path, layout.localRoot)))
  {
    hide Normal, Key, Within, Join, Tail, Put;
    var root, plain, folded := layout.localRoot, f.(on := false), f.(on := true);
    PlainIsWithin(f, path, root);
    if Within(plain, path, root).Some? {
      PutBelow(plain, path, root, layout.virtualRoot);
    } else if Within(folded, path, root).Some? {
      PutBelow(folded, path, root, layout.virtualRoot);
    }
    if root == "/" {
      WithinAll(plain, path);
    } else {
      FoldedIs(folded, path, root);
    }
  }

  lemma {:induction false} FoldedIs(f: Folding, path: Text, root: Text)
    requires f.on && Folds(f) && Normal(path) && Normal(root) && root != "/"
    ensures
      var key, above := Key(path), Key(root);
      Within(f, path, root).Some? <==>
        |key| >= |above| && (forall i :: 0 <= i < |above| ==> f.fold(key[i]) == f.fold(above[i]))
        && (|key| == |above| || key[|above|] == '/')
  {
    hide Within, Key, Normal;
    WithinIs(f, path, root);
    var key, above := Key(path), Key(root);
    if |key| >= |above| {
      var a, b := Cased(f, key)[..|above|], Cased(f, above);
      assert forall i :: 0 <= i < |above| ==> a[i] == f.fold(key[i]) && b[i] == f.fold(above[i]);
      assert a == b <==> forall i :: 0 <= i < |above| ==> a[i] == b[i];
    }
  }

  /** Where a path is put: onto its owner's own root, with what is below that as it came; and left alone where it
  has no owner. */
  lemma {:induction false} CanonicalIs(r: Router, path: Text)
    requires RouterOk(r) && Folds(r.folding) && Normal(path)
    ensures
      match Owner(r.folding, r.layouts, path)
      case None => Canonical(r, path) == path
      case Some(owner) => Canonical(r, path) == Put(owner.localRoot, Tail(path, owner.localRoot))
  {
    hide Normal, Key, Within, Join, Tail, Put;
    OwnerHolds(r.folding, r.layouts, path);
    var owner := Owner(r.folding, r.layouts, path);
    if owner.Some? {
      var i :| 0 <= i < |r.layouts| && r.layouts[i] == owner.value;
      PutBelow(r.folding, path, owner.value.localRoot, owner.value.localRoot);
    }
    if !Settles(r) {
      UnlookedIsRight(r, path);
    }
  }

  /** A path is the mirror's where some layout holds it and no hole does: then it is the layout's that owns it. */
  lemma {:induction false} MirroredWhereNotHoled(r: Router, path: Text)
    ensures
      var holed := exists i :: 0 <= i < |r.localPaths| && Within(r.folding, path, r.localPaths[i]).Some?;
      && (LayoutFor(r, path).Some? <==>
            !holed && exists i :: 0 <= i < |r.layouts| && Within(r.folding, path, r.layouts[i].localRoot).Some?)
      && (LayoutFor(r, path).Some? ==> LayoutFor(r, path) == Owner(r.folding, r.layouts, path))
  {
    OwnerHolds(r.folding, r.layouts, path);
    OwnerMissed(r.folding, r.layouts, path);
  }

  lemma {:induction false} OwnerMissed(f: Folding, layouts: seq<Layout>, path: Text)
    ensures Owner(f, layouts, path).None? ==> forall i :: 0 <= i < |layouts| ==>
              Within(f, path, layouts[i].localRoot).None?
  {
    if layouts != [] {
      OwnerMissed(f, layouts[1..], path);
      assert forall i :: 1 <= i < |layouts| ==> layouts[i] == layouts[1..][i - 1];
    }
  }

  /* ---- Longest root first ---- */

  function Depth(layout: Layout): nat {
    |Key(layout.localRoot)|
  }

  function Deeper(): (Layout, Layout) -> bool {
    (a: Layout, b: Layout) => Depth(a) >= Depth(b)
  }

  /** The layouts as a router keeps them: the longest root first, and otherwise as they were given. */
  function Ordered(layouts: seq<Layout>): seq<Layout> {
    Sort(layouts, Deeper())
  }

  predicate Descends(layouts: seq<Layout>) {
    forall i, j :: 0 <= i < j < |layouts| ==> Depth(layouts[i]) >= Depth(layouts[j])
  }

  lemma {:induction false} OrderedOrders(layouts: seq<Layout>)
    ensures Descends(Ordered(layouts)) && multiset(Ordered(layouts)) == multiset(layouts)
  {
    hide Sort, Depth;
    SortHolds(layouts, Deeper());
  }

  lemma {:induction false} FirstOwns(f: Folding, layouts: seq<Layout>, path: Text, i: nat)
    requires Descends(layouts) && i < |layouts| && Within(f, path, layouts[i].localRoot).Some?
    ensures Owner(f, layouts, path).Some? && Depth(Owner(f, layouts, path).value) >= Depth(layouts[i])
  {
    if i > 0 && Within(f, path, layouts[0].localRoot).None? {
      FirstOwns(f, layouts[1..], path, i - 1);
    }
  }

  /** A nested layout wins over the ones it is in: of all those that hold a path, in whatever order they
  were given, its owner is one whose root is longest. */
  lemma {:induction false} DeepestOwns(f: Folding, layouts: seq<Layout>, path: Text)
    ensures
      match Owner(f, Ordered(layouts), path)
      case None => forall l :: l in layouts ==> Within(f, path, l.localRoot).None?
      case Some(owner) =>
        owner in layouts && Within(f, path, owner.localRoot).Some?
        && forall l :: l in layouts && Within(f, path, l.localRoot).Some? ==> Depth(owner) >= Depth(l)
  {
    var ordered := Ordered(layouts);
    OrderedOrders(layouts);
    OwnerHolds(f, ordered, path);
    assert forall l :: l in ordered <==> l in multiset(ordered);
    assert forall l :: l in layouts <==> l in multiset(layouts);
    forall l | l in layouts && Within(f, path, l.localRoot).Some?
      ensures Owner(f, ordered, path).Some? && Depth(Owner(f, ordered, path).value) >= Depth(l)
    {
      var i :| 0 <= i < |ordered| && ordered[i] == l;
      FirstOwns(f, ordered, path, i);
    }
  }

  /** A layout rooted where the aliases are kept: a path in it by another case is put where the alias takes
  it out again. */
  lemma {:induction false} PrivateRootLoses(f: Folding)
    requires f.on && Folds(f) && Cased(f, "/PRIVATE") == Cased(f, PRIVATE)
    ensures
      var r := Router([Layout(PRIVATE, "/")], [], f);
      LayoutFor(r, "/PRIVATE/tmp").Some? && LayoutFor(r, Canonical(r, "/PRIVATE/tmp")).None?
  {
    var r, path, there := Router([Layout(PRIVATE, "/")], [], f), "/PRIVATE/tmp", "/private/tmp";
    assert path[..8][1] == 'P' && PRIVATE[1] == 'p';
    assert there[..8] == PRIVATE && there[8..12] == ALIASED[1];
    assert !IsAliased(path) && !IsAliased(PRIVATE) && IsAliased(there);
    assert Rstrip(PRIVATE) == PRIVATE;
    assert path[..8] == "/PRIVATE" && path[8..] == "/tmp" && "/tmp"[1..] == "tmp";
    assert Within(f, path, PRIVATE) == Some("tmp");
    assert Join(PRIVATE, "tmp") == there;
    assert Key(there) == "/tmp" == there[8..];
    assert r.layouts[1..] == [];
    assert Canonical(r, path) == there;
    assert Within(f, there, PRIVATE).None?;
    assert Owner(f, r.layouts, there) == Owner(f, r.layouts[1..], there) == None;
  }

  /** A layout rooted at an aliased directory whose name ends in a line: what is below it is put where it is out of
  it, whatever its case. */
  lemma {:induction false} LineRootLoses(f: Folding)
    requires Folds(f)
    ensures
      var r := Router([Layout("/private/tmp\n", "/")], [], f);
      LayoutFor(r, "/tmp\n/x").Some? && LayoutFor(r, Canonical(r, "/tmp\n/x")).None?
  {
    hide Within, Spelled, SpelledTwice, Normal;
    var root, path: Text := "/private/tmp\n", "/tmp\n/x";
    var r := Router([Layout(root, "/")], [], f);
    var key := path[..5];
    LineIsAliased(root, path, key);
    WithinIs(f, path, root);
    CasedParts(f, path, 5);
    SlippedIsOut(r, path);
    assert r.layouts[1..] == [];
    assert Owner(f, r.layouts, Canonical(r, path)) == Owner(f, r.layouts[1..], Canonical(r, path)) == None;
  }

  lemma {:induction false} LineIsAliased(root: Text, path: Text, key: Text)
    requires root == "/private/tmp\n" && path == "/tmp\n/x" && key == path[..5]
    ensures EndsLine(root) && Key(root) == key && Key(path) == path && Normal(root) && Normal(path)
    ensures path[5] == '/' && path[6..] == "x"
  {
    assert root[..8] == PRIVATE && root[8..12] == ALIASED[1] && root[12..] == "\n";
    assert root[8..] == "/tmp\n" == key;
  }
}
