/** The directories a flow carries to a target: any number of turns, each a process of its own, that
plant or share one directory there and take it away with the last of them.  What one turn does in one
breath is an act; the acts of all of them interleave anyhow. */
module Claims {
  import opened Prelude

  type Turn = nat

  /** Where a turn stands with the directory.  `Holding` says whether its claim was written: the
  script that writes it is not asked how it went. */
  datatype Phase =
    | Idle
    | Nothing
    | Made
    | Claiming
    | Something
    | Sharing
    | Holding(claimed: bool)
    | Releasing
    | Removing
    | Aside
    | Gone

  /** The directory, the claims in it where it has a claims directory, what else it holds, and
  whether it is the project's own. */
  datatype Target = Target(there: bool, claims: Option<set<Turn>>, files: map<Name, string>, own: bool)

  datatype State = State(target: Target, turns: map<Turn, Phase>)

  /** `Stat` may not be able to tell, which counts as something there. */
  datatype Act =
    | Stat(unsure: bool)
    | TestClaims
    | Share
    | MakeDirectory
    | Write(name: Name, text: string)
    | MakeClaims
    | Claim
    | GiveUp
    | RemoveClaims
    | RemoveAll

  function PhaseOf(s: State, u: Turn): Phase {
    if u in s.turns then s.turns[u] else Idle
  }

  function Goes(s: State, u: Turn, phase: Phase): State {
    s.(turns := s.turns[u := phase])
  }

  /** One act of one turn; an act that is not the turn's next changes nothing. */
  function Next(s: State, u: Turn, act: Act): State {
    var t := s.target;
    match (PhaseOf(s, u), act)
    case (Idle, Stat(unsure)) => Goes(s, u, if t.there || unsure then Something else Nothing)
    case (Something, TestClaims) => Goes(s, u, if t.claims.Some? then Sharing else Aside)
    case (Sharing, Share) =>
      if t.claims.Some? then Goes(s.(target := t.(claims := Some(t.claims.value + {u}))), u, Holding(true))
      else Goes(s, u, Aside)
    case (Nothing, MakeDirectory) => Goes(s.(target := t.(there := true)), u, Made)
    case (Made, Write(name, text)) => if t.there then s.(target := t.(files := t.files[name := text])) else s
    case (Made, MakeClaims) =>
      Goes(s.(target := t.(there := true, claims := if t.claims.Some? then t.claims else Some({}))), u, Claiming)
    case (Claiming, Claim) =>
      if t.claims.Some? then Goes(s.(target := t.(claims := Some(t.claims.value + {u}))), u, Holding(true))
      else Goes(s, u, Holding(false))
    case (Holding(_), GiveUp) =>
      Goes(if t.claims.Some? then s.(target := t.(claims := Some(t.claims.value - {u}))) else s, u, Releasing)
    case (Releasing, RemoveClaims) =>
      if t.claims == Some({}) then Goes(s.(target := t.(claims := None)), u, Removing)
      else Goes(s, u, Gone)
    case (Removing, RemoveAll) => Goes(s.(target := t.(there := false, claims := None, files := map[])), u, Gone)
    case _ => s
  }

  datatype Did = Did(turn: Turn, act: Act)

  function Run(s: State, dids: seq<Did>): State
    decreases |dids|
  {
    if dids == [] then s else Run(Next(s, dids[0].turn, dids[0].act), dids[1..])
  }

  /** Nobody has started, and the directory is not there, or is the project's. */
  predicate Starts(s: State) {
    s.turns == map[] && s.target.claims.None? && s.target.there == s.target.own
    && (!s.target.own ==> s.target.files == map[])
  }

  /* ---- Nothing planted outlives its turns ---- */

  /** Whether a turn has still to take away the claims directory. */
  predicate Returns(phase: Phase) {
    phase.Claiming? || phase.Holding? || phase.Releasing?
  }

  predicate Someone(s: State, wanted: Phase -> bool) {
    exists u :: u in s.turns && wanted(s.turns[u])
  }

  predicate Planting(phase: Phase) {
    phase.Made? || phase.Removing?
  }

  /** What every act keeps: claims are of turns that hold them, and whatever was planted is some
  turn's still to take away. */
  predicate Accounted(s: State) {
    && (s.target.claims.Some? ==>
          s.target.there && !s.target.own
          && (forall u :: u in s.target.claims.value ==> PhaseOf(s, u) == Holding(true))
          && Someone(s, Returns))
    && (s.target.there && !s.target.own && s.target.claims.None? ==> Someone(s, Planting))
  }

  lemma {:induction false} StillSomeone(s: State, s1: State, u: Turn, wanted: Phase -> bool)
    requires forall v :: v in s.turns && v != u ==> v in s1.turns && s1.turns[v] == s.turns[v]
    requires Someone(s, wanted) && (u in s.turns ==> !wanted(s.turns[u]))
    ensures Someone(s1, wanted)
  {
    var v :| v in s.turns && wanted(s.turns[v]);
    assert s1.turns[v] == s.turns[v];
  }

  lemma {:induction false} ActAccounted(s: State, u: Turn, act: Act)
    requires Accounted(s) && Spared(s)
    ensures Accounted(Next(s, u, act))
  {
    if PhaseOf(s, u).Releasing? && act.RemoveClaims? {
      RemoveAccounted(s, u);
    } else if PhaseOf(s, u).Made? || PhaseOf(s, u).Removing? || Returns(PhaseOf(s, u)) {
      HolderAccounted(s, u, act);
    } else {
      var s1 := Next(s, u, act);
      if Someone(s, Returns) {
        StillSomeone(s, s1, u, Returns);
      }
      if Someone(s, Planting) {
        StillSomeone(s, s1, u, Planting);
      }
      if act.MakeDirectory? && PhaseOf(s, u).Nothing? {
        assert Planting(s1.turns[u]);
      }
      assert act.Share? && PhaseOf(s, u).Sharing? ==> Returns(s1.turns[u]) || s.target.claims.None?;
    }
  }

  lemma {:induction false} HolderAccounted(s: State, u: Turn, act: Act)
    requires Accounted(s) && Spared(s)
    requires PhaseOf(s, u).Made? || PhaseOf(s, u).Removing? || Returns(PhaseOf(s, u))
    requires !(PhaseOf(s, u).Releasing? && act.RemoveClaims?)
    ensures Accounted(Next(s, u, act))
  {
    var s1 := Next(s, u, act);
    if s1.turns != s.turns && !act.RemoveAll? {
      assert Returns(s1.turns[u]);
      if Someone(s, Planting) && Returns(PhaseOf(s, u)) {
        StillSomeone(s, s1, u, Planting);
      }
    }
  }

  /** The last claim given up takes the claims away; where another stands, its turn is still to come. */
  lemma {:induction false} RemoveAccounted(s: State, u: Turn)
    requires Accounted(s) && PhaseOf(s, u).Releasing?
    ensures Accounted(Next(s, u, RemoveClaims))
  {
    var s1 := Next(s, u, RemoveClaims);
    if s.target.claims == Some({}) {
      assert Planting(s1.turns[u]);
    } else if s.target.claims.Some? {
      assert s.target.claims.value != {};
      var v :| v in s.target.claims.value;
      assert PhaseOf(s, v) == Holding(true);
      assert s1.turns[v] == Holding(true) && Returns(s1.turns[v]);
    } else if Someone(s, Planting) {
      StillSomeone(s, s1, u, Planting);
    }
  }

  /** What the project owns no turn has got past looking at. */
  predicate Spared(s: State) {
    s.target.own ==>
      s.target.there && s.target.claims.None?
      && forall u :: u in s.turns ==> s.turns[u] in {Idle, Something, Aside}
  }

  lemma {:induction false} ActSpares(s: State, u: Turn, act: Act)
    requires Spared(s)
    ensures Spared(Next(s, u, act)) && Next(s, u, act).target.own == s.target.own
    ensures s.target.own ==> Next(s, u, act).target == s.target
  {
  }

  lemma {:induction false} RunAccounted(s: State, dids: seq<Did>)
    requires Accounted(s) && Spared(s)
    ensures Accounted(Run(s, dids)) && Spared(Run(s, dids))
    ensures Run(s, dids).target.own == s.target.own && (s.target.own ==> Run(s, dids).target == s.target)
    decreases |dids|
  {
    if dids != [] {
      ActAccounted(s, dids[0].turn, dids[0].act);
      ActSpares(s, dids[0].turn, dids[0].act);
      RunAccounted(Next(s, dids[0].turn, dids[0].act), dids[1..]);
    }
  }

  /** Whether a turn has nothing more to do, or has yet to begin. */
  predicate Over(phase: Phase) {
    phase in {Idle, Aside, Gone}
  }

  /** However the acts of however many turns interleave: once every turn that began is over, a
  directory that was not the project's is gone. */
  lemma {:induction false} NothingPlantedOutlives(s: State, dids: seq<Did>)
    requires Starts(s) && !s.target.own
    requires forall u :: u in Run(s, dids).turns ==> Over(Run(s, dids).turns[u])
    ensures !Run(s, dids).target.there
  {
    RunAccounted(s, dids);
  }

  /** And one that was the project's is as it was, whatever any turn does. */
  lemma {:induction false} ProjectsOwnUntouched(s: State, dids: seq<Did>)
    requires Starts(s) && s.target.own
    ensures Run(s, dids).target == s.target
  {
    RunAccounted(s, dids);
  }

  /* ---- A claim protects ---- */

  /** Between finding nothing there and having a claims directory made. */
  predicate InWindow(phase: Phase) {
    phase.Nothing? || phase.Made?
  }

  predicate Crowded(s: State) {
    exists u, v :: u in s.turns && v in s.turns && u != v && InWindow(s.turns[u]) && InWindow(s.turns[v])
  }

  predicate NoneIn(s: State, which: Phase -> bool) {
    forall u :: u in s.turns ==> !which(s.turns[u])
  }

  /** What an uncrowded run keeps: a claim written stands, and a turn about to remove the directory
  is alone with it. */
  predicate Protected(s: State) {
    && (s.target.claims.Some? ==> s.target.there && NoneIn(s, InWindow))
    && (forall u :: u in s.turns && s.turns[u] == Holding(true) ==>
          s.target.claims.Some? && u in s.target.claims.value)
    && (forall u :: u in s.turns && s.turns[u].Removing? ==>
          s.target.there && s.target.claims.None? && NoneIn(s, InWindow)
          && forall v :: v in s.turns && v != u ==> !s.turns[v].Removing?)
  }

  lemma {:induction false} ActProtects(s: State, u: Turn, act: Act)
    requires Protected(s) && !Crowded(s)
    ensures Protected(Next(s, u, act))
  {
    if act.MakeClaims? && PhaseOf(s, u).Made? {
      ClaimsProtect(s, u);
    } else if PhaseOf(s, u).Holding? || PhaseOf(s, u).Releasing? || PhaseOf(s, u).Removing? {
      ReleaseProtects(s, u, act);
    }
  }

  lemma {:induction false} ClaimsProtect(s: State, u: Turn)
    requires Protected(s) && !Crowded(s) && PhaseOf(s, u).Made?
    ensures Protected(Next(s, u, MakeClaims))
  {
    var s1 := Next(s, u, MakeClaims);
    forall v | v in s1.turns
      ensures !InWindow(s1.turns[v])
    {
    }
  }

  lemma {:induction false} ReleaseProtects(s: State, u: Turn, act: Act)
    requires Protected(s) && (PhaseOf(s, u).Holding? || PhaseOf(s, u).Releasing? || PhaseOf(s, u).Removing?)
    ensures Protected(Next(s, u, act))
  {
  }

  predicate Uncrowded(s: State, dids: seq<Did>)
    decreases |dids|
  {
    !Crowded(s) && (dids != [] ==> Uncrowded(Next(s, dids[0].turn, dids[0].act), dids[1..]))
  }

  /** While no two turns are in the window together, a claim that was written and has not been given
  up is still there, and so is the directory. */
  lemma {:induction false} ClaimProtects(s: State, dids: seq<Did>, u: Turn)
    requires (Starts(s) || Protected(s)) && Uncrowded(s, dids)
    requires PhaseOf(Run(s, dids), u) == Holding(true)
    ensures Run(s, dids).target.there && Run(s, dids).target.claims.Some?
    ensures u in Run(s, dids).target.claims.value
    decreases |dids|
  {
    if dids != [] {
      ActProtects(s, dids[0].turn, dids[0].act);
      ClaimProtects(Next(s, dids[0].turn, dids[0].act), dids[1..], u);
    }
  }

  /** The first crowding of a run finds nothing there. */
  lemma {:induction false} FirstCrowding(s: State, u: Turn, act: Act)
    requires Protected(s) && !Crowded(s) && Crowded(Next(s, u, act))
    ensures !Next(s, u, act).target.there
  {
  }

  ghost predicate OthersStand(s: State, s1: State, u: Turn) {
    forall v :: v != u ==> PhaseOf(s1, v) == PhaseOf(s, v)
  }

  lemma {:induction false} Plants(s: State, before: seq<Did>, u: Turn) returns (dids: seq<Did>)
    requires Run(s, before).target.claims.None? && InWindow(PhaseOf(Run(s, before), u))
    ensures PhaseOf(Run(s, dids), u) == Holding(true) && Run(s, dids).target.claims == Some({u})
    ensures OthersStand(Run(s, before), Run(s, dids), u)
  {
    hide Run;
    dids := Then(s, before, u, MakeDirectory);
    dids := Then(s, dids, u, MakeClaims);
    var none: set<Turn> := {};
    assert none + {u} == {u};
    dids := Then(s, dids, u, Claim);
  }

  lemma {:induction false} GivesUp(s: State, before: seq<Did>, u: Turn) returns (dids: seq<Did>)
    requires PhaseOf(Run(s, before), u) == Holding(true) && Run(s, before).target.claims == Some({u})
    ensures PhaseOf(Run(s, dids), u) == Removing && Run(s, dids).target.claims == None
    ensures OthersStand(Run(s, before), Run(s, dids), u)
  {
    hide Run;
    dids := Then(s, before, u, GiveUp);
    assert {u} - {u} == {};
    dids := Then(s, dids, u, RemoveClaims);
  }

  lemma {:induction false} RunMore(s: State, dids: seq<Did>, did: Did)
    ensures Run(s, dids + [did]) == Next(Run(s, dids), did.turn, did.act)
    decreases |dids|
  {
    if dids != [] {
      assert (dids + [did])[1..] == dids[1..] + [did];
      RunMore(Next(s, dids[0].turn, dids[0].act), dids[1..], did);
    } else {
      assert dids + [did] == [did] && [did][1..] == [];
    }
  }

  /** And from any crowding that finds nothing there, some interleaving takes the directory out from
  under a claim that was written and not given up. */
  lemma {:induction false} CrowdingLosesAClaim(s: State, u: Turn, v: Turn) returns (dids: seq<Did>)
    requires !s.target.there && s.target.claims.None?
    requires u != v && InWindow(PhaseOf(s, u)) && InWindow(PhaseOf(s, v))
    ensures PhaseOf(Run(s, dids), v) == Holding(true) && !Run(s, dids).target.there
  {
    hide Run, Next;
    NothingRun(s);
    dids := Plants(s, [], u);
    dids := GivesUp(s, dids, u);
    dids := Plants(s, dids, v);
    dids := Then(s, dids, u, RemoveAll);
    assert dids[..|dids| - 1] + [Did(u, RemoveAll)] == dids;
    RemovesAll(Run(s, dids[..|dids| - 1]), u);
  }

  lemma {:induction false} Then(s: State, dids: seq<Did>, u: Turn, act: Act) returns (more: seq<Did>)
    ensures more == dids + [Did(u, act)]
    ensures Run(s, more) == Next(Run(s, dids), u, act) && (dids == [] ==> Run(s, dids) == s)
  {
    more := dids + [Did(u, act)];
    RunMore(s, dids, Did(u, act));
  }

  lemma {:induction false} RemovesAll(s: State, u: Turn)
    requires PhaseOf(s, u).Removing?
    ensures !Next(s, u, RemoveAll).target.there
    ensures forall v :: v != u ==> PhaseOf(Next(s, u, RemoveAll), v) == PhaseOf(s, v)
  {
  }

  lemma {:induction false} NothingRun(s: State)
    ensures Run(s, []) == s && (Uncrowded(s, []) <==> !Crowded(s)) && (s.turns == map[] ==> !Crowded(s))
  {
  }

  lemma {:induction false} RunAppend(s: State, dids: seq<Did>, more: seq<Did>)
    ensures Run(s, dids + more) == Run(Run(s, dids), more)
    decreases |dids|
  {
    if dids == [] {
      assert dids + more == more;
    } else {
      assert (dids + more)[1..] == dids[1..] + more;
      RunAppend(Next(s, dids[0].turn, dids[0].act), dids[1..], more);
    }
  }

  lemma {:induction false} ProtectedThrough(s: State, dids: seq<Did>)
    requires (Starts(s) || Protected(s)) && Uncrowded(s, dids)
    ensures Protected(Run(s, dids)) && !Crowded(Run(s, dids))
    decreases |dids|
  {
    if dids != [] {
      ActProtects(s, dids[0].turn, dids[0].act);
      ProtectedThrough(Next(s, dids[0].turn, dids[0].act), dids[1..]);
    }
  }

  /** The protection is lost with its assumption: from the first moment of any run at which two turns are in the
  window together, the acts can go on so that a claim written and not given up stands in nothing. */
  lemma {:induction false} CrowdedRunsCanLose(s: State, dids: seq<Did>, last: Did) returns (more: seq<Did>, v: Turn)
    requires Starts(s) && Uncrowded(s, dids) && Crowded(Run(s, dids + [last]))
    ensures PhaseOf(Run(s, dids + [last] + more), v) == Holding(true)
    ensures !Run(s, dids + [last] + more).target.there
  {
    ProtectedThrough(s, dids);
    RunMore(s, dids, last);
    var before, now := Run(s, dids), Run(s, dids + [last]);
    ActProtects(before, last.turn, last.act);
    FirstCrowding(before, last.turn, last.act);
    var u :| u in now.turns && InWindow(now.turns[u]) && exists w :: w in now.turns && w != u && InWindow(now.turns[w]);
    v :| v in now.turns && v != u && InWindow(now.turns[v]);
    more := CrowdingLosesAClaim(now, u, v);
    RunAppend(s, dids + [last], more);
  }

  /* ---- What a turn comes to ---- */

  /** What one act may touch: nobody else's standing; files only as they are written, or as all is removed; and
  another's claim only as all is removed. */
  lemma {:induction false} ActTouches(s: State, u: Turn, act: Act)
    ensures
      var s1 := Next(s, u, act);
      var removes := PhaseOf(s, u).Removing? && act.RemoveAll?;
      && (forall v :: v != u ==> PhaseOf(s1, v) == PhaseOf(s, v))
      && s1.target.own == s.target.own
      && (removes ==> !s1.target.there && s1.target.claims.None? && s1.target.files == map[])
      && (!removes ==> s.target.there ==> s1.target.there)
      && (!removes && !(PhaseOf(s, u).Made? && act.Write?) ==> s1.target.files == s.target.files)
      && (!removes && s.target.claims.Some? ==>
            forall v :: v != u && v in s.target.claims.value ==> s1.target.claims.Some? && v in s1.target.claims.value)
  {
  }

  /** A turn plants only where it was told that there is nothing: what it could not tell is something there. */
  lemma {:induction false} LooksFirst(s: State, u: Turn, unsure: bool)
    requires PhaseOf(s, u).Idle?
    ensures
      var s1 := Next(s, u, Stat(unsure));
      && s1.target == s.target && (PhaseOf(s1, u).Nothing? || PhaseOf(s1, u).Something?)
      && (PhaseOf(s1, u).Nothing? <==> !s.target.there && !unsure)
  {
  }

  /** What a turn writes, of what it carries. */
  function Writing(u: Turn, files: seq<(Name, string)>): (dids: seq<Did>)
    ensures |dids| == |files|
    ensures forall i :: 0 <= i < |files| ==> dids[i] == Did(u, Write(files[i].0, files[i].1))
  {
    seq(|files|, i requires 0 <= i < |files| => Did(u, Write(files[i].0, files[i].1)))
  }

  function Filled(files: map<Name, string>, more: seq<(Name, string)>): map<Name, string>
    decreases |more|
  {
    if more == [] then files else Filled(files[more[0].0 := more[0].1], more[1..])
  }

  lemma {:induction false} WritesAll(s: State, u: Turn, files: seq<(Name, string)>)
    requires PhaseOf(s, u).Made? && s.target.there
    ensures Run(s, Writing(u, files)) == s.(target := s.target.(files := Filled(s.target.files, files)))
    decreases |files|
  {
    if files != [] {
      var did := Did(u, Write(files[0].0, files[0].1));
      var s1 := Next(s, u, did.act);
      assert Writing(u, files)[0] == did && Writing(u, files)[1..] == Writing(u, files[1..]);
      WritesAll(s1, u, files[1..]);
    }
  }

  /** A turn told there is nothing, and left to itself, ends up holding the directory, with just what it carries in
  it and its own claim. */
  lemma {:induction false} PlantsWhole(s: State, u: Turn, files: seq<(Name, string)>)
    requires PhaseOf(s, u).Nothing? && !s.target.there && s.target.claims.None?
    ensures
      var s1 := Run(s, [Did(u, MakeDirectory)] + Writing(u, files) + [Did(u, MakeClaims), Did(u, Claim)]);
      && PhaseOf(s1, u) == Holding(true)
      && s1.target == s.target.(there := true, claims := Some({u}), files := Filled(s.target.files, files))
  {
    var made := Next(s, u, MakeDirectory);
    WritesAll(made, u, files);
    var first, rest := [Did(u, MakeDirectory)], [Did(u, MakeClaims), Did(u, Claim)];
    RunAppend(s, first + Writing(u, files), rest);
    RunAppend(s, first, Writing(u, files));
    assert Run(s, first) == made by {
      RunMore(s, [], Did(u, MakeDirectory));
      assert [] + first == first;
    }
    var filled := Run(made, Writing(u, files));
    var none: set<Turn> := {};
    assert none + {u} == {u};
    TwoDone(filled, Did(u, MakeClaims), Did(u, Claim));
  }

  lemma {:induction false} TwoDone(s: State, a: Did, b: Did)
    ensures Run(s, [a, b]) == Next(Next(s, a.turn, a.act), b.turn, b.act)
  {
    RunMore(s, [a], b);
    RunMore(s, [], a);
    assert [a] + [b] == [a, b] && [] + [a] == [a];
  }

  /** A turn that finds the directory, and the claims of another in it when it tests and when it shares, holds it
  as well: its claim is with the others, and nothing else has changed. */
  lemma {:induction false} SharesWhereClaimed(s: State, u: Turn)
    requires s.target.claims.Some?
    ensures PhaseOf(s, u).Something? ==>
              PhaseOf(Next(s, u, TestClaims), u) == Sharing && Next(s, u, TestClaims).target == s.target
    ensures PhaseOf(s, u).Sharing? ==>
              PhaseOf(Next(s, u, Share), u) == Holding(true)
              && Next(s, u, Share).target == s.target.(claims := Some(s.target.claims.value + {u}))
  {
  }

  predicate GivesItUp(dids: seq<Did>, u: Turn) {
    exists i :: 0 <= i < |dids| && dids[i] == Did(u, GiveUp)
  }

  /** Over every uncrowded run: from when a turn holds the directory until it gives it up, the directory is there,
  with the same in it and its claim, whoever else comes and goes, and whoever planted it. */
  lemma {:induction false} StaysWhileHeld(s: State, dids: seq<Did>, u: Turn)
    requires Protected(s) && Uncrowded(s, dids) && PhaseOf(s, u) == Holding(true) && !GivesItUp(dids, u)
    ensures
      var s1 := Run(s, dids);
      && PhaseOf(s1, u) == Holding(true) && s1.target.there && s1.target.files == s.target.files
      && s1.target.claims.Some? && u in s1.target.claims.value
    decreases |dids|
  {
    if dids != [] {
      var did := dids[0];
      assert did != Did(u, GiveUp);
      ActProtects(s, did.turn, did.act);
      ActTouches(s, did.turn, did.act);
      assert forall i :: 0 <= i < |dids[1..]| ==> dids[1..][i] == dids[i + 1];
      StaysWhileHeld(Next(s, did.turn, did.act), dids[1..], u);
    }
  }

  /** Over every run: a turn shares what another planted, and keeps it after that other has gone.  One finds the
  claims of one that holds when it tests and when it shares, and whatever happens then, in an uncrowded run, until
  it gives up, it holds the directory as it was. */
  lemma {:induction false} SharedOutlivesPlanter(s: State, between: seq<Did>, after: seq<Did>, u: Turn, v: Turn)
    requires Protected(s) && u != v && PhaseOf(s, v) == Holding(true) && PhaseOf(s, u).Something?
    requires Uncrowded(s, [Did(u, TestClaims)] + between + [Did(u, Share)] + after)
    requires !GivesItUp(between, v) && !GivesItUp(after, u) && forall i :: 0 <= i < |between| ==> between[i].turn != u
    ensures
      var s1 := Run(s, [Did(u, TestClaims)] + between + [Did(u, Share)] + after);
      && PhaseOf(s1, u) == Holding(true) && s1.target.there && s1.target.files == s.target.files
      && s1.target.claims.Some? && u in s1.target.claims.value
  {
    hide Next;
    var first, last := [Did(u, TestClaims)], [Did(u, Share)];
    UncrowdedParts(s, first + between + last, after);
    UncrowdedParts(s, first + between, last);
    UncrowdedParts(s, first, between);
    RunAppend(s, first + between + last, after);
    RunAppend(s, first + between, last);
    RunAppend(s, first, between);
    ProtectedThrough(s, first);
    OneDone(s, Did(u, TestClaims));
    ClaimProtects(s, [], v);
    assert Run(s, []) == s;
    SharesWhereClaimed(s, u);
    ActTouches(s, u, TestClaims);
    var tested := Run(s, first);
    StaysWhileHeld(tested, between, v);
    StandsStill(tested, between, u);
    var found := Run(tested, between);
    ProtectedThrough(tested, between);
    SharesWhereClaimed(found, u);
    OneDone(found, Did(u, Share));
    ActProtects(found, u, Share);
    StaysWhileHeld(Run(found, last), after, u);
  }

  lemma {:induction false} OneDone(s: State, did: Did)
    ensures Run(s, [did]) == Next(s, did.turn, did.act)
  {
    RunMore(s, [], did);
    assert [] + [did] == [did];
  }

  lemma {:induction false} StandsStill(s: State, dids: seq<Did>, u: Turn)
    requires forall i :: 0 <= i < |dids| ==> dids[i].turn != u
    ensures PhaseOf(Run(s, dids), u) == PhaseOf(s, u)
    decreases |dids|
  {
    if dids != [] {
      ActTouches(s, dids[0].turn, dids[0].act);
      assert forall i :: 0 <= i < |dids[1..]| ==> dids[1..][i] == dids[i + 1];
      StandsStill(Next(s, dids[0].turn, dids[0].act), dids[1..], u);
    }
  }

  lemma {:induction false} UncrowdedParts(s: State, dids: seq<Did>, more: seq<Did>)
    ensures Uncrowded(s, dids + more) <==> Uncrowded(s, dids) && Uncrowded(Run(s, dids), more)
    decreases |dids|
  {
    if dids == [] {
      assert dids + more == more;
    } else {
      assert (dids + more)[1..] == dids[1..] + more;
      UncrowdedParts(Next(s, dids[0].turn, dids[0].act), dids[1..], more);
    }
  }

  /** Over every run: a turn leaves the directory alone only where there was no claims directory in it when it
  tested, or when it would have shared. */
  lemma {:induction false} AsideWhereUnclaimed(s: State, dids: seq<Did>, u: Turn) returns (i: nat)
    requires !PhaseOf(s, u).Aside? && PhaseOf(Run(s, dids), u).Aside?
    ensures i < |dids| && dids[i].turn == u && (dids[i].act.TestClaims? || dids[i].act.Share?)
    ensures Run(s, dids[..i]).target.claims.None?
    decreases |dids|
  {
    var did := dids[0];
    var s1 := Next(s, did.turn, did.act);
    if PhaseOf(s1, u).Aside? {
      i := 0;
      assert dids[..0] == [] && did.turn == u;
    } else {
      var k := AsideWhereUnclaimed(s1, dids[1..], u);
      i := k + 1;
      assert dids[..i][0] == did && dids[..i][1..] == dids[1..][..k];
    }
  }

  /** A turn that gives up goes; the directory goes with it where its claim was the last, and otherwise stays as it
  was, without that claim. */
  lemma {:induction false} GoesWithTheLast(s: State, u: Turn)
    requires PhaseOf(s, u) == Holding(true) && s.target.claims.Some? && u in s.target.claims.value
    ensures
      var last := s.target.claims.value == {u};
      var s1 := Run(s, [Did(u, GiveUp), Did(u, RemoveClaims)] + if last then [Did(u, RemoveAll)] else []);
      && PhaseOf(s1, u) == Gone
      && s1.target == if last then s.target.(there := false, claims := None, files := map[])
                      else s.target.(claims := Some(s.target.claims.value - {u}))
  {
    var two := [Did(u, GiveUp), Did(u, RemoveClaims)];
    TwoDone(s, two[0], two[1]);
    if s.target.claims.value == {u} {
      assert {u} - {u} == {};
      RunMore(s, two, Did(u, RemoveAll));
    } else {
      assert two + [] == two;
      assert s.target.claims.value == s.target.claims.value - {u} + {u};
    }
  }

  /* ---- A claim that is not written ---- */

  /** A planter's claim is written exactly where the claims directory it made is still there when it claims. */
  lemma {:induction false} ClaimedWhereStanding(s: State, u: Turn)
    requires PhaseOf(s, u).Claiming?
    ensures PhaseOf(Next(s, u, Claim), u) == Holding(s.target.claims.Some?)
    ensures s.target.claims.Some? ==> u in Next(s, u, Claim).target.claims.value
  {
  }

  /** From any state: a turn that gave up, and has yet to try the claims directory, takes everything away from under
  one that has made the claims directory and has yet to claim. */
  lemma {:induction false} LateReleaseTakesAnother(s: State, u: Turn, v: Turn)
    requires PhaseOf(s, u).Claiming? && PhaseOf(s, v).Releasing? && s.target.claims == Some({})
    ensures
      var s1 := Next(Next(Next(s, v, RemoveClaims), u, Claim), v, RemoveAll);
      PhaseOf(s1, u) == Holding(false) && !s1.target.there
  {
  }

  /** Where three turns stand with a directory, which is there where it has claims in it. */
  predicate Stand(s: State, one: Phase, two: Phase, three: Phase, claims: Option<set<Turn>>) {
    && PhaseOf(s, 1) == one && PhaseOf(s, 2) == two && PhaseOf(s, 3) == three
    && s.turns.Keys <= {1, 2, 3} && s.target.claims == claims && (claims.Some? ==> s.target.there)
  }

  predicate OneInWindow(one: Phase, two: Phase, three: Phase) {
    !(InWindow(one) && InWindow(two)) && !(InWindow(one) && InWindow(three)) && !(InWindow(two) && InWindow(three))
  }

  lemma {:induction false} StandOn(s: State, dids: seq<Did>, did: Did, one: Phase, two: Phase, three: Phase,
                                   claims: Option<set<Turn>>)
    requires Uncrowded(s, dids) && OneInWindow(one, two, three)
    requires Stand(Next(Run(s, dids), did.turn, did.act), one, two, three, claims)
    ensures Uncrowded(s, dids + [did]) && Stand(Run(s, dids + [did]), one, two, three, claims)
    ensures Run(s, dids + [did]) == Next(Run(s, dids), did.turn, did.act)
  {
    var s1 := Next(Run(s, dids), did.turn, did.act);
    assert forall u :: u in s1.turns ==> u in {1, 2, 3};
    assert !Crowded(s1);
    RunMore(s, dids, did);
    UncrowdedParts(s, dids, [did]);
    CrowdedBefore(s, dids);
    assert [did][1..] == [];
  }

  lemma {:induction false} CrowdedBefore(s: State, dids: seq<Did>)
    requires Uncrowded(s, dids)
    ensures !Crowded(Run(s, dids))
    decreases |dids|
  {
    if dids != [] {
      CrowdedBefore(Next(s, dids[0].turn, dids[0].act), dids[1..]);
    }
  }

  lemma {:induction false} FirstPlants(s: State, before: seq<Did>) returns (dids: seq<Did>)
    requires Uncrowded(s, before) && Run(s, before).turns == map[]
    requires !Run(s, before).target.there && Run(s, before).target.claims.None?
    ensures Uncrowded(s, dids) && Stand(Run(s, dids), Holding(true), Idle, Idle, Some({1}))
  {
    hide Run, Uncrowded, Crowded;
    var none: set<Turn> := {};
    assert none + {1} == {1};
    dids := before;
    StandOn(s, dids, Did(1, Stat(false)), Nothing, Idle, Idle, None);
    dids := dids + [Did(1, Stat(false))];
    StandOn(s, dids, Did(1, MakeDirectory), Made, Idle, Idle, None);
    dids := dids + [Did(1, MakeDirectory)];
    StandOn(s, dids, Did(1, MakeClaims), Claiming, Idle, Idle, Some({}));
    dids := dids + [Did(1, MakeClaims)];
    StandOn(s, dids, Did(1, Claim), Holding(true), Idle, Idle, Some({1}));
    dids := dids + [Did(1, Claim)];
  }

  lemma {:induction false} SecondShares(s: State, before: seq<Did>) returns (dids: seq<Did>)
    requires Uncrowded(s, before) && Stand(Run(s, before), Holding(true), Idle, Idle, Some({1}))
    ensures Uncrowded(s, dids) && Stand(Run(s, dids), Holding(true), Holding(true), Idle, Some({1, 2}))
  {
    hide Run, Uncrowded, Crowded;
    var first: set<Turn> := {1};
    assert first + {2} == {1, 2};
    dids := before;
    StandOn(s, dids, Did(2, Stat(false)), Holding(true), Something, Idle, Some({1}));
    dids := dids + [Did(2, Stat(false))];
    StandOn(s, dids, Did(2, TestClaims), Holding(true), Sharing, Idle, Some({1}));
    dids := dids + [Did(2, TestClaims)];
    StandOn(s, dids, Did(2, Share), Holding(true), Holding(true), Idle, Some({1, 2}));
    dids := dids + [Did(2, Share)];
  }

  lemma {:induction false} SecondTakesAway(s: State, before: seq<Did>) returns (dids: seq<Did>)
    requires Uncrowded(s, before) && Stand(Run(s, before), Holding(true), Holding(true), Idle, Some({1, 2}))
    ensures Uncrowded(s, dids) && Stand(Run(s, dids), Releasing, Gone, Idle, None)
    ensures !Run(s, dids).target.there
  {
    hide Run, Uncrowded, Crowded;
    var both: set<Turn> := {1, 2};
    var second: set<Turn> := {2};
    assert both - {1} == second && second - {2} == {};
    dids := before;
    StandOn(s, dids, Did(1, GiveUp), Releasing, Holding(true), Idle, Some({2}));
    dids := dids + [Did(1, GiveUp)];
    StandOn(s, dids, Did(2, GiveUp), Releasing, Releasing, Idle, Some({}));
    dids := dids + [Did(2, GiveUp)];
    StandOn(s, dids, Did(2, RemoveClaims), Releasing, Removing, Idle, None);
    dids := dids + [Did(2, RemoveClaims)];
    StandOn(s, dids, Did(2, RemoveAll), Releasing, Gone, Idle, None);
    dids := dids + [Did(2, RemoveAll)];
  }

  lemma {:induction false} ThirdPlants(s: State, before: seq<Did>) returns (dids: seq<Did>)
    requires Uncrowded(s, before) && Stand(Run(s, before), Releasing, Gone, Idle, None) && !Run(s, before).target.there
    ensures Uncrowded(s, dids) && Stand(Run(s, dids), Releasing, Gone, Claiming, Some({}))
  {
    hide Run, Uncrowded, Crowded;
    dids := before;
    StandOn(s, dids, Did(3, Stat(false)), Releasing, Gone, Nothing, None);
    dids := dids + [Did(3, Stat(false))];
    StandOn(s, dids, Did(3, MakeDirectory), Releasing, Gone, Made, None);
    dids := dids + [Did(3, MakeDirectory)];
    StandOn(s, dids, Did(3, MakeClaims), Releasing, Gone, Claiming, Some({}));
    dids := dids + [Did(3, MakeClaims)];
  }

  /** So a directory can be taken away from under the turn that planted it though no two turns were ever planting
  together: by one that gave up before it was planted, between the two halves of its planter's claim. */
  lemma {:induction false} UncrowdedRunsCanLoseAPlanter(s: State) returns (dids: seq<Did>)
    requires Starts(s) && !s.target.own
    ensures Uncrowded(s, dids) && PhaseOf(Run(s, dids), 3) == Holding(false) && !Run(s, dids).target.there
  {
    hide Run, Uncrowded, Crowded;
    NothingRun(s);
    dids := FirstPlants(s, []);
    dids := SecondShares(s, dids);
    dids := SecondTakesAway(s, dids);
    dids := ThirdPlants(s, dids);
    LateReleaseTakesAnother(Run(s, dids), 3, 1);
    StandOn(s, dids, Did(1, RemoveClaims), Removing, Gone, Claiming, None);
    dids := dids + [Did(1, RemoveClaims)];
    StandOn(s, dids, Did(3, Claim), Removing, Gone, Holding(false), None);
    dids := dids + [Did(3, Claim)];
    StandOn(s, dids, Did(1, RemoveAll), Gone, Gone, Holding(false), None);
    dids := dids + [Did(1, RemoveAll)];
  }
}
