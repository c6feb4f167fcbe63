# Verified models of the flow compiler, the mirror, and the protocols around them

This project models, in Dafny, the parts of humanize whose correctness is hardest to see by reading, and proves
what those parts are for. `dafny verify dfyconfig.toml` checks all of it.

**The atlas compiler** (`src/hmz/flows/prophesying.py`, `atlas.py`, run by `stepping.py`). `Body` is the narrowed
Python a body is written in, already parsed, with its table of declarations; `Atlas` is what it compiles to.
`WiringSpec` says what each statement adds to the graph as functions on the walk's state; `Compiling.Wiring` is the
class that does it in place, each of its methods proved to leave exactly that state. `Running` gives the two
meanings: executing the body as written, where a `while` runs its body and then again the node directly above it,
and walking the graph by the edge whose guard holds. `Structure` and `Meaning` prove what the graph is and that it
means what the body does. `Admitting` says which bodies compile, by what each statement needs and leaves and not by
the walk, and proves that the walk lets by just those; `Fitting` says of the values that flow what a read's shape and
the fit of one shape to another mean, and `Reasons` what is said of a statement that is refused. `Soundness`,
`Exactness` and `Binding` say which bodies can be trusted to read only what they have bound: `Soundness.Steady` is a
check on the graph that follows what each name can hold and what has been decided, `Exactness` proves it exact for every
compiled body, and `Binding` how far the compiler's own findings already go; `Gaps` shows three bodies that compile and
fail it. `DeadLoops`, `Refusals`, `Resuming`, `Nesting` and `Canonical` prove what the findings, a run picked up,
atlases inside atlases and the one written form come to.

**The mirror** (`src/hmz/coganchor/shadow.py`, driven by `handlers.py`). `Disk` holds trees of files and folders,
stamps, and the one shared file system a tracee should believe it is on; `MirrorSpec` what each call and each handled
system call does; `Mirroring.ShadowTree` does it in place. `Mirrored` and `Refining` prove that what a tracee sees is
what the shared file system would show, and exactly when not; `FileLaws` says call by call what that file system
does; `Renaming` what a rename does to the tables and the trees; `Fetching` what has to be fetched, and when again;
`MirrorGaps` how each of the steps that go wrong comes about.

**The claims on a carried directory** (`src/hmz/coganchor/anchor.py`). `Claims`: any number of turns, each act of
each one atomic, interleaved anyhow.

**Streams and exchanges.** `Framing` (`src/hmz/daemon/proto.py`), `HoldingSpec`, `Holding` and `Serving`
(`src/hmz/daemon/serve.py`), with `Staying` for who stays on the list and what each socket takes; `Exchanges`
(`src/hmz/coganchor/remote.py`).

**Path routing** (`src/hmz/coganchor/policy.py`, `proto.py`). `Routing`; `Sorting` is what it and `Canonical` put
things in order with.

Where the code and what is said about it part, the model follows the code. What was found that way:

- A name only a loop's body binds counts as bound below the loop (`src/hmz/flows/prophesying.py:864-871` does not
  put `bound` back as `_branch` does at 812-818), so a loop that runs no round leaves it unbound:
  `Gaps.LoopBodyCountsAsBound`.
- A loop's head may read a name that an arm bound and the branch dropped, which the loop then binds at another
  shape: `Gaps.HeadReadsAnotherShape`.
- An atlas that answers with nothing may `return` a name nothing has bound: `Gaps.ReturnsAnUnboundName`.
- A truncating, write-only open of a file not yet fetched never marks its content as present, so the next open that
  reads it fetches over what was written: `MirrorGaps.TruncatedUnfetched`.
- An open that only reads and truncates (`O_RDONLY|O_TRUNC`) is not noted as a write
  (`src/hmz/coganchor/handlers.py:299-305`), though the kernel here cuts the file short: the target is never told
  unless the path had been noted before, `MirrorGaps.CutShortUnnoted`.
- A file's bytes come in through a scratch file beside it, the file's name with `.humanize-fetch` after it
  (`src/hmz/coganchor/shadow.py:136-145`). A file of that name is written over and goes with it: it is not found here
  until the folder is listed again, and what was written to it and not pushed is lost
  (`MirrorGaps.FetchedThroughAnother`, and from the very start `MirrorGaps.ReadingLosesItsNeighbour`). Where a folder
  has that name, or the name is longer than the kernel takes, the file cannot be read at all (`MirrorGaps.ReadIs`).
- Looking up a path below a file forgets the file itself (`src/hmz/coganchor/shadow.py:113-116`), and an unfetched
  one is then read as its placeholder: `MirrorGaps.LookedUpBelowAFile`. Renaming a file onto itself does the same:
  `MirrorGaps.RenamedOntoItself`.
- A listing begins with `os.makedirs` (`src/hmz/coganchor/shadow.py:270`), which fails where a file mirrored earlier
  is in the way of what has become a folder; every step below it is then refused until something looks at that name
  itself: `MirrorGaps.TurnedIntoAFolder`.
- A file put in the place of a folder takes the folder's content away here and leaves its records
  (`src/hmz/coganchor/shadow.py:326-327`), so that once it is a folder again a file made there is refused as one still
  to be fetched: `MirrorGaps.TurnedAndBack`.
- A folder emptied by a command and not looked at since is removed on the target by an `rmdir` that then fails here:
  `MirrorGaps.EmptiedElsewhere`. A folder renamed onto such a one fails the same way (`Refining.Lost`).
- A claim is written in two halves, the claims directory and the claim in it (`src/hmz/coganchor/anchor.py:101`), and
  how that went is not asked. A turn that gave up earlier and has yet to try the claims directory (113) can take
  everything away between the two, so a turn can lose what it planted though no other was planting:
  `Claims.LateReleaseTakesAnother`, and `Claims.UncrowdedRunsCanLoseAPlanter` for a run that comes to it.
- A terminal's hello counts as the first even from a socket that has just been answered and let go of in the same read
  (`src/hmz/daemon/serve.py:455-476`): what was kept is thrown away, and the first terminal to be listed is handed
  nothing of it: `Holding.AskedAndSaidHello`, and `Holding.FirstListed` for exactly when.
- The pattern for the aliases of `/private` ends in `$` (`src/hmz/coganchor/proto.py:352`), which also matches before
  a newline that ends the path: a layout whose root is such a name loses whatever is below it, whatever its case:
  `Routing.LineRootLoses`. A layout at `/private` itself loses what is named there by another case:
  `Routing.PrivateRootLoses`.
- The directory a failed listing marks as looked at is forgotten in the same breath, the mark included
  (`src/hmz/coganchor/shadow.py:114-115`, 359-363): `Mirrored.EnsureKeeps` says such a directory is never current.

What the main results assume, and why:

- `Soundness.Steady`, in `Soundness.RunsSound`: the check on the graph. `Exactness.SteadyExactly` shows it is neither
  too strong nor too weak, for every compiled body. `Binding.AssuredIsSteady` shows it passed by every compiled body
  that reads no name in doubt after a loop, and whose loops read again only what is still bound.
- Worlds answer as declared: every node with a value of the shape it gives, and every value with, in each field its
  shape declares, a value of that field's shape (`Soundness.Honest`).
- No shape is called "None", which is how the compiler writes down answering with nothing.
- Stamps determine bytes, path by path, and across the two paths of a rename; a file made where the target has none
  is not stamped as one that is gone; and a command leaves a tree (`Refining.Fair`). Nothing else is asked of a step:
  `Refining.Lost` names those that go wrong, and `Refining.StepRefines` proves them exactly those.
- The claims protect while no two turns are between finding nothing there and making the claims directory;
  `Claims.CrowdedRunsCanLose` is the other half.
- The close of a client waits for the reader for two seconds at most: everything completes once where, when it goes
  on, the reader is not about to deliver or complete something still pending, and `Exchanges.GatheringIsExact` is
  exactly when.
- Layouts and paths are normal: absolute, with no slash doubled or trailing. `Routing.CanonicalSettlesOnce` says for
  which of them settling fails.

Conventions: every lemma carries `{:induction false}`, so that no proof rests on an induction nobody wrote down, and
tables are built by `Prelude.Build` or taken apart with `-`, never by a map comprehension.

## Model

| member | source | states |
|---|---|---|
| Compiling.Wiring.Walk | src/hmz/flows/prophesying.py:683-718 | walking a whole body in place leaves exactly the nodes, edges, findings, bindings and spoilt names of `Walked` |
| Refusals.NothingSpoilt | src/hmz/flows/prophesying.py:1534-1553 | no name is spoilt before something has been found, so keeping quiet about one never leaves a body without a finding |
| Reasons.CallSpoils | src/hmz/flows/prophesying.py:736-742 | a call that becomes no node leaves nothing known of the one name it would have bound, and of no other |
| Reasons.BlockSpoils | src/hmz/flows/prophesying.py:1534-1553 | nothing is known any more of what a statement that is refused assigns, and of nothing that is assigned nowhere among the statements |
| Compiling.Wiring.WalkBlock | src/hmz/flows/prophesying.py:720-754 | a run of statements, each wired to what the last left open, refused after a path has ended |
| Compiling.Wiring.WalkReturn | src/hmz/flows/prophesying.py:756-789 | a return wires every loose end to the way out, answering with the name it gives |
| Compiling.Wiring.Branching | src/hmz/flows/prophesying.py:930-1006 | what a branch reads, or the first thing that refuses it: work, nothing bound, a guard above, no node above, a mind above |
| Compiling.Wiring.WalkBranch | src/hmz/flows/prophesying.py:791-819 | both arms walked in place from what stands above the branch, guarded by opposite readings; what is bound below is what both arms leave bound alike, which `Admitting.BranchBinds` says name by name |
| Compiling.Wiring.WalkLoop | src/hmz/flows/prophesying.py:821-871 | the body wired back to the node above, the way past guarded by the opposite, nothing unbound again |
| Compiling.Wiring.EndsTwice | src/hmz/flows/prophesying.py:873-902 | says whether some end the body left is out of a node that calls what the head calls |
| Compiling.Wiring.WalkCall | src/hmz/flows/prophesying.py:1024-1097 | one call becomes one node, or else a finding, none where it only repeats one, and the name it would have bound is spoilt |
| Compiling.Wiring.AddNode | src/hmz/flows/prophesying.py:1060-1097 | the node's id, its binding, and an edge to it from every loose end |
| Compiling.Wiring.Bind | src/hmz/flows/prophesying.py:1506-1527 | a name keeps the shape it was first bound with, and another shape is a finding |
| WiringSpec.Arguments | src/hmz/flows/prophesying.py:1335-1413 | arguments are granted only as many as there are parameters, each read fitting its own, and refused quietly only for a spoilt name; `Admitting.ArgumentsExactly` says by the values that flow when they are granted, and `Reasons.ArgumentsSay` what is said where they are not |
| Admitting.CompilesExactly | src/hmz/flows/prophesying.py:683-1097 | a body compiles if and only if each statement meets its own conditions, said without the walk, over the names bound above it, the nodes it follows and the values that flow: a call, a branch, a loop and a return that do add no finding, and every other does |
| Admitting.PassesIs | src/hmz/flows/prophesying.py:720-754 | a run of statements adds no finding exactly where each meets its conditions where the last leaves it, and what is bound and which nodes it ends on are then just what those say |
| Admitting.BranchBinds | src/hmz/flows/prophesying.py:812-818 | below a branch without a finding a name is bound at a shape exactly where both arms leave it bound at that shape |
| Admitting.ArgumentsExactly | src/hmz/flows/prophesying.py:1335-1413 | arguments are granted exactly where there are as many as are taken and each may be handed: one of the run's own agents, all of them, or what in every world comes to a value that serves |
| Fitting.ShapeExactly | src/hmz/flows/prophesying.py:1474-1504 | a read has a shape exactly where, in every world that answers each shape with a value of it, it comes to a value of that shape |
| Reasons.ShapeIs | src/hmz/flows/prophesying.py:1474-1504 | what a name stands for by what is bound to it or declared for it, and a field of it by what its own model declares |
| Fitting.FitsExactly | src/hmz/flows/prophesying.py:1600-1625 | one shape is handed where another is taken exactly where every value of the one is of the other, or has each field the other requires with a value of its own shape in it |
| Reasons.LackingIsRefused | src/hmz/flows/prophesying.py:1600-1625 | a value whose shape is another and lacks a field that is required, or has it at another shape, is refused whatever else is handed over |
| Reasons.ArgumentsSay | src/hmz/flows/prophesying.py:1335-1456 | arguments are refused for the first that may not be handed, and what is said of it: work, no such agent, no agent at all, another shape, nothing bound, or nothing more where the name is spoilt |
| Reasons.BranchedSays | src/hmz/flows/prophesying.py:930-1006 | a branch is refused as work, for what it reads, or for the first way down to it that is asked already, out of no node, or out of a mind |
| Reasons.DeedIs | src/hmz/flows/prophesying.py:1024-1097 | the node of a call by what is declared of it, field by field, and by what each of its arguments says |
| Reasons.CompiledCountsUp | src/hmz/flows/prophesying.py:1529-1532 | in every compiled graph a node is numbered among those before it that call the same, from one on |
| Atlas.WrittenInjective | src/hmz/flows/prophesying.py:1529-1532 | node ids as written, `called` and `called:2`, name one node each |
| Structure.CompiledGraph | src/hmz/flows/prophesying.py:801-871 | node ids are unique, every edge ends at a node or the way out, the entry has one unguarded way, and every node one unguarded way or two that read the same with opposite truths; a mind has one |
| Structure.CompiledConnected | src/hmz/flows/prophesying.py:683-871 | every node is reachable from the entry, and the end from every node, however loops and returns nest |
| Structure.Keeps | src/hmz/flows/prophesying.py:720-754 | what every statement keeps of the graph so far, with the ends held aside for another arm or the way past a loop |
| Meaning.CompilingPreservesMeaning | src/hmz/flows/prophesying.py:683-871 | for every body that compiles, every world of answers and every number of nodes, walking the graph is executing the body: same nodes, reads, answers, decisions and end, and never stuck |
| Meaning.BlockFollows | src/hmz/flows/prophesying.py:720-754 | between the ends a run of statements is handed and those it leaves, the walk does what executing it does |
| Meaning.LoopFollows | src/hmz/flows/prophesying.py:821-871 | a compiled loop goes round as `while` does when it runs its body and then the node above again |
| Meaning.TakenIs | src/hmz/flows/atlas.py:539-550 | of a node's ways out, the one taken is the one whose guard holds |
| Meaning.NeverAstray | src/hmz/flows/stepping.py:282-331 | a walk over a graph whose nodes decide never comes to a node nothing leads on from |
| Soundness.RunsSound | src/hmz/flows/prophesying.py:1373-1527 | in every run of a compiled, steady body every branch reads something bound; every node is handed, for everything it takes, a value of that shape, or one that has each field the shape requires with a value of that field's own shape in it, on every round; and what is returned is bound and of the atlas's shape; where nothing that has a shape is ever missing, nothing read is |
| Exactness.SteadyExactly | src/hmz/flows/prophesying.py:791-871 | every compiled body passes the check if and only if no run of it, in any world that answers each shape with a value of it, reads or returns what is unbound, missing or does not fit |
| Exactness.UnsteadyRuns | src/hmz/flows/prophesying.py:812-871 | from any read the check refuses, a world and a number of nodes whose run comes to it |
| Exactness.HeldIsLed | src/hmz/flows/atlas.py:539-550 | whatever the check says a name can hold after a node, some way along the edges that asks nothing against what it has decided leaves it holding there |
| Exactness.HoldsOnTheWay | src/hmz/flows/atlas.py:539-550 | in the world scripted for such a way, each guard on it reads as the way needs, whichever node answered what it asks and however long before |
| Binding.AssuredIsSteady | src/hmz/flows/prophesying.py:791-871 | a compiled body that reads and returns no name in doubt after a loop, and whose loops read again only what is still bound, passes the check: so far the compiler's own findings are enough |
| Binding.BlockTabled | src/hmz/flows/prophesying.py:720-754 | what is bound after each node, kept as a table that every edge agrees with, through every run of statements |
| Binding.BoundGrows | src/hmz/flows/prophesying.py:812-871 | a name stays bound at its shape, and only assignments bind more |
| Gaps.LoopBodyCountsAsBound | src/hmz/flows/prophesying.py:864-871 | a body that compiles and hands its last node a name nothing has bound |
| Gaps.HeadReadsAnotherShape | src/hmz/flows/prophesying.py:812-871 | a body that compiles and, on its second round, hands a node that takes text a number |
| Gaps.ReturnsAnUnboundName | src/hmz/flows/prophesying.py:756-789 | a body that compiles and returns a name nothing has bound |
| Gaps.NoneSteady | src/hmz/flows/prophesying.py:756-871 | all three compile, and the check refuses each |
| DeadLoops.DeadLoopNeverEnds | src/hmz/flows/prophesying.py:904-928 | a loop the dead-loop rule refuses, whose head is a function of what it reads, is never left at the bottom once entered |
| DeadLoops.Untouched | src/hmz/flows/prophesying.py:911-919 | executing statements leaves alone every name they assign nothing to |
| Refusals.CompiledIsProper | src/hmz/flows/prophesying.py:873-1006 | every node is a call one declaration allows, with what no node binds in its place; every guard names something with a shape; every way out answers where the atlas does; and every edge goes on to a later node or back to one that calls something else: no loop runs its head twice a round |
| Resuming.PickedUpIsUninterrupted | src/hmz/flows/stepping.py:282-367 | however often a run was started and stopped, and in whatever visit, picking it up comes to what an uninterrupted run comes to |
| Resuming.PickedStaysTrue | src/hmz/flows/stepping.py:334-367 | what a run writes down is what an uninterrupted run answers, wherever it stops |
| Resuming.WrittenDownIsEnough | src/hmz/flows/stepping.py:334-367 | every visit that answers is written down and read back: gone through again over what it has written, a run does, decides and ends the same whatever its nodes would answer now, and writes nothing more |
| Resuming.RunsWhereNew | src/hmz/flows/stepping.py:346-357 | a visit that has answered is not run again, nor one the run stopped in that may not be, which answers nothing; every other is run |
| Resuming.CompiledSilent | src/hmz/flows/prophesying.py:1067-1076 | a node that may be stepped past answers with nothing |
| Nesting.CompilesWhereNothingComesRound | src/hmz/flows/prophesying.py:1255-1333 | compiling atlases inside atlases ends, and succeeds exactly where no way of reaching on comes to one twice |
| Nesting.NestsFreely | src/hmz/flows/prophesying.py:1205-1333 | what compiles nests no deeper than there are atlases, and none is under itself |
| Nesting.CompilesToWhatItReaches | src/hmz/flows/prophesying.py:1255-1333 | what compiles is the atlas itself with, under it and all the way down, each atlas its body reaches for, once, in the order it first does |
| Nesting.UnfoldsOneWay | src/hmz/flows/prophesying.py:1255-1333 | and there is one such, whatever it was reached through |
| Canonical.WrittenDecidesSameness | src/hmz/flows/atlas.py:564-613 | two prophecies normalise to the same value exactly where they agree up to the order of nodes, edges, shapes and, all the way down, sub-prophecies |
| Canonical.WrittenIsSame | src/hmz/flows/atlas.py:564-613 | the written form is the same prophecy: nothing in it lost, added or changed, all the way down |
| Canonical.WrittenInOrder | src/hmz/flows/atlas.py:600-613 | and everything in it is in order, all the way down |
| Sorting.SortedSame | src/hmz/flows/atlas.py:600-608 | sorting decides equality up to order, where the order tells elements apart |
| Sorting.SortHolds | src/hmz/flows/atlas.py:600-608 | sorting keeps what there is, and puts it in order |
| Canonical.OrderedTells | src/hmz/flows/atlas.py:611-613 | an edge's sort key tells it from every other whose guard names something |
| Canonical.CompiledNamed | src/hmz/flows/prophesying.py:930-967 | the guards of every compiled graph name something, as the order of edges needs |
| Canonical.WritingCommutes | src/hmz/flows/atlas.py:604-608 | ordering sub-prophecies by name and then writing them is writing and then ordering |
| Canonical.NamelessGuardsStay | src/hmz/flows/atlas.py:611-613 | two edges alike but for a guard that names nothing stay in the order they were written in |
| Mirroring.ShadowTree.EnsureDirectory | src/hmz/coganchor/shadow.py:104-120 | a folder is listed at most once a generation, after a flush, unless a file is in its way; one that is not there is dropped |
| Mirroring.ShadowTree.DropLocal | src/hmz/coganchor/shadow.py:359-363 | the folder here goes with everything in it, and all that is known at and below it |
| Mirroring.ShadowTree.EnsureContent | src/hmz/coganchor/shadow.py:122-150 | a placeholder's bytes and stamp become the target's, and whatever file had its scratch file's name goes; an error where the scratch file cannot be made or the target has no such file |
| Mirroring.ShadowTree.NoteWrite | src/hmz/coganchor/shadow.py:179-182 | the path is one the next flush looks at |
| Mirroring.ShadowTree.Forget | src/hmz/coganchor/shadow.py:184-195 | everything known at and below a path is dropped |
| Mirroring.ShadowTree.Rename | src/hmz/coganchor/shadow.py:197-214 | the target's records go and the source's are re-rooted, in all three tables |
| Mirroring.ShadowTree.Flush | src/hmz/coganchor/shadow.py:218-245 | every modified file is pushed, in whatever order, and how many is answered |
| Mirroring.ShadowTree.Push | src/hmz/coganchor/shadow.py:247-260 | one file is on the target as it is here, and its record says both stamps |
| Mirroring.ShadowTree.ApplyListing | src/hmz/coganchor/shadow.py:264-276 | the folder and those above it made, every entry applied in whatever order, and what the target no longer lists removed; or nothing, where a file is in the way |
| Mirroring.ShadowTree.ApplyDir | src/hmz/coganchor/shadow.py:287-300 | a folder takes the place of whatever file is there |
| Mirroring.ShadowTree.ApplyFile | src/hmz/coganchor/shadow.py:318-343 | a file intact on both sides is kept, any other made a placeholder of the right size and time, over a folder and all that is in it if need be |
| Mirroring.ShadowTree.SweepVanished | src/hmz/coganchor/shadow.py:345-357 | what has gone on the target, file or folder with all that is in it, is removed here and forgotten |
| Mirroring.ShadowTree.PrepareOpen | src/hmz/coganchor/handlers.py:290-306 | the directory, then the content unless it is truncated unread, then a note where it may be written |
| Mirroring.ShadowTree.Open | src/hmz/coganchor/handlers.py:272-306 | an open prepared and then carried out here, cutting the file short where it says so; refused where preparing it fails |
| Mirroring.ShadowTree.Look | src/hmz/coganchor/handlers.py:319-322 | a lookup lists the directory holding the path and answers from here |
| Mirroring.ShadowTree.List | src/hmz/coganchor/handlers.py:295-298 | an open of a folder lists it and what holds it, files and folders |
| Mirroring.ShadowTree.Remove | src/hmz/coganchor/handlers.py:365-374 | the unlink or rmdir is replayed after a flush, and forgotten and carried out here only where the target did it |
| Mirroring.ShadowTree.MakeDir | src/hmz/coganchor/handlers.py:343-350 | the mkdir is replayed after a flush, and carried out here only where the target did it |
| Mirroring.ShadowTree.Relate | src/hmz/coganchor/handlers.py:390-418 | the rename is replayed after a flush, and carried out here only where the target did it, which `FileLaws.RenameIs` says when |
| Mirroring.ShadowTree.Run | src/hmz/coganchor/supervisor.py:403-473 | a remote command finds everything flushed, and leaves every listing out of date |
| Refining.StepRefines | src/hmz/coganchor/handlers.py:290-418 | a step of any kind, from any state the invariant allows, is what it would be on one shared file system exactly where it is none of those `Lost` names, and then keeps the invariant |
| Refining.RunsRefine | src/hmz/coganchor/shadow.py:93-260 | over every run of opens, lookups, listings, unlinks, folders made and removed, renames and remote commands, none of which goes wrong, each sees and does what one shared file system would |
| Refining.MirrorStarts | src/hmz/coganchor/shadow.py:83-89 | a mirror that holds nothing but its root stands for the target as it is |
| Refining.OpenSound | src/hmz/coganchor/handlers.py:299-306 | what an open finds and leaves at its path is what one file system would have, exactly where it is none of those that go wrong |
| Refining.ReadiedKeeps | src/hmz/coganchor/shadow.py:136-145 | a fetch through a scratch file keeps the invariant, and changes what the file system holds exactly where a file of that name had not been told to the target |
| Refining.MissingStays | src/hmz/coganchor/shadow.py:104-120 | making sure of a folder makes no file go missing, and finds none again unless its own folder is listed anew |
| Refining.LostStays | src/hmz/coganchor/shadow.py:104-120 | whether an open goes wrong, and whether it fetches, does not depend on whether its folder has been listed yet |
| Refining.ReplayRefines | src/hmz/coganchor/handlers.py:343-374 | a file or an empty folder removed, or a folder made, on both sides, or refused on both; wrong exactly where a folder emptied on the target is not empty here, or a file to be removed has gone with a scratch file |
| Refining.MovedKeeps | src/hmz/coganchor/handlers.py:390-418 | a file or a folder and all that is in it moved on both sides, with what is known of it |
| Refining.RenameRefines | src/hmz/coganchor/handlers.py:390-418 | a rename is carried out, or refused, as one file system would, which `FileLaws.RenameIs` says call by call, exactly where no file is in the way of either folder, what is renamed has not gone with a scratch file, and what it replaces is empty here too |
| FileLaws.RenameIs | src/hmz/coganchor/serve/fsops.py:179-186 | the shared file system renames exactly where the source is there, the target's parent is a folder, and a file goes over a file or nothing, a folder over nothing or an empty folder and not into itself, or the two are one; the target then holds just what the source held, nothing is left of the source, and nothing else has changed |
| FileLaws.RenamedThrough | src/hmz/coganchor/handlers.py:390-418 | and so does the mirror, with what is still to be pushed, wherever the step does not go wrong |
| FileLaws.OpenIs | src/hmz/coganchor/handlers.py:290-306 | an open of the shared file system, by what stands at its path: what it finds, what it leaves, that nothing else is touched, and when it is refused |
| FileLaws.ListIs | src/hmz/coganchor/serve/fsops.py:79-95 | a listing names just what stands one below a folder |
| FileLaws.LookIs | src/hmz/coganchor/serve/fsops.py:74-76 | a lookup answers with what stands there, a file with how long it is, and is refused where nothing does |
| FileLaws.RemoveIs | src/hmz/coganchor/serve/fsops.py:157-176 | a file there is removed, an empty folder there is removed, and a folder is made where nothing is, in a folder; nothing else is touched |
| Refining.CommandRefines | src/hmz/coganchor/supervisor.py:403-473 | a remote command is handed just the files and folders the shared file system holds, and may leave any others |
| Refining.CommandMeanwhile | src/hmz/coganchor/supervisor.py:403-473 | a command that ends after others have acted beside it is handed what the shared file system holds exactly where the target has been told of every file, and leaves what it would there where nothing is modified |
| Refining.HereAsThere | src/hmz/coganchor/shadow.py:287-343 | in a folder that is current, what is here, of which kind and how long it says it is are as the file system has them, and what is not here is nothing or a file that went with a scratch file |
| Mirrored.FlushPushes | src/hmz/coganchor/shadow.py:218-260 | after a flush every modified file has its bytes on the target, no other target file has changed, and a second flush pushes nothing |
| Mirrored.FlushKeeps | src/hmz/coganchor/shadow.py:218-260 | a flush changes nothing the file system holds, and leaves nothing modified |
| Mirrored.ListKeeps | src/hmz/coganchor/shadow.py:264-357 | applying a listing, which may remove folders with all that is in them, changes nothing the file system holds and leaves current what was |
| Fetching.ListingIs | src/hmz/coganchor/shadow.py:278-357 | what a listing leaves at each entry: nothing for nothing, a folder for a folder, a file that neither side has changed as it was, and for any other one of the right length and time whose content is still to be fetched |
| Fetching.FetchedStays | src/hmz/coganchor/shadow.py:318-343 | what has been fetched is to be fetched again after a listing exactly where one side has changed and there is something in it |
| Fetching.FetchIs | src/hmz/coganchor/shadow.py:122-150 | a fetch leaves the target's bytes and nothing to fetch again, and touches nothing else but its scratch file |
| Mirrored.EnsureKeeps | src/hmz/coganchor/shadow.py:104-120 | looking at a folder changes nothing the file system holds, is refused exactly where a file is in its way, and otherwise leaves it current exactly where it is one |
| Mirrored.DropKeeps | src/hmz/coganchor/shadow.py:359-363 | dropping the mirror of a folder the target does not have changes nothing the file system holds |
| Disk.OriginOfRebased | src/hmz/coganchor/shadow.py:374-382 | what a rename moves a key to tells where it was |
| Renaming.RenameMovesRecords | src/hmz/coganchor/shadow.py:197-214 | a rename drops the target's subtree, re-roots the source's, leaves every other key, and no two keys meet |
| Renaming.RenameMovesNotes | src/hmz/coganchor/shadow.py:212-214 | the paths noted as written move the same way |
| Renaming.RenamedRooted | src/hmz/coganchor/handlers.py:390-418 | a tree in which something may be renamed is a tree after it |
| MirrorGaps.TruncatedUnfetched | src/hmz/coganchor/handlers.py:302-305 | after a truncating write to an unfetched file, the next read finds what the target held before and never what was written, or is refused where it cannot be fetched |
| MirrorGaps.ReadIs | src/hmz/coganchor/shadow.py:122-150 | from any state, what a read of a file finds: what is here, or what the target has where it is still to be fetched, and it is refused exactly where it is to be fetched and cannot be, or is not here |
| MirrorGaps.FetchedThroughAnother | src/hmz/coganchor/shadow.py:136-145 | from any state, after a read of a file the one with the name of its scratch file is not found here exactly where the read fetched or it had gone before, and the target is told of it exactly where it had been or nothing was fetched |
| MirrorGaps.ReadingLosesItsNeighbour | src/hmz/coganchor/shadow.py:136-145 | from an empty mirror, of two such files reading the one loses the other |
| MirrorGaps.CutShortUnnoted | src/hmz/coganchor/handlers.py:299-305 | a file cut short by an open that only reads it: what the target is told of it, and that it is what one file system would have exactly where the path was noted before or the file was empty, and fetching it wrote over nothing the target had not been told |
| MirrorGaps.LookedUpBelowAFile | src/hmz/coganchor/shadow.py:113-116 | from any state, a read of a file after a lookup below it is wrong exactly where its folder is current and what is here is neither modified nor the same, or its folder is not and it cannot be fetched |
| MirrorGaps.RenamedOntoItself | src/hmz/coganchor/shadow.py:197-214 | from any state, a file renamed onto itself is read wrong exactly where what is here is neither modified nor the same |
| MirrorGaps.TurnedIntoAFolder | src/hmz/coganchor/shadow.py:264-276 | after any command, any file is read as the command left it, or refused, and refused exactly where something that now holds it is still mirrored as a file, or it is to be fetched and cannot be |
| MirrorGaps.TurnedAndBack | src/hmz/coganchor/shadow.py:318-343 | a folder turned into a file and back, looked at each time: a file made where one was still to be fetched is refused |
| MirrorGaps.EmptiedElsewhere | src/hmz/coganchor/handlers.py:365-374 | after any command that leaves a folder empty, removing it is what one file system would do exactly where it is empty here too |
| Claims.NothingPlantedOutlives | src/hmz/coganchor/anchor.py:99-114 | in every interleaving of any number of turns, once every turn that began is over, a directory that was not the project's is gone |
| Claims.ActAccounted | src/hmz/coganchor/anchor.py:792-895 | every act keeps: claims are of turns that hold them, and whatever is planted is some turn's still to take away; what each act does, `Claims.ActTouches` and those after it say |
| Claims.ProjectsOwnUntouched | src/hmz/coganchor/anchor.py:795-803 | a directory the project already had is as it was, whatever any turn does |
| Claims.ClaimProtects | src/hmz/coganchor/anchor.py:101-114 | while no two turns are between finding nothing and making the claims, a claim written and not given up stands, and so does the directory; that a turn that finds claims has such a claim, `Claims.SharesWhereClaimed` and `Claims.AsideWhereUnclaimed` say |
| Claims.SharesWhereClaimed | src/hmz/coganchor/anchor.py:106-108 | a turn that finds the directory, and claims in it when it tests and when it shares, holds it with its own claim beside the others, and nothing else has changed |
| Claims.SharedOutlivesPlanter | src/hmz/coganchor/anchor.py:101-114 | in every uncrowded run, one that finds what another holds shares it, and holds it, as it was, until it gives it up, though the one that planted it has gone |
| Claims.StaysWhileHeld | src/hmz/coganchor/anchor.py:101-114 | in every uncrowded run, from when a turn holds the directory until it gives it up the directory is there, with the same in it and its claim, whoever else comes and goes |
| Claims.AsideWhereUnclaimed | src/hmz/coganchor/anchor.py:795-803 | in every run, a turn leaves the directory alone only where there was no claims directory in it when it tested or when it would have shared |
| Claims.PlantsWhole | src/hmz/coganchor/anchor.py:804-827 | a turn told there is nothing, and left to itself, holds the directory with just what it carries in it and its own claim |
| Claims.GoesWithTheLast | src/hmz/coganchor/anchor.py:111-114 | a turn that gives up goes, the directory with it exactly where its claim was the last, and otherwise without that claim alone |
| Claims.LooksFirst | src/hmz/coganchor/anchor.py:830-856 | a turn plants only where it was told there is nothing: what could not be asked is something there |
| Claims.ClaimedWhereStanding | src/hmz/coganchor/anchor.py:101 | a planter's claim is written exactly where the claims directory is still there when it claims |
| Claims.ActTouches | src/hmz/coganchor/anchor.py:792-895 | an act moves nobody else, writes files only as they are carried, and takes another's claim only as all is removed |
| Claims.LateReleaseTakesAnother | src/hmz/coganchor/anchor.py:99-114 | from any state: one that gave up and has yet to try the claims directory takes everything from under one that has made it and has yet to claim |
| Claims.UncrowdedRunsCanLoseAPlanter | src/hmz/coganchor/anchor.py:99-114 | and a run from the beginning that comes to it, though no two turns are ever planting together |
| Claims.CrowdedRunsCanLose | src/hmz/coganchor/anchor.py:792-827 | from the first moment of any run at which two turns are there together, the acts can go on so that a directory is removed from under a claim |
| Claims.CrowdingLosesAClaim | src/hmz/coganchor/anchor.py:101-114 | the interleaving that does it, from any two turns that found nothing |
| Framing.Frames.Feed | src/hmz/daemon/proto.py:94-127 | every whole frame in order and the rest kept, or nothing at all where a length is of no frame |
| Framing.CuttingIsNothing | src/hmz/daemon/proto.py:94-127 | however a stream is cut, what is given back and kept are those of the whole, and it is refused just where the whole would be |
| Framing.WrittenReadsBack | src/hmz/daemon/proto.py:54-64 | frames written one after another and cut anyhow are read back as just those, with nothing kept |
| Framing.NumberOfWord | src/hmz/daemon/proto.py:50-64 | a length written as four bytes, most significant first, is read back |
| Framing.StreamIs | src/hmz/daemon/proto.py:94-127 | every stream is some frames as they are written and something left; what is left is no whole frame yet, and those are what is read, or has a length of no frame, and the stream is refused |
| Framing.StreamReads | src/hmz/daemon/proto.py:94-127 | and whatever frames were written before something unfinished, just those are read |
| Holding.TerminalsGetTheRun | src/hmz/daemon/serve.py:333-476 | over every run of a host from its beginning, what a listed terminal's socket took and what it has waiting are the framing of everything drawn since it joined, for the first ever listed preceded by everything before unless that spilled or a socket off the list had said hello, and what waits is bounded |
| Holding.ATerminalReads | src/hmz/daemon/serve.py:383-397 | over every run, a terminal with nothing waiting reads just the frames it was owed, however its reads are cut |
| Holding.FirstListed | src/hmz/daemon/serve.py:462-476 | over every run, the first terminal ever listed is handed everything drawn before it, unless that spilled, exactly where no socket off the list had said hello before, and otherwise nothing |
| Holding.AskedAndSaidHello | src/hmz/daemon/serve.py:455-476 | the run in which it is handed nothing: one socket asks and says hello in the same read |
| Holding.JoinedRight | src/hmz/daemon/serve.py:462-476 | a terminal that has just joined is owed what was kept, if it is the first and nothing off the list said hello |
| Holding.DrawnRight | src/hmz/daemon/serve.py:366-397 | one thing drawn is one frame more taken or waiting |
| Staying.StaysUnlessOusted | src/hmz/daemon/serve.py:333-397 | over every run, a terminal on the list stays on it unless its socket went, too much piled up for it, it left or all were let go of, and until then has, taken or waiting, everything drawn since it was listed |
| Staying.OneHappening | src/hmz/daemon/serve.py:333-476 | whatever happens, a terminal goes exactly where one of those does it, is told why, and is put on the list by its hello and by nothing else |
| Staying.DrainIs | src/hmz/daemon/serve.py:383-397 | a socket takes as much as it offers of what waits, from the front, and is found gone exactly where it goes before all of that is taken |
| Staying.GetsItAll | src/hmz/daemon/serve.py:383-397 | a socket that takes all it is offered has everything its terminal is owed, and nothing waiting |
| Staying.LettingGoTells | src/hmz/daemon/serve.py:243-252 | every terminal on the list is off it and is told why, and nothing else has changed |
| Holding.TypingHolds | src/hmz/daemon/serve.py:495-515 | what is typed reaches the run in order, none lost and none twice |
| Staying.TypingIs | src/hmz/daemon/serve.py:495-515 | what is typed goes to the run as far as its terminal takes it, behind what was typed before, and the run goes on unless that terminal has gone |
| Serving.Held.Draws | src/hmz/daemon/serve.py:333-353 | a frame to every terminal on the list, or kept where nobody has ever read |
| Serving.Held.Keep | src/hmz/daemon/serve.py:355-364 | kept until it is more than is worth keeping, then dropped for good |
| Serving.Held.Write | src/hmz/daemon/serve.py:366-381 | one more frame waiting, sent as far as it goes, or the terminal dropped |
| Serving.Held.Send | src/hmz/daemon/serve.py:383-397 | as much taken as the socket takes, in order, and a socket that has gone dropped |
| Serving.Held.Arrive | src/hmz/daemon/serve.py:410-420 | a socket that has connected is none of the terminals yet, with nothing waiting |
| Serving.Held.Leave | src/hmz/daemon/serve.py:597-604 | one socket taken off, whatever it had waiting |
| Serving.Held.Type | src/hmz/daemon/serve.py:495-498 | what was typed waits for the run's own terminal behind what was typed before |
| Serving.Held.Join | src/hmz/daemon/serve.py:462-476 | the terminal on the list, the first handed what was kept, and nothing kept after |
| Serving.Held.LetGo | src/hmz/daemon/serve.py:243-252 | every terminal taken off the list to be told why, and how many there were |
| Serving.Held.Put | src/hmz/daemon/serve.py:500-515 | what is waiting for the run's own terminal put there as far as it goes |
| Serving.Pours | src/hmz/daemon/serve.py:383-397 | writing until nothing waits, there is no room, or the far end has gone |
| Exchanges.CompletesOnce | src/hmz/coganchor/remote.py:204-276 | over all interleavings in which the close goes on, its wait over or expired, while the reader is not about to deliver or complete something still pending, an exchange completes at most once and no chunk of it follows |
| Exchanges.NothingIsLeftWaiting | src/hmz/coganchor/remote.py:87-94 | once the close is over every exchange ever registered was completed, or given up, or is in the reader's hands, none is pending, and none can be registered; once the reader has ended, one of the first two |
| Exchanges.DeliversEveryChunk | src/hmz/coganchor/remote.py:248-266 | over every run, what is delivered is, one for one and in order, the chunks whose exchange was pending when they were looked up and that were then acted on; and every reply acted on completes its exchange |
| Exchanges.ActPends | src/hmz/coganchor/remote.py:204-276 | an exchange is pending from when it is registered, under a number no other had, until it is given up, replied to, or taken with all the others as the connection or the client ends |
| Exchanges.ActKeeps | src/hmz/coganchor/remote.py:204-276 | what every act keeps of what is pending, in the reader's hands, or being failed |
| Exchanges.ClosedTooSoon | src/hmz/coganchor/remote.py:92-94 | from any state in which the close goes on at another moment, acts that deliver or complete what has been completed |
| Exchanges.GatheringIsExact | src/hmz/coganchor/remote.py:87-94 | the close may go on exactly when the reader is not about to deliver or complete something still pending |
| Exchanges.RemoteClient.Open | src/hmz/coganchor/remote.py:204-215 | a new exchange pending under an id no other had, or refused once closed, and nothing else changed |
| Exchanges.RemoteClient.Discard | src/hmz/coganchor/remote.py:217-219 | the exchange is pending no more, given up where it was, and nothing else has changed |
| Exchanges.RemoteClient.DeliverFrame | src/hmz/coganchor/remote.py:248-266 | a chunk of a pending exchange is delivered, and that is all; a reply completes it, and it is pending no more; an end, or a frame of nothing pending, does nothing; and so do the acts, one after another |
| Exchanges.RemoteClient.FailPending | src/hmz/coganchor/remote.py:268-276 | everything pending taken at once and completed one by one, and the reader is over |
| Exchanges.RemoteClient.CloseAfterWait | src/hmz/coganchor/remote.py:87-94 | the first close fails what is pending, whether or not the reader has ended; any other does nothing |
| Routing.CanonicalSettlesOnce | src/hmz/coganchor/policy.py:162-197 | for every router and path, settling is idempotent and keeps the layout or the hole a path is in, the part below the root and the name on the target, exactly where the path is not below an aliased segment of a layout at `/private`, nor below a root that is an aliased name with a newline after it |
| Routing.SlipsByCase | src/hmz/coganchor/policy.py:162-197 | a path fails to settle only where case is folded and it is not spelled as the root already, or where its root is an aliased name with a newline after it |
| Routing.SlippedIsOut | src/hmz/coganchor/policy.py:188-196 | every path that fails is put where it is out of its layout |
| Routing.UnlookedIsRight | src/hmz/coganchor/policy.py:121-142 | where nothing could be spelled two ways, the answer given without looking is the one looking would give |
| Routing.ToVirtualIs | src/hmz/coganchor/policy.py:67-87 | the target's name for a path, by its characters: the layout's root there and then the path's key from where the local root's ends; and there is one exactly where the key begins, but for case, as the root's does and goes on below it |
| Routing.CanonicalIs | src/hmz/coganchor/policy.py:162-197 | where a path is put: onto its owner's own root with what is below it as it came, and left alone where it has no owner |
| Routing.MirroredWhereNotHoled | src/hmz/coganchor/policy.py:199-214 | a path is the mirror's exactly where a layout holds it and no hole does |
| Routing.DeepestOwns | src/hmz/coganchor/policy.py:144-149 | of all the layouts that hold a path, in whatever order they were given, its owner has a longest root |
| Routing.SpelledSame | src/hmz/coganchor/policy.py:188-196 | a path put back onto its root has the same key but for case, and the same below the root |
| Routing.WithinIs | src/hmz/coganchor/proto.py:424-455 | whether a path is in a root, and what is below it, by the characters of its key |
| Routing.KeyNormal | src/hmz/coganchor/proto.py:355-387 | a path's key is a path, and is its own key |
| Routing.AliasedRoot | src/hmz/coganchor/proto.py:407-421 | whatever holds an aliased path by its other name is aliased itself |
| Routing.PrivateRootLoses | src/hmz/coganchor/policy.py:188-196 | one such path, by another case, in and then in no layout |
| Routing.LineRootLoses | src/hmz/coganchor/proto.py:343-352 | one below a root with a newline after its name, in and then in no layout |

## Left out

- Python's own parsing, annotations and the wording of findings: a body is given as statements and a table of declarations.
- Supernodes at run time: a run treats one as a node that answers; how a run inside one is written down and picked up is not modelled.
- `Resuming.PickedUpIsUninterrupted`: does not model serialising an answer and rebuilding it, nor the digest that decides whether to pick up at all.
- JSON text, SHA-256 and pickles: prophecies are compared before they are written as text.
- `Refining.CommandRefines`: takes a remote command as one step. Only the process that ran it waits (`src/hmz/coganchor/supervisor.py:403-473`): what others write meanwhile is not pushed to it, and no listing is out of date until it ends. `Refining.CommandMeanwhile` says when what it is handed and leaves is right all the same; what others see between its changing the target and its end is not modelled.
- `Refining.RunsRefine`: takes every command of a run as one step, as `Refining.CommandRefines` does.
- `Mirroring.ShadowTree.Run`: does the same, in place.
- Symbolic and hard links, modes, times set by hand, `O_EXCL`, the flags of `renameat2`, more than one layout in one mirror, and descriptors held open across any other step: an open here is everything done through its descriptor.
- `Mirroring.ShadowTree.ApplyListing`: leaves out the links a listing may hold.
- Names longer than 255 bytes and whole paths longer than the kernel takes: neither side could make them. A fetch cut off before its end, which leaves its scratch file until the next listing.
- A mirror's records of folders: nothing reads one but to find that it is no file's, which having no record says as well.
- Opening a folder without saying so (no `O_DIRECTORY`), which lists what holds it and not the folder: an open here is of a file.
- A push that fails, which a remote command goes ahead without (`src/hmz/coganchor/supervisor.py:411-415`), and a listing that fails for any other reason than that there is no such folder.
- `truncate` as a call of its own: it makes the same two calls as an open that only writes, and leaves what such an open leaves.
- The directories above a carried one, removed only where empty; several carried directories at once (each is a protocol of its own); and turns whose commands fail or time out.
- Threads other than the one that carries in the host of a run: a letting-go from another thread is one event between two others.
- The replies and goodbyes written straight to a socket (`GONE`, `CONTROL`), sizes, signals and hooks.
- Callbacks that raise on the reader's thread, and what an exchange answers with.
- `swap`, `rewrite` and `runs_locally` in the router, and case folding that changes how long a text is.
- Terminals, processes, sockets, ssh and docker transports, backends, prices, the command line and the interface.
