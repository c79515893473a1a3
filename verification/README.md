# Geometry programs, specialist waves and the checks around them

This project models the part of the repository that has to be right by construction and proves
what it promises, over exact real arithmetic and for all inputs.

* **The geometry-program language.** `core/contracts/geometry_program.py` validates a small
  language of nodes (primitives, profiles, extrusions, revolutions, sweeps, arrays, booleans,
  instances, terrain) that refer to each other and nest through parents, and computes a bounding
  envelope. `apps/blender_worker/geometry_program_compiler.py` checks the program again, compiles
  it in dependency waves and builds vertex and face lists. Proved: exactly when the
  worker compiles a validated program to the end; when every point that it can make of a visible
  node is inside the computed envelope; that the emitted faces are closed surfaces, and exactly
  which of them are consistently oriented.
* **The repair passes** of `core/agents/geometry_program_planner.py`, which rescale, lift and
  clean a program so that it passes the validator, with the exact conditions under which they
  reach that aim, and the normalisation of its JSON schema.
* **Wave scheduling** in `core/agents/specialist_router.py`, with a nondeterministic thread pool,
  against the two contracts that accept wave numbers.
* **Smaller checks**: azimuth spacing, schema tightening with its local shape checker, the
  microwave dish mesh and the lattice tower legs.

## How the source is modelled

| module | content |
|---|---|
| `Affine`, `Hull` | vectors, matrices, transforms; bounds and convex hulls |
| `Graphs`, `Waves` | cycle checks, wave schedules and longest chains |
| `Program`, `Validator` | nodes, field checks, world matrices; the whole-program validator |
| `Envelope`, `EnvelopeSound` | the envelope computation; its soundness |
| `SweepFrames`, `SweepFailure`, `MirrorFailure` | the sweep vertices of the contract and of the worker; programs that leave the envelope |
| `Worker`, `EmptyOperand` | the worker's own validation and its compile loop; a program that it cannot finish |
| `MeshVertices`, `Surfaces`, `MeshFaces`, `MeshCompiler` | vertex lists, index topology, face lists and their loops |
| `Polygon` | segment test, self-intersection scan, shoelace sum |
| `Motions`, `MovedGeometry`, `VisibleBoxes` | what becomes of points, corners, boxes and bounds when roots move |
| `Repair`, `Fitting`, `GroundContact`, `ProfileRepair`, `ProfileStructure` | the repair passes and when they lead to a valid program |
| `SmallPrograms`, `FitFailures`, `GroundFailures`, `LimitFailure` | concrete programs on which the passes miss their aim |
| `Router`, `WaveContracts` | the specialist router; the accepting contracts |
| `JsonValues`, `SchemaTightening`, `StrictSchema` | JSON trees and the two schema passes |
| `AzimuthChecks`, `LatticeTower` | sector spacing; tower legs |

Floats are `real`, and the written tolerances (1e-6, 1e-9, 1e-12) are kept as constants. An angle
carries its cosine and sine with c² + s² = 1, so no trigonometry is assumed. The square root is a
function parameter `sqrt`, of which only sqrt(x) ≥ 0 and sqrt(x)² = x for x ≥ 0 are used; the
contract's normalisation (zero up to a length of 1e-12) and the worker's (zero only at length zero)
are two functions. Curves, bevels and solidified surfaces are Blender's own work; of them it is
assumed that no vertex is further than the bevel depth, width or thickness from what they are made
from, and of its mirror that it works axis by axis. Which differences and intersections the boolean solver leaves empty is a
parameter of the compile loop, and every answer is allowed for. Whether a request asks for ground
contact, which depends on free text, is a boolean parameter. A handler of the router is the outcome that it will have, and which running future finishes next, and
in which order finished ones are collected, is left open.

A recursive check that stops on its `visited` set, the memoised world matrix, the payload that is
lifted in place and the router are classes or methods with loops, as in the source; each is proved
against a specification function or a graph property. The corner computation, matrices, face
comprehensions and schema walks are functions.

## What the proofs found

* The caps of an open sweep and of a partial revolution wind the same way as the side quads next
  to them. Such meshes are watertight but not consistently oriented
  (`MeshCompiler.SweepIsClosed`, `MeshCompiler.RevolveIsClosed`: oriented if and only if the path
  is cyclic or the turn is full).
* The segment crossing test uses an absolute tolerance on products of areas, so no crossing within
  a square of side 0.5 mm is reported (`Polygon.SpeckCrossingsUnseen`), and the profile validator
  accepts a curve two of whose sides cross (`Polygon.CrossingProfileAccepted`).
  `Polygon.SegmentTestExact` says exactly which crossings the test sees.
* The contract and the worker make the same sweep vertices if and only if every chord of the path
  is zero or longer than 1e-12 (`SweepFrames.ListsAgree`). A valid sweep with a shorter path leaves
  the envelope (`SweepFailure.ShortSweepEscapes`).
* The envelope reflects a mirrored node along all its axes at once, the worker along each axis: the
  list holds every copy if and only if there is a single axis (`EnvelopeSound.MirrorListedIff`). A
  valid program with two axes and a turned node leaves its envelope
  (`MirrorFailure.CrossedMirrorEscapes`). Without such mirrors and such sweep paths the envelope
  holds (`EnvelopeSound.EnvelopeIsSound`).
* The worker refuses a boolean operand with an empty mesh, and the contract does not see that a
  difference is empty (`EmptyOperand.EmptyOperandStops`). Nothing else stops a validated program;
  it compiles whatever the solver does if and only if no boolean operand leads, through instances,
  arrays or modifiers, to a difference or an intersection (`Worker.AlwaysFilledIffSafe`).
* The uniform fit scales every visible point about its pivot if and only if every visible node hangs
  from a visible root (`Fitting.PointsScaleIff`), and a boolean whose operands hang from visible
  roots is scaled twice (`Fitting.MovedOperandsMoveTwice`). Each of the two spoils a valid program:
  the fit returns one that the validator refuses (`FitFailures.HiddenTreeSpoilsFit`,
  `FitFailures.MovedOperandSpoilsFit`). Without them it fits exactly. Nor does it look at whether
  the limit itself is legal: `Fitting.FittedIsValid` gives the exact condition under which the
  result passes the validator, and `Fitting.FittedFitsIff` states its size part on the boxes that
  the nodes have before the fit.
* The ground-contact pass measures only a root's own geometry. A child below its root stays below
  the ground (`GroundFailures.ChildStaysBelow`); a boolean root whose operands hang from lifted
  roots is lifted twice (`GroundContact.OperandsLiftTwice`), and one that is turned upside down is
  pushed below the ground again, for a second pass to lift (`GroundFailures.CutIsLiftedAgain`).
  `GroundContact.GroundPolicyIff` and `GroundContact.LiftIsIdempotent` give the exact conditions.
  Roots are lifted apart from each other, so a program that met its maximum can exceed it
  afterwards (`LimitFailure.LiftExceedsMaximum`; exactly when, says `GroundContact.LiftKeepsLimit`).
* The local shape checker never looks at `additionalProperties`
  (`SchemaTightening.UndeclaredKeyIsIgnored`). Tightening loses a required name that is not
  declared (`SchemaTightening.UndeclaredRequirementIsLost`), an enumeration exactly when what it makes
  of an entry is not listed too (`SchemaTightening.EnumLosesNothingIff`), and the schemas that a
  property table which itself looks like a schema has under "required" and "additionalProperties"
  (`SchemaTightening.OverwrittenSchemaIsLost`); without these three it only makes a schema stronger.
  It is idempotent exactly when no
  property table itself looks like a schema (`SchemaTightening.TightenIsIdempotent`). A property
  that is called "discriminator" stays required but disappears from a strict schema
  (`StrictSchema.PropertyNamedDiscriminator`).
* Cleaning profiles removes a role or a link that only a profile carries; the exact condition under
  which the validator accepts the cleaned program is `ProfileStructure.NormalisedIsValidIff`.
* The azimuth check compares a single sector with itself, so one sector is never adequate
  (`AzimuthChecks.AdequateMeansApart`).
* The tower legs lie on the tower envelope if and only if both widths are at least 0.04 m and the
  builder and the envelope read the same top width, which they do not for a width of zero
  (`LatticeTower.LegsFitIffWide`). A thinner top is legal, and its legs end inside the envelope
  (`LatticeTower.ThinTopEndsInside`).

## Model

| member | source | states |
|---|---|---|
| Affine.MatrixIsEulerOrder | core/contracts/geometry_program.py:1006-1028 | the closed-form matrix places every point as scaling, then rotating about X, Y and Z, then shifting does |
| Affine.RotationKeepsDots | core/contracts/geometry_program.py:1006-1028 | the rotation block is orthogonal for any three angles with c² + s² = 1 |
| Affine.ProductApplies | core/contracts/geometry_program.py:1031-1050 | transforming by a matrix product is transforming by one factor after the other |
| Program.WorldMatrixPlaces | core/contracts/geometry_program.py:966-982 | the root-to-node product places a point exactly as applying the node's transform and then each ancestor's does |
| Program.MatrixCache.NodeWorldMatrix | core/contracts/geometry_program.py:966-982 | for any visiting order and any partially filled correct cache the answer is the plain product, and the cache stays correct |
| Hull.HullInsideBounds | core/contracts/geometry_program.py:985-991 | whatever lies in the convex hull of a point list lies in its computed bounds |
| Hull.BoxInCornerHull | core/contracts/geometry_program.py:994-1003 | a box is inside the hull of the eight corners listed for it, in any later orientation |
| Hull.HullMaps | core/contracts/geometry_program.py:1043-1050 | an affine map takes the hull of a list into the hull of the mapped list |
| Envelope.ComputeProgramBounds | core/contracts/geometry_program.py:705-722 | the loop with its shared matrix cache computes the bounds of all placed visible corners, or the first error in list order |
| SweepFrames.ListsAgree | core/contracts/geometry_program.py:880-912 | the contract lists the vertices that the worker emits for a sweep if and only if every chord of the path is zero or longer than 1e-12 |
| EnvelopeSound.LeafContains | core/contracts/geometry_program.py:747-877 | the corner list of each primitive, curve, extrusion, revolution, sweep and terrain has every point of the emitted mesh in its hull, for sweeps with chords that both programs can normalise |
| EnvelopeSound.MirrorListedIff | core/contracts/geometry_program.py:793-800 | the corners listed for a mirror hold every copy of every geometry if and only if the mirror has one axis |
| EnvelopeSound.CornersContain | core/contracts/geometry_program.py:747-877 | the same for every node, through instances, arrays, modifiers and booleans nested to any depth, in programs with one-axis mirrors and with sweep chords that are zero or longer than 1e-12 |
| EnvelopeSound.EnvelopeIsSound | core/contracts/geometry_program.py:705-722 | every point the worker can make of a visible node, through its whole parent chain, is inside the program's bounds, if mirrors have one axis and no sweep chord is shorter than 1e-12 without being zero |
| SweepFailure.ShortSweepEscapes | core/contracts/geometry_program.py:940-946 | a valid sweep with a path of 1e-13 m has a vertex of the worker outside its bounds |
| MirrorFailure.CrossedMirrorEscapes | core/contracts/geometry_program.py:793-800 | a valid program with a mirror along X and Y, turned about Z, has a copy outside its bounds |
| EnvelopeSound.CornersNeverCycle | core/contracts/geometry_program.py:747-760 | on an acyclic program the corner computation never raises its own cycle error |
| Graphs.ValidateDependencyGraph | core/contracts/geometry_program.py:655-671 | the depth-first walk ends on every finite graph and accepts if and only if a topological rank exists; a rejection comes with a cycle |
| Graphs.DependencyWalk.Visit | core/contracts/geometry_program.py:659-668 | one visit keeps the set of finished vertices ranked and closed, restores the set of open ones, and fails only on a cycle |
| Graphs.TrappedHasCycle | core/contracts/geometry_program.py:655-671 | a set of vertices that all depend on the set contains a cycle |
| Graphs.FollowPointers | core/contracts/geometry_program.py:568-580 | the instance walk accepts if and only if the source pointers have no cycle |
| Graphs.ClimbParents | core/contracts/cognitive_design.py:130-137 | the parent walk accepts if and only if the parent pointers have no cycle |
| Validator.PointerWalksAreRedundant | core/contracts/geometry_program.py:558-582 | every cycle that the parent or instance walk rejects is one that the dependency walk rejects too |
| Validator.CheckCycles | core/contracts/geometry_program.py:558-582 | the three walks together accept if and only if all three graphs are acyclic |
| Validator.ValidateProgramGraph | core/contracts/geometry_program.py:453-645 | the validator accepts exactly the programs that meet every structural rule and fit their maximum within 1e-6 |
| Worker.ValidateClosedProgram | apps/blender_worker/geometry_program_compiler.py:549-628 | the worker's own loops accept exactly the programs with unique identifiers and closed references of known kinds |
| Worker.ValidatedIsClosed | apps/blender_worker/geometry_program_compiler.py:549-628 | whatever the contract's validator accepts, the worker's validation accepts |
| Worker.ValidatedDemandsMet | apps/blender_worker/geometry_program_compiler.py:447-449 | in a validated program no array, boolean or modifier meets a source that is not a mesh |
| Worker.ResolutionIffType | core/contracts/geometry_program.py:674-697 | the validator's mesh resolution says mesh if and only if the object that the worker will build is one |
| Worker.CompileNodes | apps/blender_worker/geometry_program_compiler.py:64-107 | the wave loop ends, and succeeds if and only if the graph is acyclic, every mesh demand is met and no boolean operand is empty; what it stops on is a reason |
| Worker.CompileProgram | apps/blender_worker/geometry_program_compiler.py:44-107 | a program that the contract accepts is compiled to the end if and only if the solver leaves no boolean operand empty, and stops on nothing else |
| Worker.AlwaysFilledIffSafe | apps/blender_worker/geometry_program_compiler.py:460-485 | the operands are filled whatever the solver leaves empty if and only if none of them leads, through instances, arrays or modifiers, to a difference or an intersection |
| EmptyOperand.EmptyOperandStops | apps/blender_worker/geometry_program_compiler.py:479-481 | a valid program whose union has a difference as operand: if that difference is empty, the worker stops |
| EmptyOperand.NothingIsLeft | apps/blender_worker/geometry_program_compiler.py:479-481 | no point of the block is outside the one cut from it, so the exact difference of that program is empty |
| MeshCompiler.BuiltMeshesHaveFaces | apps/blender_worker/geometry_program_compiler.py:436-444 | no extrusion, revolution, sweep or terrain of a legal profile and legal fields is refused as empty |
| Worker.CompileOrderIsTopological | apps/blender_worker/geometry_program_compiler.py:64-107 | each node is compiled exactly once, after its parent and everything it is made from |
| Worker.CompileOrderIgnoresListing | apps/blender_worker/geometry_program_compiler.py:64-107 | permuting the node list does not change the compile order |
| MeshCompiler.ExtrudeIsClosed | apps/blender_worker/geometry_program_compiler.py:249-265 | extrusion faces index existing vertices, every edge is in exactly two faces, and they run along it in opposite directions |
| MeshCompiler.ExtrudeFacesAre | apps/blender_worker/geometry_program_compiler.py:257-264 | the face comprehension is the capped grid surface with two rings |
| MeshCompiler.CompileRevolve | apps/blender_worker/geometry_program_compiler.py:268-303 | the loops emit one ring of vertices per angle, the quads ring by ring and the two caps only for a partial closed profile |
| MeshCompiler.RevolveIsClosed | apps/blender_worker/geometry_program_compiler.py:280-303 | a revolved closed profile is watertight for full and partial turns; oriented if and only if the turn is full |
| MeshCompiler.OpenRevolveHasRim | apps/blender_worker/geometry_program_compiler.py:280-295 | for an open profile the unpaired edges are exactly the rims of the grid |
| MeshCompiler.CompileSweep | apps/blender_worker/geometry_program_compiler.py:306-347 | the loops emit the frame ring at each path point, the quads ring by ring and the two caps only for an open path |
| MeshCompiler.SweepIsClosed | apps/blender_worker/geometry_program_compiler.py:325-347 | a sweep is watertight; oriented if and only if the path is cyclic |
| MeshCompiler.SideQuads | apps/blender_worker/geometry_program_compiler.py:283-295 | the nested loops over rings and profile edges list exactly the quads of the grid, in order |
| MeshCompiler.TerrainRimIsBorder | apps/blender_worker/geometry_program_compiler.py:408-433 | a terrain is oriented, and its unpaired edges are exactly those along the rim of the height field |
| MeshCompiler.BuildDish | apps/blender_worker/parametric_builder.py:601-632 | the loops emit apex and rings, the apex fan and the bowl quads |
| MeshCompiler.DishRimIsBorder | apps/blender_worker/parametric_builder.py:618-632 | the dish is one oriented sheet whose whole boundary is its outer ring |
| MeshCompiler.DishIsParaboloid | apps/blender_worker/parametric_builder.py:604-617 | every dish vertex is on the paraboloid through the apex whose rim lies in the front plane |
| MeshFaces.SurfaceTheorem | apps/blender_worker/geometry_program_compiler.py:257-347 | for all five face constructions and all sizes: when they are watertight, when oriented, and which single edges are paired |
| Surfaces.LabelsDecide | apps/blender_worker/geometry_program_compiler.py:281-295 | vertex numbering is injective: two directed edges of a face list coincide exactly when they are the same grid edge |
| MeshVertices.StackAt | apps/blender_worker/geometry_program_compiler.py:275-279 | vertex ring · width + j of a ringed mesh is point j of that ring |
| Polygon.SegmentTestExact | core/contracts/geometry_program.py:1070-1089 | the segment test is true if and only if a point strictly inside both segments exists and clears the tolerance |
| Polygon.CrossingFound | core/contracts/geometry_program.py:1070-1089 | gives the parameters of the common point of two segments that the test reports |
| Polygon.SpeckCrossingsUnseen | core/contracts/geometry_program.py:1087-1089 | no crossing within a square of side 0.5 mm is reported, wherever the square is |
| Polygon.CrossingProfileAccepted | core/contracts/geometry_program.py:189-212 | a closed profile of five points whose sides 0 and 3 cross in their middles meets every profile rule |
| Polygon.PolygonSelfIntersects | core/contracts/geometry_program.py:1053-1067 | the scan is true if and only if two edges without a common corner pass the segment test |
| Polygon.SelfIntersectionShifts | core/contracts/geometry_program.py:1053-1067 | translating the polygon does not change the answer |
| Polygon.SelfIntersectionRotates | core/contracts/geometry_program.py:1053-1067 | listing the polygon from its next corner does not change the answer |
| Polygon.ShoelaceSum | core/contracts/geometry_program.py:202-206 | the loop computes the shoelace sum |
| Polygon.ShoelaceInvariant | core/contracts/geometry_program.py:202-206 | the shoelace sum is the same after a translation and after a cyclic rotation |
| Motions.PlacesMove | core/contracts/geometry_program.py:966-982 | changing only root transforms moves every point of every node with its topmost ancestor |
| MovedGeometry.CornersMove | core/contracts/geometry_program.py:747-877 | the local corners of every node of the moved program, worked out from the original: untouched for what is made of its own fields, placed anew for what a boolean takes from moved roots |
| MovedGeometry.CornersKept | core/contracts/geometry_program.py:747-877 | local corners stay as they were in every node that no boolean operand ties to a moved root |
| MovedGeometry.SettledMoves | core/contracts/geometry_program.py:725-744 | so the placed corners of such a node move with its topmost ancestor, and with nothing else |
| MovedGeometry.BooleanMovesTwice | core/contracts/geometry_program.py:747-877 | a boolean of any operation whose operands move alike takes their motion into its local geometry, before its own root's motion |
| MovedGeometry.EnvelopeMoves | core/contracts/geometry_program.py:705-722 | if all visible nodes move alike, the computed envelope moves like them |
| VisibleBoxes.SpansDecide | core/contracts/geometry_program.py:628-645 | the moved scene is within a size limit if and only if no two visible boxes reach further; for all but booleans that the motion reaches these are the boxes before it, each moved with its topmost ancestor |
| VisibleBoxes.BoxesDecide | core/contracts/geometry_program.py:628-645 | and the scene as it is, if and only if its nodes' own boxes are |
| Repair.StructureKept | core/contracts/geometry_program.py:455-626 | moving visible roots keeps every structural rule of the validator |
| Fitting.FitToMaximumDimensions | core/agents/geometry_program_planner.py:389-441 | the pass returns nothing, raises, or returns the program with all visible roots scaled about their mean, in exactly the source's cases |
| Fitting.RatioFits | core/agents/geometry_program_planner.py:401-410 | the least ratio brings every axis within the limit, and one axis exactly to it |
| Fitting.PointsScaleIff | core/agents/geometry_program_planner.py:412-432 | every visible point p goes to pivot + r(p − pivot) if and only if every visible node hangs from a visible root |
| Fitting.FitScalesEverything | core/agents/geometry_program_planner.py:412-432 | if in addition no visible node takes boolean operands from a visible root, dimensions become exactly r times the old ones, all fit, and one exactly |
| Fitting.FittedIsValid | core/agents/geometry_program_planner.py:389-441 | for every program: the fitted one passes the whole validator, scale and translation bounds included, if and only if the limit is legal, there was room for one adjustment, there is no exact asset, and no two visible boxes, each scaled if its tree is visible and else left, reach further than the limit |
| Fitting.FittedFitsIff | core/agents/geometry_program_planner.py:412-432 | where no boolean takes operands from a visible tree, the last condition only looks at the boxes that the nodes have before the fit |
| Fitting.HiddenTreesStay | core/agents/geometry_program_planner.py:414-419 | visible nodes under a construction root are not scaled |
| FitFailures.HiddenTreeSpoilsFit | core/agents/geometry_program_planner.py:414-419 | a valid program with a panel under a construction root whose fitted form the validator refuses |
| Fitting.MovedOperandsMoveTwice | core/contracts/geometry_program.py:747-877 | a boolean of any operation whose operands hang from visible roots is scaled once in its local geometry and once by its own root |
| FitFailures.MovedOperandSpoilsFit | core/agents/geometry_program_planner.py:412-432 | a valid program with a plank cut from a visible log whose fitted form the validator refuses |
| GroundContact.Payload.NormalizeGroundContact | core/agents/geometry_program_planner.py:485-536 | the payload becomes the program with each visible root below the ground lifted by its depth, and stays untouched in every other case |
| GroundContact.VisibleRootLifts | core/contracts/geometry_program.py:725-744 | the loop collects the lift of each visible root from its own bounds, or the first error |
| GroundContact.LiftGrounds | core/agents/geometry_program_planner.py:495-531 | afterwards each visible root has the box worked out for it; one that no boolean operand ties to a lifted root has its lowest point at exactly zero if it was below, and else where it was, and keeps its X and Y |
| GroundContact.LiftIsIdempotent | core/agents/geometry_program_planner.py:485-536 | a second application changes nothing if and only if the first one changed nothing, left the validator's bounds, or left no visible root below the ground, as it always does where no boolean operand hangs from a lifted root |
| GroundContact.LiftedIsValid | core/agents/geometry_program_planner.py:485-536 | the lifted program passes the whole validator if and only if no lift leaves the 1000 m translation bound and, if there is a maximum, no two lifted visible boxes reach further than it |
| GroundContact.LiftedSpans | core/agents/geometry_program_planner.py:527-531 | for settled nodes that is a condition on their own boxes, each raised by the lift of its topmost ancestor and kept in X and Y |
| GroundContact.LiftKeepsLimit | core/agents/geometry_program_planner.py:213-215 | a program that met its maximum still does so after the lift if and only if no visible top rises too far above a visible bottom |
| LimitFailure.LiftExceedsMaximum | core/agents/geometry_program_planner.py:213-215 | a valid program, sixteen metres high as its maximum says, that the pass pulls apart to seventeen |
| GroundContact.PlacesRise | core/agents/geometry_program_planner.py:527-531 | every point of every node rises by the lift of its topmost ancestor |
| GroundContact.GroundPolicyIff | core/agents/geometry_program_planner.py:486-493 | after the pass the visible envelope is at the ground or above if and only if every visible node stands, and a settled node stands if and only if its lowest point plus the lift of its topmost ancestor is at the ground or above |
| GroundContact.OperandsLiftTwice | core/agents/geometry_program_planner.py:527-531 | a boolean root whose operands hang from roots lifted alike takes their lift into its local geometry, before its own |
| GroundFailures.ChildStaysBelow | core/agents/geometry_program_planner.py:502-508 | a valid program that the pass leaves alone although its visible envelope reaches five metres below the ground |
| GroundFailures.CutIsLiftedAgain | core/agents/geometry_program_planner.py:527-531 | a valid program after whose lift a visible root is one metre below the ground, so that a second pass changes it |
| ProfileRepair.Draft.NormalizeProfiles | core/agents/geometry_program_planner.py:649-711 | the payload's profiles become bare and listed, with one note if anything changed and there is room |
| ProfileRepair.NormalisedHolds | core/agents/geometry_program_planner.py:649-711 | afterwards every profile meets the validator's profile rules, only profiles have changed, and a second pass does nothing |
| ProfileRepair.NormalisedIffOk | core/agents/geometry_program_planner.py:649-711 | the pass leaves exactly those programs alone whose profiles already meet the rules |
| ProfileStructure.NormalisedIsSoundIff | core/agents/geometry_program_planner.py:649-711 | the structural rules of the validator hold afterwards if and only if, profiles' own links, roles and listing apart, they held before |
| ProfileStructure.NormalisedIsValidIff | core/agents/geometry_program_planner.py:206-215 | so the cleaned program is valid, size apart, under a condition on the given one |
| ProfileStructure.SoundIsRepairable | core/agents/geometry_program_planner.py:649-711 | a program with sound structure is left alone |
| Waves.ScheduleIffAcyclic | core/agents/specialist_router.py:68-76 | the wave loop gets stuck if and only if the graph has a cycle |
| Waves.WaveIsLongestChain | core/agents/specialist_router.py:68-91 | each domain's wave is the length of its longest dependency chain |
| Waves.WaveNumbersAreLeast | core/agents/specialist_router.py:68-91 | and no numbering with dependencies in earlier waves gives any domain a smaller number |
| Router.SpecialistRouter.Route | core/agents/specialist_router.py:47-91 | for every order of completions: success if and only if the request is well posed, acyclic and all handlers pass; the same results and waves each time; a cycle error only for a cycle; bounded pool, and no handler submitted before its dependencies passed |
| Router.SpecialistRouter.ExecuteWave | core/agents/specialist_router.py:96-119 | for every interleaving the wave returns each domain's outcome, or the failure of one that failed |
| Router.CollectKeeps | core/agents/specialist_router.py:104-119 | collecting any finished future keeps the pool invariant: no domain is lost or run twice |
| Router.StartKeeps | core/agents/specialist_router.py:98-103 | starting any queued domain keeps the pool invariant, its worker bound and the submission order |
| WaveContracts.BlueprintAcceptsRanks | core/contracts/design_blueprint.py:200-228 | the blueprint accepts exactly the wave numbers that put dependencies strictly earlier, if each required domain is listed once and decided |
| WaveContracts.PlanAcceptsRanks | core/contracts/cognitive_design.py:268-304 | the registry check accepts exactly the plans whose waves put dependencies strictly earlier |
| WaveContracts.RouterWavesAreLeastAccepted | core/contracts/design_blueprint.py:214-228 | the router's waves are pointwise the least that the blueprint accepts |
| WaveContracts.RouterWavesAreLeastPlanned | core/contracts/cognitive_design.py:289-304 | the router's waves are pointwise the least that the registry check accepts |
| SchemaTightening.TightenedIsStronger | core/agents/cognitive_design_planner.py:305-389 | a value without shape errors against the tightened schema has none against the original, if required names are declared, what tightening makes of enumeration entries is listed too and no table loses a property schema |
| SchemaTightening.EnvelopeKeepsMeaning | core/agents/cognitive_design_planner.py:305-328 | a response that passes the strict envelope has the output key and a value under it that the original schema accepts, under the same conditions |
| SchemaTightening.UndeclaredRequirementIsLost | core/agents/cognitive_design_planner.py:317-321 | a required name that is not declared loses its force: a value that only the original rejects |
| SchemaTightening.EnumLosesNothingIff | core/agents/cognitive_design_planner.py:305-328 | for a schema with neither type nor alternatives, or with a plain type: whatever passes the tightened enumeration passes the original if and only if each tightened entry of that type is listed too |
| SchemaTightening.TightenedEntryIsLost | core/agents/cognitive_design_planner.py:315-326 | an enumeration entry that looks like an object schema is rewritten: a value that only the original rejects |
| SchemaTightening.OverwrittenSchemaIsLost | core/agents/cognitive_design_planner.py:317-321 | a property table that looks like a schema: into any object that passes the tightened schema, any value that the schema under "required" or "additionalProperties" rejects can be put there, and only the original rejects the result |
| SchemaTightening.OverwrittenPropertyIsLost | core/agents/cognitive_design_planner.py:317-321 | a property called "required" beside one called "properties" loses its schema: a value that only the original rejects |
| SchemaTightening.UndeclaredKeyIsIgnored | core/agents/cognitive_design_planner.py:349-364 | an undeclared key never causes a shape error |
| SchemaTightening.TightenIsIdempotent | core/agents/cognitive_design_planner.py:305-328 | a second pass changes nothing if and only if no property table is itself taken for a schema and grows |
| SchemaTightening.PropertyNamedProperties | core/agents/cognitive_design_planner.py:317-321 | a concrete schema that the second pass changes |
| StrictSchema.NormalIffSteady | core/agents/geometry_program_planner.py:722-755 | the result has no oneOf or discriminator, bare references and closed objects that require exactly their properties, if and only if no property has a name that the pass acts on |
| StrictSchema.StrictIsIdempotent | core/agents/geometry_program_planner.py:722-755 | normal form and being left alone by the pass are the same; a second pass is the identity exactly on steady schemas |
| StrictSchema.PropertyNamedDiscriminator | core/agents/geometry_program_planner.py:731-748 | a property named discriminator stays required but is no longer declared |
| AzimuthChecks.CheckAzimuths | core/agents/rf_engineer.py:18-60 | the sort and the loops report neighbour spacing adequacy, the least spacing and the overlap list |
| AzimuthChecks.LeastSpacingIsLeastGap | core/agents/rf_engineer.py:26-39 | the least neighbour spacing is the least circular distance between any two sectors |
| AzimuthChecks.AdequateMeansApart | core/agents/rf_engineer.py:36-39 | spacing is adequate if and only if there are two or more sectors and every two are at least 30 degrees apart |
| AzimuthChecks.AdequateMeansClear | core/agents/rf_engineer.py:36-60 | adequate spacing leaves no overlap and at most twelve sectors |
| AzimuthChecks.GapsGoOnceRound | core/agents/rf_engineer.py:26-34 | the gaps to the next sector add up to 360 degrees unless all sectors coincide |
| AzimuthChecks.ConflictsAreOverlaps | core/agents/rf_engineer.py:50-60 | the list names exactly the pairs closer than 10 degrees, by their original numbers |
| AzimuthChecks.ConflictsAreDistinct | core/agents/rf_engineer.py:50-60 | and each pair once |
| AzimuthChecks.SortedHolds | core/agents/rf_engineer.py:18-24 | sorting loses and alters no sector and orders them by azimuth |
| LatticeTower.BuildLegs | apps/blender_worker/parametric_builder.py:353-366 | the loops emit one leg segment per level and corner |
| LatticeTower.LegsJoin | apps/blender_worker/parametric_builder.py:353-366 | consecutive segments join, from the ground to the tower's height |
| LatticeTower.LegsOnEnvelope | apps/blender_worker/parametric_builder.py:294-319 | for widths of at least 0.04 m every point of every leg is exactly at the envelope radius for its height and azimuth |
| LatticeTower.LegsFitIffWide | apps/blender_worker/parametric_builder.py:294-319 | all legs lie on the envelope if and only if both widths are at least 0.04 m and the two programs read the same top width |
| LatticeTower.ThinTopEndsInside | apps/blender_worker/parametric_builder.py:312-319 | at a thinner top every leg ends strictly inside the envelope |

## Left out

- EnvelopeSound.EnvelopeIsSound: says nothing about points of exact assets, whose solid is an imported file; their envelope code is modelled.
- EnvelopeSound.CornersContain: leaves out exact assets for the same reason.
- Worker.ValidateClosedProgram: starts from typed nodes, so raw payloads with an empty parent string or with entries that are not dictionaries are outside the model.
- Worker.CompileProgram: takes it from Blender that copies, arrays, modified meshes and unions of non-empty meshes are non-empty.
- Blender's own normalisation, which also treats lengths near the least single-precision number as zero; the worker's vectors are exact here.
- Schemas on which the source itself raises (a `type` that is a list, a `properties` value that is not iterable, limits that are not numbers) and comparison of 1 with 1.0 inside nested enumeration values.
- Updating dictionary trees in place during the schema passes: the trees are modelled as values, so sharing between subtrees is not captured.
- Field checks outside the graph (identifiers' patterns, text lengths, colours, frames of anchors and connectors), materials, anchors' compilation and metadata.
- Primitives are ideal solids; their bevel and segment counts, and the smooth shading of meshes, are not modelled.
- A missing transform or translation in a raw payload, and payloads that are not dictionaries.
- The wording of error messages and notes; errors carry a kind only.
- Floating-point rounding, and the values of sine and cosine.
- Braces, platforms and ladders of the tower, and the zero-length segments that Blender's helper drops.
- Ports and relationships of the component graph, and the checks of the blueprint and route plan that do not concern waves.
- Real time and exceptions other than a handler's own in the thread pool.
- Prompts, clients, repair retries, hashing, asset manifests, rendering, import and export.
