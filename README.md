# Anchor connections, integer rectangles and font-provider helpers

This project models three pieces of a constraint-based Android layout stack and proves properties of each.

1. **Anchor logic of the constraint layout engine** (`ConstraintAnchor`). Each anchor is a positional attachment point of a widget: left, top, right, bottom, baseline, centre, horizontal centre, vertical centre, or none. An anchor may be connected to an anchor of another widget, with these connection fields:
   - a margin;
   - a gone margin (`-1` when unset);
   - a strength;
   - a creator tag;
   - a connection type.

   The model covers:
   - the connection state machine (`connect` in all its forms, `reset`, and the setters that only act on a connected anchor);
   - the table of legal connections, including the guideline and baseline exceptions;
   - margin resolution from visibility (visibility `8` is GONE);
   - the cycle guard, a depth-first search with a visited set over same-dimension connections, followed by the parent/sibling rule;
   - the enum classifiers (axis, side anchors, opposite, priority levels, snap compatibility).
2. **`Rectangle`**: an integer box with half-open extent. It has in-place `setBounds` and `grow`, and pure `contains`, `intersects` and the two centre getters.
3. **Font-provider helpers** (`FontsContractCompat`):
   - the certificate comparator (length first, then the first differing signed byte);
   - the positional equality of two certificate lists;
   - the mapping from a fetch outcome to a typeface result code;
   - the loop that collects one loaded font file per distinct URI.

## Modelling choices

- **Widget arena.** Widgets are kept in an arena, `map<WidgetId, Widget>`.
  - Each `Widget` holds a parent id, a visibility code, a baseline flag, a guideline flag, and its anchors as `Link` values (kind plus optional target).
  - Targets are `AnchorRef(widget id, kind)` values, not references.
  - Operations that consult other widgets take the arena as a parameter: validation, margin and the cycle guard.
- **`ConstraintAnchor` class.** `ConstraintAnchor` (module `Anchors`) is a class.
  - `owner` and `kind` are `const`. Everything `connect` and `reset` change is a `var`.
  - `Valid()` is the state invariant every operation keeps: a disconnected anchor has margin 0 and no gone margin.
- **The cycle guard.** `isConnectionToMe` is a recursive method that threads the visited set in and out.
  - It terminates because the unvisited part of the arena shrinks with every widget it expands.
  - A successful search proves a path to the owner.
  - A failed search proves that every widget it newly visited is not the owner and has all its same-dimension successors visited.
  - `IsConnectionAllowed` combines the two results into an exact equivalence with graph reachability (`WidgetArena.Reaches`) and the parent/sibling rule.
- **The dimension relation is directional.** The search follows an anchor `a` when `a.isSimilarDimensionConnection(this)` holds, and that relation is not symmetric: `Center` reaches every kind except `Baseline`, while no other kind reaches `Center`.
- **Java `int` and `byte`.** These are the newtypes `JavaInt.Int32` and `JavaInt.Byte`.
  - `Rectangle` arithmetic wraps around explicitly.
  - The centre getters divide with truncation toward zero (`JavaInt.Quot`).
  - Properties that only hold without overflow are stated under `EdgesFit()` or an explicit range condition.
  - `ContainsUnderWrapAround` shows the overflow case: a box at `x = MIN_INT` with width `-1` contains points.
- **Certificates.** A certificate is taken as its byte contents (`seq<Byte>`), since nothing here mutates one. The comparator returns an unbounded `int`. Java array lengths never exceed `MAX_INT`, so the length difference cannot overflow.
- **Abstract parameters in the font code.** The fetch outcome (`FetchOutcome`) and the typeface built from the fonts (`created`) are parameters of `GetFontInternal`. Loading a URI (`mmap`) is a function parameter of `PrepareFontData`. `PrepareFontData` also has a ghost output: the URIs in the order they were loaded. It shows that a repeated URI is loaded only once, and it is not part of the compiled result.
- **Naming.** The source's `Type.NONE` is `NoneAnchor`, and `Strength.NONE` is `NoneStrength`.

## Behaviour of the code worth knowing

- **`isSnapCompatibleWith`** is false for a `CENTER` anchor even against another `CENTER`, and true for two `NONE` anchors.
- **`isSimilarDimensionConnection`** is not the plain horizontal/vertical split: a centre anchor is similar to every kind but baseline, and `NONE` is similar only to itself. `isVerticalAnchor` counts `NONE` as vertical.
- **`reset` leaves the strength STRONG**, while `connect(null, …)` sets it to NONE. A disconnected anchor therefore need not have strength NONE.
- **`setMargin(0)` on a connected anchor** makes its margin 0, so a zero margin does not mean the anchor is disconnected. What every operation does keep is `Valid()`: a disconnected anchor has margin 0 and no gone margin.
- **`connect` does not check that the target belongs to another widget.** An anchor may be connected to an anchor of its own owner.
- **The creator tag is a plain `int`** (0 user, 1 scout, 2 auto-created), and the model keeps it as one.

## Model

| member | source | states |
|---|---|---|
| `Anchors.ConstraintAnchor.constructor` | sources/androidx/constraintlayout/solver/widgets/ConstraintAnchor.java:14-23 | a new anchor is disconnected: margin 0, no gone margin, strength NONE, creator USER, type RELAXED; it satisfies the state invariant |
| `Anchors.ConstraintAnchor.IsConnected` | sources/androidx/constraintlayout/solver/widgets/ConstraintAnchor.java:161-163 | true iff the anchor has a target; a disconnected anchor in its invariant state has margin 0 and no gone margin |
| `Anchors.ConstraintAnchor.GetMargin` | sources/androidx/constraintlayout/solver/widgets/ConstraintAnchor.java:78-89 | 0 whenever the owner is GONE; otherwise the gone margin when one is set and the target's owner is GONE; otherwise the stored margin; never negative when the stored margin is not |
| `Anchors.DisconnectedMarginIsZero` | sources/androidx/constraintlayout/solver/widgets/ConstraintAnchor.java:78-89 | an anchor in its invariant state with no target contributes margin 0 |
| `Anchors.ConstraintAnchor.Reset` | sources/androidx/constraintlayout/solver/widgets/ConstraintAnchor.java:115-123 | disconnects with margin 0, no gone margin, but strength STRONG, creator USER, type RELAXED |
| `Anchors.ConstraintAnchor.Connect` | sources/androidx/constraintlayout/solver/widgets/ConstraintAnchor.java:129-151 | to nothing: always succeeds and leaves no target, margin 0, no gone margin, strength NONE, creator AUTO; otherwise succeeds iff forced or the target is legal; on success stores the target, max(margin, 0), the gone margin, strength and creator as given; on failure changes nothing; never changes the connection type; keeps the invariant |
| `Anchors.ConstraintAnchor.ConnectWithStrength` | sources/androidx/constraintlayout/solver/widgets/ConstraintAnchor.java:125-127 | the same as `Connect` with no gone margin and no forcing: succeeds iff disconnecting or the target is legal |
| `Anchors.ConstraintAnchor.ConnectWithCreator` | sources/androidx/constraintlayout/solver/widgets/ConstraintAnchor.java:153-155 | the same with strength STRONG and no gone margin, not forced |
| `Anchors.ConstraintAnchor.ConnectWithMargin` | sources/androidx/constraintlayout/solver/widgets/ConstraintAnchor.java:157-159 | the same with strength STRONG, creator USER and no gone margin, not forced |
| `Anchors.ConstraintAnchor.IsValidConnection` | sources/androidx/constraintlayout/solver/widgets/ConstraintAnchor.java:165-212 | false for no target; otherwise exactly the legality table (same kind, where baseline-to-baseline needs both owners to have a baseline; centre to any kind but baseline or the centre lines; left/right to left/right, or to a horizontal centre line of a guideline; top/bottom likewise vertically; nothing else); a legal target is always in the source's dimension |
| `Anchors.ValidCrossKindSource` | sources/androidx/constraintlayout/solver/widgets/ConstraintAnchor.java:172-206 | a legal connection between different kinds starts at a side anchor or the centre |
| `Anchors.GuidelineCentreRule` | sources/androidx/constraintlayout/solver/widgets/ConstraintAnchor.java:179-198 | a side anchor may target a centre line of its own axis iff the target's owner is a guideline |
| `Anchors.ConstraintAnchor.SetStrength` | sources/androidx/constraintlayout/solver/widgets/ConstraintAnchor.java:266-270 | stores the strength only when connected; every other field unchanged; keeps the invariant |
| `Anchors.ConstraintAnchor.SetMargin` | sources/androidx/constraintlayout/solver/widgets/ConstraintAnchor.java:272-276 | stores the margin unclamped only when connected; every other field unchanged; keeps the invariant |
| `Anchors.ConstraintAnchor.SetGoneMargin` | sources/androidx/constraintlayout/solver/widgets/ConstraintAnchor.java:278-282 | stores the gone margin only when connected; every other field unchanged; keeps the invariant |
| `Anchors.ConstraintAnchor.GetOpposite` | sources/androidx/constraintlayout/solver/widgets/ConstraintAnchor.java:447-466 | present iff the anchor is a side anchor; then the other side anchor of the same owner on the same axis (left and right, top and bottom) |
| `Anchors.ConstraintAnchor.IsConnectionToMe` | sources/androidx/constraintlayout/solver/widgets/ConstraintAnchor.java:428-445 | the visited set only grows, gains the start widget and stays inside the arena; a hit means the owner is reachable from the start along same-dimension connections; a miss means every newly visited widget is not the owner and has all its successors visited; terminates because each call visits a new widget |
| `Anchors.ConstraintAnchor.IsConnectionAllowed` | sources/androidx/constraintlayout/solver/widgets/ConstraintAnchor.java:417-426 | allowed iff the owner is not reachable from the target along same-dimension connections and the target is the owner's parent or shares the owner's parent |
| `WidgetArena.ReachesStep` | sources/androidx/constraintlayout/solver/widgets/ConstraintAnchor.java:438-442 | a same-dimension connection followed by a path is a path |
| `WidgetArena.PathStaysInside` | sources/androidx/constraintlayout/solver/widgets/ConstraintAnchor.java:428-445 | a path starting in a set closed under connections stays in it |
| `WidgetArena.ClosedSetBlocksReach` | sources/androidx/constraintlayout/solver/widgets/ConstraintAnchor.java:428-445 | a closed set that holds the start and not the owner proves the owner unreachable |
| `WidgetArena.ChainRejectsCycle` | sources/androidx/constraintlayout/solver/widgets/ConstraintAnchor.java:417-445 | with A's right connected to B's left, B's right may not connect to A, while A's right may still connect to its sibling B |
| `WidgetArena.CrossSubtreeRejected` | sources/androidx/constraintlayout/solver/widgets/ConstraintAnchor.java:421-425 | a widget under a different parent is refused though no cycle exists |
| `AnchorTypes.IsSideAnchor` | sources/androidx/constraintlayout/solver/widgets/ConstraintAnchor.java:214-230 | side anchors are exactly the kinds that have an opposite; among them the vertical ones are top and bottom |
| `AnchorTypes.IsVerticalAnchor` | sources/androidx/constraintlayout/solver/widgets/ConstraintAnchor.java:284-300 | vertical are all kinds except centre, left, right and the horizontal centre line (so NONE counts as vertical) |
| `AnchorTypes.OppositeType` | sources/androidx/constraintlayout/solver/widgets/ConstraintAnchor.java:447-466 | present exactly for left, right, top and bottom; the opposite is again one of these, differs from the kind and lies on the same axis, so it is the other side of that axis |
| `AnchorTypes.OppositeInvolution` | sources/androidx/constraintlayout/solver/widgets/ConstraintAnchor.java:455-462 | the opposite of the opposite is the kind itself, and is again a side anchor |
| `AnchorTypes.IsSimilarDimension` | sources/androidx/constraintlayout/solver/widgets/ConstraintAnchor.java:232-264 | the same kind is always similar; centre is similar to all but baseline; NONE only to itself; any other kind is similar exactly to the non-centre, non-NONE kinds of its own axis |
| `AnchorTypes.SimilarDimensionAsymmetric` | sources/androidx/constraintlayout/solver/widgets/ConstraintAnchor.java:232-264 | the relation is not symmetric (centre/left, centre/NONE) |
| `AnchorTypes.PriorityLevel` | sources/androidx/constraintlayout/solver/widgets/ConstraintAnchor.java:335-358 | levels 0..2: 2 exactly for side anchors and the centre, 1 exactly for baseline |
| `AnchorTypes.SnapPriorityLevel` | sources/androidx/constraintlayout/solver/widgets/ConstraintAnchor.java:310-333 | levels 0..3: 3 exactly for the centre, 2 for baseline, 1 for left, right and the vertical centre line |
| `AnchorTypes.PrioritiesDiffer` | sources/androidx/constraintlayout/solver/widgets/ConstraintAnchor.java:310-358 | the two rankings order top and baseline oppositely |
| `AnchorTypes.SwitchCase` | sources/androidx/constraintlayout/solver/widgets/ConstraintAnchor.java:373-406 | the compiled switch case numbers lie in 1..9 |
| `AnchorTypes.SwitchCaseInjective` | sources/androidx/constraintlayout/solver/widgets/ConstraintAnchor.java:373-406 | distinct kinds have distinct case numbers |
| `AnchorTypes.IsSnapCompatibleWith` | sources/androidx/constraintlayout/solver/widgets/ConstraintAnchor.java:360-411 | the case-number dispatch equals the pairing table: never from the centre; otherwise the same kind, or left with right or the horizontal centre line, top with bottom or the vertical centre line, a centre line with the two sides of its axis |
| `AnchorTypes.SnapCompatibleSymmetric` | sources/androidx/constraintlayout/solver/widgets/ConstraintAnchor.java:360-411 | symmetric whenever neither kind is the centre |
| `AnchorTypes.SnapCompatibleSameAxis` | sources/androidx/constraintlayout/solver/widgets/ConstraintAnchor.java:360-411 | snapping never crosses axes: both kinds are similar in both directions and lie on the same axis |
| `Geometry.Rectangle.constructor` | sources/androidx/constraintlayout/solver/widgets/Rectangle.java:3-11 | a new box has all four fields 0 |
| `Geometry.Rectangle.SetBounds` | sources/androidx/constraintlayout/solver/widgets/Rectangle.java:13-18 | sets exactly x, y, width and height |
| `Geometry.Rectangle.Grow` | sources/androidx/constraintlayout/solver/widgets/Rectangle.java:21-26 | x and y move by -w and -h and the extent grows by 2w and 2h, in 32-bit arithmetic; without overflow the right and bottom edges move out by w and h; growing by (0, 0) changes nothing |
| `Geometry.Rectangle.Contains` | sources/androidx/constraintlayout/solver/widgets/Rectangle.java:42-51 | a contained point is never left of or above the corner; without overflow, contained iff x <= px < x + width and y <= py < y + height, and an empty or negative extent contains nothing |
| `Geometry.ContainsUnderWrapAround` | sources/androidx/constraintlayout/solver/widgets/Rectangle.java:42-51 | with wrap-around a box of width -1 at MIN_INT contains its corner |
| `Geometry.Rectangle.Intersects` | sources/androidx/constraintlayout/solver/widgets/Rectangle.java:29-40 | holds iff the other box contains this box's top-left corner |
| `Geometry.IntersectsNotSymmetric` | sources/androidx/constraintlayout/solver/widgets/Rectangle.java:29-40 | a box may intersect another that does not intersect it |
| `Geometry.Rectangle.CenterX` | sources/androidx/constraintlayout/solver/widgets/Rectangle.java:53-55 | the quotient of x + width by 2 truncated toward zero |
| `Geometry.Rectangle.CenterY` | sources/androidx/constraintlayout/solver/widgets/Rectangle.java:57-59 | the quotient of y + height by 2 truncated toward zero |
| `Geometry.CenterIsHalfTheRightEdge` | sources/androidx/constraintlayout/solver/widgets/Rectangle.java:53-55 | for x = 10, width = 10 the centre is 10, not the midpoint 15 |
| `Geometry.CenterTruncatesTowardZero` | sources/androidx/constraintlayout/solver/widgets/Rectangle.java:53-55 | for x + width = -3 the centre is -1 |
| `FontSignatures.FirstDifference` | sources/androidx/core/provider/FontsContractCompat.java:45-50 | zero iff the equal-length arrays are equal; within -255..255 |
| `FontSignatures.SignatureOrder` | sources/androidx/core/provider/FontsContractCompat.java:41-51 | a shorter array sorts first; zero iff the arrays are equal |
| `FontSignatures.Compare` | sources/androidx/core/provider/FontsContractCompat.java:40-52 | equals the certificate order: the length difference for different lengths; for equal lengths the signed difference at the first index where they differ, and 0 iff equal |
| `FontSignatures.SignatureOrderAntisymmetric` | sources/androidx/core/provider/FontsContractCompat.java:41-51 | swapping the arguments negates the result |
| `FontSignatures.FirstDifferenceAntisymmetric` | sources/androidx/core/provider/FontsContractCompat.java:45-50 | the byte comparison negates under swapping |
| `FontSignatures.FirstDifferenceTransitive` | sources/androidx/core/provider/FontsContractCompat.java:45-50 | the byte comparison is transitive |
| `FontSignatures.SignatureOrderTransitive` | sources/androidx/core/provider/FontsContractCompat.java:41-51 | the comparator is transitive, so with antisymmetry it is a total order |
| `FontSignatures.SortedPermutationsSameHead` | sources/androidx/core/provider/FontsContractCompat.java:403-407 | two sorted lists of the same certificates start with the same one |
| `FontSignatures.SortedTail` | sources/androidx/core/provider/FontsContractCompat.java:403-407 | the tail of a sorted list is sorted |
| `FontSignatures.SameTailCertificates` | sources/androidx/core/provider/FontsContractCompat.java:403-408 | removing equal heads keeps the same certificates |
| `FontSignatures.SortedPermutationsEqual` | sources/androidx/core/provider/FontsContractCompat.java:403-408 | two sorted lists holding the same certificates are equal |
| `FontSignatures.EqualsByteArrayList` | sources/androidx/core/provider/FontsContractCompat.java:430-440 | false on different sizes; true iff the lists are equal position by position |
| `FontSignatures.SortedListsMatchIffSameCertificates` | sources/androidx/core/provider/FontsContractCompat.java:402-410 | after both lists are sorted, they match iff they hold the same certificates, whatever their original order |
| `FontResults.GetFontInternal` | sources/androidx/core/provider/FontsContractCompat.java:161-179 | 0 iff status OK and a typeface was built; -1 iff the provider was not found; -2 iff wrong certificates; -3 for any other status or a failed build; a typeface is returned iff the code is 0 |
| `FontResults.LoadOrderOnce` | sources/androidx/core/provider/FontsContractCompat.java:374-381 | the load order names each found URI exactly once |
| `FontResults.PrepareFontData` | sources/androidx/core/provider/FontsContractCompat.java:372-383 | the keys are exactly the URIs of the found fonts, each mapped to its loaded contents; each URI is loaded once, at its first occurrence |

## Left out

- `resetSolverVariable`, `getSolverVariable`, `getResolutionNode`, and the resolution-anchor reset inside `reset`: they belong to solver classes that are not part of this model.
- `toString`: debug text built from the owner's debug name.
- The plain field accessors (`getOwner`, `getType`, `getStrength`, `getTarget`, `getConnectionType`, `setConnectionType`, `getConnectionCreator`, `setConnectionCreator`): the fields are public in the model.
- The two-argument `isConnectionAllowed(widget, anchor)`: it ignores its anchor argument. `IsConnectionAllowed` models it.
- Aliasing between an anchor object and its widget's entry in the arena: the cycle guard reads every widget's connections from the arena value passed to it. The model does not tie a `ConstraintAnchor` instance to its own `Link` there.
- `ConstraintWidget` and `Guideline` themselves are not part of this model. Only their parent, visibility, baseline capability, guideline role and anchors are modelled, as arena fields.
- `getFontSync`, `requestFont` and `getFontFromProvider`: background threads, locks, the typeface cache and content-provider queries.
- `getProvider`, `fetchFonts`, `getCertificates`, `convertToByteArrayList`, `buildTypeface` and `resetCache`: platform package-manager, resource and typeface calls. The model keeps only their results, as the `FetchOutcome` and `created` parameters of `GetFontInternal`, and the property that sorting certificates before comparing them makes the match order-independent.
- `mmap`: file mapping and cancellation are abstract, as a function parameter. A failed mapping is whatever value of the result type that function yields.
- `Collections.unmodifiableMap`: Dafny maps are values, so read-only access is implicit.
- The `throw new AssertionError` default branches: every match over the anchor kinds is exhaustive, so those branches cannot be reached.
- The context files `TypefaceCompatUtil.java`, `TypefaceCompatApi21Impl.java`, `MainActivity.java` and `splashActivity.java`: file, OS and UI code.
