/**
 * The fixed taxonomy of anchor kinds and the tables derived from it:
 * axis family, side anchors, opposites, priorities and snap compatibility.
 */
module AnchorTypes {
  import opened Options

  /** The kind of an anchor; `NoneAnchor` is the source's `Type.NONE`. */
  datatype AnchorType = NoneAnchor | Left | Top | Right | Bottom | Baseline | Center | CenterX | CenterY

  /** How firmly the solver should honour a connection; `NoneStrength` is `Strength.NONE`. */
  datatype Strength = NoneStrength | Strong | Weak

  datatype ConnectionType = Relaxed | Strict

  /**
   * Anchors of the vertical axis. The source counts `NoneAnchor` as vertical
   * and `Center` as horizontal.
   */
  function IsVerticalAnchor(t: AnchorType): (r: bool)
    ensures r <==> t !in {Center, Left, Right, CenterX}
  {
    match t
    case Center | Left | Right | CenterX => false
    case Top | Bottom | Baseline | CenterY | NoneAnchor => true
  }

  /** The kind on the other side of the same axis, for side anchors only. */
  function OppositeType(t: AnchorType): (r: Option<AnchorType>)
    ensures r.Some? <==> t in {Left, Right, Top, Bottom}
    ensures r.Some? ==> r.value in {Left, Right, Top, Bottom}
    ensures r.Some? ==> r.value != t && IsVerticalAnchor(r.value) == IsVerticalAnchor(t)
  {
    match t
    case Center | Baseline | CenterX | CenterY | NoneAnchor => None
    case Left => Some(Right)
    case Right => Some(Left)
    case Top => Some(Bottom)
    case Bottom => Some(Top)
  }

  /** Anchors that bound a widget on one side: exactly those that have an opposite. */
  function IsSideAnchor(t: AnchorType): (r: bool)
    ensures r <==> OppositeType(t).Some?
    ensures r ==> (IsVerticalAnchor(t) <==> t == Top || t == Bottom)
  {
    match t
    case Center | Baseline | CenterX | CenterY | NoneAnchor => false
    case Left | Right | Top | Bottom => true
  }

  /** Taking the opposite twice gives back the side anchor's own kind. */
  lemma OppositeInvolution(t: AnchorType)
    requires IsSideAnchor(t)
    ensures OppositeType(OppositeType(t).value) == Some(t)
    ensures IsSideAnchor(OppositeType(t).value)
  {
  }

  /**
   * Whether an anchor of kind `other` lies on the same axis as an anchor of
   * kind `self` (the receiver). Not symmetric: `Center` reaches every kind
   * but `Baseline`, while no other kind reaches `Center`.
   */
  function IsSimilarDimension(self: AnchorType, other: AnchorType): (r: bool)
    ensures self == other ==> r
    ensures self == Center ==> (r <==> other != Baseline)
    ensures self == NoneAnchor ==> (r <==> other == NoneAnchor)
    ensures self !in {Center, NoneAnchor} ==>
      (r <==> other !in {Center, NoneAnchor} && IsVerticalAnchor(other) == IsVerticalAnchor(self))
  {
    if other == self then true
    else match self
      case Center => other != Baseline
      case Left | Right | CenterX => other == Left || other == Right || other == CenterX
      case Top | Bottom | Baseline | CenterY => other == Top || other == Bottom || other == CenterY || other == Baseline
      case NoneAnchor => false
  }

  /** The ranking a heuristic uses to prefer one anchor over another. */
  function PriorityLevel(t: AnchorType): (r: int)
    ensures 0 <= r <= 2
    ensures r == 2 <==> IsSideAnchor(t) || t == Center
    ensures r == 1 <==> t == Baseline
  {
    match t
    case Center => 2
    case Left => 2
    case Right => 2
    case Top => 2
    case Bottom => 2
    case Baseline => 1
    case CenterX => 0
    case CenterY => 0
    case NoneAnchor => 0
  }

  /** The separate ranking used by snapping heuristics. */
  function SnapPriorityLevel(t: AnchorType): (r: int)
    ensures 0 <= r <= 3
    ensures r == 3 <==> t == Center
    ensures r == 2 <==> t == Baseline
    ensures r == 1 <==> t in {Left, Right, CenterY}
  {
    match t
    case Center => 3
    case Left => 1
    case Right => 1
    case Top => 0
    case Bottom => 0
    case Baseline => 2
    case CenterX => 0
    case CenterY => 1
    case NoneAnchor => 0
  }

  /**
   * The case numbers the compiled switch statements dispatch on, in the order
   * the kinds first appear in a switch of the class.
   */
  function SwitchCase(t: AnchorType): (r: int)
    ensures 1 <= r <= 9
  {
    match t
    case Center => 1
    case Left => 2
    case Right => 3
    case Top => 4
    case Bottom => 5
    case Baseline => 6
    case CenterX => 7
    case CenterY => 8
    case NoneAnchor => 9
  }

  /** The kinds, other than itself, that an anchor of kind `t` may snap to. */
  function SnapPartners(t: AnchorType): set<AnchorType> {
    match t
    case Left => {Right, CenterX}
    case Right => {Left, CenterX}
    case Top => {Bottom, CenterY}
    case Bottom => {Top, CenterY}
    case CenterX => {Left, Right}
    case CenterY => {Top, Bottom}
    case Center | Baseline | NoneAnchor => {}
  }

  /**
   * Whether an anchor of kind `self` may snap to one of kind `other`, written
   * as the source dispatches on the switch case numbers.
   */
  function IsSnapCompatibleWith(self: AnchorType, other: AnchorType): (r: bool)
    ensures r <==> self != Center && (self == other || other in SnapPartners(self))
  {
    if self == Center then false
    else if self == other then true
    else match self
      case Center | Baseline | NoneAnchor => false
      case Left => var i := SwitchCase(other); i == 3 || i == 7
      case Right => var i := SwitchCase(other); i == 2 || i == 7
      case Top => var i := SwitchCase(other); i == 5 || i == 8
      case Bottom => var i := SwitchCase(other); i == 4 || i == 8
      case CenterX => var i := SwitchCase(other); i == 2 || i == 3
      case CenterY => var i := SwitchCase(other); i == 4 || i == 5
  }

  /** Distinct kinds have distinct switch case numbers. */
  lemma SwitchCaseInjective(a: AnchorType, b: AnchorType)
    ensures SwitchCase(a) == SwitchCase(b) ==> a == b
  {
  }

  /** Snapping is symmetric among kinds other than `Center`. */
  lemma SnapCompatibleSymmetric(a: AnchorType, b: AnchorType)
    requires a != Center && b != Center
    ensures IsSnapCompatibleWith(a, b) == IsSnapCompatibleWith(b, a)
  {
  }

  /** Snapping never crosses axes, in either reading of the dimension relation. */
  lemma SnapCompatibleSameAxis(a: AnchorType, b: AnchorType)
    requires IsSnapCompatibleWith(a, b)
    ensures IsSimilarDimension(a, b) && IsSimilarDimension(b, a)
    ensures a != Center && IsVerticalAnchor(a) == IsVerticalAnchor(b)
  {
  }

  /** The dimension relation is not symmetric: `Center` sees `Left`, not the reverse. */
  lemma SimilarDimensionAsymmetric()
    ensures IsSimilarDimension(Center, Left) && !IsSimilarDimension(Left, Center)
    ensures IsSimilarDimension(Center, NoneAnchor) && !IsSimilarDimension(NoneAnchor, Center)
  {
  }

  /** The two rankings disagree: they are distinct orders, not one scaled. */
  lemma PrioritiesDiffer()
    ensures PriorityLevel(Top) > PriorityLevel(Baseline) && SnapPriorityLevel(Top) < SnapPriorityLevel(Baseline)
  {
  }
}
