/**
 * One anchor of a layout widget: its connection state machine, the legality
 * table for a proposed connection, the margin it contributes and the guard
 * that keeps the same-dimension connection graph free of cycles.
 */
module Anchors {
  import opened Options
  import opened JavaInt
  import opened AnchorTypes
  import opened WidgetArena

  /** The gone margin of an anchor that has none. */
  const UNSET_GONE_MARGIN: Int32 := -1

  /** Creator tags recorded with a connection. */
  const USER_CREATOR: Int32 := 0
  const SCOUT_CREATOR: Int32 := 1
  const AUTO_CONSTRAINT_CREATOR: Int32 := 2

  /**
   * The kinds an anchor of kind `source` may connect to, by the legality table;
   * `guideline` says whether the target's owner is a guideline.
   */
  predicate AcceptsKind(source: AnchorType, target: AnchorType, guideline: bool) {
    source == target ||
    (source == Center && target !in {Baseline, CenterX, CenterY}) ||
    (source in {Left, Right} && (target in {Left, Right} || (guideline && target == CenterX))) ||
    (source in {Top, Bottom} && (target in {Top, Bottom} || (guideline && target == CenterY)))
  }

  class ConstraintAnchor {
    const owner: WidgetId
    const kind: AnchorType
    var target: Option<AnchorRef>
    var margin: Int32
    var goneMargin: Int32
    var strength: Strength
    var creator: Int32
    var connectionType: ConnectionType

    /** A disconnected anchor carries neither a margin nor a gone margin. */
    ghost predicate Valid()
      reads this
    {
      target.None? ==> margin == 0 && goneMargin == UNSET_GONE_MARGIN
    }

    constructor (owner: WidgetId, kind: AnchorType)
      ensures this.owner == owner && this.kind == kind
      ensures target == None && margin == 0 && goneMargin == UNSET_GONE_MARGIN
      ensures strength == NoneStrength && creator == USER_CREATOR && connectionType == Relaxed
      ensures Valid()
    {
      this.owner := owner;
      this.kind := kind;
      target := None;
      margin := 0;
      goneMargin := UNSET_GONE_MARGIN;
      strength := NoneStrength;
      creator := USER_CREATOR;
      connectionType := Relaxed;
    }

    /** Whether the anchor has a target; a disconnected valid anchor carries no margin. */
    predicate IsConnected()
      reads this
      ensures IsConnected() <==> target != None
      ensures !IsConnected() && Valid() ==> margin == 0 && goneMargin == UNSET_GONE_MARGIN
    {
      target.Some?
    }

    /** A gone margin is set and the target's owner is gone. */
    predicate GoneMarginApplies(arena: Arena)
      reads this
      requires target.Some? ==> target.value.widget in arena
    {
      goneMargin > UNSET_GONE_MARGIN && target.Some? && arena[target.value.widget].visibility == GONE
    }

    /**
     * The margin the connection contributes: nothing when the owner is gone,
     * the gone margin (when one is set) when the target's owner is gone, and
     * the stored margin otherwise.
     */
    function GetMargin(arena: Arena): (r: Int32)
      reads this
      requires owner in arena
      requires target.Some? ==> target.value.widget in arena
      ensures arena[owner].visibility == GONE ==> r == 0
      ensures arena[owner].visibility != GONE && GoneMarginApplies(arena) ==> r == goneMargin
      ensures arena[owner].visibility != GONE && !GoneMarginApplies(arena) ==> r == margin
      ensures margin >= 0 ==> r >= 0
    {
      if arena[owner].visibility == GONE then 0
      else if goneMargin > UNSET_GONE_MARGIN && target.Some? && arena[target.value.widget].visibility == GONE then goneMargin
      else margin
    }

    /**
     * Whether this anchor may connect to `anchor`, dispatched on this anchor's
     * kind as the source does.
     */
    function IsValidConnection(anchor: Option<AnchorRef>, arena: Arena): (r: bool)
      requires anchor.Some? ==> owner in arena && anchor.value.widget in arena
      ensures anchor.None? ==> !r
      ensures anchor.Some? ==>
        (r <==> AcceptsKind(kind, anchor.value.kind, arena[anchor.value.widget].isGuideline) &&
                (kind == anchor.value.kind == Baseline ==> arena[anchor.value.widget].hasBaseline && arena[owner].hasBaseline))
      ensures r ==> IsSimilarDimension(kind, anchor.value.kind)
    {
      if anchor.None? then false
      else
        var t := anchor.value.kind;
        var targetOwner := arena[anchor.value.widget];
        if t != kind then
          match kind
          case Center => !(t == Baseline || t == CenterX || t == CenterY)
          case Left | Right =>
            var compatible := t == Left || t == Right;
            if targetOwner.isGuideline then compatible || t == CenterX else compatible
          case Top | Bottom =>
            var compatible := t == Top || t == Bottom;
            if targetOwner.isGuideline then compatible || t == CenterY else compatible
          case Baseline | CenterX | CenterY | NoneAnchor => false
        else
          kind != Baseline || (targetOwner.hasBaseline && arena[owner].hasBaseline)
    }

    /**
     * Connects to `toAnchor`, or disconnects when it is absent. Unless forced,
     * an illegal target is refused and nothing changes.
     */
    method Connect(arena: Arena, toAnchor: Option<AnchorRef>, margin: Int32, goneMargin: Int32,
                   strength: Strength, creator: Int32, forceConnection: bool) returns (ok: bool)
      requires toAnchor.Some? && !forceConnection ==> owner in arena && toAnchor.value.widget in arena
      modifies this
      ensures ok <==> toAnchor.None? || forceConnection || IsValidConnection(toAnchor, arena)
      ensures toAnchor.None? ==>
        target == None && this.margin == 0 && this.goneMargin == UNSET_GONE_MARGIN &&
        this.strength == NoneStrength && this.creator == AUTO_CONSTRAINT_CREATOR
      ensures toAnchor.Some? && ok ==>
        target == toAnchor && this.margin == (if margin > 0 then margin else 0) &&
        this.goneMargin == goneMargin && this.strength == strength && this.creator == creator
      ensures !ok ==>
        target == old(target) && this.margin == old(this.margin) && this.goneMargin == old(this.goneMargin) &&
        this.strength == old(this.strength) && this.creator == old(this.creator)
      ensures connectionType == old(connectionType)
      ensures ok ==> Valid()
      ensures old(Valid()) ==> Valid()
    {
      if toAnchor.None? {
        target := None;
        this.margin := 0;
        this.goneMargin := UNSET_GONE_MARGIN;
        this.strength := NoneStrength;
        this.creator := AUTO_CONSTRAINT_CREATOR;
        return true;
      } else if !forceConnection && !IsValidConnection(toAnchor, arena) {
        return false;
      } else {
        target := toAnchor;
        if margin > 0 {
          this.margin := margin;
        } else {
          this.margin := 0;
        }
        this.goneMargin := goneMargin;
        this.strength := strength;
        this.creator := creator;
        return true;
      }
    }

    /** `Connect` with no gone margin and no forcing. */
    method ConnectWithStrength(arena: Arena, toAnchor: Option<AnchorRef>, margin: Int32,
                               strength: Strength, creator: Int32) returns (ok: bool)
      requires toAnchor.Some? ==> owner in arena && toAnchor.value.widget in arena
      modifies this
      ensures ok <==> toAnchor.None? || IsValidConnection(toAnchor, arena)
      ensures toAnchor.None? ==>
        target == None && this.margin == 0 && goneMargin == UNSET_GONE_MARGIN &&
        this.strength == NoneStrength && this.creator == AUTO_CONSTRAINT_CREATOR
      ensures toAnchor.Some? && ok ==>
        target == toAnchor && this.margin == (if margin > 0 then margin else 0) &&
        goneMargin == UNSET_GONE_MARGIN && this.strength == strength && this.creator == creator
      ensures !ok ==>
        target == old(target) && this.margin == old(this.margin) && goneMargin == old(goneMargin) &&
        this.strength == old(this.strength) && this.creator == old(this.creator)
      ensures connectionType == old(connectionType)
      ensures old(Valid()) ==> Valid()
    {
      ok := Connect(arena, toAnchor, margin, UNSET_GONE_MARGIN, strength, creator, false);
    }

    /** `Connect` with no gone margin, strong strength and no forcing. */
    method ConnectWithCreator(arena: Arena, toAnchor: Option<AnchorRef>, margin: Int32, creator: Int32) returns (ok: bool)
      requires toAnchor.Some? ==> owner in arena && toAnchor.value.widget in arena
      modifies this
      ensures ok <==> toAnchor.None? || IsValidConnection(toAnchor, arena)
      ensures toAnchor.None? ==>
        target == None && this.margin == 0 && goneMargin == UNSET_GONE_MARGIN &&
        strength == NoneStrength && this.creator == AUTO_CONSTRAINT_CREATOR
      ensures toAnchor.Some? && ok ==>
        target == toAnchor && this.margin == (if margin > 0 then margin else 0) &&
        goneMargin == UNSET_GONE_MARGIN && strength == Strong && this.creator == creator
      ensures !ok ==>
        target == old(target) && this.margin == old(this.margin) && goneMargin == old(goneMargin) &&
        strength == old(strength) && this.creator == old(this.creator)
      ensures connectionType == old(connectionType)
      ensures old(Valid()) ==> Valid()
    {
      ok := Connect(arena, toAnchor, margin, UNSET_GONE_MARGIN, Strong, creator, false);
    }

    /** `Connect` with no gone margin, strong strength, the user creator and no forcing. */
    method ConnectWithMargin(arena: Arena, toAnchor: Option<AnchorRef>, margin: Int32) returns (ok: bool)
      requires toAnchor.Some? ==> owner in arena && toAnchor.value.widget in arena
      modifies this
      ensures ok <==> toAnchor.None? || IsValidConnection(toAnchor, arena)
      ensures toAnchor.None? ==>
        target == None && this.margin == 0 && goneMargin == UNSET_GONE_MARGIN &&
        strength == NoneStrength && creator == AUTO_CONSTRAINT_CREATOR
      ensures toAnchor.Some? && ok ==>
        target == toAnchor && this.margin == (if margin > 0 then margin else 0) &&
        goneMargin == UNSET_GONE_MARGIN && strength == Strong && creator == USER_CREATOR
      ensures !ok ==>
        target == old(target) && this.margin == old(this.margin) && goneMargin == old(goneMargin) &&
        strength == old(strength) && creator == old(creator)
      ensures connectionType == old(connectionType)
      ensures old(Valid()) ==> Valid()
    {
      ok := Connect(arena, toAnchor, margin, UNSET_GONE_MARGIN, Strong, USER_CREATOR, false);
    }

    /**
     * Returns the anchor to its disconnected state for reuse. Unlike a
     * connection to nothing, it leaves the strength STRONG, the creator USER
     * and the connection type RELAXED.
     */
    method Reset()
      modifies this
      ensures target == None && margin == 0 && goneMargin == UNSET_GONE_MARGIN
      ensures strength == Strong && creator == USER_CREATOR && connectionType == Relaxed
      ensures Valid()
    {
      target := None;
      margin := 0;
      goneMargin := UNSET_GONE_MARGIN;
      strength := Strong;
      creator := USER_CREATOR;
      connectionType := Relaxed;
    }

    /** Sets the strength of an existing connection; a no-op when disconnected. */
    method SetStrength(strength: Strength)
      modifies this
      ensures this.strength == (if old(IsConnected()) then strength else old(this.strength))
      ensures target == old(target) && margin == old(margin) && goneMargin == old(goneMargin)
      ensures creator == old(creator) && connectionType == old(connectionType)
      ensures old(Valid()) ==> Valid()
    {
      if IsConnected() {
        this.strength := strength;
      }
    }

    /**
     * Sets the margin of an existing connection, unclamped (a negative value is
     * kept); a no-op when disconnected.
     */
    method SetMargin(margin: Int32)
      modifies this
      ensures this.margin == (if old(IsConnected()) then margin else old(this.margin))
      ensures target == old(target) && goneMargin == old(goneMargin) && strength == old(strength)
      ensures creator == old(creator) && connectionType == old(connectionType)
      ensures old(Valid()) ==> Valid()
    {
      if IsConnected() {
        this.margin := margin;
      }
    }

    /** Sets the gone margin of an existing connection; a no-op when disconnected. */
    method SetGoneMargin(margin: Int32)
      modifies this
      ensures goneMargin == (if old(IsConnected()) then margin else old(goneMargin))
      ensures target == old(target) && this.margin == old(this.margin) && strength == old(strength)
      ensures creator == old(creator) && connectionType == old(connectionType)
      ensures old(Valid()) ==> Valid()
    {
      if IsConnected() {
        goneMargin := margin;
      }
    }

    /** The anchor on the other side of the owner, for side anchors only. */
    function GetOpposite(): (r: Option<AnchorRef>)
      ensures r.Some? <==> IsSideAnchor(kind)
      ensures r.Some? ==> r.value.widget == owner && r.value.kind != kind &&
                          IsVerticalAnchor(r.value.kind) == IsVerticalAnchor(kind)
      ensures r.Some? ==> IsSideAnchor(r.value.kind)
    {
      match OppositeType(kind)
      case None => None
      case Some(t) => Some(AnchorRef(owner, t))
    }

    /**
     * Depth-first search from `target` for this anchor's owner, along the
     * connected anchors that lie in this anchor's dimension. `checked` is the
     * set of widgets already visited; the search adds each widget to it before
     * expanding it and returns the enlarged set. A widget newly visited by a
     * search that fails is not the owner and has all its successors visited.
     */
    method IsConnectionToMe(arena: Arena, target: WidgetId, checked: set<WidgetId>)
      returns (found: bool, checkedOut: set<WidgetId>)
      requires Closed(arena) && target in arena
      ensures checked + {target} <= checkedOut <= checked + arena.Keys
      ensures found ==> Reaches(arena, kind, target, owner)
      ensures !found ==> forall w :: w in checkedOut && w !in checked ==>
                w in arena && w != owner && SuccessorsIn(arena, kind, w, checkedOut)
      decreases arena.Keys - checked
    {
      if target in checked {
        return false, checked;
      }
      checkedOut := checked + {target};
      if target == owner {
        ReachesSelf(arena, kind, target);
        return true, checkedOut;
      }
      var targetAnchors := arena[target].anchors;
      var i := 0;
      while i < |targetAnchors|
        invariant 0 <= i <= |targetAnchors|
        invariant checked + {target} <= checkedOut <= checked + arena.Keys
        invariant forall w :: w in checkedOut && w !in checked && w != target ==>
                    w in arena && w != owner && SuccessorsIn(arena, kind, w, checkedOut)
        invariant forall j :: 0 <= j < i ==> LeadsInto(targetAnchors[j], kind, checkedOut)
      {
        var anchor := targetAnchors[i];
        if IsSimilarDimension(anchor.kind, kind) && anchor.target.Some? {
          var next := anchor.target.value.widget;
          var sub;
          ghost var before := checkedOut;
          sub, checkedOut := IsConnectionToMe(arena, next, checkedOut);
          if sub {
            assert Follows(targetAnchors[i], kind, next);
            ReachesStep(arena, kind, target, next, owner);
            return true, checkedOut;
          }
          assert forall j :: 0 <= j < i ==> LeadsInto(targetAnchors[j], kind, checkedOut) by {
            assert before <= checkedOut;
          }
        }
        i := i + 1;
      }
      found := false;
    }

    /**
     * Whether this anchor's owner may connect to widget `target`: refused when
     * the owner can be reached from `target` along same-dimension connections,
     * and otherwise allowed only when `target` is the owner's parent or a
     * sibling under the same parent.
     */
    method IsConnectionAllowed(arena: Arena, target: WidgetId) returns (allowed: bool)
      requires Closed(arena) && owner in arena && target in arena
      ensures allowed <==> ConnectionAllowed(arena, kind, owner, target)
    {
      var toMe, checked := IsConnectionToMe(arena, target, {});
      if toMe {
        return false;
      }
      ClosedSetBlocksReach(arena, kind, checked, target, owner);
      var parent := arena[owner].parent;
      allowed := parent == Some(target) || arena[target].parent == parent;
    }
  }

  /** A well-formed anchor that is disconnected contributes no margin. */
  lemma DisconnectedMarginIsZero(a: ConstraintAnchor, arena: Arena)
    requires a.Valid() && !a.IsConnected() && a.owner in arena
    ensures a.GetMargin(arena) == 0
  {
  }

  /** A legal connection between different kinds always starts at a side anchor or the centre. */
  lemma ValidCrossKindSource(a: ConstraintAnchor, anchor: AnchorRef, arena: Arena)
    requires a.owner in arena && anchor.widget in arena
    requires anchor.kind != a.kind && a.IsValidConnection(Some(anchor), arena)
    ensures a.kind == Center || IsSideAnchor(a.kind)
  {
  }

  /**
   * A side anchor may target a centre line of its own axis exactly when the
   * target's owner is a guideline.
   */
  lemma GuidelineCentreRule(a: ConstraintAnchor, anchor: AnchorRef, arena: Arena)
    requires a.owner in arena && anchor.widget in arena
    requires IsSideAnchor(a.kind) && anchor.kind in {CenterX, CenterY}
    requires IsVerticalAnchor(anchor.kind) == IsVerticalAnchor(a.kind)
    ensures a.IsValidConnection(Some(anchor), arena) <==> arena[anchor.widget].isGuideline
  {
  }
}
