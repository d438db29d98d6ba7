/**
 * The widgets that own anchors, kept in an arena keyed by widget id. Anchors
 * name their targets by (widget id, anchor kind) rather than by reference, and
 * the connections among the arena's anchors form a directed graph over widgets.
 */
module WidgetArena {
  import opened Options
  import opened JavaInt
  import opened AnchorTypes

  type WidgetId = int

  /** The visibility value of a collapsed widget. */
  const GONE: Int32 := 8

  /** A reference to the anchor of kind `kind` owned by widget `widget`. */
  datatype AnchorRef = AnchorRef(widget: WidgetId, kind: AnchorType)

  /** What the connection graph needs of one anchor: its kind and its target. */
  datatype Link = Link(kind: AnchorType, target: Option<AnchorRef>)

  /** A widget as the anchor logic sees it. */
  datatype Widget = Widget(
    parent: Option<WidgetId>,
    visibility: Int32,
    hasBaseline: bool,
    isGuideline: bool,
    anchors: seq<Link>)

  type Arena = map<WidgetId, Widget>

  /** Every connected anchor in the arena targets a widget of the arena. */
  ghost predicate Closed(arena: Arena) {
    forall w, i :: w in arena && 0 <= i < |arena[w].anchors| && arena[w].anchors[i].target.Some? ==>
      arena[w].anchors[i].target.value.widget in arena
  }

  /**
   * The search started by an anchor of kind `kind` follows link `l` to widget
   * `v`: the link is connected to `v` and lies in `kind`'s dimension.
   */
  ghost predicate Follows(l: Link, kind: AnchorType, v: WidgetId) {
    IsSimilarDimension(l.kind, kind) && l.target.Some? && l.target.value.widget == v
  }

  ghost predicate Edge(arena: Arena, kind: AnchorType, u: WidgetId, v: WidgetId) {
    u in arena && exists j :: 0 <= j < |arena[u].anchors| && Follows(arena[u].anchors[j], kind, v)
  }

  ghost predicate IsPath(arena: Arena, kind: AnchorType, p: seq<WidgetId>) {
    |p| > 0 && forall k :: 0 <= k < |p| - 1 ==> Edge(arena, kind, p[k], p[k + 1])
  }

  /** Widget `to` can be reached from widget `from` along same-dimension connections. */
  ghost predicate Reaches(arena: Arena, kind: AnchorType, from: WidgetId, to: WidgetId) {
    exists p :: IsPath(arena, kind, p) && p[0] == from && p[|p| - 1] == to
  }

  /** Every widget that link `l` leads to in `kind`'s dimension is in `s`. */
  ghost predicate LeadsInto(l: Link, kind: AnchorType, s: set<WidgetId>) {
    IsSimilarDimension(l.kind, kind) && l.target.Some? ==> l.target.value.widget in s
  }

  ghost predicate SuccessorsIn(arena: Arena, kind: AnchorType, w: WidgetId, s: set<WidgetId>)
    requires w in arena
  {
    forall j :: 0 <= j < |arena[w].anchors| ==> LeadsInto(arena[w].anchors[j], kind, s)
  }

  /** `s` holds no `avoid` and is closed under the edges of `kind`'s dimension. */
  ghost predicate ClosedAvoiding(arena: Arena, kind: AnchorType, s: set<WidgetId>, avoid: WidgetId) {
    forall w :: w in s ==> w in arena && w != avoid && SuccessorsIn(arena, kind, w, s)
  }

  /**
   * The cycle guard's verdict: the owner may connect to `target` when the
   * owner cannot be reached from `target` and `target` is the owner's parent
   * or a widget with the same parent.
   */
  ghost predicate ConnectionAllowed(arena: Arena, kind: AnchorType, owner: WidgetId, target: WidgetId)
    requires owner in arena && target in arena
  {
    !Reaches(arena, kind, target, owner) &&
    (arena[owner].parent == Some(target) || arena[target].parent == arena[owner].parent)
  }

  lemma ReachesSelf(arena: Arena, kind: AnchorType, u: WidgetId)
    ensures Reaches(arena, kind, u, u)
  {
    assert IsPath(arena, kind, [u]);
  }

  /** An edge followed by a path is a path. */
  lemma ReachesStep(arena: Arena, kind: AnchorType, u: WidgetId, v: WidgetId, w: WidgetId)
    requires Edge(arena, kind, u, v) && Reaches(arena, kind, v, w)
    ensures Reaches(arena, kind, u, w)
  {
    var p :| IsPath(arena, kind, p) && p[0] == v && p[|p| - 1] == w;
    var q := [u] + p;
    forall k | 0 <= k < |q| - 1
      ensures Edge(arena, kind, q[k], q[k + 1])
    {
      if k > 0 {
        assert q[k] == p[k - 1] && q[k + 1] == p[k];
      }
    }
    assert IsPath(arena, kind, q);
  }

  /** A path that starts inside a closed set never leaves it. */
  lemma {:induction false} PathStaysInside(arena: Arena, kind: AnchorType, s: set<WidgetId>, avoid: WidgetId, p: seq<WidgetId>)
    requires ClosedAvoiding(arena, kind, s, avoid)
    requires IsPath(arena, kind, p) && p[0] in s
    ensures p[|p| - 1] in s
  {
    if |p| > 1 {
      assert Edge(arena, kind, p[0], p[1]);
      var j :| 0 <= j < |arena[p[0]].anchors| && Follows(arena[p[0]].anchors[j], kind, p[1]);
      assert LeadsInto(arena[p[0]].anchors[j], kind, s);
      var rest := p[1..];
      assert forall k :: 0 <= k < |rest| ==> rest[k] == p[k + 1];
      assert IsPath(arena, kind, rest);
      PathStaysInside(arena, kind, s, avoid, rest);
    }
  }

  /** A closed set that avoids `to` and holds `from` proves `to` unreachable from `from`. */
  lemma ClosedSetBlocksReach(arena: Arena, kind: AnchorType, s: set<WidgetId>, from: WidgetId, to: WidgetId)
    requires ClosedAvoiding(arena, kind, s, to) && from in s
    ensures !Reaches(arena, kind, from, to)
  {
    if Reaches(arena, kind, from, to) {
      var p :| IsPath(arena, kind, p) && p[0] == from && p[|p| - 1] == to;
      PathStaysInside(arena, kind, s, to, p);
    }
  }

  /** Widgets 1 and 2 under parent 0; widget 1's right anchor targets widget 2's left. */
  function ChainArena(): Arena {
    map[0 := Widget(None, 0, false, false, []),
        1 := Widget(Some(0), 0, false, false, [Link(Left, None), Link(Right, Some(AnchorRef(2, Left)))]),
        2 := Widget(Some(0), 0, false, false, [Link(Left, None), Link(Right, None)])]
  }

  /**
   * With widget 1's right anchor connected to widget 2's left, widget 2's right
   * anchor may not connect to widget 1 (that would close a horizontal cycle),
   * while widget 1's right anchor may still connect to its sibling, widget 2.
   */
  lemma ChainRejectsCycle()
    ensures !ConnectionAllowed(ChainArena(), Right, 2, 1)
    ensures ConnectionAllowed(ChainArena(), Right, 1, 2)
  {
    var arena := ChainArena();
    assert Follows(arena[1].anchors[1], Right, 2);
    assert IsPath(arena, Right, [1, 2]);
    assert ClosedAvoiding(arena, Right, {2}, 1);
    ClosedSetBlocksReach(arena, Right, {2}, 2, 1);
  }

  /** A widget under another parent is refused even though no cycle exists. */
  lemma CrossSubtreeRejected()
    ensures !ConnectionAllowed(
      map[0 := Widget(None, 0, false, false, []),
          1 := Widget(Some(0), 0, false, false, []),
          3 := Widget(Some(1), 0, false, false, []),
          4 := Widget(Some(0), 0, false, false, [])], Left, 4, 3)
  {
  }
}
