/** The room and furniture records the optimizer works on. Snapshots are
    values: every clone the source takes by JSON round-trip is simply a copy. */
module Layout {
  import opened Results
  import opened VectorMath

  datatype Room = Room(width: real, height: real)

  /** An accessibility area `{a, ad}` or a view-frustum box `{v, vd}`:
      an offset from the owning item's position and a radius. */
  datatype Zone = Zone(offset: Vector, radius: real)

  /** The optional `pairwiseCost` record: the kind of neighbour wanted and
      the distance wanted from it. */
  datatype PairwiseTarget = PairwiseTarget(kind: string, distance: real)

  datatype Furniture = Furniture(
    id: int,
    kind: string,
    p: Vector,
    width: real,
    height: real,
    accessibilityAreas: seq<Zone>,
    viewFrustum: seq<Zone>,
    b: real,
    d: real,
    thetaWall: real,
    pairwiseCost: Option<PairwiseTarget>)

  datatype LayoutState = LayoutState(room: Room, objects: seq<Furniture>)

  /** The fields the external `updatePosition` recomputes after a move. */
  datatype Derived = Derived(d: real, thetaWall: real)

  /** The collaborators the optimizer calls but that are not modelled:
      Math.sqrt, Math.exp and `updatePosition` from the furniture module. */
  datatype Host = Host(
    sqrt: real -> real,
    exp: real -> real,
    updatePosition: (LayoutState, nat) -> Derived)

  /** Coordinate `axis` keeps a margin of `half` to both walls of a room
      side of length `limit`. */
  predicate AxisInside(p: Vector, axis: nat, half: real, limit: real) {
    axis < |p| && 0.0 <= p[axis] - half && p[axis] + half <= limit
  }

  /** The item's half-extent box lies inside the room. */
  predicate InBounds(room: Room, f: Furniture) {
    AxisInside(f.p, 0, f.width / 2.0, room.width) && AxisInside(f.p, 1, f.height / 2.0, room.height)
  }

  predicate AllInBounds(s: LayoutState) {
    forall k :: 0 <= k < |s.objects| ==> InBounds(s.room, s.objects[k])
  }

  /** Every position has `n` coordinates. */
  predicate PositionsHave(objs: seq<Furniture>, n: nat) {
    forall k :: 0 <= k < |objs| ==> |objs[k].p| == n
  }

  /** `g` is `f` with at most its position and its derived fields changed. */
  predicate SameItem(f: Furniture, g: Furniture) {
    g == f.(p := g.p, d := g.d, thetaWall := g.thetaWall)
  }

  /** `t` holds the same furniture as `s`, in the same order, in the same
      room; only positions and derived fields may differ. */
  predicate SameFurniture(s: LayoutState, t: LayoutState) {
    && t.room == s.room
    && |t.objects| == |s.objects|
    && forall k :: 0 <= k < |s.objects| ==> SameItem(s.objects[k], t.objects[k])
  }

  /** Changing positions twice still only changes positions. */
  lemma SameFurnitureTransitive(s: LayoutState, t: LayoutState, u: LayoutState)
    requires SameFurniture(s, t) && SameFurniture(t, u)
    ensures SameFurniture(s, u)
  {
    forall k | 0 <= k < |s.objects|
      ensures SameItem(s.objects[k], u.objects[k])
    {
      assert SameItem(s.objects[k], t.objects[k]) && SameItem(t.objects[k], u.objects[k]);
    }
  }

  lemma SameFurnitureSymmetric(s: LayoutState, t: LayoutState)
    requires SameFurniture(s, t)
    ensures SameFurniture(t, s)
  {
    forall k | 0 <= k < |t.objects|
      ensures SameItem(t.objects[k], s.objects[k])
    {
      assert SameItem(s.objects[k], t.objects[k]);
    }
  }
}
