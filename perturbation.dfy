/** The state perturbation of `generateState`: a fixed number of random
    swaps of positions, then a temperature-scaled Gaussian jitter of every
    item, accepted per axis only if the item stays inside the room, each
    move followed by a refresh of the derived fields. */
module Perturbation {
  import opened Results
  import opened VectorMath
  import opened Layout

  /** A draw of Math.random(): a real in [0, 1). */
  type Fraction = u: real | 0.0 <= u < 1.0

  /** The two draws that choose one swap. */
  datatype SwapPick = SwapPick(first: Fraction, second: Fraction)

  /** Two standard normal samples, for the x and then the y jitter. */
  datatype Normals = Normals(x: real, y: real)

  /** `numSwaps` */
  const NumSwaps: nat := 1

  /** `Math.floor(Math.random() * length)` */
  function PickIndex(u: Fraction, n: nat): (k: nat)
    ensures n > 0 ==> k < n
    ensures n == 0 ==> k == 0
  {
    assert 0.0 <= u * n as real by {
      assert 0.0 * (n as real) <= u * n as real;
    }
    assert n > 0 ==> u * n as real < n as real by {
      if n > 0 { assert u * n as real < 1.0 * n as real; }
    }
    (u * n as real).Floor
  }

  /** The spread of the jitter: `temp / initalTemp + 0.5`. */
  function TempRatio(temp: real, initialTemp: real): real
    requires initialTemp != 0.0
  {
    temp / initialTemp + 0.5
  }

  /** A sample of the Gaussian `create_gaussian_func(mean, stdev)` returns,
      given the standard normal `z` its polar Box-Muller step produced. */
  function Gaussian(mean: real, stdev: real, z: real): real {
    mean + stdev * z
  }

  /** The jitter of one coordinate: `g() * half` for the half-extent `half`. */
  function Step(ratio: real, z: real, half: real): real {
    Gaussian(0.0, ratio, z) * half
  }

  // ---------------------------------------------------------------------
  // Swap

  /** `objs` with the positions of entries `id1` and `id2` exchanged. */
  function Swapped(objs: seq<Furniture>, id1: nat, id2: nat): seq<Furniture>
    requires id1 < |objs| && id2 < |objs|
  {
    var p1 := objs[id1].p;
    var s := objs[id1 := objs[id1].(p := objs[id2].p)];
    s[id2 := s[id2].(p := p1)]
  }

  /** `swapFurniture(state, id1, id2)` on `state.objects`. Reading a slot
      that does not exist throws before anything is written. */
  method SwapFurniture(objects: array<Furniture>, id1: nat, id2: nat) returns (ok: bool)
    modifies objects
    ensures ok <==> id1 < objects.Length && id2 < objects.Length
    ensures ok ==> objects[..] == Swapped(old(objects[..]), id1, id2)
    ensures !ok ==> objects[..] == old(objects[..])
  {
    if id1 >= objects.Length || id2 >= objects.Length {
      return false;
    }
    var p1 := objects[id1].p;
    objects[id1] := objects[id1].(p := objects[id2].p);
    objects[id2] := objects[id2].(p := p1);
    return true;
  }

  /** A swap exchanges the two positions, changes no other field and no
      other entry, and is a no-op when both indices agree. */
  lemma SwapExchangesPositions(objs: seq<Furniture>, id1: nat, id2: nat)
    requires id1 < |objs| && id2 < |objs|
    ensures |Swapped(objs, id1, id2)| == |objs|
    ensures Swapped(objs, id1, id2)[id1].p == objs[id2].p
    ensures Swapped(objs, id1, id2)[id2].p == objs[id1].p
    ensures forall k :: 0 <= k < |objs| ==>
      Swapped(objs, id1, id2)[k] == objs[k].(p := Swapped(objs, id1, id2)[k].p)
    ensures forall k :: 0 <= k < |objs| && k != id1 && k != id2 ==> Swapped(objs, id1, id2)[k] == objs[k]
    ensures id1 == id2 ==> Swapped(objs, id1, id2) == objs
  {
  }

  /** Swapping twice restores the layout. */
  lemma SwapInvolution(objs: seq<Furniture>, id1: nat, id2: nat)
    requires id1 < |objs| && id2 < |objs|
    ensures Swapped(Swapped(objs, id1, id2), id1, id2) == objs
  {
    SwapExchangesPositions(objs, id1, id2);
    var s := Swapped(objs, id1, id2);
    SwapExchangesPositions(s, id1, id2);
    var t := Swapped(s, id1, id2);
    forall k | 0 <= k < |objs| ensures t[k] == objs[k] {
    }
  }

  /** The swaps of one `generateState` call, in order; the first one on an
      empty layout throws. */
  function SwapAll(objs: seq<Furniture>, picks: seq<SwapPick>): (r: Result<seq<Furniture>>)
    ensures r.Ok? ==> |r.value| == |objs|
    ensures r.Err? ==> r.error == UndefinedObject
  {
    if |picks| == 0 then Ok(objs)
    else
      match SwapAll(objs, picks[..|picks| - 1])
      case Err(e) => Err(e)
      case Ok(s) =>
        var pick := picks[|picks| - 1];
        var id1, id2 := PickIndex(pick.first, |s|), PickIndex(pick.second, |s|);
        if id1 < |s| && id2 < |s| then Ok(Swapped(s, id1, id2)) else Err(UndefinedObject)
  }

  lemma {:induction false} SwapAllErrorStays(objs: seq<Furniture>, picks: seq<SwapPick>, i: nat)
    requires i <= |picks| && SwapAll(objs, picks[..i]).Err?
    ensures SwapAll(objs, picks) == SwapAll(objs, picks[..i])
    decreases |picks| - i
  {
    if i < |picks| {
      assert picks[..i + 1][..i] == picks[..i];
      SwapAllErrorStays(objs, picks, i + 1);
    } else {
      assert picks[..i] == picks;
    }
  }

  /** The swaps throw exactly when there is something to swap in an empty
      layout; otherwise each item keeps everything but its position. */
  lemma {:induction false} SwapAllFacts(objs: seq<Furniture>, picks: seq<SwapPick>)
    ensures SwapAll(objs, picks).Err? <==> |picks| > 0 && |objs| == 0
    ensures SwapAll(objs, picks).Ok? ==>
      forall k :: 0 <= k < |objs| ==> SwapAll(objs, picks).value[k] == objs[k].(p := SwapAll(objs, picks).value[k].p)
  {
    if |picks| > 0 {
      var init := picks[..|picks| - 1];
      SwapAllFacts(objs, init);
      if SwapAll(objs, init).Ok? {
        var s := SwapAll(objs, init).value;
        var pick := picks[|picks| - 1];
        var id1, id2 := PickIndex(pick.first, |s|), PickIndex(pick.second, |s|);
        if id1 < |s| && id2 < |s| {
          SwapExchangesPositions(s, id1, id2);
        }
      }
    }
  }

  /** The swap loop of `generateState`, in place; `false` when a swap
      reads a slot that does not exist. */
  method Swap(objects: array<Furniture>, picks: seq<SwapPick>) returns (ok: bool)
    modifies objects
    ensures ok <==> SwapAll(old(objects[..]), picks).Ok?
    ensures ok ==> objects[..] == SwapAll(old(objects[..]), picks).value
  {
    ghost var start := objects[..];
    var n := objects.Length;
    var i := 0;
    while i < |picks|
      invariant 0 <= i <= |picks|
      invariant SwapAll(start, picks[..i]) == Ok(objects[..])
    {
      assert picks[..i + 1][..i] == picks[..i];
      var id1 := PickIndex(picks[i].first, n);
      var id2 := PickIndex(picks[i].second, n);
      ok := SwapFurniture(objects, id1, id2);
      if !ok {
        SwapAllErrorStays(start, picks, i + 1);
        return;
      }
      i := i + 1;
    }
    assert picks[..i] == picks;
    return true;
  }

  // ---------------------------------------------------------------------
  // Jitter

  /** Coordinate `axis` of `p` moves by `step` only if the half-extent
      `half` then stays within `[0, limit]`; a coordinate that does not
      exist reads as NaN in the source, which fails the test. */
  function MoveAxis(p: Vector, axis: nat, step: real, half: real, limit: real): Vector {
    if axis < |p| && 0.0 <= (p[axis] + step) - half && (p[axis] + step) + half <= limit
    then p[axis := p[axis] + step]
    else p
  }

  /** One item after its jitter, before its derived fields are refreshed. */
  function Moved(room: Room, fur: Furniture, ratio: real, z: Normals): Furniture {
    var width := fur.width / 2.0;
    var height := fur.height / 2.0;
    var px := MoveAxis(fur.p, 0, Step(ratio, z.x, width), width, room.width);
    fur.(p := MoveAxis(px, 1, Step(ratio, z.y, height), height, room.height))
  }

  /** Entry `k` after its jitter and the `updatePosition` call on the layout
      that already holds its new position. */
  function JitterStep(s: LayoutState, k: nat, ratio: real, z: Normals, update: (LayoutState, nat) -> Derived): LayoutState
    requires k < |s.objects|
  {
    var moved := Moved(s.room, s.objects[k], ratio, z);
    var s1 := s.(objects := s.objects[k := moved]);
    var dv := update(s1, k);
    s1.(objects := s1.objects[k := moved.(d := dv.d, thetaWall := dv.thetaWall)])
  }

  /** The layout after the entries before index `k` were jittered, in order. */
  function Jittered(s: LayoutState, k: nat, ratio: real, normals: seq<Normals>, update: (LayoutState, nat) -> Derived): (r: LayoutState)
    requires k <= |s.objects| && k <= |normals|
    ensures r.room == s.room && |r.objects| == |s.objects|
  {
    if k == 0 then s
    else JitterStep(Jittered(s, k - 1, ratio, normals, update), k - 1, ratio, normals[k - 1], update)
  }

  /** What `generateState(state)` returns, or throws. */
  function Perturbed(s: LayoutState, ratio: real, picks: seq<SwapPick>, normals: seq<Normals>, update: (LayoutState, nat) -> Derived): Result<LayoutState>
    requires |normals| == |s.objects|
  {
    match SwapAll(s.objects, picks)
    case Err(e) => Err(e)
    case Ok(objs) => Ok(Jittered(LayoutState(s.room, objs), |objs|, ratio, normals, update))
  }

  /** An axis moves only to a coordinate whose margin fits in the room and
      only by the step; the other axes never move; a coordinate that fitted
      still fits. */
  lemma MoveAxisClips(p: Vector, axis: nat, step: real, half: real, limit: real)
    ensures |MoveAxis(p, axis, step, half, limit)| == |p|
    ensures forall k :: 0 <= k < |p| && k != axis ==> MoveAxis(p, axis, step, half, limit)[k] == p[k]
    ensures axis < |p| && MoveAxis(p, axis, step, half, limit)[axis] != p[axis] ==>
      MoveAxis(p, axis, step, half, limit)[axis] == p[axis] + step &&
      AxisInside(MoveAxis(p, axis, step, half, limit), axis, half, limit)
    ensures axis < |p| && !(0.0 <= (p[axis] + step) - half && (p[axis] + step) + half <= limit) ==>
      MoveAxis(p, axis, step, half, limit) == p
    ensures AxisInside(p, axis, half, limit) ==> AxisInside(MoveAxis(p, axis, step, half, limit), axis, half, limit)
  {
  }

  /** x and y are clipped independently: each changes only to an in-room
      value, and an item inside the room stays inside. */
  lemma MovedStaysInside(room: Room, fur: Furniture, ratio: real, z: Normals)
    ensures SameItem(fur, Moved(room, fur, ratio, z)) && |Moved(room, fur, ratio, z).p| == |fur.p|
    ensures 0 < |fur.p| && Moved(room, fur, ratio, z).p[0] != fur.p[0] ==>
      AxisInside(Moved(room, fur, ratio, z).p, 0, fur.width / 2.0, room.width)
    ensures 1 < |fur.p| && Moved(room, fur, ratio, z).p[1] != fur.p[1] ==>
      AxisInside(Moved(room, fur, ratio, z).p, 1, fur.height / 2.0, room.height)
    ensures InBounds(room, fur) ==> InBounds(room, Moved(room, fur, ratio, z))
  {
    var width, height := fur.width / 2.0, fur.height / 2.0;
    var px := MoveAxis(fur.p, 0, Step(ratio, z.x, width), width, room.width);
    MoveAxisClips(fur.p, 0, Step(ratio, z.x, width), width, room.width);
    MoveAxisClips(px, 1, Step(ratio, z.y, height), height, room.height);
  }

  /** Jittering entry `k` changes only its position and derived fields,
      leaves the other entries alone, and keeps it inside when it was. */
  lemma JitterStepKeepsInside(s: LayoutState, k: nat, ratio: real, z: Normals, update: (LayoutState, nat) -> Derived)
    requires k < |s.objects|
    ensures SameFurniture(s, JitterStep(s, k, ratio, z, update))
    ensures forall m :: 0 <= m < |s.objects| && m != k ==> JitterStep(s, k, ratio, z, update).objects[m] == s.objects[m]
    ensures forall m :: 0 <= m < |s.objects| && InBounds(s.room, s.objects[m]) ==>
      InBounds(s.room, JitterStep(s, k, ratio, z, update).objects[m])
  {
    MovedStaysInside(s.room, s.objects[k], ratio, z);
  }

  /** The jitter keeps the furniture and moves every in-room item to an
      in-room position. */
  lemma {:induction false} JitterKeepsInside(s: LayoutState, k: nat, ratio: real, normals: seq<Normals>, update: (LayoutState, nat) -> Derived)
    requires k <= |s.objects| && k <= |normals|
    ensures SameFurniture(s, Jittered(s, k, ratio, normals, update))
    ensures forall m :: 0 <= m < |s.objects| && InBounds(s.room, s.objects[m]) ==>
      InBounds(s.room, Jittered(s, k, ratio, normals, update).objects[m])
  {
    if k > 0 {
      JitterKeepsInside(s, k - 1, ratio, normals, update);
      var t := Jittered(s, k - 1, ratio, normals, update);
      var u := Jittered(s, k, ratio, normals, update);
      JitterStepKeepsInside(t, k - 1, ratio, normals[k - 1], update);
      SameFurnitureTransitive(s, t, u);
    }
  }

  /** The clipped jitter of one item's position: each axis moves by its
      step only when the item's margin then still fits in the room. */
  method JitteredPosition(room: Room, fur: Furniture, ratio: real, z: Normals) returns (p: Vector)
    ensures fur.(p := p) == Moved(room, fur, ratio, z)
  {
    var width := fur.width / 2.0;
    var height := fur.height / 2.0;
    p := fur.p;
    if 0 < |p| {
      var newx := p[0] + Step(ratio, z.x, width);
      if 0.0 <= newx - width && newx + width <= room.width {
        p := p[0 := newx];
      }
    }
    ghost var px := p;
    assert px == MoveAxis(fur.p, 0, Step(ratio, z.x, width), width, room.width);
    if 1 < |p| {
      var newy := p[1] + Step(ratio, z.y, height);
      if 0.0 <= newy - height && newy + height <= room.height {
        p := p[1 := newy];
      }
    }
    assert p == MoveAxis(px, 1, Step(ratio, z.y, height), height, room.height);
  }

  /** One turn of the jitter loop: entry `k` gets its new position, then
      `updatePosition` sees the layout holding it and refreshes its
      derived fields. */
  method JitterOne(objects: array<Furniture>, room: Room, k: nat, ratio: real, z: Normals, update: (LayoutState, nat) -> Derived)
    requires k < objects.Length
    modifies objects
    ensures LayoutState(room, objects[..]) == JitterStep(LayoutState(room, old(objects[..])), k, ratio, z, update)
  {
    ghost var before := LayoutState(room, objects[..]);
    var fur := objects[k];
    var p := JitteredPosition(room, fur, ratio, z);
    objects[k] := fur.(p := p);
    assert objects[..] == before.objects[k := Moved(room, fur, ratio, z)];
    var derived := update(LayoutState(room, objects[..]), k);
    objects[k] := objects[k].(d := derived.d, thetaWall := derived.thetaWall);
  }

  /** The jitter loop of `generateState`, in place: every item in turn
      moves and then has its derived fields refreshed. */
  method Jitter(objects: array<Furniture>, room: Room, ratio: real, normals: seq<Normals>, update: (LayoutState, nat) -> Derived)
    requires |normals| == objects.Length
    modifies objects
    ensures objects[..] == Jittered(LayoutState(room, old(objects[..])), objects.Length, ratio, normals, update).objects
  {
    ghost var start := LayoutState(room, objects[..]);
    var k := 0;
    while k < objects.Length
      invariant 0 <= k <= objects.Length
      invariant LayoutState(room, objects[..]) == Jittered(start, k, ratio, normals, update)
    {
      JitterOne(objects, room, k, ratio, normals[k], update);
      k := k + 1;
    }
  }

  /** `generateState` keeps the room and every item's identity, footprint,
      zones and baseline: only positions and derived fields change. */
  lemma PerturbedKeepsFurniture(s: LayoutState, ratio: real, picks: seq<SwapPick>, normals: seq<Normals>, update: (LayoutState, nat) -> Derived)
    requires |normals| == |s.objects|
    ensures Perturbed(s, ratio, picks, normals, update).Err? <==> |picks| > 0 && |s.objects| == 0
    ensures Perturbed(s, ratio, picks, normals, update).Ok? ==> SameFurniture(s, Perturbed(s, ratio, picks, normals, update).value)
  {
    SwapAllFacts(s.objects, picks);
    if SwapAll(s.objects, picks).Ok? {
      var objs := SwapAll(s.objects, picks).value;
      JitterKeepsInside(LayoutState(s.room, objs), |objs|, ratio, normals, update);
    }
  }

  /** Swaps, jitter and `generateState` as a whole keep the number of
      coordinates of every position. */
  lemma {:induction false} SwapAllKeepsPositions(objs: seq<Furniture>, picks: seq<SwapPick>, n: nat)
    requires PositionsHave(objs, n) && SwapAll(objs, picks).Ok?
    ensures PositionsHave(SwapAll(objs, picks).value, n)
  {
    if |picks| > 0 {
      SwapAllKeepsPositions(objs, picks[..|picks| - 1], n);
      var s := SwapAll(objs, picks[..|picks| - 1]).value;
      var pick := picks[|picks| - 1];
      SwapExchangesPositions(s, PickIndex(pick.first, |s|), PickIndex(pick.second, |s|));
    }
  }

  lemma {:induction false} JitteredKeepsPositions(s: LayoutState, k: nat, ratio: real, normals: seq<Normals>, update: (LayoutState, nat) -> Derived, n: nat)
    requires k <= |s.objects| && k <= |normals| && PositionsHave(s.objects, n)
    ensures PositionsHave(Jittered(s, k, ratio, normals, update).objects, n)
  {
    if k > 0 {
      JitteredKeepsPositions(s, k - 1, ratio, normals, update, n);
      var t := Jittered(s, k - 1, ratio, normals, update);
      MovedStaysInside(t.room, t.objects[k - 1], ratio, normals[k - 1]);
    }
  }

  lemma PerturbedKeepsPositions(s: LayoutState, ratio: real, picks: seq<SwapPick>, normals: seq<Normals>, update: (LayoutState, nat) -> Derived, n: nat)
    requires |normals| == |s.objects| && PositionsHave(s.objects, n)
    requires Perturbed(s, ratio, picks, normals, update).Ok?
    ensures PositionsHave(Perturbed(s, ratio, picks, normals, update).value.objects, n)
  {
    SwapAllKeepsPositions(s.objects, picks, n);
    var objs := SwapAll(s.objects, picks).value;
    JitteredKeepsPositions(LayoutState(s.room, objs), |objs|, ratio, normals, update, n);
  }

  /** Two items of equal footprint can exchange positions without leaving
      the room. */
  lemma SwapEqualFootprints(room: Room, objs: seq<Furniture>, id1: nat, id2: nat)
    requires id1 < |objs| && id2 < |objs|
    requires objs[id1].width == objs[id2].width && objs[id1].height == objs[id2].height
    requires forall k :: 0 <= k < |objs| ==> InBounds(room, objs[k])
    ensures forall k :: 0 <= k < |objs| ==> InBounds(room, Swapped(objs, id1, id2)[k])
  {
    SwapExchangesPositions(objs, id1, id2);
  }

  /** In a layout whose items all share one footprint, `generateState`
      keeps every in-room item in the room. */
  lemma {:induction false} UniformLayoutStaysInside(s: LayoutState, ratio: real, picks: seq<SwapPick>, normals: seq<Normals>, update: (LayoutState, nat) -> Derived)
    requires |normals| == |s.objects| && AllInBounds(s)
    requires forall k, m :: 0 <= k < |s.objects| && 0 <= m < |s.objects| ==>
      s.objects[k].width == s.objects[m].width && s.objects[k].height == s.objects[m].height
    requires Perturbed(s, ratio, picks, normals, update).Ok?
    ensures AllInBounds(Perturbed(s, ratio, picks, normals, update).value)
  {
    SwapsKeepUniformInside(s.room, s.objects, picks);
    var objs := SwapAll(s.objects, picks).value;
    JitterKeepsInside(LayoutState(s.room, objs), |objs|, ratio, normals, update);
  }

  lemma {:induction false} SwapsKeepUniformInside(room: Room, objs: seq<Furniture>, picks: seq<SwapPick>)
    requires forall k :: 0 <= k < |objs| ==> InBounds(room, objs[k])
    requires forall k, m :: 0 <= k < |objs| && 0 <= m < |objs| ==>
      objs[k].width == objs[m].width && objs[k].height == objs[m].height
    requires SwapAll(objs, picks).Ok?
    ensures forall k :: 0 <= k < |objs| ==> InBounds(room, SwapAll(objs, picks).value[k])
  {
    if |picks| > 0 {
      var init := picks[..|picks| - 1];
      SwapsKeepUniformInside(room, objs, init);
      SwapAllFacts(objs, init);
      var s := SwapAll(objs, init).value;
      var pick := picks[|picks| - 1];
      var id1, id2 := PickIndex(pick.first, |s|), PickIndex(pick.second, |s|);
      SwapEqualFootprints(room, s, id1, id2);
    }
  }

  /** With items of different sizes the swap alone can leave the room: a
      large item takes the position of a small one near the wall. */
  lemma SwapCanLeaveRoom()
    ensures var room := Room(10.0, 10.0);
      var small := Furniture(0, "chair", [1.0, 1.0], 2.0, 2.0, [], [], 1.0, 0.0, 0.0, None);
      var large := Furniture(1, "bed", [5.0, 5.0], 8.0, 8.0, [], [], 1.0, 0.0, 0.0, None);
      InBounds(room, small) && InBounds(room, large) &&
      !InBounds(room, Swapped([small, large], 0, 1)[1])
  {
  }
}
