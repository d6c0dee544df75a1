/** The snapshot store behind `send`: `computeRoom` pushes layouts onto
    `animationStates` and every timer tick pops the newest one, if any, and
    hands it to the interface callback. */
module Playback {
  import opened Results

  /** One tick: the snapshot delivered, if any, and the store afterwards. */
  function Tick<T>(store: seq<T>): (Option<T>, seq<T>) {
    if |store| == 0 then (None, store)
    else (Some(store[|store| - 1]), store[..|store| - 1])
  }

  /** A tick on an empty store delivers nothing and changes nothing; on a
      non-empty one it delivers the newest snapshot and the rest is the
      store without it. */
  lemma TickPops<T>(store: seq<T>)
    ensures |store| == 0 ==> Tick(store) == (None, store)
    ensures |store| > 0 ==> Tick(store).0 == Some(store[|store| - 1]) && store == Tick(store).1 + [store[|store| - 1]]
  {
    if |store| > 0 {
      assert store == store[..|store| - 1] + [store[|store| - 1]];
    }
  }

  /** The store is a stack: a tick delivers the last push and undoes it. */
  lemma TickUndoesPush<T>(store: seq<T>, x: T)
    ensures Tick(store + [x]) == (Some(x), store)
  {
    assert (store + [x])[..|store|] == store;
  }

  /** What `ticks` timer ticks deliver, in order, and the store left. */
  function Drain<T>(store: seq<T>, ticks: nat): (seq<T>, seq<T>) {
    if ticks == 0 then ([], store)
    else
      var step := Tick(store);
      var after := Drain(step.1, ticks - 1);
      ((if step.0.Some? then [step.0.value] else []) + after.0, after.1)
  }

  /** `s` newest first. */
  function Reversed<T>(s: seq<T>): (r: seq<T>)
    ensures |r| == |s|
  {
    if |s| == 0 then [] else [s[|s| - 1]] + Reversed(s[..|s| - 1])
  }

  function Min(a: nat, b: nat): nat {
    if a <= b then a else b
  }

  /** A tick on a non-empty store delivers its last element first. */
  lemma DrainStep<T>(store: seq<T>, ticks: nat)
    requires ticks > 0 && |store| > 0
    ensures Drain(store, ticks) == ([store[|store| - 1]] + Drain(store[..|store| - 1], ticks - 1).0, Drain(store[..|store| - 1], ticks - 1).1)
  {
    assert Tick(store) == (Some(store[|store| - 1]), store[..|store| - 1]);
  }

  /** The newest `m` elements, reversed, start with the newest one. */
  lemma ReversedNewest<T>(s: seq<T>, m: nat)
    requires 0 < m <= |s|
    ensures Reversed(s[|s| - m..]) == [s[|s| - 1]] + Reversed(s[..|s| - 1][|s[..|s| - 1]| - (m - 1)..])
    ensures s[..|s| - 1][..|s[..|s| - 1]| - (m - 1)] == s[..|s| - m]
  {
    var tail := s[|s| - m..];
    assert tail[|tail| - 1] == s[|s| - 1];
    assert tail[..|tail| - 1] == s[..|s| - 1][|s| - m..];
  }

  /** `ticks` ticks deliver the newest `min(ticks, |store|)` snapshots,
      newest first, and leave the older ones in place; ticks on an empty
      store deliver nothing. */
  lemma {:induction false} DrainIsNewestFirst<T>(store: seq<T>, ticks: nat)
    ensures Drain(store, ticks).0 == Reversed(store[|store| - Min(ticks, |store|)..])
    ensures Drain(store, ticks).1 == store[..|store| - Min(ticks, |store|)]
  {
    if ticks == 0 {
      assert store[|store|..] == [];
    } else if |store| == 0 {
      DrainIsNewestFirst(store, ticks - 1);
    } else {
      var m := Min(ticks, |store|);
      DrainStep(store, ticks);
      DrainIsNewestFirst(store[..|store| - 1], ticks - 1);
      assert Min(ticks - 1, |store| - 1) == m - 1;
      ReversedNewest(store, m);
    }
  }

  /** The two snapshots of one `computeRoom` run reach the interface best
      layout first, then the initial one. */
  lemma RunPlaysBestFirst<T>(initial: T, best: T, ticks: nat)
    requires ticks >= 2
    ensures Drain([initial, best], ticks) == ([best, initial], [])
  {
    var store := [initial, best];
    DrainIsNewestFirst(store, ticks);
    assert Min(ticks, |store|) == 2;
    assert store[0..] == store && store[..0] == [];
    assert Reversed(store) == [best, initial];
  }
}
