/**
 * The nearest-item search of the tick (nearest_of_type in
 * src/app/state.rs): a linear scan for the interactive sprite of a given
 * kind whose centre is closest to a point, keeping the first one on ties.
 *
 * The game computes the Euclidean distance in floating point and
 * truncates it; every operand is an integer, so the model uses the integer
 * floor square root.
 */
module Nearest {
  import opened Wrappers
  import opened Sprites
  import opened Components

  // ---------------------------------------------------------------------
  // Integer square root

  lemma SquareSteps(r: nat, q: nat, n: nat)
    requires r * r <= q < (r + 1) * (r + 1)
    requires q == n / 4
    ensures (2 * r) * (2 * r) <= n < (2 * r + 2) * (2 * r + 2)
  {
    assert (2 * r) * (2 * r) == 4 * (r * r);
    assert (2 * r + 2) * (2 * r + 2) == 4 * ((r + 1) * (r + 1));
  }

  /** The floor of the square root of n. */
  function ISqrt(n: nat): (r: nat)
    ensures r * r <= n < (r + 1) * (r + 1)
    decreases n
  {
    if n < 4 then (if n == 0 then 0 else 1)
    else
      var h := ISqrt(n / 4);
      SquareSteps(h, n / 4, n);
      var s := 2 * h;
      if (s + 1) * (s + 1) <= n then s + 1 else s
  }

  lemma SquareMonotone(a: nat, b: nat)
    requires a <= b
    ensures a * a <= b * b
  {
    assert a * a <= a * b <= b * b;
  }

  /** The floor square root is the only r with r*r <= n < (r+1)*(r+1). */
  lemma ISqrtUnique(n: nat, r: nat)
    requires r * r <= n < (r + 1) * (r + 1)
    ensures ISqrt(n) == r
  {
    var s := ISqrt(n);
    if s < r {
      SquareMonotone(s + 1, r);
      assert false;
    } else if r < s {
      SquareMonotone(r + 1, s);
      assert false;
    }
  }

  /** Comparing truncated distances is comparing squared distances:
      floor(sqrt(n)) < k exactly when n < k*k. */
  lemma ISqrtBelow(n: nat, k: nat)
    ensures ISqrt(n) < k <==> n < k * k
  {
    var s := ISqrt(n);
    if s < k {
      SquareMonotone(s + 1, k);
    } else {
      SquareMonotone(k, s);
    }
  }

  // ---------------------------------------------------------------------
  // The search

  /** What the search reports: the sprite id, the distance and the item
      type of the closest candidate. */
  datatype Found = Found(id: nat, dist: int, itemType: ItemType)

  /** The report when nothing is closer than 100. */
  const NOTHING_FOUND := Found(0, 100, NoItem)

  /** The search visits entities with an Interactible, a Sprite and a
      Position, and considers those whose sprite kind is the searched one. */
  predicate IsCandidate(e: Entity, t: SpriteType) {
    HasItemSpritePos(e) && e.sprite.value.spriteType == t
  }

  function Sq(d: int): nat {
    d * d
  }

  /** The truncated distance from a point to the sprite's centre, taken as
      half the first frame's source width to the right and a quarter of its
      source height down (a terminal row holds two pixel rows). */
  function Distance(from: (int, int), store: Store, e: Entity): nat
    requires ValidStore(store) && HasSpritePos(e) && e.sprite.value.storeIndex < |store|
  {
    var size := store[e.sprite.value.storeIndex].data.frames[0].sourceSize;
    var cx := e.pos.value.x + size.w / 2;
    var cy := e.pos.value.y + size.h / 4;
    ISqrt(Sq(cx - from.0) + Sq(cy - from.1))
  }

  /** What the search reports for entity e at distance d. */
  function Report(e: Entity, d: int): Found
    requires HasItemSpritePos(e)
  {
    Found(e.sprite.value.id, d, e.item.value.itemType)
  }

  /** One step of the scan: a candidate strictly closer than the best so far
      replaces it. */
  function Consider(best: Found, from: (int, int), t: SpriteType, store: Store, e: Entity): Found
    requires ValidStore(store) && ElemOk(store, e)
  {
    if IsCandidate(e, t) && Distance(from, store, e) < best.dist then Report(e, Distance(from, store, e))
    else best
  }

  /** The result of scanning ents in order. */
  function NearestOf(from: (int, int), t: SpriteType, store: Store, ents: seq<Entity>): Found
    requires WorldOk(store, ents)
    decreases |ents|
  {
    if |ents| == 0 then NOTHING_FOUND
    else
      assert WorldOk(store, ents[..|ents| - 1]);
      Consider(NearestOf(from, t, store, ents[..|ents| - 1]), from, t, store, ents[|ents| - 1])
  }

  /** Position of the entity the scan reports, or -1. */
  ghost function NearestIndex(from: (int, int), t: SpriteType, store: Store, ents: seq<Entity>): int
    requires WorldOk(store, ents)
    decreases |ents|
  {
    if |ents| == 0 then -1
    else
      var last := ents[|ents| - 1];
      assert WorldOk(store, ents[..|ents| - 1]);
      var prev := NearestOf(from, t, store, ents[..|ents| - 1]);
      if IsCandidate(last, t) && Distance(from, store, last) < prev.dist then |ents| - 1
      else NearestIndex(from, t, store, ents[..|ents| - 1])
  }

  /** Entity k is a candidate closer than 100, strictly closer than every
      earlier candidate and no farther than every later one. */
  ghost predicate FirstMinimum(from: (int, int), t: SpriteType, store: Store, ents: seq<Entity>, k: int)
    requires WorldOk(store, ents)
  {
    && 0 <= k < |ents|
    && IsCandidate(ents[k], t)
    && Distance(from, store, ents[k]) < 100
    && (forall j :: 0 <= j < k && IsCandidate(ents[j], t) ==> Distance(from, store, ents[j]) > Distance(from, store, ents[k]))
    && (forall j :: k < j < |ents| && IsCandidate(ents[j], t) ==> Distance(from, store, ents[j]) >= Distance(from, store, ents[k]))
  }

  /** No candidate is closer than 100. */
  ghost predicate NoneClose(from: (int, int), t: SpriteType, store: Store, ents: seq<Entity>)
    requires WorldOk(store, ents)
  {
    forall j :: 0 <= j < |ents| && IsCandidate(ents[j], t) ==> Distance(from, store, ents[j]) >= 100
  }

  /** What the scan reports about ents: k is -1 and nothing is close, or k
      is the first closest candidate and r describes it. */
  ghost predicate Describes(from: (int, int), t: SpriteType, store: Store, ents: seq<Entity>, k: int, r: Found)
    requires WorldOk(store, ents)
  {
    (k == -1 && NoneClose(from, t, store, ents) && r == NOTHING_FOUND) ||
    (FirstMinimum(from, t, store, ents, k) && r == Report(ents[k], Distance(from, store, ents[k])))
  }

  /** A step of the scan where the last entity is a strictly closer
      candidate: it becomes the first minimum. */
  lemma ConsiderTakes(from: (int, int), t: SpriteType, store: Store, ents: seq<Entity>, k: int, r: Found)
    requires |ents| > 0 && WorldOk(store, ents)
    requires WorldOk(store, ents[..|ents| - 1])
    requires Describes(from, t, store, ents[..|ents| - 1], k, r)
    requires IsCandidate(ents[|ents| - 1], t) && Distance(from, store, ents[|ents| - 1]) < r.dist
    ensures FirstMinimum(from, t, store, ents, |ents| - 1)
  {
    var n := |ents| - 1;
    var pre := ents[..n];
    var d := Distance(from, store, ents[n]);
    assert forall j :: 0 <= j < n ==> pre[j] == ents[j];
    if k == -1 {
      forall j | 0 <= j < n && IsCandidate(ents[j], t) ensures Distance(from, store, ents[j]) > d {
        assert IsCandidate(pre[j], t);
      }
    } else {
      var dk := Distance(from, store, pre[k]);
      forall j | 0 <= j < n && IsCandidate(ents[j], t) ensures Distance(from, store, ents[j]) > d {
        assert IsCandidate(pre[j], t);
        if j != k {
          assert Distance(from, store, pre[j]) >= dk;
        }
      }
    }
  }

  /** A step of the scan where the last entity is not a strictly closer
      candidate: the description of the prefix still holds. */
  lemma ConsiderKeeps(from: (int, int), t: SpriteType, store: Store, ents: seq<Entity>, k: int, r: Found)
    requires |ents| > 0 && WorldOk(store, ents)
    requires WorldOk(store, ents[..|ents| - 1])
    requires Describes(from, t, store, ents[..|ents| - 1], k, r)
    requires !(IsCandidate(ents[|ents| - 1], t) && Distance(from, store, ents[|ents| - 1]) < r.dist)
    ensures Describes(from, t, store, ents, k, r)
  {
    var n := |ents| - 1;
    var pre := ents[..n];
    assert forall j :: 0 <= j < n ==> pre[j] == ents[j];
    if k == -1 {
      forall j | 0 <= j < |ents| && IsCandidate(ents[j], t) ensures Distance(from, store, ents[j]) >= 100 {
        if j < n {
          assert IsCandidate(pre[j], t);
        }
      }
      assert NoneClose(from, t, store, ents);
    } else {
      assert pre[k] == ents[k];
      var dk := Distance(from, store, ents[k]);
      forall j | 0 <= j < k && IsCandidate(ents[j], t) ensures Distance(from, store, ents[j]) > dk {
        assert IsCandidate(pre[j], t);
      }
      forall j | k < j < |ents| && IsCandidate(ents[j], t) ensures Distance(from, store, ents[j]) >= dk {
        if j < n {
          assert IsCandidate(pre[j], t);
        }
      }
      assert FirstMinimum(from, t, store, ents, k);
    }
  }

  /** One step of the scan keeps Describes. */
  lemma ConsiderStep(from: (int, int), t: SpriteType, store: Store, ents: seq<Entity>, k: int, r: Found)
    requires |ents| > 0 && WorldOk(store, ents)
    requires WorldOk(store, ents[..|ents| - 1])
    requires Describes(from, t, store, ents[..|ents| - 1], k, r)
    ensures var last := ents[|ents| - 1];
      var k' := if IsCandidate(last, t) && Distance(from, store, last) < r.dist then |ents| - 1 else k;
      Describes(from, t, store, ents, k', Consider(r, from, t, store, last))
  {
    var last := ents[|ents| - 1];
    if IsCandidate(last, t) && Distance(from, store, last) < r.dist {
      ConsiderTakes(from, t, store, ents, k, r);
    } else {
      ConsiderKeeps(from, t, store, ents, k, r);
    }
  }

  /** The scan reports the first candidate at the smallest distance below
      100, or (0, 100, None) when no candidate is closer than 100. */
  lemma {:induction false} NearestIsFirstMinimum(from: (int, int), t: SpriteType, store: Store, ents: seq<Entity>)
    requires WorldOk(store, ents)
    ensures Describes(from, t, store, ents, NearestIndex(from, t, store, ents), NearestOf(from, t, store, ents))
    decreases |ents|
  {
    if |ents| > 0 {
      var pre := ents[..|ents| - 1];
      assert WorldOk(store, pre);
      NearestIsFirstMinimum(from, t, store, pre);
      ConsiderStep(from, t, store, ents, NearestIndex(from, t, store, pre), NearestOf(from, t, store, pre));
    }
  }

  /** The scan itself. */
  method NearestOfType(from: (int, int), t: SpriteType, store: Store, ents: seq<Entity>) returns (r: Found)
    requires WorldOk(store, ents)
    ensures r == NearestOf(from, t, store, ents)
  {
    r := NOTHING_FOUND;
    var i := 0;
    while i < |ents|
      invariant 0 <= i <= |ents|
      invariant WorldOk(store, ents[..i])
      invariant r == NearestOf(from, t, store, ents[..i])
    {
      var e := ents[i];
      assert ents[..i + 1][..i] == ents[..i];
      assert WorldOk(store, ents[..i + 1]);
      if IsCandidate(e, t) {
        var d := Distance(from, store, e);
        if d < r.dist {
          r := Found(e.sprite.value.id, d, e.item.value.itemType);
        }
      }
      i := i + 1;
    }
    assert ents[..i] == ents;
  }
}
