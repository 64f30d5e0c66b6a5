/** The toy entity pool of the collision sandbox (ecs::EntityPool).

    Entities live in two parallel sequences, `entities` and `components`,
    indexed by slot; a slot's entity id is its index. Killed slots are pushed
    on a LIFO free list and handed out again by the next NewEntity.

    Things the pool calls but that are not part of this model enter as
    parameters: the pause flag and the frame delta of the application
    context, and the model-against-model bounding-box test (Model::AABBTest),
    which is an arbitrary total predicate here. Drawing is recorded as a
    trace of DrawCall events returned by Iterate. */
module Ecs {
  import opened Geometry

  /** Movement component of one slot. */
  datatype Components = Components(acceleration: Vec3, velocity: Vec3, position: Vec3)

  datatype Entity = Entity(id: nat, modelId: nat, shaderId: nat, dead: bool)

  datatype Color = Color(r: real, g: real, b: real)

  const Black: Color := Color(0.0, 0.0, 0.0)

  /** One `model.draw(shader, translate(position), bb_color)` request, tagged
      with the slot whose entity issued it. */
  datatype DrawCall = DrawCall(slot: nat, modelId: nat, shaderId: nat, position: Vec3, color: Color)

  /** Bounding-box test of the model with the first id placed at the first
      position against the model with the second id at the second position. */
  type OverlapTest = (nat, Vec3, nat, Vec3) -> bool

  /** Components of every slot and the draws issued so far during one tick. */
  datatype TickState = TickState(components: seq<Components>, draws: seq<DrawCall>)

  /** Explicit Euler step: velocity first, then position with the new velocity. */
  function Integrate(c: Components, dt: real): Components {
    var v := Add(c.velocity, Scale(c.acceleration, dt));
    Components(c.acceleration, v, Add(c.position, Scale(v, dt)))
  }

  /** The debug colour of slot `i` once the inner loop has visited slots
      [0, k): every other slot sets red when it tests as overlapping and green
      when it does not. */
  function BBColor(ents: seq<Entity>, comps: seq<Components>, i: nat, overlaps: OverlapTest, k: nat): Color
    requires |comps| == |ents| && i < |ents| && k <= |ents|
  {
    if k == 0 then Black
    else
      var c := BBColor(ents, comps, i, overlaps, k - 1);
      var j := k - 1;
      if j == i then c
      else if overlaps(ents[i].modelId, comps[i].position, ents[j].modelId, comps[j].position) then c.(r := 1.0)
      else c.(g := 1.0)
  }

  /** Some slot j != i among the first k tests as overlapping slot i. */
  ghost predicate HitsSome(ents: seq<Entity>, comps: seq<Components>, i: nat, overlaps: OverlapTest, k: nat)
    requires |comps| == |ents| && i < |ents| && k <= |ents|
  {
    exists j :: 0 <= j < k && j != i && overlaps(ents[i].modelId, comps[i].position, ents[j].modelId, comps[j].position)
  }

  /** Some slot j != i among the first k tests as not overlapping slot i. */
  ghost predicate MissesSome(ents: seq<Entity>, comps: seq<Components>, i: nat, overlaps: OverlapTest, k: nat)
    requires |comps| == |ents| && i < |ents| && k <= |ents|
  {
    exists j :: 0 <= j < k && j != i && !overlaps(ents[i].modelId, comps[i].position, ents[j].modelId, comps[j].position)
  }

  /** Red is 1 exactly when some other slot (dead ones included) overlaps,
      green is 1 exactly when some other slot does not, blue stays 0. */
  lemma {:induction false} BBColorFlags(ents: seq<Entity>, comps: seq<Components>, i: nat, overlaps: OverlapTest, k: nat)
    requires |comps| == |ents| && i < |ents| && k <= |ents|
    ensures BBColor(ents, comps, i, overlaps, k).r == if HitsSome(ents, comps, i, overlaps, k) then 1.0 else 0.0
    ensures BBColor(ents, comps, i, overlaps, k).g == if MissesSome(ents, comps, i, overlaps, k) then 1.0 else 0.0
    ensures BBColor(ents, comps, i, overlaps, k).b == 0.0
  {
    if k > 0 {
      BBColorFlags(ents, comps, i, overlaps, k - 1);
      var j := k - 1;
      if HitsSome(ents, comps, i, overlaps, k) && !HitsSome(ents, comps, i, overlaps, k - 1) {
        assert j != i && overlaps(ents[i].modelId, comps[i].position, ents[j].modelId, comps[j].position);
      }
      if MissesSome(ents, comps, i, overlaps, k) && !MissesSome(ents, comps, i, overlaps, k - 1) {
        assert j != i && !overlaps(ents[i].modelId, comps[i].position, ents[j].modelId, comps[j].position);
      }
    }
  }

  /** Body of the outer loop of `iterate` for slot i. */
  function StepSlot(ents: seq<Entity>, s: TickState, dt: real, overlaps: OverlapTest, i: nat): TickState
    requires i < |ents| == |s.components|
  {
    if ents[i].dead then s
    else
      var comps := s.components[i := Integrate(s.components[i], dt)];
      var color := BBColor(ents, comps, i, overlaps, |ents|);
      TickState(comps, s.draws + [DrawCall(i, ents[i].modelId, ents[i].shaderId, comps[i].position, color)])
  }

  /** State of a tick after slots [0, n) have been visited. */
  function TickUpTo(ents: seq<Entity>, comps0: seq<Components>, dt: real, overlaps: OverlapTest, n: nat): (s: TickState)
    requires |comps0| == |ents| && n <= |ents|
    ensures |s.components| == |ents|
  {
    if n == 0 then TickState(comps0, [])
    else StepSlot(ents, TickUpTo(ents, comps0, dt, overlaps, n - 1), dt, overlaps, n - 1)
  }

  /** One whole call of `iterate`. */
  function Tick(ents: seq<Entity>, comps0: seq<Components>, paused: bool, dt: real, overlaps: OverlapTest): TickState
    requires |comps0| == |ents|
  {
    if paused then TickState(comps0, []) else TickUpTo(ents, comps0, dt, overlaps, |ents|)
  }

  /** Live slots below n, in index order. */
  function LiveSlots(ents: seq<Entity>, n: nat): seq<nat>
    requires n <= |ents|
  {
    if n == 0 then [] else LiveSlots(ents, n - 1) + (if ents[n - 1].dead then [] else [n - 1])
  }

  /** LiveSlots lists every live slot below n exactly once, in increasing order, and nothing else. */
  lemma {:induction false} LiveSlotsExact(ents: seq<Entity>, n: nat)
    requires n <= |ents|
    ensures forall m :: 0 <= m < |LiveSlots(ents, n)| ==> LiveSlots(ents, n)[m] < n && !ents[LiveSlots(ents, n)[m]].dead
    ensures forall m1, m2 :: 0 <= m1 < m2 < |LiveSlots(ents, n)| ==> LiveSlots(ents, n)[m1] < LiveSlots(ents, n)[m2]
    ensures forall k :: 0 <= k < n && !ents[k].dead ==> k in LiveSlots(ents, n)
  {
    if n > 0 {
      LiveSlotsExact(ents, n - 1);
    }
  }

  /** Slot k part-way through a tick: integrated exactly once when it is live
      and already visited, untouched otherwise. */
  lemma {:induction false} TickUpToComponents(ents: seq<Entity>, comps0: seq<Components>, dt: real, overlaps: OverlapTest, n: nat, k: nat)
    requires |comps0| == |ents| && n <= |ents| && k < |ents|
    ensures TickUpTo(ents, comps0, dt, overlaps, n).components[k]
            == if k < n && !ents[k].dead then Integrate(comps0[k], dt) else comps0[k]
  {
    if n > 0 {
      TickUpToComponents(ents, comps0, dt, overlaps, n - 1, k);
    }
  }

  /** Components as slot i sees them while it is being processed: live slots
      up to and including i are already integrated, the rest are as before. */
  function SeenBy(ents: seq<Entity>, comps0: seq<Components>, dt: real, i: nat): (seen: seq<Components>)
    requires |comps0| == |ents|
    ensures |seen| == |ents|
  {
    seq(|comps0|, k requires 0 <= k < |comps0| => if k <= i && !ents[k].dead then Integrate(comps0[k], dt) else comps0[k])
  }

  /** What the draw of slot i carries: its own ids, its integrated position,
      and the colour computed against every other slot as SeenBy shows it. */
  ghost predicate DrawnFor(d: DrawCall, ents: seq<Entity>, comps0: seq<Components>, dt: real, overlaps: OverlapTest, i: nat)
    requires |comps0| == |ents| && i < |ents|
  {
    var seen := SeenBy(ents, comps0, dt, i);
    && d.slot == i
    && d.modelId == ents[i].modelId
    && d.shaderId == ents[i].shaderId
    && d.position == Integrate(comps0[i], dt).position
    && d.color.r == (if HitsSome(ents, seen, i, overlaps, |ents|) then 1.0 else 0.0)
    && d.color.g == (if MissesSome(ents, seen, i, overlaps, |ents|) then 1.0 else 0.0)
    && d.color.b == 0.0
  }

  /** The draws of a partial tick: one per live visited slot, in index order. */
  lemma {:induction false} TickUpToDraws(ents: seq<Entity>, comps0: seq<Components>, dt: real, overlaps: OverlapTest, n: nat)
    requires |comps0| == |ents| && n <= |ents|
    ensures |TickUpTo(ents, comps0, dt, overlaps, n).draws| == |LiveSlots(ents, n)|
    ensures forall m :: 0 <= m < |LiveSlots(ents, n)| ==>
              LiveSlots(ents, n)[m] < |ents| &&
              DrawnFor(TickUpTo(ents, comps0, dt, overlaps, n).draws[m], ents, comps0, dt, overlaps, LiveSlots(ents, n)[m])
  {
    if n > 0 {
      TickUpToDraws(ents, comps0, dt, overlaps, n - 1);
      LiveSlotsExact(ents, n - 1);
      var i := n - 1;
      if !ents[i].dead {
        var prev := TickUpTo(ents, comps0, dt, overlaps, i);
        var comps := prev.components[i := Integrate(prev.components[i], dt)];
        var seen := SeenBy(ents, comps0, dt, i);
        forall k | 0 <= k < |ents| ensures comps[k] == seen[k] {
          TickUpToComponents(ents, comps0, dt, overlaps, i, k);
        }
        assert comps == seen;
        BBColorFlags(ents, seen, i, overlaps, |ents|);
        var d := TickUpTo(ents, comps0, dt, overlaps, n).draws[|prev.draws|];
        assert DrawnFor(d, ents, comps0, dt, overlaps, i);
      }
    }
  }

  /** What a whole unpaused `iterate` does: each live slot is integrated once
      and drawn once, in index order; dead slots are neither moved nor drawn. */
  lemma TickEffect(ents: seq<Entity>, comps0: seq<Components>, dt: real, overlaps: OverlapTest)
    requires |comps0| == |ents|
    ensures var t := Tick(ents, comps0, false, dt, overlaps);
      && |t.components| == |comps0|
      && (forall k :: 0 <= k < |ents| ==>
            t.components[k] == if ents[k].dead then comps0[k] else Integrate(comps0[k], dt))
      && |t.draws| == |LiveSlots(ents, |ents|)|
      && (forall m :: 0 <= m < |t.draws| ==>
            LiveSlots(ents, |ents|)[m] < |ents| &&
            DrawnFor(t.draws[m], ents, comps0, dt, overlaps, LiveSlots(ents, |ents|)[m]))
  {
    forall k | 0 <= k < |ents| {
      TickUpToComponents(ents, comps0, dt, overlaps, |ents|, k);
    }
    TickUpToDraws(ents, comps0, dt, overlaps, |ents|);
  }

  class EntityPool {
    var entities: seq<Entity>
    var components: seq<Components>
    /** LIFO stack of killed slot ids; the top is the last element. */
    var deadEntities: seq<nat>

    /** Parallel sequences of equal length, id equal to index, every free-list
        entry a real slot, and no dead slot missing from the free list. */
    ghost predicate Valid()
      reads this
    {
      && |components| == |entities|
      && (forall k :: 0 <= k < |entities| ==> entities[k].id == k)
      && (forall m :: 0 <= m < |deadEntities| ==> deadEntities[m] < |entities|)
      && (forall k :: 0 <= k < |entities| && entities[k].dead ==> k in deadEntities)
    }

    /** The initial size hint is accepted and ignored, as in the source. */
    constructor (initialSize: nat)
      ensures Valid()
      ensures entities == [] && components == [] && deadEntities == []
    {
      entities := [];
      components := [];
      deadEntities := [];
    }

    /** Read-only view of the entity slots. */
    function GetEntities(): (r: seq<Entity>)
      reads this
      requires Valid()
      ensures |r| == |components|
      ensures forall k :: 0 <= k < |r| ==> r[k].id == k
    {
      entities
    }

    method NewEntity(pos0: Vec3, vel0: Vec3, accel0: Vec3, shaderId: nat, modelId: nat) returns (id: nat)
      requires Valid()
      modifies this
      ensures Valid()
      ensures old(deadEntities) == [] ==>
        && id == old(|entities|)
        && entities == old(entities) + [Entity(id, modelId, shaderId, false)]
        && components == old(components) + [Components(accel0, vel0, pos0)]
        && deadEntities == []
      ensures old(deadEntities) != [] ==>
        && id == old(deadEntities[|deadEntities| - 1])
        && deadEntities == old(deadEntities[..|deadEntities| - 1])
        && |entities| == old(|entities|)
        && entities == old(entities[id := entities[id].(modelId := modelId, shaderId := shaderId, dead := false)])
        && components == old(components[id := Components(accel0, vel0, pos0)])
      ensures id < |entities| && entities[id].id == id && !entities[id].dead
    {
      id := |entities|;
      if |deadEntities| > 0 {
        id := deadEntities[|deadEntities| - 1];
        deadEntities := deadEntities[..|deadEntities| - 1];
        entities := entities[id := entities[id].(modelId := modelId, shaderId := shaderId, dead := false)];
        components := components[id := Components(accel0, vel0, pos0)];
        forall k | 0 <= k < |entities| && entities[k].dead
          ensures k in deadEntities
        {
          assert k in old(deadEntities) && k != id;
          var m :| 0 <= m < |old(deadEntities)| && old(deadEntities)[m] == k;
          assert m < |deadEntities| && deadEntities[m] == k;
        }
        return;
      }
      entities := entities + [Entity(id, modelId, shaderId, false)];
      components := components + [Components(accel0, vel0, pos0)];
      id := |entities| - 1;
    }

    /** Out-of-range ids are ignored; an in-range id is marked dead and pushed,
        whether or not the slot was already dead. */
    method Kill(id: nat)
      requires Valid()
      modifies this
      ensures Valid()
      ensures components == old(components)
      ensures id >= old(|entities|) ==> entities == old(entities) && deadEntities == old(deadEntities)
      ensures id < old(|entities|) ==>
        && entities == old(entities[id := entities[id].(dead := true)])
        && deadEntities == old(deadEntities) + [id]
    {
      if id >= |entities| {
        return;
      } else {
        entities := entities[id := entities[id].(dead := true)];
        deadEntities := deadEntities + [id];
      }
    }

    /** The inner loop of `iterate`: tests slot i against every other slot,
        dead ones included, with the positions as they stand. */
    method BoundingBoxColor(i: nat, overlaps: OverlapTest) returns (color: Color)
      requires |components| == |entities| && i < |entities|
      requires forall k :: 0 <= k < |entities| ==> entities[k].id == k
      ensures color == BBColor(entities, components, i, overlaps, |entities|)
    {
      var position := components[entities[i].id].position;
      color := Black;
      var j := 0;
      while j < |entities|
        invariant 0 <= j <= |entities|
        invariant color == BBColor(entities, components, i, overlaps, j)
      {
        if i != j {
          var theirPosition := components[entities[j].id].position;
          if overlaps(entities[i].modelId, position, entities[j].modelId, theirPosition) {
            color := color.(r := 1.0);
          } else {
            color := color.(g := 1.0);
          }
        }
        j := j + 1;
      }
    }

    /** One frame: unless paused, integrate and draw every live slot in index
        order, colouring each by its bounding-box tests against all others. */
    method Iterate(paused: bool, dt: real, overlaps: OverlapTest) returns (drawn: seq<DrawCall>)
      requires Valid()
      modifies this
      ensures Valid()
      ensures entities == old(entities) && deadEntities == old(deadEntities)
      ensures components == Tick(old(entities), old(components), paused, dt, overlaps).components
      ensures drawn == Tick(old(entities), old(components), paused, dt, overlaps).draws
    {
      drawn := [];
      if paused {
        return;
      }
      ghost var comps0 := components;
      var i := 0;
      while i < |entities|
        invariant 0 <= i <= |entities|
        invariant entities == old(entities) && deadEntities == old(deadEntities)
        invariant TickUpTo(entities, comps0, dt, overlaps, i) == TickState(components, drawn)
      {
        var entity := entities[i];
        if !entity.dead {
          var mov := components[entity.id];
          var velocity := Add(mov.velocity, Scale(mov.acceleration, dt));
          var position := Add(mov.position, Scale(velocity, dt));
          components := components[entity.id := Components(mov.acceleration, velocity, position)];
          var color := BoundingBoxColor(i, overlaps);
          drawn := drawn + [DrawCall(i, entity.modelId, entity.shaderId, position, color)];
        }
        i := i + 1;
      }
    }
  }

  /** Killing a slot twice leaves its id twice on the free list, so the next
      two NewEntity calls both return that same slot. */
  method DoubleKillHandsOutTwice() returns (first: nat, second: nat)
    ensures first == 0 && second == 0
  {
    var pool := new EntityPool(16);
    var id := pool.NewEntity(Origin, Origin, Origin, 0, 0);
    pool.Kill(id);
    pool.Kill(id);
    first := pool.NewEntity(Origin, Origin, Origin, 0, 0);
    second := pool.NewEntity(Origin, Origin, Origin, 0, 0);
  }

  /** A recycled slot gets the most recently killed id and exactly the new
      movement values, not those of its previous occupant. */
  method RecycleTakesNewState(pos: Vec3, vel: Vec3, accel: Vec3) returns (id: nat, c: Components)
    ensures id == 1 && c == Components(accel, vel, pos)
  {
    var pool := new EntityPool(16);
    var a := pool.NewEntity(Origin, Origin, Origin, 0, 0);
    var b := pool.NewEntity(Origin, Origin, Origin, 0, 0);
    pool.Kill(a);
    pool.Kill(b);
    id := pool.NewEntity(pos, vel, accel, 1, 1);
    c := pool.components[id];
  }

  /** One unpaused frame with dt = 1 on a single entity falling from rest. */
  method FreeFallFrame() returns (after: Components, drawn: seq<DrawCall>)
    ensures after == Components(Vec3(0.0, -9.8, 0.0), Vec3(0.0, -9.8, 0.0), Vec3(0.0, -9.8, 0.0))
    ensures |drawn| == 1 && drawn[0].position == Vec3(0.0, -9.8, 0.0) && drawn[0].color == Black
  {
    var pool := new EntityPool(16);
    var id := pool.NewEntity(Origin, Origin, Vec3(0.0, -9.8, 0.0), 0, 0);
    ghost var ents, comps0 := pool.entities, pool.components;
    var never := (m: nat, p: Vec3, n: nat, q: Vec3) => false;
    drawn := pool.Iterate(false, 1.0, never);
    after := pool.components[id];
    TickEffect(ents, comps0, 1.0, never);
    assert LiveSlots(ents, 1) == [0];
  }

  /** Slot 0 overlaps slot 1 but not slot 2: its colour gets both red and green. */
  method MixedCollisionColor() returns (drawn: seq<DrawCall>)
    ensures |drawn| == 3 && drawn[0].color == Color(1.0, 1.0, 0.0)
  {
    var pool := new EntityPool(16);
    var a := pool.NewEntity(Origin, Origin, Origin, 0, 0);
    var b := pool.NewEntity(Origin, Origin, Origin, 0, 1);
    var c := pool.NewEntity(Origin, Origin, Origin, 0, 2);
    ghost var ents, comps0 := pool.entities, pool.components;
    var overlaps := (m: nat, p: Vec3, n: nat, q: Vec3) => m + n == 1;
    drawn := pool.Iterate(false, 0.0, overlaps);
    TickEffect(ents, comps0, 0.0, overlaps);
    assert LiveSlots(ents, 1) == [0];
    assert LiveSlots(ents, 2) == [0, 1];
    assert LiveSlots(ents, 3) == [0, 1, 2];
    ghost var seen := SeenBy(ents, comps0, 0.0, 0);
    assert overlaps(ents[0].modelId, seen[0].position, ents[1].modelId, seen[1].position);
    assert !overlaps(ents[0].modelId, seen[0].position, ents[2].modelId, seen[2].position);
  }
}
