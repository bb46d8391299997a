/** One tick of the enemy formation: a uniform horizontal shift, and on a tick in which
    some enemy reaches a side, one row drop for everybody with a bounce near the floor. */
module Formation {
  import opened Geometry

  /** A row drop moves an enemy this far down ... */
  const DROP_STEP: int := 15
  /** ... and an enemy that then reaches the floor margin is moved back up this far. */
  const BOUNCE_STEP: int := 30
  /** Distance above the bottom edge at which the bounce starts. */
  const FLOOR_MARGIN: int := 100

  /** Every enemy shifted horizontally by `dx`. */
  function Shifted(es: seq<Box>, dx: int): (r: seq<Box>) {
    seq(|es|, i requires 0 <= i < |es| => es[i].(left := es[i].left + dx))
  }

  /** The enemy touches or passes the left or the right side of a field `fieldWidth` wide. */
  predicate AtSide(e: Box, fieldWidth: int) {
    e.left <= 0 || e.left + e.width >= fieldWidth
  }

  predicate AnyAtSide(es: seq<Box>, fieldWidth: int) {
    exists i :: 0 <= i < |es| && AtSide(es[i], fieldWidth)
  }

  /** One row down, or a net step up when the lowered enemy reaches the floor margin. */
  function Lower(e: Box, fieldHeight: int): (r: Box)
    ensures r.left == e.left && r.width == e.width && r.height == e.height
    ensures r.top - e.top in {DROP_STEP, DROP_STEP - BOUNCE_STEP}
    ensures r.top < e.top <==> e.top + DROP_STEP + e.height >= fieldHeight - FLOOR_MARGIN
  {
    var down := e.(top := e.top + DROP_STEP);
    if down.top + down.height >= fieldHeight - FLOOR_MARGIN then down.(top := down.top - BOUNCE_STEP) else down
  }

  function Lowered(es: seq<Box>, fieldHeight: int): (r: seq<Box>) {
    seq(|es|, i requires 0 <= i < |es| => Lower(es[i], fieldHeight))
  }

  /** The formation after a tick that shifts by `dx`. */
  function Step(es: seq<Box>, dx: int, fieldWidth: int, fieldHeight: int): (r: seq<Box>)
    ensures |r| == |es|
  {
    var shifted := Shifted(es, dx);
    if AnyAtSide(shifted, fieldWidth) then Lowered(shifted, fieldHeight) else shifted
  }

  /** A tick keeps every enemy, shifts each by exactly `dx`, keeps its size, and
      changes tops only on an edge tick: by +15, or by +15 - 30 for an enemy that reaches
      the floor margin. */
  lemma StepMoves(es: seq<Box>, dx: int, fieldWidth: int, fieldHeight: int, i: nat)
    requires i < |es|
    ensures |Step(es, dx, fieldWidth, fieldHeight)| == |es|
    ensures var e, e' := es[i], Step(es, dx, fieldWidth, fieldHeight)[i];
      && e'.left == e.left + dx
      && e'.width == e.width && e'.height == e.height
      && (!AnyAtSide(Shifted(es, dx), fieldWidth) ==> e'.top == e.top)
      && (AnyAtSide(Shifted(es, dx), fieldWidth) ==>
            if e.top + DROP_STEP + e.height >= fieldHeight - FLOOR_MARGIN
            then e'.top == e.top + DROP_STEP - BOUNCE_STEP
            else e'.top == e.top + DROP_STEP)
  {
  }
}
