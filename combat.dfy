/** The player-shot / enemy part of `checkCollisions`: an outer `forEach` over the shots
    with an inner `forEach` over the enemies, both splicing as they go. */
module Combat {
  import opened Geometry
  import opened Sweep

  /** The layout box a shot reads as once `remove()` has detached it from the page: an
      element without a layout box reports 0 for its offsets and its size. */
  const DETACHED: Box := Box(0, 0, 0, 0)

  /** `n` consecutive `splice(i, 1)` calls on the same index. */
  function RemoveRepeat(s: seq<Box>, i: nat, n: nat): (r: seq<Box>)
    ensures |s| - n <= |r| <= |s|
  {
    if n == 0 then s else RemoveAt(RemoveRepeat(s, i, n - 1), i)
  }

  lemma {:induction false} RemoveRepeatSubseq(s: seq<Box>, i: nat, n: nat)
    ensures IsSubseq(RemoveRepeat(s, i, n), s)
  {
    if n == 0 {
      ThinnedRefl(s, 0);
    } else {
      RemoveRepeatSubseq(s, i, n - 1);
      RemoveAtSubseq(RemoveRepeat(s, i, n - 1), i);
      SubseqTrans(RemoveRepeat(s, i, n), RemoveRepeat(s, i, n - 1), s);
    }
  }

  /** The enemies left by the inner pass of one shot. Up to its first hit the shot is
      tested with its own box and nothing is removed; the first enemy it hits is spliced
      out and the shot is detached, so the rest of the pass (which passes over the enemy
      that shifted into the emptied slot) tests every enemy against `DETACHED`. */
  function ShotPass(enemies: seq<Box>, shot: Box): (r: seq<Box>)
    ensures |r| <= |enemies|
  {
    if enemies == [] then []
    else if IsColliding(shot, enemies[0]) then Scan(enemies[1..], 0, HitBy(DETACHED), true)
    else [enemies[0]] + ShotPass(enemies[1..], shot)
  }

  /** A shot that collides with no enemy leaves the enemies as they are. */
  lemma {:induction false} ShotPassMisses(enemies: seq<Box>, shot: Box)
    requires forall i :: 0 <= i < |enemies| ==> !IsColliding(shot, enemies[i])
    ensures ShotPass(enemies, shot) == enemies
  {
    if enemies != [] {
      assert forall i :: 0 <= i < |enemies[1..]| ==> enemies[1..][i] == enemies[i + 1];
      ShotPassMisses(enemies[1..], shot);
    }
  }

  /** With `j` the first enemy the shot collides with: the enemies before `j` stay, `j`
      goes, and the rest is a pass of the detached shot that starts by passing over
      the enemy after `j`. */
  lemma {:induction false} ShotPassFirstHit(enemies: seq<Box>, shot: Box, j: nat)
    requires j < |enemies| && IsColliding(shot, enemies[j])
    requires forall i :: 0 <= i < j ==> !IsColliding(shot, enemies[i])
    ensures ShotPass(enemies, shot) == enemies[..j] + Scan(enemies[j + 1..], 0, HitBy(DETACHED), true)
  {
    if j > 0 {
      var tail := enemies[1..];
      assert forall i :: 0 <= i < j - 1 ==> tail[i] == enemies[i + 1];
      assert tail[j - 1] == enemies[j];
      ShotPassFirstHit(tail, shot, j - 1);
      assert tail[..j - 1] == enemies[1..j] && tail[j..] == enemies[j + 1..];
      assert enemies[..j] == [enemies[0]] + enemies[1..j];
    }
  }

  /** The survivors of an inner pass keep their order and their positions. */
  lemma {:induction false} ShotPassSubseq(enemies: seq<Box>, shot: Box)
    ensures IsSubseq(ShotPass(enemies, shot), enemies)
  {
    if enemies != [] {
      var r := ShotPass(enemies, shot);
      if IsColliding(shot, enemies[0]) {
        ScanThinned(enemies[1..], 0, HitBy(DETACHED), true);
        assert IsSubseq(r, enemies[1..]);
      } else {
        ShotPassSubseq(enemies[1..], shot);
        assert r[0] == enemies[0] && r[1..] == ShotPass(enemies[1..], shot);
      }
    }
  }

  /** The invariant of the inner loop for `shot`, started on `arr0` and to end with
      `goal`, after `hits` hits, at index `k` of the current list `arr`, where `box` is what
      the shot reads as. Before the first hit nothing has changed and the rest of the
      pass is still `ShotPass`; after it the shot reads as `DETACHED` and the rest is an
      ordinary removal pass. */
  ghost predicate InnerInvariant(goal: seq<Box>, shot: Box, arr0: seq<Box>, box: Box, arr: seq<Box>, k: nat, hits: nat) {
    && |arr| + hits == |arr0|
    && (hits == 0 ==> box == shot && arr == arr0 && k <= |arr| && goal == arr[..k] + ShotPass(arr[k..], shot))
    && (hits > 0 ==> box == DETACHED && SweepInvariant(goal, 0, HitBy(DETACHED), arr, k))
  }

  lemma InnerStart(shot: Box, arr0: seq<Box>)
    ensures InnerInvariant(ShotPass(arr0, shot), shot, arr0, shot, arr0, 0, 0)
  {
    assert arr0[..0] == [] && arr0[0..] == arr0;
  }

  /** A visited enemy the shot does not hit stays. */
  lemma InnerMiss(goal: seq<Box>, shot: Box, arr0: seq<Box>, box: Box, arr: seq<Box>, k: nat, hits: nat)
    requires InnerInvariant(goal, shot, arr0, box, arr, k, hits)
    requires k < |arr| && !IsColliding(box, arr[k])
    ensures InnerInvariant(goal, shot, arr0, box, arr, k + 1, hits)
  {
    if hits == 0 {
      assert arr[k..][0] == arr[k] && arr[k..][1..] == arr[k + 1..];
      assert arr[..k + 1] == arr[..k] + [arr[k]];
    } else {
      SweepStay(goal, HitBy(DETACHED), arr, k);
    }
  }

  /** A visited enemy the shot hits is spliced out, and the shot is detached. */
  lemma InnerHit(goal: seq<Box>, shot: Box, arr0: seq<Box>, box: Box, arr: seq<Box>, k: nat, hits: nat)
    requires InnerInvariant(goal, shot, arr0, box, arr, k, hits)
    requires k < |arr| && IsColliding(box, arr[k])
    ensures InnerInvariant(goal, shot, arr0, DETACHED, RemoveAt(arr, k), k + 1, hits + 1)
  {
    if hits == 0 {
      assert arr[k..][0] == arr[k] && arr[k..][1..] == arr[k + 1..];
      SweepResume(goal, 0, HitBy(DETACHED), arr, k);
    } else {
      SweepRemove(goal, HitBy(DETACHED), arr, k);
    }
  }

  /** An index the list no longer has (only after a hit) is not visited. */
  lemma InnerPast(goal: seq<Box>, shot: Box, arr0: seq<Box>, box: Box, arr: seq<Box>, k: nat, hits: nat)
    requires InnerInvariant(goal, shot, arr0, box, arr, k, hits)
    requires |arr| <= k < |arr0|
    ensures InnerInvariant(goal, shot, arr0, box, arr, k + 1, hits)
  {
  }

  /** Once every index of the starting list has been visited, the pass is complete. */
  lemma InnerDone(goal: seq<Box>, shot: Box, arr0: seq<Box>, box: Box, arr: seq<Box>, k: nat, hits: nat)
    requires InnerInvariant(goal, shot, arr0, box, arr, k, hits)
    requires |arr0| <= k
    ensures arr == goal
  {
    if hits == 0 {
      assert arr[k..] == [] && arr[..k] == arr;
    }
  }

  /** The shot and enemy lists after the outer loop has visited indices `i` onward.
      The inner pass of the shot at index `i` leaves `ShotPass` of the enemies, and every
      hit of that pass splices index `i` of the shot list again, so a pass with two hits
      also removes the shot that moved into the slot. */
  function BulletScan(shots: seq<Box>, enemies: seq<Box>, i: nat): (r: (seq<Box>, seq<Box>))
    ensures |r.0| <= |shots| && |r.1| <= |enemies|
    decreases |shots| - i
  {
    if i >= |shots| then (shots, enemies)
    else
      var survivors := ShotPass(enemies, shots[i]);
      BulletScan(RemoveRepeat(shots, i, |enemies| - |survivors|), survivors, i + 1)
  }

  /** One visit of the outer loop: the inner pass of shot `i`, then the rest. */
  lemma BulletScanStep(shots: seq<Box>, enemies: seq<Box>, i: nat, survivors: seq<Box>, rest: seq<Box>)
    requires i < |shots|
    requires survivors == ShotPass(enemies, shots[i])
    requires rest == RemoveRepeat(shots, i, |enemies| - |survivors|)
    ensures BulletScan(shots, enemies, i) == BulletScan(rest, survivors, i + 1)
  {
  }

  /** Both lists only lose elements, keeping their order, and the shot list loses at
      most one element per destroyed enemy. */
  lemma {:induction false} BulletScanAccounting(shots: seq<Box>, enemies: seq<Box>, i: nat)
    ensures var (shots', enemies') := BulletScan(shots, enemies, i);
      && IsSubseq(shots', shots)
      && IsSubseq(enemies', enemies)
      && |shots| - |shots'| <= |enemies| - |enemies'|
    decreases |shots| - i
  {
    if i >= |shots| {
      ThinnedRefl(shots, 0);
      ThinnedRefl(enemies, 0);
    } else {
      var survivors := ShotPass(enemies, shots[i]);
      var hits := |enemies| - |survivors|;
      var rest := RemoveRepeat(shots, i, hits);
      var (shots', enemies') := BulletScan(rest, survivors, i + 1);
      BulletScanAccounting(rest, survivors, i + 1);
      ShotPassSubseq(enemies, shots[i]);
      RemoveRepeatSubseq(shots, i, hits);
      SubseqTrans(shots', rest, shots);
      SubseqTrans(enemies', survivors, enemies);
    }
  }

  /** A shot is not consumed by its first hit. Here it hits the first enemy; the second,
      shifted into the emptied slot, is passed over; the third holds the origin, so the
      detached shot hits it too and the second `splice(0, 1)` removes the other shot,
      which hit nothing. */
  lemma DetachedShotHitsOrigin()
    ensures var shot, other := Box(10, 10, 4, 10), Box(300, 300, 4, 10);
      var first, second, third := Box(0, 0, 40, 40), Box(100, 0, 40, 40), Box(-30, -30, 30, 30);
      BulletScan([shot, other], [first, second, third], 0) == ([], [second])
  {
    var shot, other := Box(10, 10, 4, 10), Box(300, 300, 4, 10);
    var first, second, third := Box(0, 0, 40, 40), Box(100, 0, 40, 40), Box(-30, -30, 30, 30);
    var enemies := [first, second, third];
    assert enemies[1..] == [second, third] && [second, third][1..] == [third];
    assert Scan([third], 0, HitBy(DETACHED), false) == [];
    assert ShotPass(enemies, shot) == [second];
    assert RemoveRepeat([shot, other], 0, 2) == [];
  }

  /** After its first hit a shot no longer hits an enemy at its own position: the third
      enemy overlaps the shot's box but not the origin, so it survives, and only the
      shot itself is spliced out. */
  lemma DetachedShotMissesOverlap()
    ensures var shot, other := Box(10, 10, 4, 10), Box(300, 300, 4, 10);
      var first, second, third := Box(0, 0, 40, 40), Box(100, 0, 40, 40), Box(12, 0, 40, 40);
      BulletScan([shot, other], [first, second, third], 0) == ([other], [second, third])
  {
    var shot, other := Box(10, 10, 4, 10), Box(300, 300, 4, 10);
    var first, second, third := Box(0, 0, 40, 40), Box(100, 0, 40, 40), Box(12, 0, 40, 40);
    var enemies := [first, second, third];
    assert enemies[1..] == [second, third] && [second, third][1..] == [third];
    assert Scan([third], 0, HitBy(DETACHED), false) == [third];
    assert ShotPass(enemies, shot) == [second, third];
    assert RemoveRepeat([shot, other], 0, 1) == [other];
  }
}
