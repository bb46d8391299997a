/** What a JavaScript `forEach` over a list does when its callback may move the visited
    element and then `splice(i, 1)` it out of the list.

    `forEach` fixes the number of steps when it starts and skips an index the list no
    longer has. After a removal at index k the element that followed shifts into slot k,
    which has already been visited, so that element is passed over in this pass. `Scan`
    states the outcome over the ORIGINAL positions; `AdvanceShots` is the loop itself. */
module Sweep {
  import opened Geometry

  /** When a visited (and moved) element leaves its list. */
  datatype Rule =
    | Above                 // a player shot past the top edge: top < 0
    | Below(floor: int)     // an enemy shot past the bottom edge: top > floor
    | HitBy(shot: Box)      // an enemy that `shot` collides with
    | Strikes(target: Box)  // an enemy shot that collides with `target`

  predicate Drops(rule: Rule, b: Box) {
    match rule
    case Above => b.top < 0
    case Below(floor) => b.top > floor
    case HitBy(shot) => IsColliding(shot, b)
    case Strikes(target) => IsColliding(b, target)
  }

  /** `b` shifted vertically by `dy`. */
  function Moved(b: Box, dy: int): Box {
    b.(top := b.top + dy)
  }

  /** `splice(i, 1)`: remove the element at `i`; an index past the end removes nothing. */
  function RemoveAt(s: seq<Box>, i: nat): (r: seq<Box>)
    ensures i < |s| ==> |r| == |s| - 1
    ensures i >= |s| ==> r == s
  {
    if i < |s| then s[..i] + s[i + 1..] else s
  }

  /** After `splice(i, 1)` the elements before `i` keep their index, the later ones
      move down by one, and exactly one occurrence of `s[i]` is gone. */
  lemma RemoveAtShifts(s: seq<Box>, i: nat)
    requires i < |s|
    ensures forall j :: 0 <= j < |RemoveAt(s, i)| ==> RemoveAt(s, i)[j] == (if j < i then s[j] else s[j + 1])
    ensures multiset(RemoveAt(s, i)) + multiset{s[i]} == multiset(s)
  {
    var r := s[..i] + s[i + 1..];
    assert RemoveAt(s, i) == r;
    forall j | 0 <= j < |r|
      ensures r[j] == (if j < i then s[j] else s[j + 1])
    {
    }
    assert s == s[..i] + [s[i]] + s[i + 1..];
  }

  /** The list after one pass that moves every visited element by `dy` and removes it
      when `rule` drops it in its moved position. `skip` says that the first element
      has shifted into an already visited slot and is passed over, unchanged. */
  function Scan(s: seq<Box>, dy: int, rule: Rule, skip: bool): (r: seq<Box>)
    ensures |r| <= |s|
  {
    if s == [] then []
    else if skip then [s[0]] + Scan(s[1..], dy, rule, false)
    else if Drops(rule, Moved(s[0], dy)) then Scan(s[1..], dy, rule, true)
    else [Moved(s[0], dy)] + Scan(s[1..], dy, rule, false)
  }

  /** `r` is `s` with some elements deleted and some of the others shifted by exactly
      `dy`, in the original order. */
  ghost predicate Thinned(r: seq<Box>, s: seq<Box>, dy: int)
    decreases |s|
  {
    if r == [] then true
    else if s == [] then false
    else ((r[0] == s[0] || r[0] == Moved(s[0], dy)) && Thinned(r[1..], s[1..], dy))
         || Thinned(r, s[1..], dy)
  }

  /** `r` is a subsequence of `s`. */
  ghost predicate IsSubseq(r: seq<Box>, s: seq<Box>) {
    Thinned(r, s, 0)
  }

  /** A pass never adds an element, never reorders, and changes each survivor's top
      by exactly `dy` (a visited one) or not at all (a passed over one). */
  lemma {:induction false} ScanThinned(s: seq<Box>, dy: int, rule: Rule, skip: bool)
    ensures Thinned(Scan(s, dy, rule, skip), s, dy)
  {
    if s != [] {
      var r := Scan(s, dy, rule, skip);
      ScanThinned(s[1..], dy, rule, !skip && Drops(rule, Moved(s[0], dy)));
      if skip || !Drops(rule, Moved(s[0], dy)) {
        assert r[1..] == Scan(s[1..], dy, rule, false);
      }
    }
  }

  /** An element is removed only if the rule drops it in its moved position: every
      element that the rule keeps is still there, moved or passed over. */
  lemma {:induction false} ScanKeeps(s: seq<Box>, dy: int, rule: Rule, skip: bool, j: nat)
    requires j < |s| && !Drops(rule, Moved(s[j], dy))
    ensures exists k ::
              && 0 <= k <= j && k < |Scan(s, dy, rule, skip)|
              && (Scan(s, dy, rule, skip)[k] == s[j] || Scan(s, dy, rule, skip)[k] == Moved(s[j], dy))
  {
    var r := Scan(s, dy, rule, skip);
    if j == 0 {
      assert r[0] == s[0] || r[0] == Moved(s[0], dy);
    } else {
      var next := !skip && Drops(rule, Moved(s[0], dy));
      var tail := Scan(s[1..], dy, rule, next);
      ScanKeeps(s[1..], dy, rule, next, j - 1);
      assert s[1..][j - 1] == s[j];
      var k :| 0 <= k <= j - 1 && k < |tail| && (tail[k] == s[j] || tail[k] == Moved(s[j], dy));
      if next {
        assert r == tail;
        assert r[k] == s[j] || r[k] == Moved(s[j], dy);
      } else {
        assert r[1..] == tail;
        assert 0 <= k + 1 <= j && k + 1 < |r|;
        assert r[k + 1] == s[j] || r[k + 1] == Moved(s[j], dy);
      }
    }
  }

  /** A removal protects the element after it, so at most every other element goes:
      at least half of the list (rounded down) survives a pass. */
  lemma {:induction false} ScanKeepsHalf(s: seq<Box>, dy: int, rule: Rule, skip: bool)
    ensures |s| <= 2 * |Scan(s, dy, rule, skip)| + (if skip then 0 else 1)
  {
    if s != [] {
      ScanKeepsHalf(s[1..], dy, rule, !skip && Drops(rule, Moved(s[0], dy)));
    }
  }

  /** When the rule drops nothing, every element is moved by `dy`. */
  lemma {:induction false} ScanDropsNothing(s: seq<Box>, dy: int, rule: Rule)
    requires forall j :: 0 <= j < |s| ==> !Drops(rule, Moved(s[j], dy))
    ensures |Scan(s, dy, rule, false)| == |s|
    ensures forall j :: 0 <= j < |s| ==> Scan(s, dy, rule, false)[j] == Moved(s[j], dy)
  {
    if s != [] {
      assert forall j :: 0 <= j < |s[1..]| ==> s[1..][j] == s[j + 1];
      ScanDropsNothing(s[1..], dy, rule);
    }
  }

  /** The invariant of a `forEach` + `splice` loop, with the pass `rule`, that has
      reached index `k` of the current list `arr` and is to end with `goal`: the slots
      before `k` are final and the rest still awaits its pass, or (once the index has run
      past the end) everything is final. */
  ghost predicate SweepInvariant(goal: seq<Box>, dy: int, rule: Rule, arr: seq<Box>, k: nat) {
    && (k <= |arr| ==> goal == arr[..k] + Scan(arr[k..], dy, rule, false))
    && (k > |arr| ==> goal == arr)
  }

  lemma SweepStart(s0: seq<Box>, dy: int, rule: Rule)
    ensures SweepInvariant(Scan(s0, dy, rule, false), dy, rule, s0, 0)
  {
  }

  /** Visiting slot `k` and keeping its element, moved. */
  lemma SweepKeep(goal: seq<Box>, dy: int, rule: Rule, arr: seq<Box>, k: nat)
    requires SweepInvariant(goal, dy, rule, arr, k)
    requires k < |arr| && !Drops(rule, Moved(arr[k], dy))
    ensures SweepInvariant(goal, dy, rule, arr[k := Moved(arr[k], dy)], k + 1)
  {
  }

  /** Visiting slot `k` and splicing its element out: the next element is passed over. */
  lemma SweepDrop(goal: seq<Box>, dy: int, rule: Rule, arr: seq<Box>, k: nat)
    requires SweepInvariant(goal, dy, rule, arr, k)
    requires k < |arr| && Drops(rule, Moved(arr[k], dy))
    ensures SweepInvariant(goal, dy, rule, RemoveAt(arr, k), k + 1)
  {
    assert arr[k..][0] == arr[k] && arr[k..][1..] == arr[k + 1..];
    assert Scan(arr[k..], dy, rule, false) == Scan(arr[k + 1..], dy, rule, true);
    SweepResume(goal, dy, rule, arr, k);
  }

  /** Splicing slot `k` out when the rest of the pass, from the element after it on, is
      still to come: that element shifts into slot `k` and is passed over. */
  lemma SweepResume(goal: seq<Box>, dy: int, rule: Rule, arr: seq<Box>, k: nat)
    requires k < |arr| && goal == arr[..k] + Scan(arr[k + 1..], dy, rule, true)
    ensures SweepInvariant(goal, dy, rule, RemoveAt(arr, k), k + 1)
  {
    var a := RemoveAt(arr, k);
    assert a == arr[..k] + arr[k + 1..];
    if k + 1 < |arr| {
      var tail := arr[k + 2..];
      assert arr[k + 1..][0] == arr[k + 1] && arr[k + 1..][1..] == tail;
      assert Scan(arr[k + 1..], dy, rule, true) == [arr[k + 1]] + Scan(tail, dy, rule, false);
      assert a[..k + 1] == arr[..k] + [arr[k + 1]];
      assert a[k + 1..] == tail;
    } else {
      assert a == arr[..k];
    }
  }

  /** A visit that neither moves (dy = 0) nor removes the element. */
  lemma SweepStay(goal: seq<Box>, rule: Rule, arr: seq<Box>, k: nat)
    requires SweepInvariant(goal, 0, rule, arr, k)
    requires k < |arr| && !Drops(rule, arr[k])
    ensures SweepInvariant(goal, 0, rule, arr, k + 1)
  {
  }

  /** A visit that removes the element in place (dy = 0). */
  lemma SweepRemove(goal: seq<Box>, rule: Rule, arr: seq<Box>, k: nat)
    requires SweepInvariant(goal, 0, rule, arr, k)
    requires k < |arr| && Drops(rule, arr[k])
    ensures SweepInvariant(goal, 0, rule, RemoveAt(arr, k), k + 1)
  {
    assert Moved(arr[k], 0) == arr[k];
    SweepDrop(goal, 0, rule, arr, k);
  }

  /** Once the index has reached the end of the list, the pass is complete. */
  lemma SweepDone(goal: seq<Box>, dy: int, rule: Rule, arr: seq<Box>, k: nat)
    requires SweepInvariant(goal, dy, rule, arr, k) && |arr| <= k
    ensures arr == goal
  {
  }

  /** An index the list no longer has is not visited. */
  lemma SweepPast(goal: seq<Box>, dy: int, rule: Rule, arr: seq<Box>, k: nat)
    requires SweepInvariant(goal, dy, rule, arr, k) && |arr| <= k
    ensures SweepInvariant(goal, dy, rule, arr, k + 1)
  {
  }

  /** The `forEach((b, i) => { move b; if (gone) splice(i, 1) })` loop shared by
      `moveBullets` (dy = -bulletSpeed, rule Above) and `moveEnemyBullets`
      (dy = enemy bullet speed, rule Below(field height)). */
  method AdvanceShots(shots: seq<Box>, dy: int, rule: Rule) returns (r: seq<Box>)
    ensures r == Scan(shots, dy, rule, false)
  {
    r := shots;
    var len0 := |r|;
    var k := 0;
    ghost var goal := Scan(shots, dy, rule, false);
    SweepStart(shots, dy, rule);
    while k < len0
      invariant |r| <= len0
      invariant SweepInvariant(goal, dy, rule, r, k)
    {
      if k < |r| {
        ghost var before := r;
        r := r[k := Moved(r[k], dy)];
        if Drops(rule, r[k]) {
          SweepDrop(goal, dy, rule, before, k);
          assert RemoveAt(r, k) == RemoveAt(before, k);
          r := RemoveAt(r, k);
        } else {
          SweepKeep(goal, dy, rule, before, k);
        }
      } else {
        SweepPast(goal, dy, rule, r, k);
      }
      k := k + 1;
    }
    SweepDone(goal, dy, rule, r, k);
  }

  lemma {:induction false} ThinnedRefl(s: seq<Box>, dy: int)
    ensures Thinned(s, s, dy)
  {
    if s != [] {
      ThinnedRefl(s[1..], dy);
    }
  }

  /** A subsequence of a subsequence is a subsequence. */
  lemma {:induction false} SubseqTrans(a: seq<Box>, b: seq<Box>, c: seq<Box>)
    requires IsSubseq(a, b) && IsSubseq(b, c)
    ensures IsSubseq(a, c)
    decreases |c|
  {
    if a != [] {
      assert b != [] && c != [];
      if b[0] == c[0] && IsSubseq(b[1..], c[1..]) {
        if a[0] == b[0] && IsSubseq(a[1..], b[1..]) {
          SubseqTrans(a[1..], b[1..], c[1..]);
        } else {
          assert IsSubseq(a, b[1..]);
          SubseqTrans(a, b[1..], c[1..]);
        }
      } else {
        SubseqTrans(a, b, c[1..]);
      }
    }
  }

  /** `splice(i, 1)` leaves a subsequence. */
  lemma {:induction false} RemoveAtSubseq(s: seq<Box>, i: nat)
    ensures IsSubseq(RemoveAt(s, i), s)
  {
    if i >= |s| {
      ThinnedRefl(s, 0);
    } else if i == 0 {
      ThinnedRefl(s[1..], 0);
      assert RemoveAt(s, 0) == s[1..];
    } else {
      var r := RemoveAt(s, i);
      RemoveAtSubseq(s[1..], i - 1);
      assert r[0] == s[0];
      assert r[1..] == RemoveAt(s[1..], i - 1);
    }
  }
}
