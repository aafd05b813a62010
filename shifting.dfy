/**
 * The shift collection of an FFN model: every combination of
 * {-dx, 0, dx} x {-dy, 0, dy} x {-dz, 0, dz} except the all-zero one, in the
 * order of three nested loops with x outermost and z innermost.
 */
module Shifting {

  type Shift = (int, int, int)

  const Zero: Shift := (0, 0, 0)

  /** The three values one loop runs over for a step size `d`. */
  function Axis(d: int): (r: seq<int>)
    ensures |r| == 3
  {
    [-d, 0, d]
  }

  /**
   * The combination visited at step `n` (0 <= n < 27) of the nested loops:
   * the x loop advances every 9 steps, the y loop every 3, the z loop every step.
   */
  function Combination(deltas: seq<int>, n: nat): (t: Shift)
    requires |deltas| == 3 && n < 27
  {
    (Axis(deltas[0])[n / 9], Axis(deltas[1])[n / 3 % 3], Axis(deltas[2])[n % 3])
  }

  /** All 27 combinations, in visiting order. */
  function Combinations(deltas: seq<int>): (c: seq<Shift>)
    requires |deltas| == 3
    ensures |c| == 27
    ensures forall n :: 0 <= n < 27 ==> c[n] == Combination(deltas, n)
  {
    seq(27, n requires 0 <= n < 27 => Combination(deltas, n))
  }

  /** `s` with the all-zero entries dropped, the rest kept in order. */
  function NonZero(s: seq<Shift>): (r: seq<Shift>)
    decreases |s|
  {
    if s == [] then []
    else NonZero(s[..|s| - 1]) + (if s[|s| - 1] == Zero then [] else [s[|s| - 1]])
  }

  /**
   * The value the constructor stores in `shifts`. Visit 13 (the middle of
   * every loop) is always all-zero, so there are never more than 26 entries.
   */
  function Shifts(deltas: seq<int>): (r: seq<Shift>)
    requires |deltas| == 3
    ensures |r| <= 26
  {
    var c := Combinations(deltas);
    assert c == (c[..13] + [c[13]]) + c[14..];
    NonZeroAppend(c[..13] + [c[13]], c[14..]);
    NonZeroAppend(c[..13], [c[13]]);
    assert NonZero([c[13]]) == [] by {
      assert [c[13]][..0] == [];
    }
    NonZeroLength(c[..13]);
    NonZeroLength(c[14..]);
    NonZero(c)
  }

  ghost predicate Distinct(s: seq<Shift>)
  {
    forall i, j :: 0 <= i < j < |s| ==> s[i] != s[j]
  }

  ghost predicate AllNonZero(deltas: seq<int>)
    requires |deltas| == 3
  {
    deltas[0] != 0 && deltas[1] != 0 && deltas[2] != 0
  }

  /** Loop indices (i, j, k) visit step 9 * i + 3 * j + k. */
  lemma CombinationAt(deltas: seq<int>, i: nat, j: nat, k: nat)
    requires |deltas| == 3 && i < 3 && j < 3 && k < 3
    ensures Combinations(deltas)[9 * i + 3 * j + k] ==
      (Axis(deltas[0])[i], Axis(deltas[1])[j], Axis(deltas[2])[k])
  {
  }

  /** The collection after the loops have made their first `n` visits. */
  function ShiftsSoFar(deltas: seq<int>, n: nat): (r: seq<Shift>)
    requires |deltas| == 3 && n <= 27
  {
    NonZero(Combinations(deltas)[..n])
  }

  /** Visit (i, j, k) appends its triple to the collection unless the triple is all-zero. */
  lemma ShiftsSoFarStep(deltas: seq<int>, i: nat, j: nat, k: nat)
    requires |deltas| == 3 && i < 3 && j < 3 && k < 3
    ensures var t := (Axis(deltas[0])[i], Axis(deltas[1])[j], Axis(deltas[2])[k]);
      ShiftsSoFar(deltas, 9 * i + 3 * j + k + 1) ==
        ShiftsSoFar(deltas, 9 * i + 3 * j + k) + (if t == Zero then [] else [t])
  {
    CombinationAt(deltas, i, j, k);
    NonZeroStep(Combinations(deltas), 9 * i + 3 * j + k);
  }

  lemma ShiftsSoFarAll(deltas: seq<int>)
    requires |deltas| == 3
    ensures ShiftsSoFar(deltas, 27) == Shifts(deltas)
  {
    assert Combinations(deltas)[..27] == Combinations(deltas);
  }

  // ---------------------------------------------------------------------
  // Filtering

  /** Filtering one more element appends it unless it is all-zero. */
  lemma NonZeroStep(s: seq<Shift>, n: nat)
    requires n < |s|
    ensures NonZero(s[..n + 1]) == NonZero(s[..n]) + (if s[n] == Zero then [] else [s[n]])
  {
    assert s[..n + 1][..n] == s[..n];
  }

  lemma {:induction false} NonZeroLength(s: seq<Shift>)
    ensures |NonZero(s)| <= |s|
    decreases |s|
  {
    if s != [] {
      NonZeroLength(s[..|s| - 1]);
    }
  }

  lemma {:induction false} NonZeroMember(s: seq<Shift>, x: Shift)
    ensures x in NonZero(s) <==> x in s && x != Zero
    decreases |s|
  {
    if s != [] {
      var init := s[..|s| - 1];
      NonZeroMember(init, x);
      assert s == init + [s[|s| - 1]];
    }
  }

  lemma {:induction false} NonZeroAppend(s: seq<Shift>, t: seq<Shift>)
    ensures NonZero(s + t) == NonZero(s) + NonZero(t)
    decreases |t|
  {
    if t == [] {
      assert s + t == s;
    } else {
      var init := t[..|t| - 1];
      assert (s + t)[..|s + t| - 1] == s + init;
      NonZeroAppend(s, init);
    }
  }

  lemma {:induction false} NonZeroKeepsAll(s: seq<Shift>)
    requires Zero !in s
    ensures NonZero(s) == s
    decreases |s|
  {
    if s != [] {
      var init := s[..|s| - 1];
      NonZeroKeepsAll(init);
      assert s == init + [s[|s| - 1]];
    }
  }

  // ---------------------------------------------------------------------
  // What the shift collection contains

  lemma ShiftsExcludeZero(deltas: seq<int>)
    requires |deltas| == 3
    ensures Zero !in Shifts(deltas)
  {
    NonZeroMember(Combinations(deltas), Zero);
  }

  /** A triple is a shift exactly when each component is one its loop visits and not all are 0. */
  lemma ShiftsMembership(deltas: seq<int>, x: Shift)
    requires |deltas| == 3
    ensures x in Shifts(deltas) <==>
      && x != Zero
      && x.0 in Axis(deltas[0])
      && x.1 in Axis(deltas[1])
      && x.2 in Axis(deltas[2])
  {
    var c := Combinations(deltas);
    NonZeroMember(c, x);
    if x.0 in Axis(deltas[0]) && x.1 in Axis(deltas[1]) && x.2 in Axis(deltas[2]) {
      var i :| 0 <= i < 3 && Axis(deltas[0])[i] == x.0;
      var j :| 0 <= j < 3 && Axis(deltas[1])[j] == x.1;
      var k :| 0 <= k < 3 && Axis(deltas[2])[k] == x.2;
      var n := 9 * i + 3 * j + k;
      assert n / 9 == i && n / 3 % 3 == j && n % 3 == k;
      assert c[n] == x;
    }
  }

  /** With non-zero deltas, step 13 (the middle of every loop) is the only all-zero combination. */
  lemma CombinationZeroIffCentre(deltas: seq<int>, n: nat)
    requires |deltas| == 3 && AllNonZero(deltas) && n < 27
    ensures Combination(deltas, n) == Zero <==> n == 13
  {
  }

  /** With non-zero deltas, distinct steps visit distinct combinations. */
  lemma CombinationInjective(deltas: seq<int>, m: nat, n: nat)
    requires |deltas| == 3 && AllNonZero(deltas) && m < 27 && n < 27
    requires Combination(deltas, m) == Combination(deltas, n)
    ensures m == n
  {
  }

  /** Filtering drops a run of all-zero entries between two runs without any. */
  lemma NonZeroCutsRun(before: seq<Shift>, run: seq<Shift>, after: seq<Shift>)
    requires Zero !in before && Zero !in after
    requires forall n :: 0 <= n < |run| ==> run[n] == Zero
    ensures NonZero(before + run + after) == before + after
  {
    calc {
      NonZero(before + run + after);
      { NonZeroAppend(before + run, after); }
      NonZero(before + run) + NonZero(after);
      { NonZeroAppend(before, run); }
      NonZero(before) + NonZero(run) + NonZero(after);
      { NonZeroKeepsAll(before); NonZeroOfZeros(run); NonZeroKeepsAll(after); }
      before + [] + after;
      { assert before + [] == before; }
      before + after;
    }
  }

  lemma {:induction false} NonZeroOfZeros(s: seq<Shift>)
    requires forall n :: 0 <= n < |s| ==> s[n] == Zero
    ensures NonZero(s) == []
    decreases |s|
  {
    if s != [] {
      NonZeroOfZeros(s[..|s| - 1]);
    }
  }

  /**
   * With non-zero deltas there are exactly 26 shifts: the 27 combinations in
   * loop order with the centre one skipped, from (-dx, -dy, -dz) to (dx, dy, dz).
   */
  lemma ShiftsOfNonZeroDeltas(deltas: seq<int>)
    requires |deltas| == 3 && AllNonZero(deltas)
    ensures |Shifts(deltas)| == 26
    ensures forall k :: 0 <= k < 26 ==>
      Shifts(deltas)[k] == Combination(deltas, if k < 13 then k else k + 1)
    ensures Shifts(deltas)[0] == (-deltas[0], -deltas[1], -deltas[2])
    ensures Shifts(deltas)[25] == (deltas[0], deltas[1], deltas[2])
  {
    var c := Combinations(deltas);
    forall n | 0 <= n < 27 ensures c[n] == Zero <==> n == 13 {
      CombinationZeroIffCentre(deltas, n);
    }
    assert c == c[..13] + c[13..14] + c[14..];
    NonZeroCutsRun(c[..13], c[13..14], c[14..]);
  }

  /** With only the z delta zero, steps 12 to 14 (x and y loops in the middle) are the all-zero ones. */
  lemma CombinationZeroIffPlanarCentre(deltas: seq<int>, n: nat)
    requires |deltas| == 3 && deltas[0] != 0 && deltas[1] != 0 && deltas[2] == 0 && n < 27
    ensures Combination(deltas, n) == Zero <==> 12 <= n < 15
  {
  }

  /**
   * With a zero z delta (which a 2-D configuration may choose, since it
   * ignores z) and non-zero x and y deltas, the collection holds 24 entries,
   * the combinations in loop order with steps 12 to 14 skipped.
   */
  lemma ShiftsOfPlanarDeltas(deltas: seq<int>)
    requires |deltas| == 3 && deltas[0] != 0 && deltas[1] != 0 && deltas[2] == 0
    ensures |Shifts(deltas)| == 24
    ensures forall k :: 0 <= k < 24 ==>
      Shifts(deltas)[k] == Combination(deltas, if k < 12 then k else k + 3)
  {
    var c := Combinations(deltas);
    forall n | 0 <= n < 27 ensures c[n] == Zero <==> 12 <= n < 15 {
      CombinationZeroIffPlanarCentre(deltas, n);
    }
    assert c == c[..12] + c[12..15] + c[15..];
    NonZeroCutsRun(c[..12], c[12..15], c[15..]);
  }

  /**
   * With a zero z delta the z loop visits 0 three times, so each of the 8
   * planar moves occurs three times in a row.
   */
  lemma PlanarShiftsRepeat(deltas: seq<int>)
    requires |deltas| == 3 && deltas[0] != 0 && deltas[1] != 0 && deltas[2] == 0
    ensures |Shifts(deltas)| == 24
    ensures forall k :: 0 <= k < 8 ==>
      Shifts(deltas)[3 * k] == Shifts(deltas)[3 * k + 1] == Shifts(deltas)[3 * k + 2]
  {
    ShiftsOfPlanarDeltas(deltas);
    forall k | 0 <= k < 8
      ensures Shifts(deltas)[3 * k] == Shifts(deltas)[3 * k + 1] == Shifts(deltas)[3 * k + 2]
    {
      var m := if k < 4 then 3 * k else 3 * k + 3;
      assert m / 9 == (m + 1) / 9 == (m + 2) / 9;
      assert m / 3 % 3 == (m + 1) / 3 % 3 == (m + 2) / 3 % 3;
    }
  }

  /** With non-zero deltas the shifts are pairwise distinct. */
  lemma ShiftsDistinct(deltas: seq<int>)
    requires |deltas| == 3 && AllNonZero(deltas)
    ensures Distinct(Shifts(deltas))
  {
    ShiftsOfNonZeroDeltas(deltas);
    var s := Shifts(deltas);
    forall i, j | 0 <= i < j < |s| ensures s[i] != s[j] {
      var m, n := if i < 13 then i else i + 1, if j < 13 then j else j + 1;
      if s[i] == s[j] {
        CombinationInjective(deltas, m, n);
      }
    }
  }
}
