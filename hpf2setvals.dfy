// The control of the sliding filter (HPF2SetVals.c): the gate voltage
// decided by the gain control is turned into a voltage across the FET,
// clamped to the FET's control range, and looked up in three tables (input
// attenuation, filter alpha, output attenuation) with linear interpolation
// between neighbouring entries. The tables themselves are built in
// floating point at start-up and are given here.

module HPF2SetVals {
  import opened CInt
  import opened Params

  /** The three values one channel's sliding filter runs with. */
  datatype Vals = Vals(Pot: int, Alp: int, FPt: int)

  /** x lies between a and b, whichever is larger. */
  predicate Between(x: int, a: int, b: int)
  {
    (a <= x <= b) || (b <= x <= a)
  }

  /** HPF2SetValsTabPos: the table position of a voltage, converted to an
    * unsigned 16-bit value as the C code does. */
  function TabPos(v: int, tabRes: int): (r: int)
    requires v >= 0 && tabRes > 0
    ensures 0 <= r < 0x1_0000
    ensures Div(v, tabRes) < 0x1_0000 ==> r == Div(v, tabRes)
  {
    DivSign(v, tabRes);
    Div(v, tabRes) % 0x1_0000
  }

  /** A larger resolution never gives a larger position: raising TabRes
    * while the top of the range is below TableSize (the first adjustment
    * loop of HPF2SetValsTableRes) moves the position further from
    * TableSize. */
  lemma RaisingResLowersPos(maxVlt: int, tabRes: int)
    requires maxVlt >= 0 && tabRes > 0
    requires Div(maxVlt, tabRes) < HPF2SetValsTableSize
    ensures TabPos(maxVlt, tabRes + 1) <= TabPos(maxVlt, tabRes) < HPF2SetValsTableSize
  {
    DivAntitone(maxVlt, tabRes, tabRes + 1);
    DivSign(maxVlt, tabRes + 1);
  }

  /** A smaller resolution never gives a smaller position while the
    * quotient still fits the uint16 cast: lowering TabRes while the top of
    * the range is above TableSize (the second adjustment loop) moves the
    * position further from TableSize. Once the quotient passes 65535 the
    * cast wraps and the position drops. */
  lemma LoweringResRaisesPos(maxVlt: int, tabRes: int)
    requires maxVlt >= 0 && tabRes > 1
    requires TabPos(maxVlt, tabRes) > HPF2SetValsTableSize
    requires Div(maxVlt, tabRes - 1) < 0x1_0000
    ensures TabPos(maxVlt, tabRes - 1) >= TabPos(maxVlt, tabRes) > HPF2SetValsTableSize
  {
    DivAntitone(maxVlt, tabRes - 1, tabRes);
    DivSign(maxVlt, tabRes);
  }

  /** The first estimate MaxVlt / TableSize, when it is at least 1, puts
    * the top of the range at a position from TableSize to just below
    * twice TableSize, so the first adjustment loop is never entered. */
  lemma FirstEstimatePos(maxVlt: int)
    requires maxVlt >= HPF2SetValsTableSize
    ensures var r0 := Div(maxVlt, HPF2SetValsTableSize);
            && r0 >= 1
            && HPF2SetValsTableSize <= TabPos(maxVlt, r0) < 2 * HPF2SetValsTableSize
  {
    var r0 := Div(maxVlt, HPF2SetValsTableSize);
    DivBounds(maxVlt, HPF2SetValsTableSize);
    DivMonotone(HPF2SetValsTableSize, maxVlt, HPF2SetValsTableSize);
    DivExact(1, HPF2SetValsTableSize);
    DivBounds(maxVlt, r0);
    var q := Div(maxVlt, r0);
    if q < HPF2SetValsTableSize {
      assert false;
    }
    if q >= 2 * HPF2SetValsTableSize {
      assert false;
    }
  }

  /** HPF2SetValsTableRes when its first estimate MaxVlt / TableSize already
    * puts the top of the range at position TableSize, so that neither
    * adjustment loop runs. The first loop never runs (FirstEstimatePos);
    * the second, when it runs, lowers the resolution until the uint16
    * position wraps to TableSize or less, leaving a resolution that does
    * not map MaxVlt to the last position, or until it divides by a zero
    * resolution. */
  function TableRes(maxVlt: int): (r: int)
    requires maxVlt >= HPF2SetValsTableSize
    requires Div(maxVlt, Div(maxVlt, HPF2SetValsTableSize)) == HPF2SetValsTableSize
    ensures r > 0 && TabPos(maxVlt, r) == HPF2SetValsTableSize
    ensures Div(maxVlt, r) == HPF2SetValsTableSize
  {
    DivMonotone(HPF2SetValsTableSize, maxVlt, HPF2SetValsTableSize);
    DivExact(1, HPF2SetValsTableSize);
    Div(maxVlt, HPF2SetValsTableSize)
  }

  /** The library's control range, VltMux * -VgsOff = 4 V, meets that
    * condition: 4000000 nanovolts per table step. */
  lemma LibraryTableRes()
    ensures -VgsOffNano >= HPF2SetValsTableSize
    ensures Div(-VgsOffNano, Div(-VgsOffNano, HPF2SetValsTableSize)) == HPF2SetValsTableSize
    ensures TableRes(-VgsOffNano) == 4_000_000
  {
    DivExact(4_000_000, HPF2SetValsTableSize);
    DivExact(HPF2SetValsTableSize, 4_000_000);
  }

  /** The voltage across the FET, FETSVt - FETGVt - SetGateOut, clamped to
    * [0, MaxVlt]. */
  function VltDif(c: Config, gateOut: int): (r: int)
    requires c.Valid()
    ensures 0 <= r <= c.HPF2SetValsMaxVlt
    ensures var raw := c.FETSVt - c.FETGVt - gateOut;
            (raw < 0 ==> r == 0) && (raw > c.HPF2SetValsMaxVlt ==> r == c.HPF2SetValsMaxVlt)
            && (0 <= raw <= c.HPF2SetValsMaxVlt ==> r == raw)
  {
    var raw := c.FETSVt - c.FETGVt - gateOut;
    var v := if raw < 0 then 0 else raw;
    if v > c.HPF2SetValsMaxVlt then c.HPF2SetValsMaxVlt else v
  }

  /** The table position of a clamped voltage indexes the TableSize + 1
    * entry tables: the 16-bit conversion never wraps. */
  function Pos(c: Config, v: int): (p: int)
    requires c.Valid() && 0 <= v <= c.HPF2SetValsMaxVlt
    ensures 0 <= p <= HPF2SetValsTableSize
    ensures p == Div(v, c.HPF2SetValsTabRes)
  {
    DivMonotone(v, c.HPF2SetValsMaxVlt, c.HPF2SetValsTabRes);
    DivSign(v, c.HPF2SetValsTabRes);
    TabPos(v, c.HPF2SetValsTabRes)
  }

  /** The next table position, or the last one at the top of the table. */
  function NextPos(p: int): (n: int)
    requires 0 <= p <= HPF2SetValsTableSize
    ensures p <= n <= HPF2SetValsTableSize && n <= p + 1
    ensures p < HPF2SetValsTableSize ==> n == p + 1
  {
    if p < HPF2SetValsTableSize then p + 1 else HPF2SetValsTableSize
  }

  /** The part of the voltage beyond its table position's voltage is
    * smaller than one table step. */
  function Offset(c: Config, v: int): (d: int)
    requires c.Valid() && 0 <= v <= c.HPF2SetValsMaxVlt
    ensures 0 <= d < c.HPF2SetValsTabRes
    ensures v == Pos(c, v) * c.HPF2SetValsTabRes + d
  {
    v - Pos(c, v) * c.HPF2SetValsTabRes
  }

  /** Linear interpolation between two entries, truncated toward zero, by a
    * fraction off / res of the step; the result never leaves the segment. */
  function Interp(lo: int, hi: int, off: int, res: int): (r: int)
    requires 0 <= off < res
    ensures Between(r, lo, hi)
    ensures off == 0 ==> r == lo
  {
    ScaleBetween(hi - lo, off, res);
    assert off * (hi - lo) == (hi - lo) * off;
    lo + Div(off * (hi - lo), res)
  }

  /** Interpolate one table at a clamped voltage. */
  function Lookup(c: Config, tab: seq<int>, v: int): (r: int)
    requires c.Valid() && 0 <= v <= c.HPF2SetValsMaxVlt
    requires |tab| == HPF2SetValsTableSize + 1
    ensures Between(r, tab[Pos(c, v)], tab[NextPos(Pos(c, v))])
  {
    var p := Pos(c, v);
    Interp(tab[p], tab[NextPos(p)], Offset(c, v), c.HPF2SetValsTabRes)
  }

  /** HPF2SetVals: every value lies between the two table entries that
    * bracket the clamped voltage, and equals the lower one when the
    * voltage falls exactly on a table position. */
  function SetVals(c: Config, gateOut: int): (r: Vals)
    requires c.Valid()
    ensures var v := VltDif(c, gateOut);
            var p := Pos(c, v);
            var n := NextPos(p);
            && Between(r.Pot, c.HPF2SetValsPotTab[p], c.HPF2SetValsPotTab[n])
            && Between(r.Alp, c.HPF2SetValsAlpTab[p], c.HPF2SetValsAlpTab[n])
            && Between(r.FPt, c.HPF2SetValsFLTATb[p], c.HPF2SetValsFLTATb[n])
            && (Offset(c, v) == 0 ==>
                  r == Vals(c.HPF2SetValsPotTab[p], c.HPF2SetValsAlpTab[p], c.HPF2SetValsFLTATb[p]))
  {
    var v := VltDif(c, gateOut);
    Vals(Lookup(c, c.HPF2SetValsPotTab, v), Lookup(c, c.HPF2SetValsAlpTab, v),
         Lookup(c, c.HPF2SetValsFLTATb, v))
  }

  /** With an alpha table of fractions of the multiplier, the filter's
    * alpha is a fraction of the multiplier too. */
  lemma AlpIsFraction(c: Config, gateOut: int)
    requires c.Valid() && c.Shaped()
    ensures 0 <= SetVals(c, gateOut).Alp <= c.HPF2SetValsAlpMux
  {
    var p := Pos(c, VltDif(c, gateOut));
    assert 0 <= c.HPF2SetValsAlpTab[p] <= c.HPF2SetValsAlpMux;
    assert 0 <= c.HPF2SetValsAlpTab[NextPos(p)] <= c.HPF2SetValsAlpMux;
  }

  predicate Sorted(tab: seq<int>)
  {
    forall i, j :: 0 <= i <= j < |tab| ==> tab[i] <= tab[j]
  }

  /** Interpolating a non-decreasing table is non-decreasing in the
    * voltage, across table positions as well as within one step. */
  lemma {:induction false} LookupMonotone(c: Config, tab: seq<int>, v: int, v': int)
    requires c.Valid() && |tab| == HPF2SetValsTableSize + 1 && Sorted(tab)
    requires 0 <= v <= v' <= c.HPF2SetValsMaxVlt
    ensures Lookup(c, tab, v) <= Lookup(c, tab, v')
  {
    var res := c.HPF2SetValsTabRes;
    var p, p' := Pos(c, v), Pos(c, v');
    DivMonotone(v, v', res);
    if p == p' {
      var lo, hi := tab[p], tab[NextPos(p)];
      assert lo <= hi;
      DivMonotone(Offset(c, v) * (hi - lo), Offset(c, v') * (hi - lo), res)
        by { assert Offset(c, v') - Offset(c, v) == v' - v;
             assert Offset(c, v') * (hi - lo) - Offset(c, v) * (hi - lo) == (v' - v) * (hi - lo);
             MulNonneg(v' - v, hi - lo); }
    } else {
      assert p < p' && NextPos(p) == p + 1 <= p';
      assert Lookup(c, tab, v) <= tab[p + 1];
      assert tab[p + 1] <= tab[p'];
      assert tab[p'] <= Lookup(c, tab, v');
    }
  }

  /** The largest of 0 and the first n values of s: the entry the alpha
    * table holds at position n - 1. */
  function RunMax(s: seq<int>, n: nat): (m: int)
    requires n <= |s|
    ensures m >= 0
    ensures n > 0 ==> s[n - 1] <= m
  {
    if n == 0 then 0
    else
      var m := RunMax(s, n - 1);
      if s[n - 1] > m then s[n - 1] else m
  }

  /** HPF2SetValsMakeAlpTable's pass over the alpha values the floating
    * point model gives: each entry is raised to the one before it,
    * starting from 0, so each entry is the largest of 0 and the values up
    * to it; the table is non-negative and non-decreasing and never lies
    * below the given value. */
  method MakeAlpTable(raw: seq<int>) returns (tab: seq<int>)
    ensures |tab| == |raw|
    ensures forall i :: 0 <= i < |tab| ==> tab[i] == RunMax(raw, i + 1)
    ensures Sorted(tab)
    ensures forall i :: 0 <= i < |tab| ==> 0 <= tab[i] && raw[i] <= tab[i]
  {
    var prvAlp := 0;
    tab := [];
    var tabCnt := 0;
    while tabCnt < |raw|
      invariant 0 <= tabCnt <= |raw| && |tab| == tabCnt
      invariant prvAlp == RunMax(raw, tabCnt)
      invariant forall i :: 0 <= i < |tab| ==> tab[i] == RunMax(raw, i + 1)
    {
      var alpVal := raw[tabCnt];
      if alpVal < prvAlp {
        alpVal := prvAlp;
      }
      assert alpVal == RunMax(raw, tabCnt + 1);
      prvAlp := alpVal;
      tab := tab + [alpVal];
      tabCnt := tabCnt + 1;
    }
    forall i, j | 0 <= i <= j < |tab|
      ensures tab[i] <= tab[j]
    {
      RunMaxGrows(raw, i + 1, j + 1);
    }
  }

  /** The running maximum never falls as more values are taken in. */
  lemma {:induction false} RunMaxGrows(s: seq<int>, m: nat, n: nat)
    requires m <= n <= |s|
    ensures RunMax(s, m) <= RunMax(s, n)
  {
    if m < n {
      RunMaxGrows(s, m, n - 1);
    }
  }

  /** An already non-decreasing, non-negative list of alpha values comes
    * through HPF2SetValsMakeAlpTable unchanged. */
  lemma {:induction false} SortedUnchanged(raw: seq<int>, n: nat)
    requires Sorted(raw) && n <= |raw| && (|raw| > 0 ==> raw[0] >= 0)
    ensures n > 0 ==> RunMax(raw, n) == raw[n - 1]
  {
    if n > 1 {
      SortedUnchanged(raw, n - 1);
    }
  }
}
