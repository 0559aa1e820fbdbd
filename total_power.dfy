/**
 * Power aggregation (composables/useTotalPower.ts): the installed power of
 * each crane ("grua"), the derated ("corrected") powers, the total power of
 * the installation in watts and the line current it draws.
 */
module TotalPower {
  import opened Js

  /** One service of a crane; only its kW reading is used here. */
  datatype Servicio = Servicio(kw: Value)

  /** A crane: its services in `Object.values` order, or no services object at all. */
  datatype Grua = Grua(servicios: Option<seq<Servicio>>)

  const SimultaneousMode: string := "simultanea"

  /** The derating factor applied per unit, and once more to a multi-unit sum. */
  const Derating: real := 0.8

  /** `total + xs[0] + xs[1] + ...`, accumulated from the left as `reduce` does. */
  function Sum(xs: seq<real>): real
  {
    if xs == [] then 0.0 else Sum(xs[..|xs| - 1]) + xs[|xs| - 1]
  }

  lemma {:induction false} SumAppend(a: seq<real>, b: seq<real>)
    ensures Sum(a + b) == Sum(a) + Sum(b)
  {
    if b != [] {
      assert (a + b)[..|a + b| - 1] == a + b[..|b| - 1];
      assert (a + b)[|a + b| - 1] == b[|b| - 1];
      SumAppend(a, b[..|b| - 1]);
    } else {
      assert a + b == a;
    }
  }

  lemma {:induction false} SumPositive(xs: seq<real>)
    requires forall i :: 0 <= i < |xs| ==> xs[i] > 0.0
    ensures xs != [] ==> Sum(xs) > 0.0
    ensures Sum(xs) >= 0.0
  {
    if xs != [] {
      SumPositive(xs[..|xs| - 1]);
    }
  }

  /** The sum of `n` copies of `c` is `n * c`. */
  lemma {:induction false} SumConstant(n: nat, c: real)
    ensures Sum(seq(n, _ => c)) == n as real * c
  {
    if n > 0 {
      assert seq(n, _ => c)[..n - 1] == seq(n - 1, _ => c);
      SumConstant(n - 1, c);
    }
  }

  /** What one service adds to its crane: kW * 1000 when the reading is finite, else nothing. */
  function ServicioWatts(s: Servicio): real
  {
    var kw := ToNumber(s.kw);
    if kw.Finite? then kw.v * 1000.0 else 0.0
  }

  /** The `reduce` over a crane's services. */
  function ServiciosWatts(ss: seq<Servicio>): real
  {
    if ss == [] then 0.0 else ServiciosWatts(ss[..|ss| - 1]) + ServicioWatts(ss[|ss| - 1])
  }

  /** The finite kW readings of the services, in order. */
  function FiniteKws(ss: seq<Servicio>): (kws: seq<real>)
    ensures |kws| <= |ss|
  {
    if ss == [] then []
    else
      var kw := ToNumber(ss[|ss| - 1].kw);
      FiniteKws(ss[..|ss| - 1]) + (if kw.Finite? then [kw.v] else [])
  }

  /** Summing per service equals 1000 times the sum of the finite kW readings. */
  lemma {:induction false} ServiciosWattsIsFiniteKwSum(ss: seq<Servicio>)
    ensures ServiciosWatts(ss) == 1000.0 * Sum(FiniteKws(ss))
  {
    if ss != [] {
      var init := ss[..|ss| - 1];
      var kw := ToNumber(ss[|ss| - 1].kw);
      ServiciosWattsIsFiniteKwSum(init);
      SumAppend(FiniteKws(init), if kw.Finite? then [kw.v] else []);
      assert Sum([] + [0.0]) == 0.0;
    }
  }

  lemma {:induction false} ServiciosWattsAppend(a: seq<Servicio>, b: seq<Servicio>)
    ensures ServiciosWatts(a + b) == ServiciosWatts(a) + ServiciosWatts(b)
  {
    if b != [] {
      assert (a + b)[..|a + b| - 1] == a + b[..|b| - 1];
      assert (a + b)[|a + b| - 1] == b[|b| - 1];
      ServiciosWattsAppend(a, b[..|b| - 1]);
    } else {
      assert a + b == a;
    }
  }

  /** Taking one service out of the list takes its contribution out of the sum. */
  lemma ServiciosWattsRemove(b: seq<Servicio>, j: nat)
    requires j < |b|
    ensures ServiciosWatts(b) == ServiciosWatts(b[..j] + b[j + 1..]) + ServicioWatts(b[j])
  {
    var x := b[j];
    assert b == b[..j] + ([x] + b[j + 1..]);
    ServiciosWattsAppend(b[..j], [x] + b[j + 1..]);
    ServiciosWattsAppend([x], b[j + 1..]);
    ServiciosWattsAppend(b[..j], b[j + 1..]);
    assert [x][..0] == [];
  }

  /** Removing the entry at `j` removes one occurrence of it from the multiset. */
  lemma MultisetRemoveAt<T>(b: seq<T>, j: nat)
    requires j < |b|
    ensures multiset(b[..j] + b[j + 1..]) == multiset(b) - multiset{b[j]}
  {
    assert b == b[..j] + [b[j]] + b[j + 1..];
  }

  /**
   * Two lists with the same services: the last service of the first occurs
   * at some `j` in the second, and the rest of both still match.
   */
  lemma MatchLast<T>(a: seq<T>, b: seq<T>) returns (j: nat)
    requires a != [] && multiset(a) == multiset(b)
    ensures j < |b| && b[j] == a[|a| - 1]
    ensures multiset(a[..|a| - 1]) == multiset(b[..j] + b[j + 1..])
  {
    var x := a[|a| - 1];
    assert x in multiset(a);
    assert x in multiset(b);
    j :| 0 <= j < |b| && b[j] == x;
    MultisetRemoveAt(b, j);
    MultisetRemoveAt(a, |a| - 1);
    assert a[..|a| - 1] + a[|a|..] == a[..|a| - 1];
  }

  /** The order in which `Object.values` lists the services does not matter. */
  lemma {:induction false} ServiciosWattsPermutation(a: seq<Servicio>, b: seq<Servicio>)
    requires multiset(a) == multiset(b)
    ensures ServiciosWatts(a) == ServiciosWatts(b)
  {
    if a != [] {
      var j := MatchLast(a, b);
      ServiciosWattsPermutation(a[..|a| - 1], b[..j] + b[j + 1..]);
      ServiciosWattsRemove(b, j);
    } else {
      assert |b| == |multiset(b)| == |multiset(a)| == 0;
    }
  }

  /** `getInstalledPowerWatts`: a crane's installed power in watts. */
  function InstalledPowerWatts(g: Grua): (w: real)
    ensures g.servicios.None? ==> w == 0.0
    ensures g.servicios.Some? ==> w == 1000.0 * Sum(FiniteKws(g.servicios.value))
  {
    if g.servicios.None? then 0.0
    else
      ServiciosWattsIsFiniteKwSum(g.servicios.value);
      ServiciosWatts(g.servicios.value)
  }

  /** The installed power of each crane, in crane order. */
  function GruaPowers(gruas: seq<Grua>): seq<real>
  {
    seq(|gruas|, i requires 0 <= i < |gruas| => InstalledPowerWatts(gruas[i]))
  }

  /** `filter(p => Number.isFinite(p) && p > 0)`; every real is finite here. */
  function KeepPositive(xs: seq<real>): (ys: seq<real>)
    ensures |ys| <= |xs|
    ensures forall i :: 0 <= i < |ys| ==> ys[i] > 0.0
    ensures forall y :: y in ys <==> y in xs && y > 0.0
  {
    if xs == [] then []
    else
      var x := xs[|xs| - 1];
      assert xs == xs[..|xs| - 1] + [x];
      KeepPositive(xs[..|xs| - 1]) + (if x > 0.0 then [x] else [])
  }

  /** The filter keeps order: filtering a concatenation concatenates the filtered parts. */
  lemma {:induction false} KeepPositiveAppend(a: seq<real>, b: seq<real>)
    ensures KeepPositive(a + b) == KeepPositive(a) + KeepPositive(b)
  {
    if b != [] {
      assert (a + b)[..|a + b| - 1] == a + b[..|b| - 1];
      assert (a + b)[|a + b| - 1] == b[|b| - 1];
      KeepPositiveAppend(a, b[..|b| - 1]);
    } else {
      assert a + b == a;
    }
  }

  /** A list of positive powers passes the filter unchanged. */
  lemma {:induction false} KeepPositiveAllPositive(xs: seq<real>)
    ensures (forall i :: 0 <= i < |xs| ==> xs[i] > 0.0) ==> KeepPositive(xs) == xs
  {
    if xs != [] {
      KeepPositiveAllPositive(xs[..|xs| - 1]);
    }
  }

  /** The per-machine power replaces the crane list. */
  predicate UsesPerMachinePower(mode: Value, perMachineKw: Value)
  {
    var kw := ToNumber(perMachineKw);
    IsString(mode, SimultaneousMode) && kw.Finite? && kw.v > 0.0
  }

  /** `Array.from({ length: n })` makes `n` entries, none for a negative `n`. */
  function ArrayLength(n: int): nat
  {
    if n > 0 then n else 0
  }

  /** `getInstalledPowersWatts`: the installed power of each unit, in watts. */
  function InstalledPowersWatts(mode: Value, perMachineKw: Value, gruas: seq<Grua>, gruasCount: int)
    : (ps: seq<real>)
    ensures forall i :: 0 <= i < |ps| ==> ps[i] > 0.0
    ensures UsesPerMachinePower(mode, perMachineKw) ==>
      && |ps| == ArrayLength(gruasCount)
      && forall i :: 0 <= i < |ps| ==> ps[i] == ToNumber(perMachineKw).v * 1000.0
    ensures !UsesPerMachinePower(mode, perMachineKw) ==>
      && |ps| <= |gruas|
      && forall p :: p in ps <==> p in GruaPowers(gruas) && p > 0.0
    ensures !UsesPerMachinePower(mode, perMachineKw)
      && (forall i :: 0 <= i < |gruas| ==> InstalledPowerWatts(gruas[i]) > 0.0)
      ==> ps == GruaPowers(gruas)
  {
    if UsesPerMachinePower(mode, perMachineKw) then
      var w := ToNumber(perMachineKw).v * 1000.0;
      seq(ArrayLength(gruasCount), _ => w)
    else
      KeepPositiveAllPositive(GruaPowers(gruas));
      KeepPositive(GruaPowers(gruas))
  }

  /** In crane mode the installed list of a concatenation of crane lists is the concatenation. */
  lemma InstalledPowersKeepCraneOrder(mode: Value, perMachineKw: Value, a: seq<Grua>, b: seq<Grua>, n: int)
    requires !UsesPerMachinePower(mode, perMachineKw)
    ensures InstalledPowersWatts(mode, perMachineKw, a + b, n)
         == InstalledPowersWatts(mode, perMachineKw, a, n) + InstalledPowersWatts(mode, perMachineKw, b, n)
  {
    assert GruaPowers(a + b) == GruaPowers(a) + GruaPowers(b);
    KeepPositiveAppend(GruaPowers(a), GruaPowers(b));
  }

  /** `getCorrectedPowersWatts`: each unit derated once, in the same order. */
  function CorrectedPowersWatts(ps: seq<real>): (cs: seq<real>)
    ensures |cs| == |ps|
    ensures forall i :: 0 <= i < |ps| ==> (cs[i] > 0.0 <==> ps[i] > 0.0)
    ensures forall i :: 0 <= i < |ps| && ps[i] > 0.0 ==> cs[i] < ps[i]
  {
    seq(|ps|, i requires 0 <= i < |ps| => Derating * ps[i])
  }

  /** Derating every unit derates the sum. */
  lemma {:induction false} SumCorrected(ps: seq<real>)
    ensures |CorrectedPowersWatts(ps)| == |ps|
    ensures Sum(CorrectedPowersWatts(ps)) == Derating * Sum(ps)
  {
    if ps != [] {
      assert CorrectedPowersWatts(ps)[..|ps| - 1] == CorrectedPowersWatts(ps[..|ps| - 1]);
      SumCorrected(ps[..|ps| - 1]);
    }
  }

  /** `calculateTotalPowerWatts`: the installation's total corrected power in watts. */
  function TotalPowerWatts(mode: Value, perMachineKw: Value, gruas: seq<Grua>, gruasCount: int)
    : (w: real)
    ensures w >= 0.0
    ensures var ps := InstalledPowersWatts(mode, perMachineKw, gruas, gruasCount);
      && (ps == [] ==> w == 0.0)
      && (|ps| == 1 ==> w == Derating * ps[0])
      && (|ps| >= 2 ==> w == Derating * Derating * Sum(ps))
  {
    var installed := InstalledPowersWatts(mode, perMachineKw, gruas, gruasCount);
    if |installed| == 0 then 0.0
    else
      var corrected := CorrectedPowersWatts(installed);
      if |corrected| == 1 then corrected[0]
      else
        SumCorrected(installed);
        SumPositive(installed);
        Derating * Sum(corrected)
  }

  /** In per-machine mode the total is the per-machine power times the unit count, derated. */
  lemma PerMachineTotal(mode: Value, perMachineKw: Value, gruas: seq<Grua>, gruasCount: int)
    requires UsesPerMachinePower(mode, perMachineKw)
    ensures var kw := ToNumber(perMachineKw).v;
      && (gruasCount <= 0 ==> TotalPowerWatts(mode, perMachineKw, gruas, gruasCount) == 0.0)
      && (gruasCount == 1 ==> TotalPowerWatts(mode, perMachineKw, gruas, gruasCount) == 800.0 * kw)
      && (gruasCount >= 2 ==>
            TotalPowerWatts(mode, perMachineKw, gruas, gruasCount) == 640.0 * gruasCount as real * kw)
  {
    var w := ToNumber(perMachineKw).v * 1000.0;
    var ps := InstalledPowersWatts(mode, perMachineKw, gruas, gruasCount);
    assert ps == seq(ArrayLength(gruasCount), _ => w);
    SumConstant(ArrayLength(gruasCount), w);
  }

  /** A crane whose one service reads 30 kW installs 30000 W. */
  lemma CraneOf30Kw()
    ensures InstalledPowerWatts(Grua(Some([Servicio(Number(Finite(30.0)))]))) == 30000.0
  {
    var ss := [Servicio(Number(Finite(30.0)))];
    assert ss[..0] == [];
    assert FiniteKws(ss) == [30.0];
    assert Sum([30.0]) == 30.0 by { assert [30.0][..0] == []; }
  }

  /** One crane with one 30 kW service gives 24000 W: one derating only. */
  lemma OneCraneOf30Kw(mode: Value)
    ensures TotalPowerWatts(mode, Null, [Grua(Some([Servicio(Number(Finite(30.0)))]))], 1) == 24000.0
  {
    var g := Grua(Some([Servicio(Number(Finite(30.0)))]));
    var ps := InstalledPowersWatts(mode, Null, [g], 1);
    OneCraneInstalled(mode);
    assert |ps| == 1 && ps[0] == 30000.0;
  }

  lemma OneCraneInstalled(mode: Value)
    ensures var g := Grua(Some([Servicio(Number(Finite(30.0)))]));
      InstalledPowersWatts(mode, Null, [g], 1) == [30000.0]
  {
    var g := Grua(Some([Servicio(Number(Finite(30.0)))]));
    CraneOf30Kw();
    assert !UsesPerMachinePower(mode, Null);
    assert forall i :: 0 <= i < |[g]| ==> InstalledPowerWatts([g][i]) > 0.0;
    assert InstalledPowersWatts(mode, Null, [g], 1) == GruaPowers([g]);
    assert GruaPowers([g]) == [30000.0];
  }

  /** Two cranes of 30 kW each give 0.8 * (24000 + 24000) = 38400 W. */
  lemma TwoCranesOf30Kw(mode: Value)
    ensures var g := Grua(Some([Servicio(Number(Finite(30.0)))]));
      TotalPowerWatts(mode, Null, [g, g], 2) == 38400.0
  {
    var g := Grua(Some([Servicio(Number(Finite(30.0)))]));
    var ps := InstalledPowersWatts(mode, Null, [g, g], 2);
    TwoCranesInstalled(mode);
    SumPair(30000.0, 30000.0);
    assert Sum(ps) == 60000.0;
  }

  lemma SumPair(x: real, y: real)
    ensures Sum([x, y]) == x + y
  {
    assert Sum([x]) == x by {
      assert [x][..0] == [];
    }
    assert [x, y][..1] == [x];
  }

  lemma TwoCranesInstalled(mode: Value)
    ensures var g := Grua(Some([Servicio(Number(Finite(30.0)))]));
      InstalledPowersWatts(mode, Null, [g, g], 2) == [30000.0, 30000.0]
  {
    var g := Grua(Some([Servicio(Number(Finite(30.0)))]));
    CraneOf30Kw();
    assert !UsesPerMachinePower(mode, Null);
    assert forall i :: 0 <= i < |[g, g]| ==> InstalledPowerWatts([g, g][i]) > 0.0;
    assert InstalledPowersWatts(mode, Null, [g, g], 2) == GruaPowers([g, g]);
    assert GruaPowers([g, g]) == [30000.0, 30000.0];
  }

  /** `totalPowerAmps`: the line current of the total power, to two decimals. */
  function TotalPowerAmps(voltage: Value, totalWatts: real): (a: real)
    ensures var v := ToNumber(voltage);
      && (!(v.Finite? && v.v > 0.0) ==> a == 0.0)
      && (v.Finite? && v.v > 0.0 ==> -0.005 <= a - totalWatts / (Sqrt3 * v.v * Derating) <= 0.005)
    ensures totalWatts >= 0.0 ==> a >= 0.0
  {
    var v := ToNumber(voltage);
    if !v.Finite? || v.v <= 0.0 then 0.0
    else
      assert Sqrt3 * v.v * Derating > 0.0;
      Round2(totalWatts / (Sqrt3 * v.v * Derating))
  }
}
