/** `net_position`: one signed fill applied to a position, and the laws every run of fills obeys. */
module Positions {
  import opened Numbers

  datatype Pos = Pos(qty: int, avg: real)

  const FLAT := Pos(0, 0.0)

  datatype Fill = Fill(signed: int, price: real)

  function AbsInt(n: int): nat { if n >= 0 then n else -n }

  function NetPosition(was: Pos, signed: int, price: real): Pos {
    var n := was.qty + signed;
    if n == 0 then FLAT
    else if was.qty == 0 || (was.qty > 0) == (signed > 0) then
      var total := Times(AbsInt(was.qty), was.avg) + Times(AbsInt(signed), price);
      Pos(n, total / AbsInt(n) as real)
    else if (was.qty > 0) != (n > 0) then Pos(n, price)
    else Pos(n, was.avg)
  }

  /** The position stored under a key; an absent one is flat. */
  function PositionAt<K>(positions: map<K, Pos>, k: K): Pos {
    if k in positions then positions[k] else FLAT
  }

  /** Storing a flat position deletes its entry. */
  function Upsert<K>(positions: map<K, Pos>, k: K, p: Pos): map<K, Pos> {
    if p.qty == 0 then positions - {k} else positions[k := p]
  }

  /** A flat position carries no basis. Every position the code stores is normal. */
  predicate Normal(p: Pos) { p.qty == 0 ==> p.avg == 0.0 }

  function Apply(p: Pos, fills: seq<Fill>): Pos {
    if fills == [] then p
    else NetPosition(Apply(p, fills[..|fills| - 1]), fills[|fills| - 1].signed, fills[|fills| - 1].price)
  }

  /** Cost basis: what the open quantity was entered for. */
  function Basis(p: Pos): real { Times(p.qty, p.avg) }

  /** Quantity a fill closes, with the sign of the position it closes. */
  function Closed(p: Pos, signed: int): int {
    if p.qty == 0 || (p.qty > 0) == (signed > 0) then 0
    else if AbsInt(signed) <= AbsInt(p.qty) then -signed else p.qty
  }

  /** Gain a fill realises: the closed quantity times (price - average). */
  function Realised(p: Pos, signed: int, price: real): real {
    Times(Closed(p, signed), price - p.avg)
  }

  // ---- one fill ----

  lemma TimesDiv(x: real, n: int)
    requires n != 0
    ensures Times(n, x / n as real) == x
  {
  }

  lemma TimesCancel(n: int, x: real, y: real)
    requires n != 0 && Times(n, x) == Times(n, y)
    ensures x == y
  {
    hide Times;
    if x < y { TimesMono(n, x, y); }
    if y < x { TimesMono(n, y, x); }
  }

  lemma TimesNeg(n: int, x: real)
    ensures Times(-n, x) == -Times(n, x) && Times(0, x) == 0.0
  {
    hide Mul;
    MulNeg(n as real, x);
    MulUnit(x);
  }

  lemma TimesSub(n: int, x: real, y: real)
    ensures Times(n, x - y) == Times(n, x) - Times(n, y)
  {
    hide Mul;
    MulAdd(x - y, y, n as real);
  }

  predicate Adds(p: Pos, signed: int) { p.qty == 0 || (p.qty > 0) == (signed > 0) }

  /** In the averaging case the basis grows by what the fill cost. */
  lemma AddBasis(p: Pos, signed: int, price: real)
    requires Adds(p, signed) && Normal(p)
    ensures Basis(NetPosition(p, signed, price)) == Basis(p) + Times(signed, price)
  {
    hide Times;
    var n := p.qty + signed;
    TimesNeg(p.qty, p.avg);
    TimesNeg(signed, price);
    TimesNeg(n, NetPosition(p, signed, price).avg);
    TimesNeg(0, 0.0);
    if n != 0 {
      TimesDiv(Times(AbsInt(p.qty), p.avg) + Times(AbsInt(signed), price), AbsInt(n));
    }
  }

  /** Conservation across adds, partial closes, flats and crossings: the new basis is the old one, plus
      what the fill paid, plus what it realised. */
  lemma FillConserves(p: Pos, signed: int, price: real)
    requires Normal(p)
    ensures Normal(NetPosition(p, signed, price))
    ensures Basis(NetPosition(p, signed, price)) == Basis(p) + Times(signed, price) + Realised(p, signed, price)
  {
    hide Times;
    if Adds(p, signed) {
      AddBasis(p, signed, price);
      TimesNeg(0, price - p.avg);
    } else {
      var n, c := p.qty + signed, Closed(p, signed);
      TimesSub(c, price, p.avg);
      TimesNeg(0, 0.0);
      if n == 0 || (p.qty > 0) != (n > 0) {
        assert c == p.qty;
        TimesAdd(p.qty, signed, price);
        TimesNeg(0, price);
      } else {
        assert c == -signed;
        TimesNeg(signed, price);
        TimesNeg(signed, p.avg);
        TimesAdd(p.qty, signed, p.avg);
      }
    }
  }

  lemma {:induction false} ApplyNormal(p: Pos, fills: seq<Fill>)
    requires Normal(p)
    ensures Normal(Apply(p, fills))
  {
    if fills != [] {
      var n := |fills| - 1;
      ApplyNormal(p, fills[..n]);
      FillConserves(Apply(p, fills[..n]), fills[n].signed, fills[n].price);
    }
  }

  // ---- splitting a fill ----

  predicate SameDirection(a: int, b: int) { (a >= 0 && b >= 0) || (a <= 0 && b <= 0) }

  lemma ZeroFill(p: Pos, price: real)
    requires Normal(p)
    ensures NetPosition(p, 0, price) == p
  {
    hide Times;
    if p.qty != 0 && Adds(p, 0) {
      AddBasis(p, 0, price);
      TimesNeg(0, price);
      TimesCancel(p.qty, NetPosition(p, 0, price).avg, p.avg);
    }
  }

  /** Opening, or adding at the average's own price, leaves the average at the fill price. */
  lemma AddAtPrice(p: Pos, signed: int, price: real)
    requires Adds(p, signed) && Normal(p) && signed != 0 && (p.qty != 0 ==> p.avg == price)
    ensures NetPosition(p, signed, price) == Pos(p.qty + signed, price)
  {
    hide Times;
    var n := p.qty + signed;
    AddBasis(p, signed, price);
    TimesNeg(0, p.avg);
    TimesAdd(p.qty, signed, price);
    TimesNeg(0, price);
    TimesCancel(n, NetPosition(p, signed, price).avg, price);
  }

  /** Two same-direction fills at one price are one fill of their sum, even when the split lands on zero or
      crosses it. */
  lemma FillSplit(p: Pos, a: int, b: int, price: real)
    requires Normal(p) && SameDirection(a, b)
    ensures NetPosition(NetPosition(p, a, price), b, price) == NetPosition(p, a + b, price)
  {
    hide Times;
    var q := NetPosition(p, a, price);
    FillConserves(p, a, price);
    if a == 0 {
      ZeroFill(p, price);
    } else if b == 0 {
      ZeroFill(q, price);
    } else if Adds(p, a) {
      AddBasis(p, a, price);
      AddBasis(q, b, price);
      AddBasis(p, a + b, price);
      TimesAdd(a, b, price);
      TimesCancel(p.qty + a + b, NetPosition(q, b, price).avg, NetPosition(p, a + b, price).avg);
    } else if Adds(q, b) {
      AddAtPrice(q, b, price);
    }
  }

  function SumQty(parts: seq<int>): int {
    if parts == [] then 0 else SumQty(parts[..|parts| - 1]) + parts[|parts| - 1]
  }

  function AtPrice(parts: seq<int>, price: real): seq<Fill> {
    seq(|parts|, i requires 0 <= i < |parts| => Fill(parts[i], price))
  }

  /** Any list of same-direction fills at one price gives the position of a single fill of their sum. */
  lemma {:induction false} FillSplitting(p: Pos, parts: seq<int>, price: real)
    requires Normal(p)
    requires (forall i :: 0 <= i < |parts| ==> parts[i] >= 0) || (forall i :: 0 <= i < |parts| ==> parts[i] <= 0)
    ensures Apply(p, AtPrice(parts, price)) == NetPosition(p, SumQty(parts), price)
    ensures (forall i :: 0 <= i < |parts| ==> parts[i] >= 0) ==> SumQty(parts) >= 0
    ensures (forall i :: 0 <= i < |parts| ==> parts[i] <= 0) ==> SumQty(parts) <= 0
  {
    hide Times;
    if parts == [] {
      ZeroFill(p, price);
    } else {
      var n := |parts| - 1;
      FillSplitting(p, parts[..n], price);
      assert AtPrice(parts, price)[..n] == AtPrice(parts[..n], price);
      FillSplit(p, SumQty(parts[..n]), parts[n], price);
    }
  }

  // ---- where the average can lie ----

  /** Index of the fill that opened the current position or carried it through zero. */
  function OpenedAt(fills: seq<Fill>): (k: nat)
    ensures fills != [] ==> k < |fills|
  {
    if |fills| <= 1 then 0
    else
      var n := |fills| - 1;
      var was, now := Apply(FLAT, fills[..n]), Apply(FLAT, fills);
      if was.qty == 0 || (was.qty > 0) != (now.qty > 0) then n else OpenedAt(fills[..n])
  }

  lemma AverageOfTwo(p: Pos, signed: int, price: real, lo: real, hi: real)
    requires Adds(p, signed) && p.qty != 0 && lo <= p.avg <= hi && lo <= price <= hi
    ensures lo <= NetPosition(p, signed, price).avg <= hi
  {
    hide Mul;
    var a, b, n := AbsInt(p.qty), AbsInt(signed), AbsInt(p.qty + signed);
    assert n == a + b;
    TimesMono(a, lo, p.avg);
    TimesMono(a, p.avg, hi);
    TimesMono(b, lo, price);
    TimesMono(b, price, hi);
    TimesAdd(a, b, lo);
    TimesAdd(a, b, hi);
    var total := Times(a, p.avg) + Times(b, price);
    QuotientBounds(total, n, lo, hi);
  }

  lemma QuotientBounds(total: real, n: int, lo: real, hi: real)
    requires n > 0 && Times(n, lo) <= total <= Times(n, hi)
    ensures lo <= total / n as real <= hi
  {
    hide Mul;
    var q := total / n as real;
    TimesDiv(total, n);
    if q < lo { TimesMono(n, q, lo); TimesCancelStrict(n, q, lo); }
    if q > hi { TimesMono(n, hi, q); TimesCancelStrict(n, hi, q); }
  }

  lemma TimesCancelStrict(n: int, x: real, y: real)
    requires n > 0 && x < y
    ensures Times(n, x) < Times(n, y)
  {
    hide Times;
    TimesMono(n, x, y);
  }

  /** Fill i opened the current position, carried it through zero, or added to it since. */
  predicate SetsAverage(fills: seq<Fill>, i: nat)
    requires i < |fills|
  {
    i >= OpenedAt(fills) && (i == OpenedAt(fills) || Adds(Apply(FLAT, fills[..i]), fills[i].signed))
  }

  /** An open position's average lies between any bounds on the prices of the fills that opened or added to
      it. Closing fills, at whatever price, do not move it. */
  lemma {:induction false} AverageWithinFills(fills: seq<Fill>, lo: real, hi: real)
    requires Apply(FLAT, fills).qty != 0
    requires forall i :: 0 <= i < |fills| && SetsAverage(fills, i) ==> lo <= fills[i].price <= hi
    ensures lo <= Apply(FLAT, fills).avg <= hi
  {
    hide Times;
    var n := |fills| - 1;
    var was, f := Apply(FLAT, fills[..n]), fills[n];
    ApplyNormal(FLAT, fills[..n]);
    assert OpenedAt(fills) == n || Adds(was, f.signed) ==> SetsAverage(fills, n);
    if was.qty == 0 {
      AddAtPrice(was, f.signed, f.price);
    } else if (was.qty > 0) == (Apply(FLAT, fills).qty > 0) {
      forall i | 0 <= i < n && SetsAverage(fills[..n], i) ensures lo <= fills[..n][i].price <= hi {
        assert fills[..n][..i] == fills[..i];
        assert SetsAverage(fills, i);
      }
      AverageWithinFills(fills[..n], lo, hi);
      if Adds(was, f.signed) { AverageOfTwo(was, f.signed, f.price, lo, hi); }
    }
  }
}
