/** Strategies relative to a spot and a date, and their re-instantiation at a roll. */
module Template {
  import opened Wrappers
  import opened Numbers
  import opened Strategy

  datatype RelativeLeg =
    | RelOption(side: Side, qty: int, optionType: OptionType, moneyness: real, dte: int)
    | RelEquity(side: Side, qty: int)
    | RelCash(amount: real)

  datatype RelativeTemplate = RelativeTemplate(legs: seq<RelativeLeg>, cycleDte: int)

  datatype TemplateError = BadRefSpot | LegExpired | NoOptionLegs

  /** Python's round: to the nearest integer, ties to even. */
  function Round(x: real): int {
    var n := x.Floor;
    var d := x - n as real;
    if d < 0.5 then n else if d > 0.5 then n + 1 else if n % 2 == 0 then n else n + 1
  }

  function RelativeOf(leg: Leg, refSpot: real, refDate: int): RelativeLeg
    requires refSpot > 0.0
  {
    match leg
    case OptionLeg(kind, side, strike, expiry, qty, _) => RelOption(side, qty, kind, strike / refSpot, expiry - refDate)
    case EquityLeg(side, qty, _) => RelEquity(side, qty)
    case CashLeg(amount) => RelCash(amount)
  }

  predicate Expired(leg: Leg, refDate: int) { leg.OptionLeg? && leg.expiry - refDate <= 0 }

  /** The template of a configuration: what it holds and when it is refused. */
  ghost predicate IsTemplateOf(t: RelativeTemplate, legs: seq<Leg>, refSpot: real, refDate: int)
    requires refSpot > 0.0
  {
    && |t.legs| == |legs|
    && (forall i :: 0 <= i < |legs| ==> t.legs[i] == RelativeOf(legs[i], refSpot, refDate))
    && (forall i :: 0 <= i < |legs| ==> !Expired(legs[i], refDate))
    && (forall i :: 0 <= i < |legs| && legs[i].OptionLeg? ==> t.cycleDte <= legs[i].expiry - refDate)
    && (exists i :: 0 <= i < |legs| && legs[i].OptionLeg? && t.cycleDte == legs[i].expiry - refDate)
  }

  method FromConfig(legs: seq<Leg>, refSpot: real, refDate: int) returns (r: Result<RelativeTemplate, TemplateError>)
    ensures r == Err(BadRefSpot) <==> refSpot <= 0.0
    ensures r == Err(LegExpired) <==> refSpot > 0.0 && exists i :: 0 <= i < |legs| && Expired(legs[i], refDate)
    ensures r == Err(NoOptionLegs) <==> refSpot > 0.0 && forall i :: 0 <= i < |legs| ==> !legs[i].OptionLeg?
    ensures r.Ok? ==> refSpot > 0.0 && IsTemplateOf(r.value, legs, refSpot, refDate) && r.value.cycleDte >= 1
  {
    if refSpot <= 0.0 { return Err(BadRefSpot); }
    var rel: seq<RelativeLeg> := [];
    var dte: Option<int> := None;
    for i := 0 to |legs|
      invariant |rel| == i && forall j :: 0 <= j < i ==> rel[j] == RelativeOf(legs[j], refSpot, refDate)
      invariant forall j :: 0 <= j < i ==> !Expired(legs[j], refDate)
      invariant dte.None? ==> forall j :: 0 <= j < i ==> !legs[j].OptionLeg?
      invariant dte.Some? ==> dte.value >= 1
      invariant dte.Some? ==> forall j :: 0 <= j < i && legs[j].OptionLeg? ==> dte.value <= legs[j].expiry - refDate
      invariant dte.Some? ==> exists j :: 0 <= j < i && legs[j].OptionLeg? && dte.value == legs[j].expiry - refDate
    {
      var leg := legs[i];
      if leg.OptionLeg? {
        var legDte := leg.expiry - refDate;
        if legDte <= 0 {
          assert Expired(legs[i], refDate);
          return Err(LegExpired);
        }
        dte := Some(if dte.Some? && dte.value <= legDte then dte.value else legDte);
      }
      rel := rel + [RelativeOf(leg, refSpot, refDate)];
    }
    if dte.None? { return Err(NoOptionLegs); }
    return Ok(RelativeTemplate(rel, dte.value));
  }

  /** The multiple of the increment nearest to a raw strike. */
  function NearestStrike(raw: real, increment: real): real
    requires increment != 0.0
  {
    Times(Round(raw / increment), increment)
  }

  function InstantiateLeg(rl: RelativeLeg, rollDate: int, spot: real, increment: real): Leg
    requires increment != 0.0
  {
    match rl
    case RelOption(side, qty, kind, moneyness, dte) =>
      OptionLeg(kind, side, NearestStrike(Mul(spot, moneyness), increment), rollDate + dte, qty, None)
    case RelEquity(side, qty) => EquityLeg(side, qty, None)
    case RelCash(amount) => CashLeg(amount)
  }

  function Instantiate(t: RelativeTemplate, rollDate: int, spot: real, increment: real): seq<Leg>
    requires increment != 0.0
  {
    seq(|t.legs|, i requires 0 <= i < |t.legs| => InstantiateLeg(t.legs[i], rollDate, spot, increment))
  }

  method ComputeInstantiate(t: RelativeTemplate, rollDate: int, spot: real, increment: real) returns (out: seq<Leg>)
    requires increment != 0.0
    ensures out == Instantiate(t, rollDate, spot, increment)
  {
    hide InstantiateLeg;
    out := [];
    for i := 0 to |t.legs|
      invariant |out| == i && forall j :: 0 <= j < i ==> out[j] == InstantiateLeg(t.legs[j], rollDate, spot, increment)
    {
      out := out + [InstantiateLeg(t.legs[i], rollDate, spot, increment)];
    }
  }

  // ---- round trip ----

  lemma RoundNearest(x: real)
    ensures -0.5 <= Round(x) as real - x <= 0.5
    ensures x == x.Floor as real ==> Round(x) == x.Floor
  {
  }

  /** Same leg with the strike moved and the entry price dropped. */
  predicate SameTerms(a: Leg, b: Leg) {
    match (a, b)
    case (OptionLeg(k, s, _, e, q, _), OptionLeg(k', s', _, e', q', p')) =>
      k == k' && s == s' && e == e' && q == q' && p'.None?
    case (EquityLeg(s, q, _), EquityLeg(s', q', p')) => s == s' && q == q' && p'.None?
    case (CashLeg(x), CashLeg(x')) => x == x'
    case _ => false
  }

  lemma BackToStrike(strike: real, refSpot: real)
    requires refSpot > 0.0
    ensures Mul(refSpot, strike / refSpot) == strike
  {
    DivMul(strike, refSpot);
  }

  predicate IsMultiple(x: real, m: int, increment: real) { x == Times(m, increment) }

  ghost predicate OnIncrement(x: real, increment: real) { exists m: int :: IsMultiple(x, m, increment) }

  lemma NearestMultiple(strike: real, increment: real)
    requires increment > 0.0
    ensures Abs(NearestStrike(strike, increment) - strike) <= increment / 2.0
    ensures OnIncrement(strike, increment) ==> NearestStrike(strike, increment) == strike
    ensures OnIncrement(NearestStrike(strike, increment), increment)
  {
    hide Mul;
    var q := strike / increment;
    BackToStrike(strike, increment);
    MulSwap(q, increment);
    RoundNearest(q);
    var d := Round(q) as real - q;
    MulAdd(q, d, increment);
    HalfStep(d, increment);
    assert IsMultiple(NearestStrike(strike, increment), Round(q), increment);
    if m: int :| IsMultiple(strike, m, increment) {
      SameFactor(q, m as real, increment);
      assert q.Floor == m;
    }
  }

  lemma MulSwap(a: real, b: real)
    ensures Mul(a, b) == Mul(b, a)
  {
  }

  lemma HalfStep(d: real, w: real)
    requires -0.5 <= d <= 0.5 && w > 0.0
    ensures Abs(Mul(d, w)) <= w / 2.0
  {
    hide Mul;
    MulSign(0.5 - d, w);
    MulSign(d + 0.5, w);
    MulAdd(0.5 - d, d, w);
    MulAdd(d, 0.5, w);
    MulUnit(w);
    MulAdd(0.5, 0.5, w);
  }

  lemma SameFactor(a: real, b: real, w: real)
    requires w > 0.0 && Mul(a, w) == Mul(b, w)
    ensures a == b
  {
    hide Mul;
    MulAdd(a, b - a, w);
    MulSign(b - a, w);
    MulAdd(b, a - b, w);
    MulSign(a - b, w);
  }

  /** Half-way cases go to the even neighbour. */
  lemma RoundHalfEven(x: real)
    requires x - x.Floor as real == 0.5
    ensures Round(x) % 2 == 0
  {
  }

  /** A template brought to any spot and date: the same legs, each strike at the same ratio to the spot up to half an
      increment, each expiry as many days ahead. */
  lemma InstantiateAnywhere(t: RelativeTemplate, legs: seq<Leg>, refSpot: real, refDate: int, rollDate: int, spot: real,
        increment: real, i: nat)
    requires refSpot > 0.0 && increment > 0.0 && IsTemplateOf(t, legs, refSpot, refDate) && i < |legs|
    ensures var there := Instantiate(t, rollDate, spot, increment);
      && |there| == |legs|
      && match (legs[i], there[i])
         case (OptionLeg(k, s, strike, e, q, _), OptionLeg(k', s', strike', e', q', p')) =>
           && k' == k && s' == s && q' == q && p'.None? && e' - rollDate == e - refDate
           && Abs(strike' - spot * (strike / refSpot)) <= increment / 2.0
           && OnIncrement(strike', increment)
         case (EquityLeg(s, q, _), EquityLeg(s', q', p')) => s' == s && q' == q && p'.None?
         case (CashLeg(x), CashLeg(x')) => x' == x
         case _ => false
  {
    hide NearestStrike, OnIncrement;
    if legs[i].OptionLeg? {
      NearestMultiple(Mul(spot, legs[i].strike / refSpot), increment);
    }
  }

  /** A template brought back to its own reference spot and date is the configuration it came from, leg by leg,
      with each strike on the nearest increment: unchanged if it was on one, and never more than half a step off. */
  lemma RoundTrip(t: RelativeTemplate, legs: seq<Leg>, refSpot: real, refDate: int, increment: real, i: nat)
    requires refSpot > 0.0 && increment > 0.0 && IsTemplateOf(t, legs, refSpot, refDate) && i < |legs|
    ensures var back := Instantiate(t, refDate, refSpot, increment);
      && |back| == |legs| && SameTerms(legs[i], back[i])
      && (legs[i].OptionLeg? ==>
            && Abs(back[i].strike - legs[i].strike) <= increment / 2.0
            && OnIncrement(back[i].strike, increment)
            && (OnIncrement(legs[i].strike, increment) ==> back[i].strike == legs[i].strike))
  {
    hide NearestStrike, OnIncrement, Mul;
    if legs[i].OptionLeg? {
      BackToStrike(legs[i].strike, refSpot);
      NearestMultiple(legs[i].strike, increment);
    }
  }
}
