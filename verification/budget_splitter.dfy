/**
 * The 50/30/20 percentage splitter of the static budget tracker: three integer
 * percentages (needs, wants, savings) driven by two sliders. Moving the needs
 * slider redistributes the rest between wants and savings in their previous
 * ratio; moving the wants slider makes savings the residue. The savings slider
 * is disabled, so savings only ever changes through those two handlers.
 *
 * When needs reaches 100, wants and savings are both 0 and the next needs change
 * computes the ratio 0 / 0: wants and savings become NaN. That state is kept
 * explicit as `NaNShares`.
 */
module BudgetSplitter {
  import opened JsNumber

  datatype Alloc = Alloc(needs: int, wants: int, savings: int)

  /** The three slider values: finite percentages, or NaN wants and savings after a 0 / 0 ratio. */
  datatype Shares = Finite(alloc: Alloc) | NaNShares(needsPct: int)
  {
    function Needs(): int
    {
      if Finite? then alloc.needs else needsPct
    }
  }

  datatype Tracker = Tracker(income: real, shares: Shares)

  /** Slider events. The savings slider is disabled and has no event. */
  datatype Event = NeedsSlider(value: int) | WantsSlider(value: int) | IncomeInput(amount: real)

  const NeedsMin := 0
  const NeedsMax := 100
  const WantsMin := 0

  /** The wants slider's maximum, `100 - needs`. */
  function WantsMax(s: Shares): int
  {
    100 - s.Needs()
  }

  const Initial := Tracker(50000.0, Finite(Alloc(50, 30, 20)))

  /** Percentages a slider can show: each within its slider range, summing to 100. */
  predicate WellFormed(a: Alloc)
  {
    && 0 <= a.needs <= 100
    && 0 <= a.wants <= 100 - a.needs
    && a.needs + a.wants + a.savings == 100
  }

  /** The states the two handlers can produce. */
  predicate Reachable(s: Shares)
  {
    match s
    case Finite(a) => WellFormed(a)
    case NaNShares(n) => 0 <= n <= 100
  }

  /** The needs slider handler. */
  function OnNeedsChange(s: Shares, newNeeds: int): (r: Shares)
    requires Reachable(s)
    requires NeedsMin <= newNeeds <= NeedsMax
    ensures Reachable(r)
    ensures r.Needs() == newNeeds
    ensures r.NaNShares? <==> s.NaNShares? || s.Needs() == 100
    ensures r.Finite? ==> r.alloc.needs + r.alloc.wants + r.alloc.savings == 100
    ensures r.Finite? ==> 0 <= r.alloc.wants <= 100 - newNeeds && r.alloc.savings >= 0
  {
    match s
    case NaNShares(_) =>
      // NaN / NaN is NaN: the ratio stays NaN
      NaNShares(newNeeds)
    case Finite(a) =>
      var remaining := 100 - newNeeds;
      var w := NewWants(a, remaining);
      if w.Fin? then
        var newWants := w.v.Floor;
        Finite(Alloc(newNeeds, newWants, remaining - newWants))
      else
        NaNShares(newNeeds)
  }

  /** `wants / (wants + savings)` when the divisor is not 0. */
  function Ratio(a: Alloc): real
    requires a.wants + a.savings > 0
  {
    a.wants as real / (a.wants + a.savings) as real
  }

  /**
   * `Math.round(remaining * (wants / (wants + savings)))`: NaN when wants and
   * savings are both 0, otherwise the integer nearest the exact share of the
   * remainder, which lies between 0 and the remainder.
   */
  function NewWants(a: Alloc, remaining: int): (w: Num)
    requires WellFormed(a) && 0 <= remaining
    ensures a.wants + a.savings == 0 ==> w == NaN
    ensures a.wants + a.savings > 0 ==> w == Fin(RoundReal(Ratio(a) * remaining as real) as real)
    ensures a.wants + a.savings > 0 ==> 0 <= RoundReal(Ratio(a) * remaining as real) <= remaining
  {
    ShareBounds(a, remaining);
    var ratio := Div(a.wants as real, (a.wants + a.savings) as real);
    assert a.wants + a.savings == 0 ==> ratio == NaN;
    assert a.wants + a.savings > 0 ==> ratio == Fin(Ratio(a));
    var scaled := Mul(ratio, remaining as real);
    assert a.wants + a.savings > 0 ==> scaled == Fin(Ratio(a) * remaining as real);
    Round(scaled)
  }

  /** The rounded share of the remainder stays within 0 and the remainder. */
  lemma ShareBounds(a: Alloc, remaining: int)
    requires WellFormed(a) && 0 <= remaining
    ensures a.wants + a.savings > 0 ==> 0 <= RoundReal(Ratio(a) * remaining as real) <= remaining
  {
    if a.wants + a.savings > 0 {
      var q := Ratio(a);
      UnitFraction(a.wants as real, (a.wants + a.savings) as real);
      assert 0.0 <= q <= 1.0;
      RoundedShareWithin(q, remaining);
    }
  }

  /** Rounding a fraction of m gives an integer between 0 and m. */
  lemma RoundedShareWithin(q: real, m: int)
    requires 0.0 <= q <= 1.0 && 0 <= m
    ensures 0 <= RoundReal(q * m as real) <= m
  {
    ScaleUnit(q, m as real);
  }

  lemma UnitFraction(part: real, total: real)
    requires 0.0 <= part <= total && total > 0.0
    ensures 0.0 <= part / total <= 1.0
  {
  }

  lemma ScaleUnit(q: real, m: real)
    requires 0.0 <= q <= 1.0 && 0.0 <= m
    ensures 0.0 <= q * m <= m
  {
  }

  /**
   * A finite needs change keeps the ratio of wants to savings up to rounding:
   * the new wants is the nearest integer to the exact share of the remainder.
   */
  lemma NeedsChangeKeepsRatio(s: Shares, newNeeds: int)
    requires Reachable(s) && s.Finite? && s.alloc.needs < 100
    requires NeedsMin <= newNeeds <= NeedsMax
    ensures var r := OnNeedsChange(s, newNeeds);
            var exact := Ratio(s.alloc) * (100 - newNeeds) as real;
            r.Finite? && exact - 0.5 < r.alloc.wants as real <= exact + 0.5
  {
    var w := RoundReal(Ratio(s.alloc) * (100 - newNeeds) as real);
    assert (w as real).Floor == w;
  }

  /** The wants slider handler: needs stays, savings becomes the residue. */
  function OnWantsChange(s: Shares, newWants: int): (r: Shares)
    ensures r.Finite? && r.alloc.needs == s.Needs() && r.alloc.wants == newWants
    ensures r.alloc.needs + r.alloc.wants + r.alloc.savings == 100
    ensures r.alloc.savings >= 0 <==> newWants <= WantsMax(s)
    ensures Reachable(s) && WantsMin <= newWants <= WantsMax(s) ==> Reachable(r)
  {
    var remaining := 100 - s.Needs() - newWants;
    Finite(Alloc(s.Needs(), newWants, remaining))
  }

  /** A slider can only emit values within its current range. */
  predicate Admissible(t: Tracker, e: Event)
  {
    match e
    case NeedsSlider(v) => NeedsMin <= v <= NeedsMax
    case WantsSlider(v) => WantsMin <= v <= WantsMax(t.shares)
    case IncomeInput(_) => true
  }

  function Step(t: Tracker, e: Event): (r: Tracker)
    requires Reachable(t.shares) && Admissible(t, e)
    ensures Reachable(r.shares)
  {
    match e
    case NeedsSlider(v) => t.(shares := OnNeedsChange(t.shares, v))
    case WantsSlider(v) => t.(shares := OnWantsChange(t.shares, v))
    case IncomeInput(x) => t.(income := x)
  }

  /** Replays slider events; a value outside a slider's range cannot be emitted and is dropped. */
  function Run(t: Tracker, es: seq<Event>): Tracker
    requires Reachable(t.shares)
    decreases |es|
  {
    if es == [] then t
    else
      var t' := if Admissible(t, es[0]) then Step(t, es[0]) else t;
      Run(t', es[1..])
  }

  /** Every state the tracker reaches from its initial 50/30/20 state sums to 100. */
  lemma {:induction false} RunKeepsInvariant(t: Tracker, es: seq<Event>)
    requires Reachable(t.shares)
    ensures Reachable(Run(t, es).shares)
    decreases |es|
  {
    if es != [] {
      var t' := if Admissible(t, es[0]) then Step(t, es[0]) else t;
      RunKeepsInvariant(t', es[1..]);
    }
  }

  lemma InitialIsWellFormed()
    ensures Initial.shares.Finite? && WellFormed(Initial.shares.alloc)
    ensures Initial.shares.alloc == Alloc(50, 30, 20)
  {
  }

  /**
   * From any reachable state, setting needs to 100 and then moving it again
   * makes wants and savings NaN: at 100 both are 0, and the next change
   * computes 0 / 0.
   */
  lemma NaNIsReachable(t: Tracker, n: int)
    requires Reachable(t.shares)
    requires NeedsMin <= n <= NeedsMax
    ensures Run(t, [NeedsSlider(100), NeedsSlider(n)]).shares == NaNShares(n)
  {
    var t1 := Step(t, NeedsSlider(100));
    assert t1.shares == Finite(Alloc(100, 0, 0)) || t1.shares == NaNShares(100);
    assert [NeedsSlider(100), NeedsSlider(n)] == [NeedsSlider(100)] + [NeedsSlider(n)];
    RunCons(t, NeedsSlider(100), [NeedsSlider(n)]);
    RunCons(t1, NeedsSlider(n), []);
  }

  lemma RunCons(t: Tracker, e: Event, es: seq<Event>)
    requires Reachable(t.shares) && Admissible(t, e)
    ensures Run(t, [e] + es) == Run(Step(t, e), es)
  {
    assert ([e] + es)[1..] == es;
  }

  /** Moving the wants slider recovers from the NaN state. */
  lemma WantsRecoversFromNaN(n: int, w: int)
    requires 0 <= n <= 100 && WantsMin <= w <= 100 - n
    ensures OnWantsChange(NaNShares(n), w) == Finite(Alloc(n, w, 100 - n - w))
  {
  }

  /** `Math.round(income * pct / 100)`: the amount shown beside a slider. */
  function Amount(income: real, pct: Num): (r: Num)
    ensures pct.Fin? ==> r.Fin? && income * pct.v / 100.0 - 0.5 < r.v <= income * pct.v / 100.0 + 0.5
    ensures pct.Fin? ==> r == Fin(RoundReal(income * pct.v / 100.0) as real)
    ensures pct == NaN ==> r == NaN
  {
    var r := Round(Mul(Mul(pct, income), 1.0 / 100.0));
    if pct.Fin? then
      assert Mul(pct, income) == Fin(pct.v * income);
      assert pct.v * income * (1.0 / 100.0) == income * pct.v / 100.0;
      r
    else r
  }

  /** The three displayed amounts, each computed from its own percentage. */
  function Amounts(t: Tracker): (r: (Num, Num, Num))
    ensures r.0.Fin?
    ensures t.shares.Finite? <==> r.1.Fin? && r.2.Fin?
  {
    match t.shares
    case Finite(a) =>
      (Amount(t.income, Fin(a.needs as real)), Amount(t.income, Fin(a.wants as real)),
       Amount(t.income, Fin(a.savings as real)))
    case NaNShares(n) => (Amount(t.income, Fin(n as real)), Amount(t.income, NaN), Amount(t.income, NaN))
  }
}
