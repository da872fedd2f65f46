/**
 The water-quality recommender of the hot-tub monitor: a fixed-order chain of
 range checks against its own optimal-range table, a combined-chlorine rule,
 and a single "all parameters optimal" entry when nothing else fires.
 */
module Recommendations {

  /** The keys of the optimal-range table. */
  datatype Measure = Ph | Temperature | Turbidity | Orp | Conductivity | FreeChlorine | TotalChlorine

  /** An optimal range; a value strictly outside it draws a recommendation. */
  datatype Range = Range(min: real, max: real)

  /** The optimal-range table the recommender is built with; every range is non-empty. */
  function OptimalRange(m: Measure): (r: Range)
    ensures r.min < r.max
  {
    match m
    case Ph => Range(7.2, 7.6)
    case Temperature => Range(37.0, 39.0)
    case Turbidity => Range(0.5, 3.0)
    case Orp => Range(650.0, 750.0)
    case Conductivity => Range(400.0, 800.0)
    case FreeChlorine => Range(1.0, 3.0)
    case TotalChlorine => Range(2.0, 4.0)
  }

  /** A reading with one value per key of the table. */
  datatype Readings = Readings(ph: real, temperature: real, turbidity: real, orp: real,
                               conductivity: real, freeChlorine: real, totalChlorine: real)
  {
    function Value(m: Measure): real {
      match m
      case Ph => ph
      case Temperature => temperature
      case Turbidity => turbidity
      case Orp => orp
      case Conductivity => conductivity
      case FreeChlorine => freeChlorine
      case TotalChlorine => totalChlorine
    }
  }

  /** The parameter a recommendation is about. */
  datatype Parameter = Measured(measure: Measure) | CombinedChlorine | AllParameters

  /** The parameter name shown to the user. */
  function Label(p: Parameter): (l: string)
    ensures l != ""
  {
    match p
    case Measured(Ph) => "pH"
    case Measured(Temperature) => "Temperature"
    case Measured(Turbidity) => "Turbidity"
    case Measured(Orp) => "ORP"
    case Measured(Conductivity) => "Conductivity/TDS"
    case Measured(FreeChlorine) => "Free Chlorine"
    case Measured(TotalChlorine) => "Total Chlorine"
    case CombinedChlorine => "Combined Chlorine"
    case AllParameters => "All Parameters"
  }

  /** Different parameters are shown under different names. */
  lemma LabelInjective(p: Parameter, q: Parameter)
    ensures Label(p) == Label(q) ==> p == q
  {
  }

  /** Position of a parameter in the recommender's fixed evaluation order. */
  function Rank(p: Parameter): nat {
    match p
    case Measured(Ph) => 0
    case Measured(Temperature) => 1
    case Measured(Turbidity) => 2
    case Measured(Orp) => 3
    case Measured(Conductivity) => 4
    case Measured(FreeChlorine) => 5
    case Measured(TotalChlorine) => 6
    case CombinedChlorine => 7
    case AllParameters => 8
  }

  datatype Status = Low | High | Optimal

  /**
   One recommendation. Its action and details texts are fixed by the
   parameter and the status, so they are derived rather than stored.
   */
  datatype Recommendation = Recommendation(parameter: Parameter, status: Status)
  {
    /**
     The remedial action followed by its explanation. Total chlorine never
     gets an entry of its own and has none.
     */
    function Texts(): (string, string) {
      match (parameter, status)
        case (Measured(Ph), Low) =>
          ("Add pH increaser (sodium carbonate). Test after 4 hours.",
           "Low pH can cause eye irritation and corrode equipment.")
        case (Measured(Ph), _) =>
          ("Add pH decreaser (sodium bisulfate). Test after 4 hours.",
           "High pH reduces sanitizer effectiveness and can cause scaling.")
        case (Measured(Temperature), Low) =>
          ("Increase heater temperature setting.",
           "Low temperature can make bathing uncomfortable and affect sanitizer effectiveness.")
        case (Measured(Temperature), _) =>
          ("Reduce heater temperature setting or use cooling mode if available.",
           "High temperature increases chemical consumption and can be uncomfortable.")
        case (Measured(Turbidity), _) =>
          ("Clean or replace filter. Add water clarifier if needed.",
           "High turbidity indicates presence of suspended particles and possible contamination.")
        case (Measured(Orp), Low) =>
          ("Add sanitizer (chlorine/bromine). Check for organic contamination.",
           "Low ORP indicates insufficient sanitizer levels for proper disinfection.")
        case (Measured(Orp), _) =>
          ("Reduce sanitizer addition. Wait for levels to decrease naturally.",
           "High ORP may cause skin/eye irritation and equipment damage.")
        case (Measured(Conductivity), Low) =>
          ("Add mineral balancer to increase TDS levels.",
           "Low TDS levels may result in poor water conditioning and reduced therapeutic benefits.")
        case (Measured(Conductivity), _) =>
          ("Partially drain and refill with fresh water to reduce TDS levels.",
           "High TDS levels can cause equipment corrosion and reduce sanitizer effectiveness.")
        case (Measured(FreeChlorine), Low) =>
          ("Add chlorine sanitizer to increase free chlorine levels.",
           "Low free chlorine reduces sanitizing effectiveness and can lead to bacterial growth.")
        case (Measured(FreeChlorine), _) =>
          ("Stop adding chlorine and allow levels to naturally decrease. Consider partial water change.",
           "High free chlorine can cause skin and eye irritation.")
        case (Measured(TotalChlorine), _) =>
          ("", "")
        case (CombinedChlorine, _) =>
          ("Shock treat the water with high dose of chlorine (superchlorination).",
           "High combined chlorine indicates presence of chloramines, which can cause odor and irritation.")
        case (AllParameters, _) =>
          ("Continue regular maintenance schedule.",
           "All water quality parameters are within optimal ranges.")
    }
  }

  /** The combined-chlorine level above which the water needs shock treatment. */
  const CombinedChlorineLimit: real := 0.5

  /**
   The low/high check of one measure: a low entry strictly below the range, a
   high entry strictly above it, nothing on or inside its bounds.
   */
  function RangeCheck(m: Measure, value: real, range: Range): (r: seq<Recommendation>)
    ensures |r| <= 1
    ensures r == [] <==> range.min <= value && !(value > range.max)
    ensures forall e :: e in r ==> e.parameter == Measured(m)
    ensures forall e :: e in r ==> (e.status == Low <==> value < range.min)
    ensures forall e :: e in r ==> (e.status == High <==> range.min <= value && value > range.max)
  {
    if value < range.min then [Recommendation(Measured(m), Low)]
    else if value > range.max then [Recommendation(Measured(m), High)]
    else []
  }

  /** The high-only check of a measure: an entry strictly above the range, nothing otherwise. */
  function HighCheck(m: Measure, value: real, range: Range): (r: seq<Recommendation>)
    ensures |r| <= 1
    ensures r == [] <==> !(value > range.max)
    ensures forall e :: e in r ==> e.parameter == Measured(m) && e.status == High
  {
    if value > range.max then [Recommendation(Measured(m), High)] else []
  }

  /** The combined-chlorine rule: an entry exactly when total minus free chlorine exceeds the limit. */
  function CombinedCheck(total: real, free: real): (r: seq<Recommendation>)
    ensures |r| <= 1
    ensures r == [] <==> total - free <= CombinedChlorineLimit
    ensures forall e :: e in r ==> e.parameter == CombinedChlorine && e.status == High
  {
    if total - free > CombinedChlorineLimit then [Recommendation(CombinedChlorine, High)] else []
  }

  /**
   The seven checks of the chain, in evaluation order, as a list of lists.
   `Findings` below joins the same seven checks as one concatenation, the form
   the recommender's successive appends produce step by step; this list form
   is the one the ordering and membership lemmas induct over, and
   `FindingsAreChecks` proves the two equal.
   */
  function Checks(table: Measure -> Range, r: Readings): (c: seq<seq<Recommendation>>)
    ensures |c| == 7
  {
    [ RangeCheck(Ph, r.ph, table(Ph)),
      RangeCheck(Temperature, r.temperature, table(Temperature)),
      HighCheck(Turbidity, r.turbidity, table(Turbidity)),
      RangeCheck(Orp, r.orp, table(Orp)),
      RangeCheck(Conductivity, r.conductivity, table(Conductivity)),
      RangeCheck(FreeChlorine, r.freeChlorine, table(FreeChlorine)),
      CombinedCheck(r.totalChlorine, r.freeChlorine) ]
  }

  /** The rank of the parameter each check of the chain reports on. */
  const CheckRanks: seq<nat> := [0, 1, 2, 3, 4, 5, 7]

  /** The lists of `c` joined in order. */
  function Flatten(c: seq<seq<Recommendation>>): seq<Recommendation> {
    if c == [] then [] else Flatten(c[..|c| - 1]) + c[|c| - 1]
  }

  /** The entries of the check chain, in evaluation order, before the fallback. */
  function Findings(table: Measure -> Range, r: Readings): (f: seq<Recommendation>)
    ensures |f| <= 7
  {
    RangeCheck(Ph, r.ph, table(Ph))
    + RangeCheck(Temperature, r.temperature, table(Temperature))
    + HighCheck(Turbidity, r.turbidity, table(Turbidity))
    + RangeCheck(Orp, r.orp, table(Orp))
    + RangeCheck(Conductivity, r.conductivity, table(Conductivity))
    + RangeCheck(FreeChlorine, r.freeChlorine, table(FreeChlorine))
    + CombinedCheck(r.totalChlorine, r.freeChlorine)
  }

  /** The findings are the seven checks joined in order. */
  lemma FindingsAreChecks(table: Measure -> Range, r: Readings)
    ensures Findings(table, r) == Flatten(Checks(table, r))
  {
    FlattenSeven(Checks(table, r));
  }

  /** The single entry returned when nothing else fires. */
  function AllOptimal(): Recommendation {
    Recommendation(AllParameters, Optimal)
  }

  /** The recommendations for a reading under an optimal-range table. */
  function Recommend(table: Measure -> Range, r: Readings): (rs: seq<Recommendation>)
    ensures 1 <= |rs| <= 7
  {
    var found := Findings(table, r);
    if found == [] then [AllOptimal()] else found
  }

  /** The recommender; its optimal-range table is fixed when it is built. */
  class WaterQualityRecommender {
    const optimalRanges: Measure -> Range

    constructor ()
      ensures forall m :: optimalRanges(m) == OptimalRange(m)
    {
      optimalRanges := OptimalRange;
    }

    /** Runs the check chain, appending one entry per check that fires, then the fallback. */
    method GetRecommendations(readings: Readings) returns (recommendations: seq<Recommendation>)
      ensures recommendations == Recommend(optimalRanges, readings)
    {
      recommendations := [];
      recommendations := AppendRangeEntry(recommendations, Ph, readings.ph, optimalRanges(Ph));
      assert recommendations == RangeCheck(Ph, readings.ph, optimalRanges(Ph));
      recommendations := AppendRangeEntry(recommendations, Temperature, readings.temperature, optimalRanges(Temperature));
      recommendations := AppendHighEntry(recommendations, Turbidity, readings.turbidity, optimalRanges(Turbidity));
      recommendations := AppendRangeEntry(recommendations, Orp, readings.orp, optimalRanges(Orp));
      recommendations := AppendRangeEntry(recommendations, Conductivity, readings.conductivity, optimalRanges(Conductivity));
      recommendations := AppendRangeEntry(recommendations, FreeChlorine, readings.freeChlorine, optimalRanges(FreeChlorine));
      var combinedChlorine := readings.totalChlorine - readings.freeChlorine;
      if combinedChlorine > CombinedChlorineLimit {
        recommendations := recommendations + [Recommendation(CombinedChlorine, High)];
      }
      if recommendations == [] {
        recommendations := recommendations + [AllOptimal()];
      }
    }
  }

  /** A low/high block of the chain: appends a low entry below the range, a high entry above it. */
  method AppendRangeEntry(recommendations: seq<Recommendation>, m: Measure, value: real, range: Range)
    returns (extended: seq<Recommendation>)
    ensures extended == recommendations + RangeCheck(m, value, range)
  {
    extended := recommendations;
    if value < range.min {
      extended := extended + [Recommendation(Measured(m), Low)];
    } else if value > range.max {
      extended := extended + [Recommendation(Measured(m), High)];
    }
  }

  /** A high-only block of the chain: appends a high entry above the range. */
  method AppendHighEntry(recommendations: seq<Recommendation>, m: Measure, value: real, range: Range)
    returns (extended: seq<Recommendation>)
    ensures extended == recommendations + HighCheck(m, value, range)
  {
    extended := recommendations;
    if value > range.max {
      extended := extended + [Recommendation(Measured(m), High)];
    }
  }

  /** Joining one more list appends its entries at the end. */
  lemma FlattenStep(c: seq<seq<Recommendation>>, k: nat)
    requires k < |c|
    ensures Flatten(c[..k + 1]) == Flatten(c[..k]) + c[k]
  {
    assert c[..k + 1][..k] == c[..k];
  }

  /** Joining seven lists is their left-to-right concatenation. */
  lemma FlattenSeven(c: seq<seq<Recommendation>>)
    requires |c| == 7
    ensures Flatten(c) == c[0] + c[1] + c[2] + c[3] + c[4] + c[5] + c[6]
  {
    assert c[..0] == [];
    assert [] + c[0] == c[0];
    FlattenStep(c, 0);
    FlattenStep(c, 1);
    FlattenStep(c, 2);
    FlattenStep(c, 3);
    FlattenStep(c, 4);
    FlattenStep(c, 5);
    FlattenStep(c, 6);
    assert c[..7] == c;
  }

  /** An entry is in the joined list exactly when it is in one of the parts. */
  lemma {:induction false} FlattenMembers(c: seq<seq<Recommendation>>, e: Recommendation)
    ensures e in Flatten(c) <==> exists k :: 0 <= k < |c| && e in c[k]
  {
    if c != [] {
      var init := c[..|c| - 1];
      FlattenMembers(init, e);
      if e in Flatten(c) && e !in c[|c| - 1] {
        var k :| 0 <= k < |init| && e in init[k];
        assert c[k] == init[k];
      }
      if exists k :: 0 <= k < |c| && e in c[k] {
        var k :| 0 <= k < |c| && e in c[k];
        if k < |c| - 1 {
          assert init[k] == c[k];
        }
      }
    }
  }

  /** Entries are in strictly increasing rank. */
  ghost predicate Ordered(s: seq<Recommendation>) {
    forall i, j :: 0 <= i < j < |s| ==> Rank(s[i].parameter) < Rank(s[j].parameter)
  }

  /** Every entry of `s` has a rank below `n`. */
  ghost predicate RanksBelow(s: seq<Recommendation>, n: nat) {
    forall e :: e in s ==> Rank(e.parameter) < n
  }

  /** Appending at most one entry of rank `n` to entries of smaller rank keeps the order. */
  lemma OrderedStep(a: seq<Recommendation>, b: seq<Recommendation>, n: nat)
    requires Ordered(a) && RanksBelow(a, n)
    requires |b| <= 1 && forall e :: e in b ==> Rank(e.parameter) == n
    ensures Ordered(a + b) && RanksBelow(a + b, n + 1)
  {
    forall i, j | 0 <= i < j < |a + b|
      ensures Rank((a + b)[i].parameter) < Rank((a + b)[j].parameter)
    {
      if j >= |a| {
        assert (a + b)[i] in a;
        assert (a + b)[j] in b;
      }
    }
  }

  /**
   Joining lists of at most one entry each, whose ranks increase from list to
   list, gives an ordered list with at most one entry per part.
   */
  lemma {:induction false} FlattenOrdered(c: seq<seq<Recommendation>>, ranks: seq<nat>)
    requires |ranks| == |c|
    requires forall i, j :: 0 <= i < j < |ranks| ==> ranks[i] < ranks[j]
    requires forall k :: 0 <= k < |c| ==> |c[k]| <= 1
    requires forall k, e :: 0 <= k < |c| && e in c[k] ==> Rank(e.parameter) == ranks[k]
    ensures Ordered(Flatten(c)) && |Flatten(c)| <= |c|
    ensures |c| > 0 ==> RanksBelow(Flatten(c), ranks[|c| - 1] + 1)
  {
    if c != [] {
      var n := |c| - 1;
      var init := c[..n];
      FlattenOrdered(init, ranks[..n]);
      assert RanksBelow(Flatten(init), ranks[n]) by {
        if n > 0 {
          assert ranks[n - 1] < ranks[n];
        }
      }
      OrderedStep(Flatten(init), c[n], ranks[n]);
    }
  }

  /** Each check yields at most one entry, about its own parameter, and never an "optimal" one. */
  lemma CheckShape(table: Measure -> Range, r: Readings, k: nat)
    requires k < 7
    ensures |Checks(table, r)[k]| <= 1
    ensures forall e :: e in Checks(table, r)[k] ==> Rank(e.parameter) == CheckRanks[k] && e.status != Optimal
  {
    var c := Checks(table, r);
    if k == 0 {
      assert c[k] == RangeCheck(Ph, r.ph, table(Ph));
    } else if k == 1 {
      assert c[k] == RangeCheck(Temperature, r.temperature, table(Temperature));
    } else if k == 2 {
      assert c[k] == HighCheck(Turbidity, r.turbidity, table(Turbidity));
    } else if k == 3 {
      assert c[k] == RangeCheck(Orp, r.orp, table(Orp));
    } else if k == 4 {
      assert c[k] == RangeCheck(Conductivity, r.conductivity, table(Conductivity));
    } else if k == 5 {
      assert c[k] == RangeCheck(FreeChlorine, r.freeChlorine, table(FreeChlorine));
    } else {
      assert c[k] == CombinedCheck(r.totalChlorine, r.freeChlorine);
    }
  }

  /** Which check of the chain an entry of the findings comes from. */
  lemma FindingSource(table: Measure -> Range, r: Readings, e: Recommendation) returns (k: nat)
    requires e in Findings(table, r)
    ensures k < 7 && e in Checks(table, r)[k]
    ensures Rank(e.parameter) == CheckRanks[k] && e.status != Optimal
  {
    FindingsAreChecks(table, r);
    FlattenMembers(Checks(table, r), e);
    k :| 0 <= k < 7 && e in Checks(table, r)[k];
    CheckShape(table, r, k);
  }

  /**
   The check chain never produces an "optimal" entry, an entry about total
   chlorine itself, or one about all parameters.
   */
  lemma FindingsNeverOptimal(table: Measure -> Range, r: Readings)
    ensures forall e :: e in Findings(table, r) ==> e.status != Optimal
    ensures forall e :: e in Findings(table, r) ==>
      e.parameter != Measured(TotalChlorine) && e.parameter != AllParameters
  {
    forall e | e in Findings(table, r)
      ensures e.status != Optimal
      ensures e.parameter != Measured(TotalChlorine) && e.parameter != AllParameters
    {
      var _ := FindingSource(table, r, e);
    }
  }

  /**
   An "optimal" entry appears exactly when no check fired, and it is then the
   only entry.
   */
  lemma OptimalIsExclusive(table: Measure -> Range, r: Readings)
    ensures (exists e :: e in Recommend(table, r) && e.status == Optimal) <==> Findings(table, r) == []
    ensures Findings(table, r) == [] ==> Recommend(table, r) == [AllOptimal()]
  {
    FindingsNeverOptimal(table, r);
    if Findings(table, r) == [] {
      assert AllOptimal() in Recommend(table, r);
    }
  }

  /**
   Entries follow the fixed evaluation order pH, Temperature, Turbidity, ORP,
   Conductivity/TDS, Free Chlorine, Combined Chlorine with strictly increasing
   rank, so no parameter appears twice and at most seven entries are produced.
   */
  lemma FindingsOrdered(table: Measure -> Range, r: Readings)
    ensures Ordered(Findings(table, r))
    ensures |Findings(table, r)| <= 7
  {
    var c := Checks(table, r);
    forall k | 0 <= k < 7
      ensures |c[k]| <= 1 && forall e: Recommendation :: e in c[k] ==> Rank(e.parameter) == CheckRanks[k]
    {
      CheckShape(table, r, k);
    }
    FlattenOrdered(c, CheckRanks);
    FindingsAreChecks(table, r);
  }

  /** A value on either bound of its optimal range draws no entry for that parameter. */
  lemma BoundsDrawNoEntry(table: Measure -> Range, r: Readings, m: Measure)
    requires r.Value(m) == table(m).min || r.Value(m) == table(m).max
    requires table(m).min <= table(m).max
    ensures forall e :: e in Recommend(table, r) ==> e.parameter != Measured(m)
  {
    FindingsNeverOptimal(table, r);
    forall e | e in Findings(table, r)
      ensures e.parameter != Measured(m)
    {
      var k := FindingSource(table, r, e);
    }
  }

  /** Turbidity only ever draws a "high" entry, whatever its minimum. */
  lemma TurbidityNeverLow(table: Measure -> Range, r: Readings)
    ensures forall e :: e in Recommend(table, r) && e.parameter == Measured(Turbidity) ==> e.status == High
  {
    forall e | e in Findings(table, r) && e.parameter == Measured(Turbidity)
      ensures e.status == High
    {
      var k := FindingSource(table, r, e);
    }
  }

  /**
   A combined-chlorine entry appears exactly when total minus free chlorine
   strictly exceeds 0.5, and it is "high".
   */
  lemma CombinedChlorineRule(table: Measure -> Range, r: Readings)
    ensures (exists e :: e in Recommend(table, r) && e.parameter == CombinedChlorine)
        <==> r.totalChlorine - r.freeChlorine > 0.5
    ensures forall e :: e in Recommend(table, r) && e.parameter == CombinedChlorine ==> e.status == High
  {
    forall e | e in Findings(table, r) && e.parameter == CombinedChlorine
      ensures e.status == High && r.totalChlorine - r.freeChlorine > 0.5
    {
      var k := FindingSource(table, r, e);
    }
    var c := Checks(table, r);
    FindingsAreChecks(table, r);
    if c[6] != [] {
      FlattenMembers(c, c[6][0]);
      assert c[6][0] in Recommend(table, r);
    }
  }

  /**
   The total-chlorine range is never consulted, and total chlorine matters only
   through the combined-chlorine rule.
   */
  lemma TotalChlorineOnlyViaCombined(t1: Measure -> Range, t2: Measure -> Range, r1: Readings, r2: Readings)
    requires forall m :: m != TotalChlorine ==> t1(m) == t2(m)
    requires r1.(totalChlorine := r2.totalChlorine) == r2
    requires (r1.totalChlorine - r1.freeChlorine > 0.5) == (r2.totalChlorine - r2.freeChlorine > 0.5)
    ensures Recommend(t1, r1) == Recommend(t2, r2)
  {
    assert t1(Ph) == t2(Ph) && t1(Temperature) == t2(Temperature) && t1(Turbidity) == t2(Turbidity);
    assert t1(Orp) == t2(Orp) && t1(Conductivity) == t2(Conductivity) && t1(FreeChlorine) == t2(FreeChlorine);
    assert Checks(t1, r1) == Checks(t2, r2);
  }

  /**
   With the recommender's own table, the result is the single "optimal" entry
   exactly when every checked value lies within its range (turbidity at most
   its maximum) and combined chlorine is at most 0.5.
   */
  lemma AllOptimalExactly(r: Readings)
    ensures Recommend(OptimalRange, r) == [AllOptimal()] <==>
      && 7.2 <= r.ph <= 7.6
      && 37.0 <= r.temperature <= 39.0
      && r.turbidity <= 3.0
      && 650.0 <= r.orp <= 750.0
      && 400.0 <= r.conductivity <= 800.0
      && 1.0 <= r.freeChlorine <= 3.0
      && r.totalChlorine - r.freeChlorine <= 0.5
  {
    var c := Checks(OptimalRange, r);
    OptimalIsExclusive(OptimalRange, r);
    FindingsAreChecks(OptimalRange, r);
    if Findings(OptimalRange, r) == [] {
      forall k | 0 <= k < 7
        ensures c[k] == []
      {
        if c[k] != [] {
          FlattenMembers(c, c[k][0]);
        }
      }
    } else {
      var _ := FindingSource(OptimalRange, r, Findings(OptimalRange, r)[0]);
    }
  }
}
