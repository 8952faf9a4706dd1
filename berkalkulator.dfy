/**
 * Net-salary calculator: from a gross monthly salary (forints) and two flags,
 * the five statutory contribution amounts and the net salary.
 *
 * Money and rates are `real`, so every stated equality is exact.
 */
module Berkalkulator {

  const One: real := 1.0
  const Zero: real := 0.0
  const OneHundredMillion: real := 100000000.0
  const FiveThousand: real := 5000.0

  /** One statutory contribution, carrying its rate as a fraction of gross salary. */
  datatype Jarulek =
    | NyugdijBizt(rate: real)                // pension insurance
    | PenzbeniEgeszsegBizt(rate: real)       // cash health insurance
    | TermeszetbeniEgeszsegBizt(rate: real)  // in-kind health insurance
    | Szja(rate: real)                       // personal income tax
    | MunkaeroPiaci(rate: real)              // labour-market contribution

  /** Why a gross salary is rejected. */
  datatype CalcError = TooLow | TooHigh

  /** The five contribution amounts and the net salary. */
  datatype Breakdown = Breakdown(
    nyugdijBizt: real,
    penzbeniEgeszsegBizt: real,
    termEgeszsegBizt: real,
    szja: real,
    munkaeroPiaci: real,
    netto: real)

  datatype Result = Ok(value: Breakdown) | Err(error: CalcError)

  /** The key under which the calculation records a contribution's amount. */
  function Key(j: Jarulek): string
  {
    match j
    case NyugdijBizt(_) => "nyugdij_bizt"
    case PenzbeniEgeszsegBizt(_) => "penzbeni_egeszseg_bizt"
    case TermeszetbeniEgeszsegBizt(_) => "term_egeszseg_bizt"
    case Szja(_) => "szja"
    case MunkaeroPiaci(_) => "munkaero_piaci"
  }

  /** The keys of all five contributions. */
  const AllKeys: set<string> := {"nyugdij_bizt", "penzbeni_egeszseg_bizt", "term_egeszseg_bizt", "szja", "munkaero_piaci"}

  /** The fixed, ordered list of contributions and their rates. */
  function InitJarulekok(): seq<Jarulek>
  {
    [ NyugdijBizt(0.10),
      PenzbeniEgeszsegBizt(0.03),
      TermeszetbeniEgeszsegBizt(0.04),
      Szja(0.15),
      MunkaeroPiaci(0.015) ]
  }

  // ---------------------------------------------------------------------------
  // What the loop has done after a prefix of the contribution list
  // ---------------------------------------------------------------------------

  /** Sum of every rate in `js`. */
  function SumOfRates(js: seq<Jarulek>): real
  {
    if js == [] then Zero else SumOfRates(js[..|js| - 1]) + js[|js| - 1].rate
  }

  /** Sum of the SZJA rates in `js`. */
  function SzjaRates(js: seq<Jarulek>): real
  {
    if js == [] then Zero
    else SzjaRates(js[..|js| - 1]) + (if js[|js| - 1].Szja? then js[|js| - 1].rate else Zero)
  }

  /** Gross times a rate: the amount a contribution takes before any adjustment. */
  function Portion(bruttoBer: real, rate: real): real
  {
    bruttoBer * rate
  }

  /** The amount recorded for one contribution. */
  function Amount(j: Jarulek, bruttoBer: real, frissHazas: bool, szjaMentes: bool): real
  {
    match j
    case Szja(rate) =>
      if szjaMentes then Zero
      else if frissHazas then Portion(bruttoBer, rate) - FiveThousand
      else Portion(bruttoBer, rate)
    case _ => Portion(bruttoBer, j.rate)
  }

  /** The amounts map after recording each of `js` in order; a later entry under a key replaces an earlier one. */
  function Amounts(js: seq<Jarulek>, bruttoBer: real, frissHazas: bool, szjaMentes: bool): map<string, real>
  {
    if js == [] then map[]
    else
      var last := js[|js| - 1];
      Amounts(js[..|js| - 1], bruttoBer, frissHazas, szjaMentes)[Key(last) := Amount(last, bruttoBer, frissHazas, szjaMentes)]
  }

  /** Processing one more contribution: how the three prefix functions grow. */
  lemma PrefixStep(js: seq<Jarulek>, i: nat, bruttoBer: real, frissHazas: bool, szjaMentes: bool)
    requires i < |js|
    ensures SumOfRates(js[..i + 1]) == SumOfRates(js[..i]) + js[i].rate
    ensures SzjaRates(js[..i + 1]) == SzjaRates(js[..i]) + (if js[i].Szja? then js[i].rate else Zero)
    ensures Amounts(js[..i + 1], bruttoBer, frissHazas, szjaMentes)
         == Amounts(js[..i], bruttoBer, frissHazas, szjaMentes)[Key(js[i]) := Amount(js[i], bruttoBer, frissHazas, szjaMentes)]
  {
    assert js[..i + 1][..i] == js[..i];
  }

  /** Whatever the list, the map holds exactly one key per contribution kind that occurs in it. */
  lemma {:induction false} AmountsKeys(js: seq<Jarulek>, bruttoBer: real, frissHazas: bool, szjaMentes: bool)
    ensures Amounts(js, bruttoBer, frissHazas, szjaMentes).Keys == set j | j in js :: Key(j)
  {
    if js != [] {
      var init := js[..|js| - 1];
      AmountsKeys(init, bruttoBer, frissHazas, szjaMentes);
      assert js == init + [js[|js| - 1]];
    }
  }

  /**
   * The fixed list names each of the five contributions exactly once, every
   * rate is a fraction strictly between 0 and 1, and SZJA sits at 0.15 after
   * the three insurance contributions.
   */
  lemma InitJarulekokShape()
    ensures |InitJarulekok()| == 5
    ensures forall i, k :: 0 <= i < k < |InitJarulekok()| ==> Key(InitJarulekok()[i]) != Key(InitJarulekok()[k])
    ensures (set j | j in InitJarulekok() :: Key(j)) == AllKeys
    ensures forall j :: j in InitJarulekok() ==> Zero < j.rate < One
    ensures InitJarulekok()[3] == Szja(0.15)
  {
    var js := InitJarulekok();
    assert forall j :: j in js <==> j == js[0] || j == js[1] || j == js[2] || j == js[3] || j == js[4];
    assert (set j | j in js :: Key(j)) == {Key(js[0]), Key(js[1]), Key(js[2]), Key(js[3]), Key(js[4])};
  }

  /** Dropping the last element of a five-element prefix chain. */
  lemma FivePrefixes(js: seq<Jarulek>)
    requires |js| == 5
    ensures js[..5] == js && js[..4] == js[..5][..4] && js[..3] == js[..4][..3]
    ensures js[..2] == js[..3][..2] && js[..1] == js[..2][..1] && js[..0] == js[..1][..0] == []
  {
  }

  /** The applied rates of the fixed list: 0.335 in all, of which SZJA is 0.15. */
  lemma InitRates()
    ensures SumOfRates(InitJarulekok()) == 0.335
    ensures SzjaRates(InitJarulekok()) == 0.15
  {
    var js := InitJarulekok();
    FivePrefixes(js);
    assert SumOfRates(js[..1]) == 0.10;
    assert SumOfRates(js[..2]) == 0.13;
    assert SumOfRates(js[..3]) == 0.17;
    assert SumOfRates(js[..4]) == 0.32;
    assert SzjaRates(js[..1]) == Zero;
    assert SzjaRates(js[..2]) == Zero;
    assert SzjaRates(js[..3]) == Zero;
    assert SzjaRates(js[..4]) == 0.15;
  }

  /**
   * After the fixed list the map holds exactly the five keys, so every lookup
   * of the result construction succeeds, and each amount is gross times its rate,
   * SZJA adjusted by the two flags.
   */
  lemma InitAmounts(bruttoBer: real, frissHazas: bool, szjaMentes: bool)
    ensures Amounts(InitJarulekok(), bruttoBer, frissHazas, szjaMentes) == map[
      "nyugdij_bizt" := bruttoBer * 0.10,
      "penzbeni_egeszseg_bizt" := bruttoBer * 0.03,
      "term_egeszseg_bizt" := bruttoBer * 0.04,
      "szja" := (if szjaMentes then Zero else if frissHazas then bruttoBer * 0.15 - FiveThousand else bruttoBer * 0.15),
      "munkaero_piaci" := bruttoBer * 0.015]
  {
    var js := InitJarulekok();
    FivePrefixes(js);
    var a := map[];
    assert Amounts(js[..0], bruttoBer, frissHazas, szjaMentes) == a;
    a := a["nyugdij_bizt" := bruttoBer * 0.10];
    assert Amounts(js[..1], bruttoBer, frissHazas, szjaMentes) == a;
    a := a["penzbeni_egeszseg_bizt" := bruttoBer * 0.03];
    assert Amounts(js[..2], bruttoBer, frissHazas, szjaMentes) == a;
    a := a["term_egeszseg_bizt" := bruttoBer * 0.04];
    assert Amounts(js[..3], bruttoBer, frissHazas, szjaMentes) == a;
    a := a["szja" := Amount(Szja(0.15), bruttoBer, frissHazas, szjaMentes)];
    assert Amounts(js[..4], bruttoBer, frissHazas, szjaMentes) == a;
  }

  // ---------------------------------------------------------------------------
  // The calculation
  // ---------------------------------------------------------------------------

  /** Closed-form statement of the calculation, against which the loop is proved. */
  function Expected(bruttoBer: real, frissHazas: bool, szjaMentes: bool): Result
  {
    if bruttoBer <= Zero then Err(TooLow)
    else if bruttoBer > OneHundredMillion then Err(TooHigh)
    else
      var szja := if szjaMentes then Zero
                  else if frissHazas then bruttoBer * 0.15 - FiveThousand
                  else bruttoBer * 0.15;
      var appliedRates := if szjaMentes then 0.185 else 0.335;
      Ok(Breakdown(
        bruttoBer * 0.10,
        bruttoBer * 0.03,
        bruttoBer * 0.04,
        szja,
        bruttoBer * 0.015,
        bruttoBer * (One - appliedRates) - (if frissHazas then FiveThousand else Zero)))
  }

  /**
   * What the loop leaves behind over the fixed list: every key the result
   * construction looks up is present, and the values and the applied-rate sum
   * give exactly the closed-form breakdown.
   */
  lemma LoopOutcome(bruttoBer: real, frissHazas: bool, szjaMentes: bool, sum: real, calculated: map<string, real>, nettoNum: real)
    requires Zero < bruttoBer <= OneHundredMillion
    requires sum == SumOfRates(InitJarulekok()) - (if szjaMentes then SzjaRates(InitJarulekok()) else Zero)
    requires calculated == Amounts(InitJarulekok(), bruttoBer, frissHazas, szjaMentes)
    requires nettoNum == bruttoBer * (One - sum) - (if frissHazas then FiveThousand else Zero)
    ensures calculated.Keys == AllKeys
    ensures Expected(bruttoBer, frissHazas, szjaMentes) == Ok(Breakdown(
      calculated["nyugdij_bizt"],
      calculated["penzbeni_egeszseg_bizt"],
      calculated["term_egeszseg_bizt"],
      calculated["szja"],
      calculated["munkaero_piaci"],
      nettoNum))
  {
    AmountsKeys(InitJarulekok(), bruttoBer, frissHazas, szjaMentes);
    InitJarulekokShape();
    InitRates();
    InitAmounts(bruttoBer, frissHazas, szjaMentes);
  }

  /**
   * Validates the gross salary, walks the contribution list once accumulating
   * the applied rates and recording each amount, then derives the net salary.
   */
  method CalculateNettoBer(bruttoBer: real, frissHazas: bool, szjaMentes: bool) returns (r: Result)
    ensures r == Expected(bruttoBer, frissHazas, szjaMentes)
  {
    if bruttoBer <= Zero {
      return Err(TooLow);
    }
    if bruttoBer > OneHundredMillion {
      return Err(TooHigh);
    }
    var jarulekok := InitJarulekok();
    var sumOfJarulekok := Zero;
    var calculated: map<string, real> := map[];
    for i := 0 to |jarulekok|
      invariant sumOfJarulekok == SumOfRates(jarulekok[..i]) - (if szjaMentes then SzjaRates(jarulekok[..i]) else Zero)
      invariant calculated == Amounts(jarulekok[..i], bruttoBer, frissHazas, szjaMentes)
    {
      PrefixStep(jarulekok, i, bruttoBer, frissHazas, szjaMentes);
      var jarulek := jarulekok[i];
      match jarulek
      case NyugdijBizt(rate) =>
        sumOfJarulekok := sumOfJarulekok + rate;
        calculated := calculated["nyugdij_bizt" := Portion(bruttoBer, rate)];
      case PenzbeniEgeszsegBizt(rate) =>
        sumOfJarulekok := sumOfJarulekok + rate;
        calculated := calculated["penzbeni_egeszseg_bizt" := Portion(bruttoBer, rate)];
      case TermeszetbeniEgeszsegBizt(rate) =>
        sumOfJarulekok := sumOfJarulekok + rate;
        calculated := calculated["term_egeszseg_bizt" := Portion(bruttoBer, rate)];
      case Szja(rate) =>
        var calculatedSzja;
        sumOfJarulekok := sumOfJarulekok + rate;
        if frissHazas {
          calculatedSzja := Portion(bruttoBer, rate) - FiveThousand;
        } else {
          calculatedSzja := Portion(bruttoBer, rate);
        }
        if szjaMentes {
          calculatedSzja := Zero;
          sumOfJarulekok := sumOfJarulekok - rate;
        }
        calculated := calculated["szja" := calculatedSzja];
      case MunkaeroPiaci(rate) =>
        sumOfJarulekok := sumOfJarulekok + rate;
        calculated := calculated["munkaero_piaci" := Portion(bruttoBer, rate)];
    }
    var nettoNum := bruttoBer * (One - sumOfJarulekok);
    if frissHazas {
      nettoNum := nettoNum - FiveThousand;
    }
    assert jarulekok[..|jarulekok|] == jarulekok;
    LoopOutcome(bruttoBer, frissHazas, szjaMentes, sumOfJarulekok, calculated, nettoNum);
    r := Ok(Breakdown(
      calculated["nyugdij_bizt"],
      calculated["penzbeni_egeszseg_bizt"],
      calculated["term_egeszseg_bizt"],
      calculated["szja"],
      calculated["munkaero_piaci"],
      nettoNum));
  }

  // ---------------------------------------------------------------------------
  // Properties of the calculation
  // ---------------------------------------------------------------------------

  /** A gross salary is rejected exactly when it is not in (0, 100,000,000]; the bound itself is accepted. */
  lemma RejectionBounds(bruttoBer: real, frissHazas: bool, szjaMentes: bool)
    ensures Expected(bruttoBer, frissHazas, szjaMentes) == Err(TooLow) <==> bruttoBer <= Zero
    ensures Expected(bruttoBer, frissHazas, szjaMentes) == Err(TooHigh) <==> bruttoBer > OneHundredMillion
    ensures Expected(bruttoBer, frissHazas, szjaMentes).Ok? <==> Zero < bruttoBer <= OneHundredMillion
  {
  }

  /** The four contributions other than SZJA are gross times their rate, whatever the flags. */
  lemma ContributionsIgnoreFlags(bruttoBer: real, frissHazas: bool, szjaMentes: bool, frissHazas': bool, szjaMentes': bool)
    requires Zero < bruttoBer <= OneHundredMillion
    ensures var a, b := Expected(bruttoBer, frissHazas, szjaMentes), Expected(bruttoBer, frissHazas', szjaMentes');
      a.Ok? && b.Ok? &&
      a.value.nyugdijBizt == b.value.nyugdijBizt == bruttoBer * 0.10 &&
      a.value.penzbeniEgeszsegBizt == b.value.penzbeniEgeszsegBizt == bruttoBer * 0.03 &&
      a.value.termEgeszsegBizt == b.value.termEgeszsegBizt == bruttoBer * 0.04 &&
      a.value.munkaeroPiaci == b.value.munkaeroPiaci == bruttoBer * 0.015
  {
  }

  /** Exemption zeroes SZJA whatever the married flag; otherwise marriage lowers it by exactly 5,000. */
  lemma SzjaAdjustments(bruttoBer: real, frissHazas: bool)
    requires Zero < bruttoBer <= OneHundredMillion
    ensures Expected(bruttoBer, frissHazas, true).value.szja == Zero
    ensures Expected(bruttoBer, false, false).value.szja == bruttoBer * 0.15
    ensures Expected(bruttoBer, true, false).value.szja == Expected(bruttoBer, false, false).value.szja - FiveThousand
  {
  }

  /** Marriage lowers the net salary by exactly 5,000, also when exempt, where SZJA is already zero. */
  lemma MarriedNetDiscount(bruttoBer: real, szjaMentes: bool)
    requires Zero < bruttoBer <= OneHundredMillion
    ensures Expected(bruttoBer, true, szjaMentes).value.netto == Expected(bruttoBer, false, szjaMentes).value.netto - FiveThousand
  {
  }

  /** Exemption gives back exactly the SZJA rate times gross on the net salary. */
  lemma ExemptNet(bruttoBer: real, frissHazas: bool)
    requires Zero < bruttoBer <= OneHundredMillion
    ensures Expected(bruttoBer, frissHazas, true).value.netto == Expected(bruttoBer, frissHazas, false).value.netto + bruttoBer * 0.15
  {
  }

  /**
   * The five amounts and the net salary add up to gross when the married flag
   * is off; with it on, 5,000 is taken off both SZJA and net (only off net when
   * exempt), so the parts fall short of gross.
   */
  lemma BreakdownTotal(bruttoBer: real, frissHazas: bool, szjaMentes: bool)
    requires Zero < bruttoBer <= OneHundredMillion
    ensures var b := Expected(bruttoBer, frissHazas, szjaMentes).value;
      b.nyugdijBizt + b.penzbeniEgeszsegBizt + b.termEgeszsegBizt + b.szja + b.munkaeroPiaci + b.netto
      == bruttoBer - (if !frissHazas then Zero else if szjaMentes then FiveThousand else 2.0 * FiveThousand)
  {
  }

  /**
   * The married discount is not clamped: below a gross of 100,000/3 it drives
   * SZJA negative, and for a small enough gross the net salary too.
   */
  lemma UnclampedMarriedDiscount(bruttoBer: real)
    requires Zero < bruttoBer < 100000.0 / 3.0
    ensures Expected(bruttoBer, true, false).value.szja < Zero
    ensures Expected(1000.0, true, false).value.szja == -4850.0
    ensures Expected(0.5, true, true).value.netto < Zero
  {
  }

  /** Gross 1,000,000 under each flag setting. */
  lemma OneMillionExample()
    ensures Expected(1000000.0, false, false) == Ok(Breakdown(100000.0, 30000.0, 40000.0, 150000.0, 15000.0, 665000.0))
    ensures Expected(1000000.0, true, false) == Ok(Breakdown(100000.0, 30000.0, 40000.0, 145000.0, 15000.0, 660000.0))
    ensures Expected(1000000.0, false, true) == Ok(Breakdown(100000.0, 30000.0, 40000.0, 0.0, 15000.0, 815000.0))
    ensures Expected(1000000.0, true, true) == Ok(Breakdown(100000.0, 30000.0, 40000.0, 0.0, 15000.0, 810000.0))
  {
  }
}
