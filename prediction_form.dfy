/**
 * The wastage-risk scorer of the prediction form.
 *
 * `CalculatePrediction` is the scorer as the form runs it: one rule after the
 * other, each rule that fires adding its weight to a running score and
 * appending its description to a list of factors; then a bounded noise term,
 * a clamp into [0.05, 0.95], a Yes/No label, a confidence tier and, when no
 * rule fired, a single sentinel factor. `Predict` is the same result defined
 * declaratively: the fired factors are the fixed `Catalog` of rules filtered
 * by the per-rule condition `Fires`, and the score is the sum of their
 * weights. The lemmas below are stated about `Predict`.
 */
module PredictionForm {

  /** The form's state. Every field holds the text of an input or a select;
      the empty string means "not chosen yet". */
  datatype FormData = FormData(
    hostelName: string,
    dayOfWeek: string,
    totalStudents: string,
    mealsBooked: string,
    specialEvent: string,
    weatherCondition: string,
    isWeekend: string,
    mealType: string)

  datatype Prediction = Yes | No

  datatype Confidence = Low | Medium | High

  datatype PredictionResult = PredictionResult(
    probability: real,
    prediction: Prediction,
    confidence: Confidence,
    factors: seq<string>)

  /** One scoring rule each; the two booking tiers and the two meal types
      are alternatives of one if/else-if. */
  datatype Factor =
    | LowBooking
    | ModerateBooking
    | WeekendEffect
    | SpecialEventDay
    | BadWeather
    | DinnerService
    | BreakfastService
    | HostelPattern

  /** The rules in the order the scorer evaluates them. */
  const Catalog: seq<Factor> :=
    [LowBooking, ModerateBooking, WeekendEffect, SpecialEventDay,
     BadWeather, DinnerService, BreakfastService, HostelPattern]

  /** The one hostel with a hostel-specific adjustment. */
  const FlaggedHostel: string := "Dwaraka Hostel"

  /** The factor list reported when no rule fired. */
  const NormalConditions: string := "Normal operating conditions"

  /** The text a rule records when it fires. */
  function Description(f: Factor): (d: string)
    ensures d != "" && d != NormalConditions
  {
    match f
    case LowBooking => "Low booking rate (<60%)"
    case ModerateBooking => "Moderate booking rate (60-80%)"
    case WeekendEffect => "Weekend effect"
    case SpecialEventDay => "Special event day"
    case BadWeather => "Bad weather conditions"
    case DinnerService => "Dinner service (higher waste tendency)"
    case BreakfastService => "Breakfast service"
    case HostelPattern => "Hostel-specific pattern"
  }

  /** What a rule adds to the score when it fires: every rule raises the
      risk, and none by more than 0.4. */
  function Weight(f: Factor): (w: real)
    ensures 0.05 <= w <= 0.4
  {
    match f
    case LowBooking => 0.4
    case ModerateBooking => 0.2
    case WeekendEffect => 0.25
    case SpecialEventDay => 0.3
    case BadWeather => 0.15
    case DinnerService => 0.15
    case BreakfastService => 0.05
    case HostelPattern => 0.1
  }

  /** The position of a rule in the evaluation order. */
  function Rank(f: Factor): (k: nat)
    ensures k < |Catalog| && Catalog[k] == f
  {
    match f
    case LowBooking => 0
    case ModerateBooking => 1
    case WeekendEffect => 2
    case SpecialEventDay => 3
    case BadWeather => 4
    case DinnerService => 5
    case BreakfastService => 6
    case HostelPattern => 7
  }

  predicate IsWeekendDay(day: string)
  {
    day == "Saturday" || day == "Sunday"
  }

  /** The condition under which each rule fires, given the form and the
      booking rate, stated for each rule on its own. */
  predicate Fires(f: Factor, form: FormData, rate: real): (fires: bool)
    // the second branch of each else-if only fires when the first does not
    ensures f == ModerateBooking && fires ==> !(rate < 0.6)
    ensures f == BreakfastService && fires ==> form.mealType != "Dinner"
  {
    match f
    case LowBooking => rate < 0.6
    case ModerateBooking => 0.6 <= rate < 0.8
    case WeekendEffect => form.isWeekend == "Yes" || IsWeekendDay(form.dayOfWeek)
    case SpecialEventDay => form.specialEvent == "Yes"
    case BadWeather => form.weatherCondition == "Rainy" || form.weatherCondition == "Stormy"
    case DinnerService => form.mealType == "Dinner"
    case BreakfastService => form.mealType == "Breakfast"
    case HostelPattern => form.hostelName == FlaggedHostel
  }

  /** The rules among the first `k` of the catalog that fire, in catalog
      order. */
  function FiredUpTo(k: nat, form: FormData, rate: real): seq<Factor>
    requires k <= |Catalog|
  {
    if k == 0 then []
    else FiredUpTo(k - 1, form, rate) + (if Fires(Catalog[k - 1], form, rate) then [Catalog[k - 1]] else [])
  }

  /** The rules that fire, in evaluation order. */
  function Fired(form: FormData, rate: real): seq<Factor>
  {
    FiredUpTo(|Catalog|, form, rate)
  }

  function TotalWeight(fs: seq<Factor>): real
  {
    if fs == [] then 0.0 else TotalWeight(fs[..|fs| - 1]) + Weight(fs[|fs| - 1])
  }

  function Descriptions(fs: seq<Factor>): seq<string>
  {
    seq(|fs|, i requires 0 <= i < |fs| => Description(fs[i]))
  }

  /** `mealsBooked / totalStudents` on the parsed counts. */
  function BookingRate(mealsBooked: int, totalStudents: int): (rate: real)
    requires totalStudents > 0
    ensures rate * totalStudents as real == mealsBooked as real
    ensures 0 <= mealsBooked <= totalStudents ==> 0.0 <= rate <= 1.0
  {
    mealsBooked as real / totalStudents as real
  }

  /** Math.min(Math.max(score, 0.05), 0.95). */
  function Clamp(score: real): (p: real)
    ensures 0.05 <= p <= 0.95
    ensures 0.05 <= score <= 0.95 ==> p == score
    ensures score <= 0.05 ==> p == 0.05
    ensures score >= 0.95 ==> p == 0.95
  {
    var raised := if score > 0.05 then score else 0.05;
    if raised < 0.95 then raised else 0.95
  }

  /** The label: a probability of exactly one half is still No. */
  function LabelOf(p: real): (verdict: Prediction)
    ensures verdict == Yes <==> p > 0.5
  {
    if p > 0.5 then Yes else No
  }

  /** The confidence tier, on thresholds of its own; it never contradicts
      the label: High confidence goes with Yes, and Yes never with Low. */
  function ConfidenceOf(p: real): (c: Confidence)
    ensures c == High <==> p > 0.7
    ensures c == Low <==> p <= 0.4
    ensures c == High ==> LabelOf(p) == Yes
    ensures LabelOf(p) == Yes ==> c != Low
  {
    if p > 0.7 then High else if p > 0.4 then Medium else Low
  }

  /** The scorer's result: the clamped sum of the weights of the rules that
      fire plus the noise, labelled and explained. */
  function Predict(form: FormData, totalStudents: int, mealsBooked: int, noise: real): (r: PredictionResult)
    requires totalStudents > 0
    requires 0.0 <= noise < 0.2
    ensures 0.05 <= r.probability <= 0.95
    ensures r.prediction == Yes <==> r.probability > 0.5
    ensures r.confidence == High <==> r.probability > 0.7
    ensures r.confidence == Medium <==> 0.4 < r.probability <= 0.7
    ensures r.confidence == Low <==> r.probability <= 0.4
    ensures r.prediction == Yes ==> r.confidence != Low
    ensures r.factors != []
  {
    var fired := Fired(form, BookingRate(mealsBooked, totalStudents));
    var p := Clamp(TotalWeight(fired) + noise);
    PredictionResult(
      p, LabelOf(p), ConfidenceOf(p),
      if |fired| > 0 then Descriptions(fired) else [NormalConditions])
  }

  // ---------------------------------------------------------------------
  // Step lemmas used by the method and the properties below

  lemma Extend(fs: seq<Factor>, f: Factor)
    ensures TotalWeight(fs + [f]) == TotalWeight(fs) + Weight(f)
    ensures Descriptions(fs + [f]) == Descriptions(fs) + [Description(f)]
  {
    assert (fs + [f])[..|fs|] == fs;
  }

  /** One rule's contribution to the running score and to the count of
      recorded factors. */
  lemma PrefixStep(k: nat, form: FormData, rate: real)
    requires k < |Catalog|
    ensures TotalWeight(FiredUpTo(k + 1, form, rate))
         == TotalWeight(FiredUpTo(k, form, rate))
            + (if Fires(Catalog[k], form, rate) then Weight(Catalog[k]) else 0.0)
    ensures |FiredUpTo(k + 1, form, rate)|
         == |FiredUpTo(k, form, rate)| + (if Fires(Catalog[k], form, rate) then 1 else 0)
  {
    var before := FiredUpTo(k, form, rate);
    if Fires(Catalog[k], form, rate) {
      Extend(before, Catalog[k]);
    } else {
      assert FiredUpTo(k + 1, form, rate) == before;
    }
  }

  /** After the first `k` rules of the catalog: the running score is the
      total weight of the rules among them that fired, and the factor list
      holds their descriptions, in order. */
  ghost predicate Recorded(k: nat, form: FormData, rate: real, score: real, factors: seq<string>)
    requires k <= |Catalog|
  {
    var fired := FiredUpTo(k, form, rate);
    score == TotalWeight(fired) && factors == Descriptions(fired)
  }

  lemma RecordRule(k: nat, form: FormData, rate: real, score: real, factors: seq<string>)
    requires k < |Catalog| && Fires(Catalog[k], form, rate)
    requires Recorded(k, form, rate, score, factors)
    ensures Recorded(k + 1, form, rate, score + Weight(Catalog[k]), factors + [Description(Catalog[k])])
  {
    Extend(FiredUpTo(k, form, rate), Catalog[k]);
  }

  lemma SkipRule(k: nat, form: FormData, rate: real, score: real, factors: seq<string>)
    requires k < |Catalog| && !Fires(Catalog[k], form, rate)
    requires Recorded(k, form, rate, score, factors)
    ensures Recorded(k + 1, form, rate, score, factors)
  {
    assert FiredUpTo(k + 1, form, rate) == FiredUpTo(k, form, rate);
  }

  // ---------------------------------------------------------------------
  // The scorer as the form runs it: one method per block of rules, each
  // adding to the running score and appending to the factor list

  /** Booking-rate tier: below 60% is low, otherwise below 80% is moderate. */
  method BookingTier(form: FormData, bookingRate: real) returns (wasteScore: real, factors: seq<string>)
    ensures Recorded(2, form, bookingRate, wasteScore, factors)
  {
    wasteScore := 0.0;
    factors := [];
    if bookingRate < 0.6 {
      RecordRule(0, form, bookingRate, wasteScore, factors);
      wasteScore := wasteScore + Weight(LowBooking);
      factors := factors + [Description(LowBooking)];
      SkipRule(1, form, bookingRate, wasteScore, factors);
    } else if bookingRate < 0.8 {
      SkipRule(0, form, bookingRate, wasteScore, factors);
      RecordRule(1, form, bookingRate, wasteScore, factors);
      wasteScore := wasteScore + Weight(ModerateBooking);
      factors := factors + [Description(ModerateBooking)];
    } else {
      SkipRule(0, form, bookingRate, wasteScore, factors);
      SkipRule(1, form, bookingRate, wasteScore, factors);
    }
  }

  method WeekendEffects(form: FormData, bookingRate: real, score: real, listed: seq<string>)
    returns (wasteScore: real, factors: seq<string>)
    requires Recorded(2, form, bookingRate, score, listed)
    ensures Recorded(3, form, bookingRate, wasteScore, factors)
  {
    wasteScore, factors := score, listed;
    if form.isWeekend == "Yes" || form.dayOfWeek == "Saturday" || form.dayOfWeek == "Sunday" {
      RecordRule(2, form, bookingRate, wasteScore, factors);
      wasteScore := wasteScore + Weight(WeekendEffect);
      factors := factors + [Description(WeekendEffect)];
    } else {
      SkipRule(2, form, bookingRate, wasteScore, factors);
    }
  }

  method SpecialEvents(form: FormData, bookingRate: real, score: real, listed: seq<string>)
    returns (wasteScore: real, factors: seq<string>)
    requires Recorded(3, form, bookingRate, score, listed)
    ensures Recorded(4, form, bookingRate, wasteScore, factors)
  {
    wasteScore, factors := score, listed;
    if form.specialEvent == "Yes" {
      RecordRule(3, form, bookingRate, wasteScore, factors);
      wasteScore := wasteScore + Weight(SpecialEventDay);
      factors := factors + [Description(SpecialEventDay)];
    } else {
      SkipRule(3, form, bookingRate, wasteScore, factors);
    }
  }

  method WeatherImpact(form: FormData, bookingRate: real, score: real, listed: seq<string>)
    returns (wasteScore: real, factors: seq<string>)
    requires Recorded(4, form, bookingRate, score, listed)
    ensures Recorded(5, form, bookingRate, wasteScore, factors)
  {
    wasteScore, factors := score, listed;
    if form.weatherCondition == "Rainy" || form.weatherCondition == "Stormy" {
      RecordRule(4, form, bookingRate, wasteScore, factors);
      wasteScore := wasteScore + Weight(BadWeather);
      factors := factors + [Description(BadWeather)];
    } else {
      SkipRule(4, form, bookingRate, wasteScore, factors);
    }
  }

  /** Meal type: dinner, otherwise breakfast; lunch adds nothing. */
  method MealTypePatterns(form: FormData, bookingRate: real, score: real, listed: seq<string>)
    returns (wasteScore: real, factors: seq<string>)
    requires Recorded(5, form, bookingRate, score, listed)
    ensures Recorded(7, form, bookingRate, wasteScore, factors)
  {
    wasteScore, factors := score, listed;
    if form.mealType == "Dinner" {
      RecordRule(5, form, bookingRate, wasteScore, factors);
      wasteScore := wasteScore + Weight(DinnerService);
      factors := factors + [Description(DinnerService)];
      assert form.mealType != "Breakfast";
      SkipRule(6, form, bookingRate, wasteScore, factors);
    } else if form.mealType == "Breakfast" {
      SkipRule(5, form, bookingRate, wasteScore, factors);
      RecordRule(6, form, bookingRate, wasteScore, factors);
      wasteScore := wasteScore + Weight(BreakfastService);
      factors := factors + [Description(BreakfastService)];
    } else {
      SkipRule(5, form, bookingRate, wasteScore, factors);
      SkipRule(6, form, bookingRate, wasteScore, factors);
    }
  }

  method HostelPatterns(form: FormData, bookingRate: real, score: real, listed: seq<string>)
    returns (wasteScore: real, factors: seq<string>)
    requires Recorded(7, form, bookingRate, score, listed)
    ensures Recorded(8, form, bookingRate, wasteScore, factors)
  {
    wasteScore, factors := score, listed;
    if form.hostelName == FlaggedHostel {
      RecordRule(7, form, bookingRate, wasteScore, factors);
      wasteScore := wasteScore + Weight(HostelPattern);
      factors := factors + [Description(HostelPattern)];
    } else {
      SkipRule(7, form, bookingRate, wasteScore, factors);
    }
  }

  /** The whole scorer; the noise is `Math.random() * 0.2`, supplied by the
      caller. */
  method CalculatePrediction(form: FormData, totalStudents: int, mealsBooked: int, noise: real)
    returns (result: PredictionResult)
    requires totalStudents > 0
    requires 0.0 <= noise < 0.2
    ensures result == Predict(form, totalStudents, mealsBooked, noise)
  {
    var bookingRate := mealsBooked as real / totalStudents as real;
    var wasteScore, factors := BookingTier(form, bookingRate);
    wasteScore, factors := WeekendEffects(form, bookingRate, wasteScore, factors);
    wasteScore, factors := SpecialEvents(form, bookingRate, wasteScore, factors);
    wasteScore, factors := WeatherImpact(form, bookingRate, wasteScore, factors);
    wasteScore, factors := MealTypePatterns(form, bookingRate, wasteScore, factors);
    wasteScore, factors := HostelPatterns(form, bookingRate, wasteScore, factors);
    assert bookingRate == BookingRate(mealsBooked, totalStudents);

    // the noise adds to the score but records no factor
    wasteScore := wasteScore + noise;

    var probability := Clamp(wasteScore);
    result := PredictionResult(
      probability,
      if probability > 0.5 then Yes else No,
      if probability > 0.7 then High else if probability > 0.4 then Medium else Low,
      if |factors| > 0 then factors else [NormalConditions]);
  }

  // ---------------------------------------------------------------------
  // Properties of the scorer

  /** A rule is recorded exactly when it fires. */
  lemma {:induction false} FiredUpToMembers(k: nat, form: FormData, rate: real)
    requires k <= |Catalog|
    ensures forall f :: f in FiredUpTo(k, form, rate) <==> Rank(f) < k && Fires(f, form, rate)
  {
    if k > 0 {
      FiredUpToMembers(k - 1, form, rate);
    }
  }

  /** Recorded rules appear in evaluation order, each at most once. */
  lemma {:induction false} FiredUpToOrdered(k: nat, form: FormData, rate: real)
    requires k <= |Catalog|
    ensures forall i :: 0 <= i < |FiredUpTo(k, form, rate)| ==> Rank(FiredUpTo(k, form, rate)[i]) < k
    ensures forall i, j :: 0 <= i < j < |FiredUpTo(k, form, rate)| ==>
              Rank(FiredUpTo(k, form, rate)[i]) < Rank(FiredUpTo(k, form, rate)[j])
  {
    if k > 0 {
      FiredUpToOrdered(k - 1, form, rate);
    }
  }

  /** The fired rules are exactly the rules whose condition holds, listed
      in evaluation order without repetition. */
  lemma FiredExactly(form: FormData, rate: real)
    ensures forall f :: f in Fired(form, rate) <==> Fires(f, form, rate)
    ensures forall i, j :: 0 <= i < j < |Fired(form, rate)| ==>
              Rank(Fired(form, rate)[i]) < Rank(Fired(form, rate)[j])
    ensures forall i, j :: 0 <= i < j < |Fired(form, rate)| ==> Fired(form, rate)[i] != Fired(form, rate)[j]
    ensures Fired(form, rate) == [] <==> forall f :: !Fires(f, form, rate)
  {
    FiredUpToMembers(|Catalog|, form, rate);
    FiredUpToOrdered(|Catalog|, form, rate);
    if Fired(form, rate) != [] {
      assert Fired(form, rate)[0] in Fired(form, rate);
    }
  }

  /** The booking tiers, stated without division: below 60% is
      `10 * booked < 6 * total`, below 80% is `10 * booked < 8 * total`.
      Exactly one tier applies, so a rate of exactly 60% is moderate and a
      rate of exactly 80% adds nothing. */
  lemma BookingTierBands(form: FormData, totalStudents: int, mealsBooked: int)
    requires totalStudents > 0
    ensures var fired := Fired(form, BookingRate(mealsBooked, totalStudents));
      && (LowBooking in fired <==> 10 * mealsBooked < 6 * totalStudents)
      && (ModerateBooking in fired <==> 6 * totalStudents <= 10 * mealsBooked < 8 * totalStudents)
      && !(LowBooking in fired && ModerateBooking in fired)
  {
    var rate := BookingRate(mealsBooked, totalStudents);
    FiredExactly(form, rate);
    RateBelow(mealsBooked, totalStudents, 6);
    RateBelow(mealsBooked, totalStudents, 8);
  }

  /** `booked / total < tenths / 10` exactly when `10 * booked < tenths * total`. */
  lemma RateBelow(mealsBooked: int, totalStudents: int, tenths: int)
    requires totalStudents > 0
    ensures BookingRate(mealsBooked, totalStudents) < tenths as real / 10.0
        <==> 10 * mealsBooked < tenths * totalStudents
  {
    var rate := BookingRate(mealsBooked, totalStudents);
    var t := totalStudents as real;
    assert rate * t == mealsBooked as real;
    if rate < tenths as real / 10.0 {
      assert rate * t < (tenths as real / 10.0) * t;
    } else {
      assert rate * t >= (tenths as real / 10.0) * t;
    }
    assert (10 * mealsBooked) as real == 10.0 * mealsBooked as real;
    assert (tenths * totalStudents) as real == tenths as real * t;
  }

  /** Each rule, in order, adds at most its own weight; the two booking
      tiers and the two meal types exclude each other. So at most six rules
      fire, their weights total at most 1.35, and 1.35 is reached exactly
      when the six heaviest alternatives all fire. */
  lemma ScoreBounds(form: FormData, rate: real)
    ensures 0.0 <= TotalWeight(Fired(form, rate)) <= 1.35
    ensures |Fired(form, rate)| <= 6
    ensures TotalWeight(Fired(form, rate)) == 1.35 <==>
      Fires(LowBooking, form, rate) && Fires(WeekendEffect, form, rate) && Fires(SpecialEventDay, form, rate)
      && Fires(BadWeather, form, rate) && Fires(DinnerService, form, rate) && Fires(HostelPattern, form, rate)
  {
    var w2, n2 := TotalWeight(FiredUpTo(2, form, rate)), |FiredUpTo(2, form, rate)|;
    var w3, n3 := TotalWeight(FiredUpTo(3, form, rate)), |FiredUpTo(3, form, rate)|;
    var w4, n4 := TotalWeight(FiredUpTo(4, form, rate)), |FiredUpTo(4, form, rate)|;
    var w5, n5 := TotalWeight(FiredUpTo(5, form, rate)), |FiredUpTo(5, form, rate)|;
    var w7, n7 := TotalWeight(FiredUpTo(7, form, rate)), |FiredUpTo(7, form, rate)|;
    var w8, n8 := TotalWeight(FiredUpTo(8, form, rate)), |FiredUpTo(8, form, rate)|;
    assert FiredUpTo(0, form, rate) == [];
    AlternativesBound(0, form, rate);
    StepBound(2, form, rate);
    StepBound(3, form, rate);
    StepBound(4, form, rate);
    AlternativesBound(5, form, rate);
    StepBound(7, form, rate);
    ChainBound(w2, w3, w4, w5, w7, w8);
  }

  /** One rule adds at most its own weight and at most one factor, and adds
      its full weight exactly when it fires. */
  lemma StepBound(k: nat, form: FormData, rate: real)
    requires k < |Catalog|
    ensures var before, after := FiredUpTo(k, form, rate), FiredUpTo(k + 1, form, rate);
      && TotalWeight(before) <= TotalWeight(after) <= TotalWeight(before) + Weight(Catalog[k])
      && (TotalWeight(after) == TotalWeight(before) + Weight(Catalog[k]) <==> Fires(Catalog[k], form, rate))
      && |before| <= |after| <= |before| + 1
  {
    PrefixStep(k, form, rate);
  }

  /** The arithmetic of `ScoreBounds`: six stages, each adding at most its
      own bound, reach the sum of the bounds exactly when every stage adds
      its full bound. */
  lemma ChainBound(w2: real, w3: real, w4: real, w5: real, w7: real, w8: real)
    requires 0.0 <= w2 <= 0.4 && w2 <= w3 <= w2 + 0.25 && w3 <= w4 <= w3 + 0.3
    requires w4 <= w5 <= w4 + 0.15 && w5 <= w7 <= w5 + 0.15 && w7 <= w8 <= w7 + 0.1
    ensures 0.0 <= w8 <= 1.35
    ensures w8 == 1.35 <==>
      w2 == 0.4 && w3 == w2 + 0.25 && w4 == w3 + 0.3 && w5 == w4 + 0.15 && w7 == w5 + 0.15 && w8 == w7 + 0.1
  {
  }

  /** The two alternatives of one if/else-if (rules k and k + 1) add at most
      the weight of the first, and add it exactly when the first fires. */
  lemma AlternativesBound(k: nat, form: FormData, rate: real)
    requires k == 0 || k == 5
    ensures var before, after := FiredUpTo(k, form, rate), FiredUpTo(k + 2, form, rate);
      && TotalWeight(before) <= TotalWeight(after) <= TotalWeight(before) + Weight(Catalog[k])
      && (TotalWeight(after) == TotalWeight(before) + Weight(Catalog[k]) <==> Fires(Catalog[k], form, rate))
      && |before| <= |after| <= |before| + 1
  {
    if k == 0 {
      PrefixStep(0, form, rate);
      PrefixStep(1, form, rate);
      assert Fires(LowBooking, form, rate) ==> !Fires(ModerateBooking, form, rate);
    } else {
      PrefixStep(5, form, rate);
      PrefixStep(6, form, rate);
      assert Fires(DinnerService, form, rate) ==> !Fires(BreakfastService, form, rate);
    }
  }

  /** Different rules have different descriptions, and none of them is the
      sentinel. */
  lemma DescriptionsDistinct()
    ensures forall f, g :: Description(f) == Description(g) ==> f == g
    ensures forall f :: Description(f) != NormalConditions
  {
  }

  /** The factors reported explain the prediction: a rule's description is
      listed exactly when the rule fired, and the sentinel exactly when no
      rule fired. */
  lemma FactorsExplainRules(form: FormData, totalStudents: int, mealsBooked: int, noise: real)
    requires totalStudents > 0
    requires 0.0 <= noise < 0.2
    ensures var rate := BookingRate(mealsBooked, totalStudents);
            var r := Predict(form, totalStudents, mealsBooked, noise);
      && (forall f :: Description(f) in r.factors <==> Fires(f, form, rate))
      && (NormalConditions in r.factors <==> forall f :: !Fires(f, form, rate))
      && (NormalConditions in r.factors ==> r.factors == [NormalConditions])
      && |r.factors| <= 6
  {
    var rate := BookingRate(mealsBooked, totalStudents);
    var fired := Fired(form, rate);
    var r := Predict(form, totalStudents, mealsBooked, noise);
    FiredExactly(form, rate);
    ScoreBounds(form, rate);
    DescriptionsDistinct();
    if fired == [] {
      assert r.factors == [NormalConditions];
      forall f ensures !Fires(f, form, rate) {
        assert f !in fired;
      }
    } else {
      assert r.factors == Descriptions(fired);
      forall f ensures Description(f) in r.factors <==> f in fired {
        if f in fired {
          var i :| 0 <= i < |fired| && fired[i] == f;
          assert r.factors[i] == Description(f);
        }
      }
      assert Fires(fired[0], form, rate);
    }
  }

  /** The noise moves the probability, never the explanation. */
  lemma NoiseNeverAddsFactor(form: FormData, totalStudents: int, mealsBooked: int, noise1: real, noise2: real)
    requires totalStudents > 0
    requires 0.0 <= noise1 <= noise2 < 0.2
    ensures Predict(form, totalStudents, mealsBooked, noise1).factors
         == Predict(form, totalStudents, mealsBooked, noise2).factors
    ensures Predict(form, totalStudents, mealsBooked, noise1).probability
         <= Predict(form, totalStudents, mealsBooked, noise2).probability
  {
  }

  /** All six weighted rules firing give 1.35 before the noise: the
      probability is the ceiling 0.95 whatever the noise. */
  lemma AllRulesFire(form: FormData, totalStudents: int, mealsBooked: int, noise: real)
    requires totalStudents > 0
    requires 0.0 <= noise < 0.2
    requires 10 * mealsBooked < 6 * totalStudents
    requires form.isWeekend == "Yes" || IsWeekendDay(form.dayOfWeek)
    requires form.specialEvent == "Yes"
    requires form.weatherCondition == "Rainy" || form.weatherCondition == "Stormy"
    requires form.mealType == "Dinner"
    requires form.hostelName == FlaggedHostel
    ensures var r := Predict(form, totalStudents, mealsBooked, noise);
      && r.probability == 0.95 && r.prediction == Yes && r.confidence == High
      && r.factors == [Description(LowBooking), Description(WeekendEffect), Description(SpecialEventDay),
                       Description(BadWeather), Description(DinnerService), Description(HostelPattern)]
  {
    var rate := BookingRate(mealsBooked, totalStudents);
    var fired := [LowBooking, WeekendEffect, SpecialEventDay, BadWeather, DinnerService, HostelPattern];
    SixRulesFired(form, totalStudents, mealsBooked);
    assert TotalWeight(fired) == 1.35 by {
      SixRulesFired(form, totalStudents, mealsBooked);
      ScoreBounds(form, rate);
    }
    var factors := [Description(LowBooking), Description(WeekendEffect), Description(SpecialEventDay),
                    Description(BadWeather), Description(DinnerService), Description(HostelPattern)];
    assert Descriptions(fired) == factors;
    assert Clamp(1.35 + noise) == 0.95;
    assert Predict(form, totalStudents, mealsBooked, noise) == PredictionResult(0.95, Yes, High, factors);
  }

  /** The rules recorded under the conditions of `AllRulesFire`. */
  lemma SixRulesFired(form: FormData, totalStudents: int, mealsBooked: int)
    requires totalStudents > 0
    requires 10 * mealsBooked < 6 * totalStudents
    requires form.isWeekend == "Yes" || IsWeekendDay(form.dayOfWeek)
    requires form.specialEvent == "Yes"
    requires form.weatherCondition == "Rainy" || form.weatherCondition == "Stormy"
    requires form.mealType == "Dinner"
    requires form.hostelName == FlaggedHostel
    ensures Fires(LowBooking, form, BookingRate(mealsBooked, totalStudents))
    ensures Fired(form, BookingRate(mealsBooked, totalStudents))
         == [LowBooking, WeekendEffect, SpecialEventDay, BadWeather, DinnerService, HostelPattern]
  {
    var rate := BookingRate(mealsBooked, totalStudents);
    assert rate < 0.6 by {
      RateBelow(mealsBooked, totalStudents, 6);
    }
    assert FiredUpTo(0, form, rate) == [];
    assert FiredUpTo(1, form, rate) == [LowBooking];
    assert FiredUpTo(2, form, rate) == [LowBooking];
    assert FiredUpTo(3, form, rate) == [LowBooking, WeekendEffect];
    assert FiredUpTo(4, form, rate) == [LowBooking, WeekendEffect, SpecialEventDay];
    assert FiredUpTo(5, form, rate) == [LowBooking, WeekendEffect, SpecialEventDay, BadWeather];
    assert FiredUpTo(7, form, rate) == [LowBooking, WeekendEffect, SpecialEventDay, BadWeather, DinnerService];
  }

  /** No rule firing leaves only the noise: the probability is the floor
      0.05 or the noise, below 0.2, so the label is No with Low confidence. */
  lemma NoRuleFires(form: FormData, totalStudents: int, mealsBooked: int, noise: real)
    requires totalStudents > 0
    requires 0.0 <= noise < 0.2
    requires forall f :: !Fires(f, form, BookingRate(mealsBooked, totalStudents))
    ensures var r := Predict(form, totalStudents, mealsBooked, noise);
      && r.probability == (if noise > 0.05 then noise else 0.05)
      && r.prediction == No && r.confidence == Low
      && r.factors == [NormalConditions]
  {
    FiredExactly(form, BookingRate(mealsBooked, totalStudents));
  }

  // ---------------------------------------------------------------------
  // Worked scenarios, with the noise fixed at 0

  /** A filled-in form for a hostel of 60 students; `booked` is the text of
      the meals-booked field. */
  function ScenarioForm(hostel: string, day: string, booked: string, special: string, weather: string,
                        weekend: string, meal: string): FormData
  {
    FormData(hostel, day, "60", booked, special, weather, weekend, meal)
  }

  /** 57 of 60 booked on a sunny weekday lunch: no rule fires. */
  lemma ScenarioQuietLunch()
    ensures Predict(ScenarioForm("Om Sai Hostel", "Monday", "57", "No", "Sunny", "No", "Lunch"), 60, 57, 0.0)
         == PredictionResult(0.05, No, Low, [NormalConditions])
    ensures !SubmitDisabled(false, ScenarioForm("Om Sai Hostel", "Monday", "57", "No", "Sunny", "No", "Lunch"))
  {
    var form := ScenarioForm("Om Sai Hostel", "Monday", "57", "No", "Sunny", "No", "Lunch");
    assert !(BookingRate(57, 60) < 0.8);
    forall f ensures !Fires(f, form, BookingRate(57, 60)) {
    }
    NoRuleFires(form, 60, 57, 0.0);
    ScenarioFormSubmittable("Om Sai Hostel", "Monday", "57", "No", "Sunny", "No", "Lunch");
  }

  /** 20 of 60 booked for a stormy weekend dinner with a special event at
      the flagged hostel: every weighted rule fires. */
  lemma ScenarioEverythingFires()
    ensures Predict(ScenarioForm(FlaggedHostel, "Sunday", "20", "Yes", "Stormy", "Yes", "Dinner"), 60, 20, 0.0)
         == PredictionResult(0.95, Yes, High,
              ["Low booking rate (<60%)", "Weekend effect", "Special event day", "Bad weather conditions",
               "Dinner service (higher waste tendency)", "Hostel-specific pattern"])
    ensures !SubmitDisabled(false, ScenarioForm(FlaggedHostel, "Sunday", "20", "Yes", "Stormy", "Yes", "Dinner"))
  {
    AllRulesFire(ScenarioForm(FlaggedHostel, "Sunday", "20", "Yes", "Stormy", "Yes", "Dinner"), 60, 20, 0.0);
    ScenarioFormSubmittable(FlaggedHostel, "Sunday", "20", "Yes", "Stormy", "Yes", "Dinner");
  }

  /** 42 of 60 booked (70%) for a cloudy weekday breakfast: moderate
      booking and breakfast, 0.2 + 0.05. */
  lemma ScenarioModerateBreakfast()
    ensures Predict(ScenarioForm("Amrutha Hostel", "Tuesday", "42", "No", "Cloudy", "No", "Breakfast"), 60, 42, 0.0)
         == PredictionResult(0.25, No, Low, ["Moderate booking rate (60-80%)", "Breakfast service"])
    ensures !SubmitDisabled(false, ScenarioForm("Amrutha Hostel", "Tuesday", "42", "No", "Cloudy", "No", "Breakfast"))
  {
    var form := ScenarioForm("Amrutha Hostel", "Tuesday", "42", "No", "Cloudy", "No", "Breakfast");
    var fired := [ModerateBooking, BreakfastService];
    ModerateBreakfastFired();
    assert TotalWeight(fired) == 0.25 by {
      assert fired[..1] == [ModerateBooking];
    }
    var factors := ["Moderate booking rate (60-80%)", "Breakfast service"];
    assert Descriptions(fired) == factors;
    assert Predict(form, 60, 42, 0.0) == PredictionResult(Clamp(0.25), LabelOf(0.25), ConfidenceOf(0.25), factors);
    ScenarioFormSubmittable("Amrutha Hostel", "Tuesday", "42", "No", "Cloudy", "No", "Breakfast");
  }

  lemma ModerateBreakfastFired()
    ensures Fired(ScenarioForm("Amrutha Hostel", "Tuesday", "42", "No", "Cloudy", "No", "Breakfast"), BookingRate(42, 60))
         == [ModerateBooking, BreakfastService]
  {
    var form := ScenarioForm("Amrutha Hostel", "Tuesday", "42", "No", "Cloudy", "No", "Breakfast");
    var rate := BookingRate(42, 60);
    assert 0.6 <= rate < 0.8;
    assert FiredUpTo(2, form, rate) == [ModerateBooking] by {
      assert FiredUpTo(1, form, rate) == [];
    }
    assert FiredUpTo(5, form, rate) == [ModerateBooking] by {
      assert FiredUpTo(3, form, rate) == [ModerateBooking];
      assert FiredUpTo(4, form, rate) == [ModerateBooking];
    }
    assert FiredUpTo(6, form, rate) == [ModerateBooking];
    assert FiredUpTo(7, form, rate) == [ModerateBooking, BreakfastService];
  }

  /** A scenario form with every required field filled in can be submitted. */
  lemma ScenarioFormSubmittable(hostel: string, day: string, booked: string, special: string, weather: string,
                                weekend: string, meal: string)
    requires hostel != "" && day != "" && booked != "" && special != "" && weather != "" && meal != ""
    ensures !SubmitDisabled(false, ScenarioForm(hostel, day, booked, special, weather, weekend, meal))
  {
    assert "" !in RequiredFields(ScenarioForm(hostel, day, booked, special, weather, weekend, meal));
  }

  // ---------------------------------------------------------------------
  // The form around the scorer

  /** Choosing a day also fills in the read-only "Is Weekend" field. */
  function SelectDay(form: FormData, value: string): (r: FormData)
    ensures r.dayOfWeek == value
    ensures r.isWeekend == (if IsWeekendDay(value) then "Yes" else "No")
    ensures r == form.(dayOfWeek := value, isWeekend := r.isWeekend)
  {
    form.(dayOfWeek := value, isWeekend := if value == "Saturday" || value == "Sunday" then "Yes" else "No")
  }

  /** Once a day has been chosen, the weekend rule fires exactly on
      Saturday and Sunday, whatever the field held before. */
  lemma WeekendRuleAfterSelectDay(form: FormData, day: string, rate: real)
    ensures Fires(WeekendEffect, SelectDay(form, day), rate) <==> IsWeekendDay(day)
    ensures SelectDay(form, day).isWeekend == "Yes" <==> IsWeekendDay(day)
  {
    assert "No" != "Yes";
  }

  /** The seven fields the submit button waits for; "Is Weekend" is not
      among them. */
  function RequiredFields(form: FormData): seq<string>
  {
    [form.hostelName, form.dayOfWeek, form.totalStudents, form.mealsBooked,
     form.mealType, form.weatherCondition, form.specialEvent]
  }

  /** The submit button is disabled while a prediction is running and
      while any required field is empty. */
  function SubmitDisabled(loading: bool, form: FormData): (disabled: bool)
    ensures !disabled <==> !loading && "" !in RequiredFields(form)
  {
    loading || form.hostelName == "" || form.dayOfWeek == "" || form.totalStudents == ""
      || form.mealsBooked == "" || form.mealType == "" || form.weatherCondition == "" || form.specialEvent == ""
  }

  /** The button state depends on the required fields alone: the derived
      weekend field never enables or disables it. */
  lemma SubmitIgnoresWeekendField(loading: bool, form: FormData, weekend: string)
    ensures SubmitDisabled(loading, form.(isWeekend := weekend)) == SubmitDisabled(loading, form)
  {
  }
}
