/** The energy and macronutrient calculator of the BMR & TDEE widget: the
    Mifflin-St Jeor basal metabolic rate, its scaling by an activity
    multiplier into total daily energy expenditure, the cut / maintain /
    bulk calorie targets, and the protein / fat / carbohydrate split of a
    calorie budget. Every quantity is an exact real or integer; `Round` and
    `Max` are JavaScript's `Math.round` and `Math.max`. */
module BmrTdee {
  import opened JsMath

  datatype Sex = Male | Female

  datatype Activity = Sedentary | Light | Moderate | VeryActive | ExtraActive

  /** Position of an activity level on the form's scale, least active first. */
  function Level(a: Activity): (n: nat)
    ensures n <= 4
  {
    match a
    case Sedentary => 0
    case Light => 1
    case Moderate => 2
    case VeryActive => 3
    case ExtraActive => 4
  }

  /** The fixed activity-multiplier table. */
  function Multiplier(a: Activity): (m: real)
    ensures 1.2 <= m <= 1.9
  {
    match a
    case Sedentary => 1.2
    case Light => 1.375
    case Moderate => 1.55
    case VeryActive => 1.725
    case ExtraActive => 1.9
  }

  /** What the form holds. Age, height and weight are whatever numbers the
      fields produce: nothing guards against zero or negative values. */
  datatype Input = Input(sex: Sex, age: real, heightCm: real, weightKg: real, activity: Activity)

  /** The form's initial state: male, 30 years, 176 cm, 80 kg, moderate. */
  const DefaultInput := Input(Male, 30.0, 176.0, 80.0, Moderate)

  /** Mifflin-St Jeor resting energy expenditure in kcal/day, not rounded. */
  function MifflinStJeor(sex: Sex, weightKg: real, heightCm: real, age: real): (kcal: real)
  {
    var base := 10.0 * weightKg + 6.25 * heightCm - 5.0 * age;
    if sex == Male then base + 5.0 else base - 161.0
  }

  datatype Macros = Macros(proteinG: int, fatG: int, carbsG: int)

  /** Splits a calorie budget into grams: 1.8 g of protein per kg of body
      weight, a quarter of the calories as fat (9 kcal/g), and whatever is
      left, never below zero, as carbohydrate (4 kcal/g). The fat share is
      not rounded before it is subtracted. */
  function MacrosForCalories(weightKg: real, calories: real): (m: Macros)
    ensures m.proteinG as real - 0.5 <= 1.8 * weightKg < m.proteinG as real + 0.5
    ensures m.carbsG >= 0
    ensures m.fatG == Round(calories / 36.0)
    ensures 4.0 * m.proteinG as real + calories / 4.0 <= calories ==>
              m.carbsG == Round(3.0 * calories / 16.0 - m.proteinG as real)
    ensures calories < 4.0 * m.proteinG as real + calories / 4.0 ==> m.carbsG == 0
  {
    var proteinG := Round(weightKg * 1.8);
    var fatKcal := calories * 0.25;
    var fatG := Round(fatKcal / 9.0);
    var carbsKcal := Max(0.0, calories - (proteinG as real * 4.0 + fatKcal));
    var carbsG := Round(carbsKcal / 4.0);
    Macros(proteinG, fatG, carbsG)
  }

  /** Total daily energy expenditure from an already rounded BMR. */
  function Tdee(bmr: int, activity: Activity): (r: int)
    ensures r as real - 0.5 <= bmr as real * Multiplier(activity) < r as real + 0.5
  {
    Round(bmr as real * Multiplier(activity))
  }

  datatype Targets = Targets(cut: int, maintain: int, bulk: int)

  /** A 20% deficit, TDEE itself, and a 15% surplus, each rounded separately. */
  function TargetsFor(tdee: int): (t: Targets)
    ensures t.cut as real - 0.5 <= 0.8 * tdee as real < t.cut as real + 0.5
    ensures t.bulk as real - 0.5 <= 1.15 * tdee as real < t.bulk as real + 0.5
    ensures t.maintain == tdee
    ensures 0 <= tdee ==> t.cut <= t.maintain <= t.bulk
    ensures 4 <= tdee ==> t.cut < t.maintain < t.bulk
    ensures tdee <= 0 ==> t.bulk <= t.maintain <= t.cut
  {
    Targets(Round(tdee as real * 0.8), tdee, Round(tdee as real * 1.15))
  }

  datatype Metrics = Metrics(bmr: int, tdee: int, targets: Targets, macros: Macros)

  /** The memoised computation of the widget, from the form to every figure
      it displays. The macro split shown is the one for the maintain target. */
  function Derived(inp: Input): (m: Metrics)
    ensures m.bmr as real - 0.5 <= MifflinStJeor(inp.sex, inp.weightKg, inp.heightCm, inp.age)
                                 < m.bmr as real + 0.5
    ensures m.tdee == Tdee(m.bmr, inp.activity)
    ensures m.targets == TargetsFor(m.tdee)
    ensures m.targets.maintain == m.tdee
    ensures 0 <= m.tdee ==> m.targets.cut <= m.targets.maintain <= m.targets.bulk
    ensures m.macros == MacrosForCalories(inp.weightKg, m.targets.maintain as real)
  {
    var bmr := Round(MifflinStJeor(inp.sex, inp.weightKg, inp.heightCm, inp.age));
    var tdee := Tdee(bmr, inp.activity);
    var targets := TargetsFor(tdee);
    Metrics(bmr, tdee, targets, MacrosForCalories(inp.weightKg, targets.maintain as real))
  }

  // ---------------------------------------------------------------------
  // BMR

  /** With weight, height and age equal, a man's BMR exceeds a woman's by 166. */
  lemma MaleMinusFemale(weightKg: real, heightCm: real, age: real)
    ensures MifflinStJeor(Male, weightKg, heightCm, age)
            - MifflinStJeor(Female, weightKg, heightCm, age) == 166.0
  {
  }

  /** The same 166 kcal gap survives the rounding of the BMR. */
  lemma RoundedMaleMinusFemale(inp: Input)
    ensures Derived(inp.(sex := Male)).bmr - Derived(inp.(sex := Female)).bmr == 166
  {
  }

  /** BMR is affine: each kilogram adds 10, each centimetre 6.25, each year
      takes away 5, for either sex. */
  lemma BmrAffine(sex: Sex, weightKg: real, heightCm: real, age: real, dw: real, dh: real, da: real)
    ensures MifflinStJeor(sex, weightKg + dw, heightCm + dh, age + da)
            == MifflinStJeor(sex, weightKg, heightCm, age) + 10.0 * dw + 6.25 * dh - 5.0 * da
  {
  }

  /** The rounded BMR does not fall as weight or height grows or as age drops. */
  lemma BmrMonotone(inp: Input, other: Input)
    requires other.sex == inp.sex
    requires inp.weightKg <= other.weightKg && inp.heightCm <= other.heightCm
    requires other.age <= inp.age
    ensures Derived(inp).bmr <= Derived(other).bmr
  {
  }

  // ---------------------------------------------------------------------
  // TDEE and targets

  /** The activity multipliers strictly increase from sedentary to extra active. */
  lemma MultiplierStrictlyIncreasing(a: Activity, b: Activity)
    requires Level(a) < Level(b)
    ensures Multiplier(a) < Multiplier(b)
  {
  }

  /** For a non-negative BMR, a more active level never gives a lower TDEE. */
  lemma TdeeMonotoneInActivity(bmr: int, a: Activity, b: Activity)
    requires 0 <= bmr
    requires Level(a) <= Level(b)
    ensures Tdee(bmr, a) <= Tdee(bmr, b)
  {
  }

  /** With the activity level fixed, a higher BMR never gives a lower TDEE. */
  lemma TdeeMonotoneInBmr(b1: int, b2: int, a: Activity)
    requires b1 <= b2
    ensures Tdee(b1, a) <= Tdee(b2, a)
  {
    var m := Multiplier(a);
    RoundMonotone(b1 as real * m, b2 as real * m);
  }

  /** A higher TDEE never gives a lower cut or bulk target. */
  lemma TargetsMonotone(t1: int, t2: int)
    requires t1 <= t2
    ensures TargetsFor(t1).cut <= TargetsFor(t2).cut
    ensures TargetsFor(t1).bulk <= TargetsFor(t2).bulk
  {
  }

  /** TDEE scales the rounded BMR, not the raw one: for this input the two
      readings differ by one kcal. */
  lemma TdeeUsesRoundedBmr()
    ensures Derived(Input(Male, 30.0, 177.0, 80.6, ExtraActive)).tdee == 3357
    ensures Round(MifflinStJeor(Male, 80.6, 177.0, 30.0) * Multiplier(ExtraActive)) == 3358
  {
  }

  /** Below a TDEE of 4 the ordering of the targets is not strict. */
  lemma TargetsTieBelowFour()
    ensures TargetsFor(1) == Targets(1, 1, 1)
    ensures TargetsFor(3) == Targets(2, 3, 3)
  {
  }

  /** An exact half in the bulk product rounds up: 1.15 * 2730 = 3139.5. */
  lemma BulkHalfRoundsUp()
    ensures TargetsFor(2730).bulk == 3140
  {
  }

  /** For a non-negative TDEE, the cut target meets TDEE exactly when TDEE is
      at most 2, and the bulk target exactly when it is at most 3. */
  lemma TargetsTieExactly(tdee: int)
    requires 0 <= tdee
    ensures TargetsFor(tdee).cut == tdee <==> tdee <= 2
    ensures TargetsFor(tdee).bulk == tdee <==> tdee <= 3
  {
  }

  // ---------------------------------------------------------------------
  // Macro split

  /** Protein depends on body weight alone, never on the calorie budget. */
  lemma ProteinIgnoresCalories(weightKg: real, c1: real, c2: real)
    ensures MacrosForCalories(weightKg, c1).proteinG == MacrosForCalories(weightKg, c2).proteinG
  {
  }

  /** The grams convert back to the budget: to within 6.5 kcal when the
      carbohydrate share is not clamped, and never more than 6.5 kcal below it. */
  lemma MacroEnergyBalance(weightKg: real, calories: real)
    ensures var m := MacrosForCalories(weightKg, calories);
            var kcal := 4.0 * m.proteinG as real + 9.0 * m.fatG as real + 4.0 * m.carbsG as real;
            calories - 6.5 < kcal
            && (4.0 * m.proteinG as real + calories / 4.0 <= calories ==> kcal <= calories + 6.5)
  {
  }

  /** Holding sex and activity fixed, more weight or height or fewer years
      never lowers the TDEE or the cut and bulk targets. */
  lemma PipelineMonotone(inp: Input, other: Input)
    requires other.sex == inp.sex && other.activity == inp.activity
    requires inp.weightKg <= other.weightKg && inp.heightCm <= other.heightCm
    requires other.age <= inp.age
    ensures Derived(inp).tdee <= Derived(other).tdee
    ensures Derived(inp).targets.cut <= Derived(other).targets.cut
    ensures Derived(inp).targets.bulk <= Derived(other).targets.bulk
  {
    BmrMonotone(inp, other);
    var b1, b2 := Derived(inp).bmr, Derived(other).bmr;
    TdeeMonotoneInBmr(b1, b2, inp.activity);
    TargetsMonotone(Tdee(b1, inp.activity), Tdee(b2, inp.activity));
  }

  /** A larger calorie budget never yields fewer grams of fat or carbohydrate. */
  lemma MacrosMonotoneInCalories(weightKg: real, c1: real, c2: real)
    requires c1 <= c2
    ensures MacrosForCalories(weightKg, c1).fatG <= MacrosForCalories(weightKg, c2).fatG
    ensures MacrosForCalories(weightKg, c1).carbsG <= MacrosForCalories(weightKg, c2).carbsG
  {
  }

  // ---------------------------------------------------------------------
  // Whole pipeline

  /** The form's initial state. */
  lemma DefaultScenario()
    ensures Derived(DefaultInput)
            == Metrics(1755, 2720, Targets(2176, 2720, 3128), Macros(144, 76, 366))
  {
  }

  /** Non-positive inputs are not treated specially: they flow through the
      formulas, and the fat grams are not clamped at zero. */
  lemma NonPositiveInputsAreNotGuarded()
    ensures Derived(DefaultInput.(age := 0.0)).bmr == 1905
    ensures Derived(Input(Female, 0.0, 0.0, 0.0, Sedentary))
            == Metrics(-161, -193, Targets(-154, -193, -222), Macros(0, -5, 0))
  {
  }
}
