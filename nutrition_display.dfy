/** The nutrition card (components/nutrition-display.tsx): absent-safe
    formatting of nutrient readings and the conversion of an as-fed mineral
    percentage into mg per 100 kcal. Arithmetic is over `real`, that is,
    idealised and without floating-point rounding; `toFixed` is kept as the
    number and the digit count it would print. */
module NutritionDisplay {
  import opened Wrappers

  /** The text of one value cell: "-" or `value.toFixed(digits)` followed by
      `suffix`. */
  datatype Cell = Dash | Fixed(value: real, digits: nat, suffix: string)

  /** `formatValue(value, unit = "%")` */
  function FormatValue(value: Option<real>, unit: string := "%"): (c: Cell)
    ensures c.Dash? <==> value.None?
    ensures c.Fixed? ==> c.value == value.value && c.digits == 2 && c.suffix == unit
  {
    match value
    case None => Dash
    case Some(v) => Fixed(v, 2, unit)
  }

  /** `formatMg(value)` */
  function FormatMg(value: Option<real>): (c: Cell)
    ensures c.Dash? <==> value.None?
    ensures c.Fixed? ==> c.value == value.value && c.digits == 1 && c.suffix == " mg"
  {
    match value
    case None => Dash
    case Some(v) => Fixed(v, 1, " mg")
  }

  /** `calculateMgPer100kcal(percentageValue, caloriesPer100g)`: absent when
      either input is absent or the calorie density is 0; otherwise the
      unique `r` with `r * calories == percentage * 100000`. */
  function CalculateMgPer100kcal(percentageValue: Option<real>, caloriesPer100g: Option<real>): (r: Option<real>)
    ensures r.None? <==> percentageValue.None? || caloriesPer100g.None? || caloriesPer100g.value == 0.0
    ensures r.Some? ==> r.value * caloriesPer100g.value == percentageValue.value * 100000.0
  {
    if percentageValue.None? || caloriesPer100g.None? || caloriesPer100g.value == 0.0 then None
    else Some(percentageValue.value * 100000.0 / caloriesPer100g.value)
  }

  /** Step 1 of the derivation in the doc comment: grams of product that
      hold 100 kcal, `100 / calories_per_100g * 100`. */
  function GramsPer100kcal(caloriesPer100g: real): real
    requires caloriesPer100g != 0.0
  {
    100.0 / caloriesPer100g * 100.0
  }

  /** Step 2: milligrams of mineral in `grams` of product,
      `(percentage / 100) * grams * 1000`. */
  function MineralMgIn(percentage: real, grams: real): real {
    (percentage / 100.0) * grams * 1000.0
  }

  /** The simplified formula the code uses is the two-step derivation of its
      doc comment. */
  lemma MgPer100kcalMatchesDerivation(percentage: real, caloriesPer100g: real)
    requires caloriesPer100g != 0.0
    ensures CalculateMgPer100kcal(Some(percentage), Some(caloriesPer100g))
            == Some(MineralMgIn(percentage, GramsPer100kcal(caloriesPer100g)))
  {
    var c := caloriesPer100g;
    var g := 100.0 / c;
    assert g * c == 100.0;
    calc {
      MineralMgIn(percentage, GramsPer100kcal(c));
      (percentage / 100.0) * (g * 100.0) * 1000.0;
      percentage * g * 1000.0;
      { assert percentage * g == percentage * 100.0 / c; }
      percentage * 100000.0 / c;
    }
  }

  /** A non-negative percentage over a positive calorie density gives a
      non-negative density, and a larger percentage never a smaller one. */
  lemma MgPer100kcalMonotone(p: real, q: real, caloriesPer100g: real)
    requires 0.0 <= p <= q && caloriesPer100g > 0.0
    ensures 0.0 <= CalculateMgPer100kcal(Some(p), Some(caloriesPer100g)).value
                <= CalculateMgPer100kcal(Some(q), Some(caloriesPer100g)).value
  {
    var c := caloriesPer100g;
    assert p * 100000.0 <= q * 100000.0;
    assert p * 100000.0 / c <= q * 100000.0 / c;
  }

  /** 1.2 % phosphorus at 85 kcal/100 g is about 1411.76 mg/100 kcal. */
  lemma PhosphorusExample()
    ensures var r := CalculateMgPer100kcal(Some(1.2), Some(85.0));
            r.Some? && 1411.76 <= r.value < 1411.77
  {
  }

  /** `formatMgPer100kcal(percentageValue, caloriesPer100g)`: "-" exactly
      when the density cannot be computed, else the density to one decimal
      followed by " mg". */
  function FormatMgPer100kcal(percentageValue: Option<real>, caloriesPer100g: Option<real>): (c: Cell)
    ensures c.Dash? <==> CalculateMgPer100kcal(percentageValue, caloriesPer100g).None?
    ensures c.Fixed? ==> c.digits == 1 && c.suffix == " mg"
                         && c.value * caloriesPer100g.value == percentageValue.value * 100000.0
  {
    var mgValue := CalculateMgPer100kcal(percentageValue, caloriesPer100g);
    if mgValue.None? then Dash else Fixed(mgValue.value, 1, " mg")
  }

  /** A density cell is formatted exactly as `formatMg` formats the density. */
  lemma FormatMgPer100kcalIsFormatMg(percentageValue: Option<real>, caloriesPer100g: Option<real>)
    ensures FormatMgPer100kcal(percentageValue, caloriesPer100g)
            == FormatMg(CalculateMgPer100kcal(percentageValue, caloriesPer100g))
  {
  }

  /** The bar under a basic nutrient: `Math.min(value ?? 0, 100)`. */
  function ProgressValue(value: Option<real>): (r: real)
    ensures r <= 100.0
    ensures value.None? ==> r == 0.0
    ensures value.Some? ==> r <= value.value && (r == value.value || r == 100.0)
  {
    var percentage := value.GetOr(0.0);
    if percentage < 100.0 then percentage else 100.0
  }

  datatype BadgeVariant = DefaultVariant | SecondaryVariant
  datatype Badge = Badge(variant: BadgeVariant, caption: string)

  /** The badge in the card header: "每100g" (per 100 g) for the "per_100g"
      label format, "百分比" (percentage) for any other or none. */
  function FormatBadge(nutritionFormat: Option<string>): (b: Badge)
    ensures b.caption == "每100g" <==> nutritionFormat == Some("per_100g")
    ensures b.caption == "每100g" || b.caption == "百分比"
    ensures b.variant.DefaultVariant? <==> b.caption == "每100g"
  {
    if nutritionFormat == Some("per_100g") then Badge(DefaultVariant, "每100g")
    else Badge(SecondaryVariant, "百分比")
  }

  /** The fields of a record the card reads. The mineral percentages and
      the label format are read by the card although lib/types.ts does not
      declare them on CannedFood. */
  datatype LabelReadings = LabelReadings(
    protein: Option<real>, fat: Option<real>, fiber: Option<real>,
    ash: Option<real>, moisture: Option<real>, calories: Option<real>,
    phosphorus: Option<real>, calcium: Option<real>, sodium: Option<real>,
    magnesium: Option<real>, potassium: Option<real>,
    nutritionFormat: Option<string>)

  datatype NutrientRow = NutrientRow(caption: string, text: Cell, progress: real)
  datatype MineralRow = MineralRow(caption: string, text: Cell)

  /** `basicNutrients`: protein, fat, fiber, ash and moisture, in that order. */
  function BasicNutrients(f: LabelReadings): seq<(string, Option<real>)> {
    [("蛋白質", f.protein), ("脂肪", f.fat), ("纖維", f.fiber), ("灰分", f.ash), ("水分", f.moisture)]
  }

  /** `minerals`: phosphorus, calcium, sodium, magnesium and potassium. */
  function Minerals(f: LabelReadings): seq<(string, Option<real>)> {
    [("磷", f.phosphorus), ("鈣", f.calcium), ("鈉", f.sodium), ("鎂", f.magnesium), ("鉀", f.potassium)]
  }

  /** `basicNutrients.map(...)`: one row per basic nutrient, with its
      percentage cell (`formatValue` with the default "%" unit) and its bar
      (`Math.min(value ?? 0, 100)`). */
  function BasicNutrientRows(f: LabelReadings): (rows: seq<NutrientRow>)
    ensures |rows| == |BasicNutrients(f)|
    ensures forall i :: 0 <= i < |rows| ==>
              rows[i].caption == BasicNutrients(f)[i].0
              && rows[i].text == FormatValue(BasicNutrients(f)[i].1)
              && rows[i].progress == ProgressValue(BasicNutrients(f)[i].1)
    ensures forall i :: 0 <= i < |rows| ==>
              (rows[i].text.Dash? <==> BasicNutrients(f)[i].1.None?)
              && rows[i].progress <= 100.0
  {
    var ns := BasicNutrients(f);
    seq(|ns|, i requires 0 <= i < |ns| =>
      NutrientRow(ns[i].0, FormatValue(ns[i].1), ProgressValue(ns[i].1)))
  }

  /** `minerals.map(...)`: one mg/100 kcal cell per mineral. */
  function MineralRows(f: LabelReadings): (rows: seq<MineralRow>)
    ensures |rows| == |Minerals(f)|
    ensures forall i :: 0 <= i < |rows| ==>
              rows[i].caption == Minerals(f)[i].0
              && rows[i].text == FormatMgPer100kcal(Minerals(f)[i].1, f.calories)
  {
    var ms := Minerals(f);
    seq(|ms|, i requires 0 <= i < |ms| =>
      MineralRow(ms[i].0, FormatMgPer100kcal(ms[i].1, f.calories)))
  }

  /** Without a usable calorie density every mineral cell is "-": the card
      never divides by zero. */
  lemma MineralsDashWithoutCalories(f: LabelReadings)
    requires f.calories.None? || f.calories == Some(0.0)
    ensures forall i :: 0 <= i < |MineralRows(f)| ==> MineralRows(f)[i].text.Dash?
  {
  }

  /** What the calorie line above the minerals renders: nothing, a bare
      text node, or "熱量: … kcal/100g" with the density. */
  datatype CaloriesLine = NoLine | BareText(text: string) | KcalLine(kcal: real)

  /** The calorie line as written, `{cannedFood.calories && (<p>…</p>)}`:
      React renders nothing for `null` and `undefined` but renders the
      number itself when `&&` stops at the falsy number 0. */
  function CaloriesLineAsWritten(calories: Option<real>): (l: CaloriesLine)
    ensures l.NoLine? <==> calories.None?
    ensures l.BareText? <==> calories == Some(0.0)
    ensures l.BareText? ==> l.text == "0"
    ensures l.KcalLine? ==> l.kcal == calories.value
  {
    match calories
    case None => NoLine
    case Some(c) => if c == 0.0 then BareText("0") else KcalLine(c)
  }

  /** A record with 0 kcal/100 g gets a stray "0" in the card. */
  lemma ZeroCaloriesRendersStrayZero()
    ensures CaloriesLineAsWritten(Some(0.0)) == BareText("0")
  {
  }

  /** The calorie line as evidently intended: shown with the value when a
      non-zero density is present, nothing otherwise. */
  function CaloriesLineShown(calories: Option<real>): (l: CaloriesLine)
    ensures !l.BareText?
    ensures l.KcalLine? <==> calories.Some? && calories.value != 0.0
    ensures l.KcalLine? ==> l.kcal == calories.value
  {
    if calories.Some? && calories.value != 0.0 then KcalLine(calories.value) else NoLine
  }

  /** The line is shown exactly when mineral densities can be computed, and
      agrees with the code as written wherever the latter shows no bare text. */
  lemma CaloriesLineMatchesDensities(calories: Option<real>, percentage: real)
    ensures CaloriesLineShown(calories).KcalLine? <==> CalculateMgPer100kcal(Some(percentage), calories).Some?
    ensures !CaloriesLineAsWritten(calories).BareText? ==> CaloriesLineShown(calories) == CaloriesLineAsWritten(calories)
  {
  }

  /** The whole card: the product name as title, the brand as subtitle,
      the format badge, the basic rows, the calorie line and the mineral
      rows. The calorie line is the corrected one; it differs from the code
      as written only for a record with 0 kcal/100 g. */
  datatype Card = Card(
    title: string, subtitle: string, badge: Badge,
    basic: seq<NutrientRow>, caloriesLine: CaloriesLine, minerals: seq<MineralRow>)

  function NutritionCard(productName: string, brandName: string, f: LabelReadings): (card: Card)
    ensures card.title == productName && card.subtitle == brandName
    ensures card.badge == FormatBadge(f.nutritionFormat)
    ensures card.basic == BasicNutrientRows(f) && card.minerals == MineralRows(f)
    ensures |card.basic| == 5 && |card.minerals| == 5
    ensures card.caloriesLine == CaloriesLineShown(f.calories)
    ensures f.calories != Some(0.0) ==> card.caloriesLine == CaloriesLineAsWritten(f.calories)
    ensures card.caloriesLine.KcalLine? ==> forall i :: 0 <= i < 5 ==>
              card.minerals[i].text.Dash? == Minerals(f)[i].1.None?
  {
    Card(productName, brandName, FormatBadge(f.nutritionFormat), BasicNutrientRows(f),
      CaloriesLineShown(f.calories), MineralRows(f))
  }
}
