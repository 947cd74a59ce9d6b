/** Uranium quantities: `format_uranium_kg` and the weapon-equivalent
    figures of the enrichment page. Quantities are exact reals; the
    digits that Python's format specifications print are left to a
    formatter passed in by the caller. */
module Uranium {
  import opened Wrappers
  import opened Text
  import Dataset

  /** Kilograms of 60 % material per potential weapon: the dataset's
      `significant_quantity`, which the enrichment page also writes as
      the literal 42. */
  const SignificantQuantity: real := Dataset.SignificantQuantityThreshold
  /** Kilograms of 90 % material per weapon. */
  const WeaponsGradeQuantity: real := 25.0
  const CurrentGrade: real := 60.0
  const WeaponsGrade: real := 90.0

  datatype Unit = Tonnes | Kilograms

  /** What `format_uranium_kg` prints, before the numbers become digits:
      "N/A", or an amount in a unit with an optional bomb count. */
  datatype UraniumText = NotAvailable | Quantity(unit: Unit, amount: real, bombs: Option<real>)

  /** `format_uranium_kg(value, include_bombs)`; `None` is Python's `None`. */
  function FormatUraniumKg(value: Option<real>, includeBombs: bool): (r: UraniumText)
    ensures r.NotAvailable? <==> value == None || value.value == 0.0
    ensures r.Quantity? ==> (r.unit == Tonnes <==> value.value >= 1000.0)
    ensures r.Quantity? && r.unit == Tonnes ==> r.amount * 1000.0 == value.value
    ensures r.Quantity? && r.unit == Kilograms ==> r.amount == value.value
    ensures r.Quantity? ==> (r.bombs.Some? <==> includeBombs && value.value > 0.0)
    ensures r.Quantity? && r.bombs.Some? ==> r.bombs.value == Bombs60(value.value)
  {
    if value == None || value.value == 0.0 then NotAvailable
    else
      var v := value.value;
      var unit := if v >= 1000.0 then Tonnes else Kilograms;
      var amount := if v >= 1000.0 then v / 1000.0 else v;
      Quantity(unit, amount, if includeBombs && v > 0.0 then Some(v / 42.0) else None)
  }

  /** The text of a formatted quantity; `oneDecimal` and `twoDecimals`
      stand for the `:.1f` and `:.2f` format specifications. */
  function Render(t: UraniumText, oneDecimal: real -> string, twoDecimals: real -> string): (s: string)
    ensures t.NotAvailable? ==> s == "N/A"
    ensures t.Quantity? && t.unit == Tonnes ==> StartsWith(s, twoDecimals(t.amount) + " tonnes")
    ensures t.Quantity? && t.unit == Kilograms ==> StartsWith(s, oneDecimal(t.amount) + " kg")
  {
    match t
    case NotAvailable => "N/A"
    case Quantity(unit, amount, bombs) =>
      var number := if unit == Tonnes then twoDecimals(amount) + " tonnes" else oneDecimal(amount) + " kg";
      var suffix := if bombs.Some? then " (≈ " + oneDecimal(bombs.value) + " bombes potentielles)" else "";
      number + suffix
  }

  /** Whatever the formatter prints, "N/A" appears exactly for a missing
      or zero quantity, and the text ends in ")" exactly when the bomb
      count was appended. */
  lemma RenderDistinguishesCases(t: UraniumText, oneDecimal: real -> string, twoDecimals: real -> string)
    ensures Render(t, oneDecimal, twoDecimals) == "N/A" <==> t.NotAvailable?
    ensures t.Quantity? ==>
      var s := Render(t, oneDecimal, twoDecimals);
      |s| > 0 && (s[|s| - 1] == ')' <==> t.bombs.Some?)
  {
    if t.Quantity? {
      var s := Render(t, oneDecimal, twoDecimals);
      var digits := if t.unit == Tonnes then twoDecimals(t.amount) else oneDecimal(t.amount);
      var unitText := if t.unit == Tonnes then " tonnes" else " kg";
      var suffix := if t.bombs.Some? then " (≈ " + oneDecimal(t.bombs.value) + " bombes potentielles)" else "";
      assert s == digits + unitText + suffix;
      if digits == "" {
        assert s[0] == ' ';
      } else {
        assert |s| > 3;
      }
      if t.bombs.None? {
        assert s == digits + unitText;
        assert s[|s| - 1] == unitText[|unitText| - 1];
      } else {
        assert s[|s| - 1] == suffix[|suffix| - 1];
      }
    }
  }

  /** A negative quantity is formatted in kg and never gets a bomb count. */
  lemma NegativeHasNoBombs(v: real, includeBombs: bool)
    requires v < 0.0
    ensures FormatUraniumKg(Some(v), includeBombs) == Quantity(Kilograms, v, None)
  {
  }

  /** `bombs_60 = current_stock / 42`. */
  function Bombs60(stock: real): (b: real)
    ensures b * SignificantQuantity == stock
  {
    stock / 42.0
  }

  /** `uranium_90 = current_stock * 60 / 90`: the mass at 90 % equivalent
      to `stock` at 60 %. */
  function Uranium90(stock: real): (u: real)
    ensures u * WeaponsGrade == stock * CurrentGrade
  {
    stock * 60.0 / 90.0
  }

  /** `bombs_90 = uranium_90 / 25`. */
  function Bombs90(stock: real): (b: real)
    ensures b * WeaponsGradeQuantity == Uranium90(stock)
    ensures b * 75.0 == stock * 2.0
  {
    Uranium90(stock) / 25.0
  }

  /** Re-enriching to 90 % is counted as yielding more weapons than the
      60 % yardstick. */
  lemma GradeConversionYieldsMore(stock: real)
    requires stock > 0.0
    ensures Bombs90(stock) > Bombs60(stock)
  {
  }

  /** The "Seuil critique atteint" metric: its value and its delta colour. */
  function CriticalThreshold(stock: real): (r: (string, string))
    ensures r.0 == "OUI" <==> stock >= 10.0 * SignificantQuantity
    ensures r.0 == "OUI" || r.0 == "NON"
    ensures r.1 == (if r.0 == "OUI" then "inverse" else "normal")
  {
    var bombs60 := Bombs60(stock);
    (if bombs60 >= 10.0 then "OUI" else "NON", if bombs60 >= 10.0 then "inverse" else "normal")
  }

  /** Once reached, the threshold stays reached as the stock grows. */
  lemma ThresholdMonotone(s: real, t: real)
    requires s <= t && CriticalThreshold(s).0 == "OUI"
    ensures CriticalThreshold(t).0 == "OUI"
  {
  }
}
