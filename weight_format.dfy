// `formatWeight` of the mobile app: a stored weight in grams shown as a
// dash, as grams, or as kilograms, with exactly 100 shown as one kilogram.

module WeightFormat {
  import opened Common

  /** What the function may be handed: nothing, a string, or a number. */
  datatype WeightInput = Missing | Text(text: string) | Numeric(n: Number)

  /** The rendered result: "-", "<x>g" or "<x>kg". */
  datatype Shown = Dash | Grams(grams: real) | Kilograms(kg: real)

  /** JavaScript truthiness of the input, except that the number 0 is let through. */
  predicate Absent(w: WeightInput)
  {
    w.Missing? || w == Text("") || w == Numeric(NaN)
  }

  /** `parseFloat(weight)`: a string is parsed, a number reads back as itself. */
  function Parsed(w: WeightInput): Number
  {
    match w
    case Missing => NaN
    case Text(s) => ParseFloat(s)
    case Numeric(n) => n
  }

  function FormatWeight(w: WeightInput): (r: Shown)
    ensures r.Dash? <==> Absent(w) || Parsed(w).NaN?
    ensures r.Grams? ==> Parsed(w) == Num(r.grams) && r.grams != 100.0 && r.grams < 1000.0
    ensures r.Kilograms? ==> Parsed(w).Num?
    ensures r.Kilograms? && Parsed(w).value == 100.0 ==> r.kg == 1.0
    ensures r.Kilograms? && Parsed(w).value != 100.0 ==> Parsed(w).value >= 1000.0 && r.kg * 1000.0 == Parsed(w).value
  {
    if Absent(w) then Dash
    else
      match Parsed(w)
      case NaN => Dash
      case Num(x) =>
        if x == 100.0 then Kilograms(1.0)
        else if x < 1000.0 then Grams(x)
        else Kilograms(x / 1000.0)
  }

  /** Zero is shown as "0g", while a missing value or the empty string is "-". */
  lemma ZeroIsNotMissing()
    ensures FormatWeight(Numeric(Num(0.0))) == Grams(0.0)
    ensures FormatWeight(Text("0")) == Grams(0.0)
    ensures FormatWeight(Missing) == Dash && FormatWeight(Text("")) == Dash
  {
    assert ParseFloat("0") == Num(0.0) by {
      assert NatToString(0) == "0";
      ParseFloatOfNat(0);
    }
  }

  /** The quirk: 100 g and 1000 g are both shown as "1kg", while 999 g stays in grams. */
  lemma HundredLooksLikeAThousand()
    ensures FormatWeight(Numeric(Num(100.0))) == FormatWeight(Numeric(Num(1000.0))) == Kilograms(1.0)
    ensures FormatWeight(Numeric(Num(999.0))) == Grams(999.0)
  {
  }

  /** A number is never shown with an empty text: numbers other than NaN always get a unit. */
  lemma NumbersAlwaysHaveUnit(x: real)
    ensures !FormatWeight(Numeric(Num(x))).Dash?
    ensures FormatWeight(Numeric(Num(x))).Grams? <==> x < 1000.0 && x != 100.0
  {
  }

  /** A typed whole number of grams is shown the same as that number. */
  lemma DigitsLikeNumber(n: nat)
    ensures FormatWeight(Text(NatToString(n))) == FormatWeight(Numeric(Num(n as real)))
  {
    ParseFloatOfNat(n);
    NatToStringDigits(n);
    SameParseSameShown(Text(NatToString(n)), Numeric(Num(n as real)));
  }

  /** The result depends only on whether the input counts as absent and on what it parses to. */
  lemma SameParseSameShown(v: WeightInput, w: WeightInput)
    requires Absent(v) == Absent(w) && Parsed(v) == Parsed(w)
    ensures FormatWeight(v) == FormatWeight(w)
  {
  }
}
