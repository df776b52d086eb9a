/** Display formatting (`lib/utils.ts`). Each formatter is modelled as the
    value it hands to `toFixed`, the number of fraction digits, and the text
    around it; `toFixed` itself is a function parameter. */
module Format {

  /** `${prefix}${value.toFixed(digits)}${suffix}`. */
  datatype Rendered = Rendered(prefix: string, value: real, digits: nat, suffix: string)

  /** The text of a rendering, given `toFixed`. */
  function Text(r: Rendered, toFixed: (real, nat) -> string): string
  {
    r.prefix + toFixed(r.value, r.digits) + r.suffix
  }

  const Billion: real := 1000000000.0
  const Million: real := 1000000.0
  const Thousand: real := 1000.0

  /** `formatVolume` (lines 15-26). */
  function FormatVolume(volume: real): (r: Rendered)
  {
    if volume >= Billion then Rendered("$", volume / Billion, 2, "B")
    else if volume >= Million then Rendered("$", volume / Million, 2, "M")
    else if volume >= Thousand then Rendered("$", volume / Thousand, 2, "K")
    else Rendered("$", volume, 2, "")
  }

  /** The scale a volume suffix stands for. */
  function Scale(suffix: string): real
  {
    if suffix == "B" then Billion else if suffix == "M" then Million else if suffix == "K" then Thousand else 1.0
  }

  /** Every volume is shown with a dollar sign and two decimals; the suffix
      is chosen by inclusive thresholds (a billion is "1.00B", a million
      "1.00M", a thousand "1.00K"); the shown number times the suffix's scale
      is the volume, and below a billion it is under a thousand. */
  lemma VolumeThresholds(volume: real, toFixed: (real, nat) -> string)
    ensures var r := FormatVolume(volume);
            && r.prefix == "$" && r.digits == 2
            && Text(r, toFixed)[0] == '$'
            && (r.suffix == "B" <==> volume >= Billion)
            && (r.suffix == "M" <==> Million <= volume < Billion)
            && (r.suffix == "K" <==> Thousand <= volume < Million)
            && (r.suffix == "" <==> volume < Thousand)
            && r.value * Scale(r.suffix) == volume
            && (r.suffix != "" ==> 1.0 <= r.value)
            && (r.suffix != "B" ==> r.value < 1000.0)
  {
  }

  /** `formatPercent` (lines 28-31). The sign flag defaults to `true` in the
      source, so a call without it is `FormatPercent(percent, true)`. */
  function FormatPercent(percent: real, includeSign: bool): (r: Rendered)
  {
    Rendered(if includeSign && percent > 0.0 then "+" else "", percent, 2, "%")
  }

  /** Whether `toFixed` writes no leading plus sign for `x` (it never does). */
  predicate NoLeadingPlus(toFixed: (real, nat) -> string, x: real, d: nat)
  {
    |toFixed(x, d)| == 0 || toFixed(x, d)[0] != '+'
  }

  /** A percentage shows two decimals and ends with a percent sign; it starts
      with a plus sign exactly when the sign is wanted and the value is
      positive (zero and negative values get none from this function). */
  lemma PercentSign(percent: real, includeSign: bool, toFixed: (real, nat) -> string)
    requires NoLeadingPlus(toFixed, percent, 2)
    ensures var r := FormatPercent(percent, includeSign);
            var t := Text(r, toFixed);
            && r.value == percent && r.digits == 2
            && |t| > 0 && t[|t| - 1] == '%'
            && (t[0] == '+' <==> includeSign && percent > 0.0)
  {
    var r := FormatPercent(percent, includeSign);
    var t := Text(r, toFixed);
    if !(includeSign && percent > 0.0) && |toFixed(percent, 2)| == 0 {
      assert t == "%";
    }
  }

  /** `formatProbability` (lines 33-35). */
  function FormatProbability(probability: real): (r: Rendered)
  {
    Rendered("", probability * 100.0, 0, "%")
  }

  /** A probability is shown as a whole percentage: the value times 100, no
      decimals, no sign of its own, then a percent sign; one half shows as
      50. */
  lemma ProbabilityAsPercent(probability: real, toFixed: (real, nat) -> string)
    ensures var r := FormatProbability(probability);
            var t := Text(r, toFixed);
            && r.value / 100.0 == probability && r.digits == 0
            && t == toFixed(r.value, 0) + "%"
    ensures FormatProbability(0.5).value == 50.0
  {
  }
}
