/**
 * The pie chart's slice label (`renderCustomLabel`): the slice name followed
 * by its value as a percentage in parentheses, "name (value%)".
 */
module ChartLabel {
  import opened Wrappers
  import opened DecimalText

  /** The label for a slice with the given name and whole-number value. */
  function RenderCustomLabel(name: string, value: int): (text: string)
    ensures |text| == |name| + |IntToString(value)| + 4
    ensures text[..|name|] == name
    ensures text[|name|..|name| + 2] == " ("
    ensures text[|text| - 2..] == "%)"
    ensures ParseInt(text[|name| + 2..|text| - 2]) == Some(value)
  {
    IntToStringRoundTrip(value);
    LabelParts(name, IntToString(value));
    name + " (" + IntToString(value) + "%)"
  }

  /** Where the name, the opening text, the number and the closing text sit in a label. */
  lemma LabelParts(name: string, number: string)
    ensures var text := name + " (" + number + "%)";
      && |text| == |name| + |number| + 4
      && text[..|name|] == name
      && text[|name|..|name| + 2] == " ("
      && text[|name| + 2..|text| - 2] == number
      && text[|text| - 2..] == "%)"
  {
  }
}
