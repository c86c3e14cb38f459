/** The human-readable label of a column, shared by the table header and the form:
    `column.replace(/_/g, " ")`. */
module ColumnLabels {

  function Label(column: string): (text: string)
    ensures |text| == |column|
    ensures forall i :: 0 <= i < |column| ==>
      text[i] == if column[i] == '_' then ' ' else column[i]
    ensures '_' !in text
    decreases |column|
  {
    if |column| == 0 then ""
    else [if column[0] == '_' then ' ' else column[0]] + Label(column[1..])
  }

  /** A column name without underscores is its own label ("name", "description"). */
  lemma LabelWithoutUnderscore(column: string)
    requires '_' !in column
    ensures Label(column) == column
  {
  }
}
