/** The add/edit form: which columns become fields, the create-or-edit wording, each field's
    label, placeholder, widget and displayed value, and the values the form resets to. */
module SampleForm {
  import opened Records
  import opened ColumnLabels
  import DatabaseService

  /** `columns.filter(col => col !== 'id')` */
  function EditableColumns(columns: seq<string>): (editable: seq<string>)
    ensures |editable| <= |columns|
    ensures forall c :: c in editable <==> c in columns && c != "id"
    decreases |columns|
  {
    if |columns| == 0 then []
    else if columns[0] != "id" then [columns[0]] + EditableColumns(columns[1..])
    else EditableColumns(columns[1..])
  }

  /** The filter keeps the remaining columns in schema order. */
  lemma {:induction false} EditableColumnsConcat(a: seq<string>, b: seq<string>)
    ensures EditableColumns(a + b) == EditableColumns(a) + EditableColumns(b)
    decreases |a|
  {
    if |a| == 0 {
      assert a + b == b;
    } else {
      assert (a + b)[0] == a[0];
      assert (a + b)[1..] == a[1..] + b;
      EditableColumnsConcat(a[1..], b);
    }
  }

  /** A schema without "id" is editable as it is. */
  lemma {:induction false} EditableColumnsWithoutId(columns: seq<string>)
    requires "id" !in columns
    ensures EditableColumns(columns) == columns
    decreases |columns|
  {
    if |columns| > 0 {
      EditableColumnsWithoutId(columns[1..]);
      assert columns == [columns[0]] + columns[1..];
    }
  }

  /** The store's schema gives exactly the fields "name" and "description", in that order. */
  lemma EditableColumnsOfSchema()
    ensures EditableColumns(DatabaseService.GetColumns()) == ["name", "description"]
  {
  }

  function Title(sample: Option<Record>): (title: string)
    ensures title == "Edit Record" <==> HasTruthyId(sample)
    ensures title == "Add New Record" <==> !HasTruthyId(sample)
  {
    if HasTruthyId(sample) then "Edit Record" else "Add New Record"
  }

  function SubmitCaption(sample: Option<Record>): (caption: string)
    ensures caption == "Update" <==> HasTruthyId(sample)
    ensures caption == "Create" <==> !HasTruthyId(sample)
  {
    if HasTruthyId(sample) then "Update" else "Create"
  }

  /** Every record of a well-formed store opens the form in edit mode; a sample whose id is
      0 or missing opens it in create mode. */
  lemma StoredRecordsAreEdited(rs: seq<Record>, i: int)
    requires DatabaseService.WellFormed(rs) && 0 <= i < |rs|
    ensures HasTruthyId(Some(rs[i]))
    ensures Title(Some(rs[i])) == "Edit Record" && SubmitCaption(Some(rs[i])) == "Update"
  {
  }

  datatype Widget = Input | Textarea

  /** The "description" column is a textarea, every other column a one-line input. */
  function WidgetFor(column: string): (w: Widget)
    ensures w == Textarea <==> column == "description"
  {
    if column == "description" then Textarea else Input
  }

  /** `field.value || ''`: a falsy value shows as the empty string. */
  function DisplayValue(v: Value): (shown: Value)
    ensures shown == Str("") <==> !Truthy(v)
    ensures Truthy(v) ==> shown == v
    ensures shown != Undefined && shown != Null
  {
    if Truthy(v) then v else Str("")
  }

  /** The values the form is reset to: the sample when one is given, an empty object otherwise. */
  function ResetValues(sample: Option<Record>): (values: Record)
    ensures sample.Some? ==> values == sample.value
    ensures sample.None? ==> !HasTruthyId(Some(values)) && forall c :: Get(values, c) == Undefined
  {
    match sample
    case Some(s) => s
    case None => Record(None, map[])
  }

  datatype Field = Field(name: string, caption: string, placeholder: string, widget: Widget, value: Value)

  function FieldFor(values: Record, column: string): (field: Field)
    ensures field.name == column
    ensures field.caption == Label(column) && '_' !in field.caption
    ensures field.placeholder == "Enter " + field.caption
    ensures field.widget == WidgetFor(column)
    ensures field.value == DisplayValue(Get(values, column))
  {
    Field(column, Label(column), "Enter " + Label(column), WidgetFor(column), DisplayValue(Get(values, column)))
  }

  /** The rendered fields: one per editable column, in schema order, showing the reset values. */
  function FormFields(sample: Option<Record>, columns: seq<string>): (fields: seq<Field>)
    ensures |fields| == |EditableColumns(columns)|
    ensures forall i :: 0 <= i < |fields| ==>
      fields[i] == FieldFor(ResetValues(sample), EditableColumns(columns)[i])
  {
    var editable := EditableColumns(columns);
    seq(|editable|, i requires 0 <= i < |editable| => FieldFor(ResetValues(sample), editable[i]))
  }

  /** No field is ever the id, and a new record's form shows every field empty. */
  lemma {:induction false} NewFormIsBlank(columns: seq<string>)
    ensures forall i :: 0 <= i < |FormFields(None, columns)| ==>
      && FormFields(None, columns)[i].name != "id"
      && FormFields(None, columns)[i].value == Str("")
  {
    var fields := FormFields(None, columns);
    var editable := EditableColumns(columns);
    forall i | 0 <= i < |fields|
      ensures fields[i].name != "id" && fields[i].value == Str("")
    {
      assert editable[i] in editable;
      assert Get(ResetValues(None), editable[i]) == Undefined;
    }
  }

  /** An edit form shows the sample's own values, each through `|| ''`. */
  lemma EditFormShowsSample(sample: Record, columns: seq<string>)
    ensures forall i :: 0 <= i < |FormFields(Some(sample), columns)| ==>
      FormFields(Some(sample), columns)[i].value == DisplayValue(Get(sample, EditableColumns(columns)[i]))
  {
  }
}
