/** Values and records of the "samples" collection, and JavaScript truthiness on them. */
module Records {

  datatype Option<+T> = None | Some(value: T)

  /** The field values a record can hold once it has been through JSON: no floats, no objects. */
  datatype Value = Undefined | Null | Bool(b: bool) | Num(n: int) | Str(s: string)

  /** A `Sample`: the optional numeric `id` kept apart, every other property in `fields`.
      A key "id" inside `fields` is shadowed by `id` and never read. */
  datatype Record = Record(id: Option<int>, fields: map<string, Value>)

  /** JavaScript truthiness: `undefined`, `null`, `false`, `0` and `""` are falsy. */
  predicate Truthy(v: Value)
  {
    match v
    case Undefined => false
    case Null => false
    case Bool(b) => b
    case Num(n) => n != 0
    case Str(s) => s != ""
  }

  /** Property access `r[key]`; a missing property reads as `undefined`. */
  function Get(r: Record, key: string): (v: Value)
    ensures key == "id" ==> (v == Undefined <==> r.id == None)
    ensures key == "id" && r.id.Some? ==> v == Num(r.id.value)
    ensures key != "id" ==> (v == Undefined <==> key !in r.fields || r.fields[key] == Undefined)
    ensures key != "id" && key in r.fields ==> v == r.fields[key]
  {
    if key == "id" then
      match r.id
      case Some(k) => Num(k)
      case None => Undefined
    else if key in r.fields then r.fields[key]
    else Undefined
  }

  /** `sample?.id` used as a condition: a sample is present and its id is truthy. This is the
      form's `isEditing` and the page's choice between update and create. */
  predicate HasTruthyId(sample: Option<Record>)
  {
    sample.Some? && Truthy(Get(sample.value, "id"))
  }

  /** Only a present, non-zero id passes `sample?.id`; an id of 0 counts as no id. */
  lemma HasTruthyIdExactly(sample: Option<Record>)
    ensures HasTruthyId(sample) <==> sample.Some? && sample.value.id.Some? && sample.value.id.value != 0
  {
  }
}
