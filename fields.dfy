/**
 * Resolution of a content struct's field to its form name and its current
 * value (management/editor/elements.go, tagNameFromStructField,
 * tagNameFromStructFieldMulti, valueFromStructField).
 *
 * Go reflection is replaced by a field table: a map from the field's Go
 * name to its `json` struct tag, if it has one, and its current value.
 * Where the Go code panics, the model returns `Failure`.
 */
module EditorFields {
  import opened Wrappers
  import opened GoText

  /** The run-time value of a struct field, by the kinds the editor reads. */
  datatype Value =
    | Str(s: string)                  // a `string` field
    | Int(n: int)                     // a signed integer field (`int64` in content types)
    | Strings(items: seq<string>)     // a `[]string` field
    | Other(typeName: string)         // any other type, by its Go type name

  datatype StructField = StructField(jsonTag: Option<string>, value: Value)

  /** A pointer to a content struct. Go field names are never empty. */
  type Post = m: map<string, StructField> | "" !in m

  /** Why the Go code panics. */
  datatype Panic =
    | MissingField(name: string)      // FieldByName found no such field
    | MissingJsonTag(name: string)    // the field has no `json` tag
    | NotAnInteger(name: string)      // reflect.Value.Int on another kind
    | NotAStringList(name: string)    // Slice(...).Interface().([]string) on another kind

  /**
   * The form name of a field: its `json` tag. An empty field name stands
   * for an element that has no field and resolves to the empty name.
   */
  function TagNameFromStructField(name: string, post: Post): (r: Result<string, Panic>)
    ensures name == "" ==> r == Success("")
    ensures name != "" && name !in post ==> r == Failure(MissingField(name))
    ensures name in post && post[name].jsonTag.None? ==> r == Failure(MissingJsonTag(name))
    ensures name in post && post[name].jsonTag.Some? ==> r == Success(post[name].jsonTag.value)
  {
    if name == "" then Success(name)
    else if name !in post then Failure(MissingField(name))
    else match post[name].jsonTag
      case None => Failure(MissingJsonTag(name))
      case Some(tag) => Success(tag)
  }

  /**
   * The form name of the `i`-th value of a multi-valued field, as
   * gorilla/schema expects it: the tag, a dot, and `i` in decimal.
   */
  function TagNameFromStructFieldMulti(name: string, i: int, post: Post): (r: Result<string, Panic>)
    ensures r.Failure? <==> TagNameFromStructField(name, post).Failure?
    ensures r.Failure? ==> r.error == TagNameFromStructField(name, post).error
    ensures r.Success? ==> r.value == TagNameFromStructField(name, post).value + "." + Decimal(i)
  {
    match TagNameFromStructField(name, post)
    case Failure(e) => Failure(e)
    case Success(tag) => Success(tag + "." + Decimal(i))
  }

  /** Different indices give different multi-value names. */
  lemma MultiNamesDistinct(name: string, i: int, j: int, post: Post)
    requires TagNameFromStructField(name, post).Success?
    requires i != j
    ensures TagNameFromStructFieldMulti(name, i, post).value != TagNameFromStructFieldMulti(name, j, post).value
  {
    var tag := TagNameFromStructField(name, post).value;
    var a, b := tag + "." + Decimal(i), tag + "." + Decimal(j);
    if a == b {
      assert a[|tag| + 1..] == Decimal(i);
      assert b[|tag| + 1..] == Decimal(j);
      DecimalInjective(i, j);
    }
  }

  /** The multi-value name read back: the tag, then the index. */
  lemma MultiNameRoundTrip(name: string, i: int, post: Post)
    requires TagNameFromStructField(name, post).Success?
    ensures var tag := TagNameFromStructField(name, post).value;
      var m := TagNameFromStructFieldMulti(name, i, post).value;
      StartsWith(m, tag + ".") && ParseDecimal(m[|tag| + 1..]) == Some(i)
  {
    var tag := TagNameFromStructField(name, post).value;
    var m := tag + "." + Decimal(i);
    assert m[..|tag| + 1] == tag + ".";
    assert m[|tag| + 1..] == Decimal(i);
    DecimalRoundTrip(i);
  }

  /**
   * The field's reflected value; `None` is Go's invalid (zero) Value,
   * which FieldByName returns for a name the struct does not have.
   */
  function ValueFromStructField(name: string, post: Post): (v: Option<Value>)
    ensures v.Some? <==> name in post
    ensures v.Some? ==> v.value == post[name].value
  {
    if name in post then Some(post[name].value) else None
  }

  /** Go's `reflect.Value.String()`: the string itself, else a placeholder. */
  function ValueString(v: Option<Value>): (s: string)
    ensures v.Some? && v.value.Str? ==> s == v.value.s
    ensures !(v.Some? && v.value.Str?) ==> StartsWith(s, "<") && EndsWith(s, " Value>")
  {
    match v
    case None => "<invalid Value>"
    case Some(Str(s)) => s
    case Some(Int(_)) => "<int64 Value>"
    case Some(Strings(_)) => "<[]string Value>"
    case Some(Other(t)) => "<" + t + " Value>"
  }

  /** Go's `reflect.Value.Int()`, which panics on any other kind. */
  function IntValue(name: string, v: Option<Value>): (r: Result<int, Panic>)
    ensures r.Success? <==> v.Some? && v.value.Int?
    ensures r.Success? ==> r.value == v.value.n
    ensures r.Failure? ==> r.error == NotAnInteger(name)
  {
    if v.Some? && v.value.Int? then Success(v.value.n) else Failure(NotAnInteger(name))
  }

  /** The whole slice held by `v` as a `[]string`; Go panics unless `v` is one (string arrays are not a modelled kind). */
  function StringsValue(name: string, v: Option<Value>): (r: Result<seq<string>, Panic>)
    ensures r.Success? <==> v.Some? && v.value.Strings?
    ensures r.Success? ==> r.value == v.value.items
    ensures r.Failure? ==> r.error == NotAStringList(name)
  {
    if v.Some? && v.value.Strings? then Success(v.value.items) else Failure(NotAStringList(name))
  }
}
