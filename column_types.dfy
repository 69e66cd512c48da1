/** Column-type inference from a sample value, and the value coercion applied on insert. */
module ColumnTypes {
  import opened Wrappers
  import opened Data

  /** The Blueprint column methods inference can choose. */
  datatype ColumnType = Integer | Float | DateTime | Json | String

  function TypeName(t: ColumnType): string {
    match t
    case Integer => "integer"
    case Float => "float"
    case DateTime => "dateTime"
    case Json => "json"
    case String => "string"
  }

  /** PHP is_numeric: numbers, and strings the foreign parser accepts. */
  predicate IsNumeric(v: Value, p: Parsers) {
    v.JInt? || v.JFloat? || (v.JString? && p.isNumeric(v.s))
  }

  predicate IsScalar(v: Value) {
    v.JNull? || v.JBool? || v.JInt? || v.JFloat? || v.JString?
  }

  /** `strtotime($v) !== false`; objects are never handed to it. */
  predicate ParsesAsTime(v: Value, p: Parsers) {
    IsScalar(v) && p.strtotime(v)
  }

  /** resolveRemoteModelColumnType: the first matching rule of the switch. */
  function ResolveColumnType(v: Value, p: Parsers): ColumnType {
    if v.JInt? then Integer
    else if IsNumeric(v, p) then Float
    else match v
      case JArray(e) => if HasKey(e, "date") then DateTime else Json
      case DateTimeObject(_, _) => DateTime
      case OtherObject => Json
      case _ => if ParsesAsTime(v, p) then DateTime else String
  }

  /**
   * The per-value coercion of insertRemoteModelData: an array with a `date`
   * key becomes a DateTime (with its `timezone` when present), a non-array
   * strtotime accepts becomes a DateTime, anything else is kept.
   */
  function Coerce(v: Value, p: Parsers): Value {
    match v
    case JArray(e) =>
      if HasKey(e, "date")
      then DateTimeObject(Lookup(e, "date"), if HasKey(e, "timezone") then Some(Lookup(e, "timezone")) else None)
      else v
    case _ => if ParsesAsTime(v, p) then DateTimeObject(v, None) else v
  }

  /** The rules in order: each type is chosen exactly by its condition and the earlier ones failing. */
  lemma ResolveColumnTypeRules(v: Value, p: Parsers)
    ensures ResolveColumnType(v, p) == Integer <==> v.JInt?
    ensures ResolveColumnType(v, p) == Float <==> !v.JInt? && IsNumeric(v, p)
    ensures ResolveColumnType(v, p) == DateTime <==>
      !IsNumeric(v, p) && ((v.JArray? && HasKey(v.entries, "date")) || v.DateTimeObject? || ParsesAsTime(v, p))
    ensures ResolveColumnType(v, p) == Json <==>
      (v.JArray? && !HasKey(v.entries, "date")) || v.OtherObject?
    ensures ResolveColumnType(v, p) == String <==> IsScalar(v) && !IsNumeric(v, p) && !ParsesAsTime(v, p)
  {
  }

  /**
   * Inference and coercion agree on what is a date: a value neither numeric
   * nor an object is inferred `dateTime` exactly when insertion turns it
   * into a DateTime.
   */
  lemma CoercionAgreesWithInference(v: Value, p: Parsers)
    requires !IsNumeric(v, p) && !v.DateTimeObject? && !v.OtherObject?
    ensures ResolveColumnType(v, p) == DateTime <==> Coerce(v, p).DateTimeObject?
  {
  }

  /** Whatever coercion changes, it changes into a value inferred as `dateTime`. */
  lemma CoercedValuesAreDates(v: Value, p: Parsers)
    requires Coerce(v, p) != v
    ensures Coerce(v, p).DateTimeObject? && ResolveColumnType(Coerce(v, p), p) == DateTime
  {
  }

  /**
   * `{"date": d, "timezone": z}` and a bare date string `d` both become a
   * DateTime built from `d`; the array form also carries its timezone.
   */
  lemma DateCoercionSameDate(d: string, z: Value, p: Parsers)
    requires p.strtotime(JString(d))
    ensures Coerce(JArray([Entry("date", JString(d)), Entry("timezone", z)]), p)
      == DateTimeObject(JString(d), Some(z))
    ensures Coerce(JString(d), p) == DateTimeObject(JString(d), None)
  {
    var e := [Entry("date", JString(d)), Entry("timezone", z)];
    assert Keys(e)[0] == "date" && Keys(e)[1] == "timezone";
    assert HasKey(e, "date") && HasKey(e, "timezone");
    assert Lookup(e, "date") == JString(d);
    assert "date" != "timezone" by { assert "date"[0] != "timezone"[0]; }
    assert Lookup(e, "timezone") == Lookup(e[1..], "timezone") == z;
  }
}
