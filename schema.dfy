/**
 * The record type of an LDAP model: its declared fields, the values an instance
 * holds for them, and the class-level metadata (object classes, base DN, bound alias).
 */
module Schema {
  import opened Wrappers

  /** A field value as the synchroniser sees it. */
  datatype Value = Null | Text(s: string) | Number(n: int)

  /** Python truthiness: `None`, `""` and `0` are false. */
  predicate IsEmpty(v: Value)
  {
    v == Null || v == Text("") || v == Number(0)
  }

  function DigitChar(d: nat): char
    requires d < 10
  {
    "0123456789"[d]
  }

  function Decimal(n: nat): (s: string)
    ensures |s| > 0
  {
    if n < 10 then [DigitChar(n)] else Decimal(n / 10) + [DigitChar(n % 10)]
  }

  /** The text `"%s" % v` produces. */
  function Show(v: Value): string
  {
    match v
    case Null => "None"
    case Text(s) => s
    case Number(n) => if n < 0 then "-" + Decimal(-n) else Decimal(n)
  }

  /**
   * A declared field. `column` is the LDAP attribute name (`db_column`); the empty
   * string stands for a field without one (`None` and `""` are both falsy).
   */
  datatype Field = Field(name: string, column: string, primaryKey: bool)

  predicate Mapped(f: Field)
  {
    f.column != ""
  }

  /** `getattr(obj, name, None)` on a snapshot that may lack the attribute. */
  function ValueAt(values: seq<Value>, i: nat): Value
  {
    if i < |values| then values[i] else Null
  }

  /** The instance's `pk`: the value of the first primary-key field (`None` if there is none). */
  function Pk(fields: seq<Field>, values: seq<Value>): (v: Value)
    requires |values| == |fields|
    ensures forall i :: (0 <= i < |fields| && fields[i].primaryKey
                         && forall j :: 0 <= j < i ==> !fields[j].primaryKey) ==> v == values[i]
    ensures (forall i :: 0 <= i < |fields| ==> !fields[i].primaryKey) ==> v == Null
  {
    if |fields| == 0 then Null
    else if fields[0].primaryKey then values[0]
    else
      var rest := Pk(fields[1..], values[1..]);
      assert forall i :: 1 <= i < |fields| ==> fields[1..][i - 1] == fields[i] && values[1..][i - 1] == values[i];
      rest
  }

  /**
   * The class-level metadata of a model: `_meta.fields` (without the unmapped `dn`
   * field, which every loop skips), `object_classes`, `base_dn` and `bound_alias`.
   */
  datatype ModelClass = ModelClass(
    fields: seq<Field>,
    objectClasses: seq<string>,
    baseDn: string,
    boundAlias: Option<string>)
}
