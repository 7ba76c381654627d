/** The values the backend sends back in its records. A record is an
    ordered sequence of fields, read by position. */
module Values {
  import opened Text

  datatype Option<T> = None | Some(value: T)

  /** A JSON field value as it arrives from the backend. `Undefined` is
      what reading past the end of a record gives. Numbers are integral
      here. */
  datatype Value = Str(s: string) | Num(n: int) | Bool(b: bool) | Null | Undefined

  type Row = seq<Value>

  /** Locale-dependent `new Date(v).toLocaleDateString()`, left
      uninterpreted: every operation that formats a date takes it as a
      parameter. */
  type DateFormatter = Value -> string

  /** `row[i]`: the field at position `i`, or `undefined` past the end. */
  function Field(row: Row, i: nat): (v: Value)
    ensures i < |row| ==> v == row[i]
    ensures |row| <= i ==> v.Undefined?
  {
    if i < |row| then row[i] else Undefined
  }

  /** `String(v)`: a string is itself, a number its decimal form with a
      minus sign exactly when it is negative, and the other values their
      keyword. */
  function StringForm(v: Value): (s: string)
    ensures v.Str? ==> s == v.s
    ensures v.Num? ==> |s| > 0 && (s[0] == '-' <==> v.n < 0)
    ensures v.Num? && v.n >= 0 ==> IsDecimal(s) && DigitsValue(s) == v.n
    ensures v.Num? && v.n < 0 ==> |s| > 1 && IsDecimal(s[1..]) && DigitsValue(s[1..]) == -v.n
    ensures v.Bool? ==> s == if v.b then "true" else "false"
    ensures v.Null? ==> s == "null"
    ensures v.Undefined? ==> s == "undefined"
  {
    match v
    case Str(s) => s
    case Num(n) => IntToString(n)
    case Bool(b) => if b then "true" else "false"
    case Null => "null"
    case Undefined => "undefined"
  }

  /** The text a DOM node shows after `node.textContent = v`: `null` and
      `undefined` both clear it, every other value shows as `String(v)`. */
  function TextContent(v: Value): (t: string)
    ensures v.Null? || v.Undefined? ==> t == ""
    ensures !(v.Null? || v.Undefined?) ==> t == StringForm(v)
  {
    match v
    case Null => ""
    case Undefined => ""
    case _ => StringForm(v)
  }

  /** The serialised form of a number or of a missing field never carries
      the timestamp marker "GMT". */
  lemma NoMarkerInNumbersOrMissing(v: Value)
    requires v.Num? || v.Null? || v.Undefined? || v.Bool?
    ensures !Contains(StringForm(v), "GMT")
  {
    var t := StringForm(v);
    assert forall i :: 0 <= i < |t| ==> t[i] != 'G';
    NotContainsWithoutHead(t, "GMT", 'G');
  }
}
