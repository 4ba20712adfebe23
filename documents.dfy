/**
  Schemaless documents as the document store hands them to the route
  handlers: a document is a map from field names to values, and a value is a
  string, a number, a boolean, null, a list, a nested document or an opaque
  store-generated object identifier.
*/
module Documents {
  import opened Wrappers

  datatype Value =
    | VStr(s: string)
    | VInt(i: int)
    | VFloat(r: real)
    | VBool(b: bool)
    | VNull
    | VList(elems: seq<Value>)
    | VMap(fields: map<string, Value>)
    | VObjectId(hex: string)

  type Document = map<string, Value>

  predicate IsDigits(s: string) {
    forall k :: 0 <= k < |s| ==> '0' <= s[k] <= '9'
  }

  /** The number a string of decimal digits denotes, most significant digit first. */
  function DecimalValue(s: string): nat
    requires IsDigits(s)
    decreases |s|
  {
    if s == [] then 0 else DecimalValue(s[..|s| - 1]) * 10 + (s[|s| - 1] - '0') as nat
  }

  /** Decimal digits of a natural number, most significant first, without leading zeros. */
  function NatToDecimal(n: nat): (r: string)
    ensures |r| > 0 && IsDigits(r)
    ensures DecimalValue(r) == n
    ensures n > 0 ==> r[0] != '0'
    ensures n == 0 ==> r == "0"
    decreases n
  {
    var digit := ['0' + (n % 10) as char];
    if n < 10 then digit
    else
      var init := NatToDecimal(n / 10);
      assert (init + digit)[..|init + digit| - 1] == init;
      init + digit
  }

  /**
    Python's `str()` applied to a value. An object identifier renders as its
    hexadecimal text, a string as itself, and booleans, null and integers the
    way Python prints them. Floats, lists and nested documents get a fixed
    placeholder: their Python rendering is not part of this model.
  */
  function Str(v: Value): (r: string)
    ensures v.VObjectId? ==> r == v.hex
    ensures v.VStr? ==> r == v.s
    ensures v.VInt? && v.i >= 0 ==>
      IsDigits(r) && |r| > 0 && DecimalValue(r) == v.i && (v.i > 0 ==> r[0] != '0')
    ensures v.VInt? && v.i < 0 ==>
      |r| > 1 && r[0] == '-' && IsDigits(r[1..]) && DecimalValue(r[1..]) == -v.i && r[1] != '0'
    ensures v.VBool? ==> r == (if v.b then "True" else "False")
    ensures v.VNull? ==> r == "None"
  {
    match v
    case VObjectId(hex) => hex
    case VStr(s) => s
    case VBool(b) => if b then "True" else "False"
    case VNull => "None"
    case VInt(i) =>
      if i < 0 then
        var digits := NatToDecimal(-i);
        assert ("-" + digits)[1..] == digits;
        "-" + digits
      else NatToDecimal(i)
    case VFloat(_) => "<float>"
    case VList(_) => "<list>"
    case VMap(_) => "<dict>"
  }

  /** Python truthiness of an optional string: present and not empty. */
  predicate Truthy(o: Option<string>) {
    o.Some? && o.value != ""
  }
}
