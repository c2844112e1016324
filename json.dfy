/** A decoded JSON document, as `response.json()` hands it to the bot, together
    with the two pieces of Python behaviour the bot's messages depend on: the
    name of a value's type and the text `str()` gives for it. */
module Json {

  /** A JSON value after decoding. Objects become dictionaries keyed by
      strings; numbers are integers (fractional numbers are not modelled). */
  datatype Json =
    | JNull
    | JBool(b: bool)
    | JInt(n: int)
    | JString(s: string)
    | JArray(items: seq<Json>)
    | JObject(fields: map<string, Json>)

  /** The name of the Python type the decoder produces for `j`; exactly the
      containers, which cannot be dictionary keys, are `list` and `dict`. */
  function TypeName(j: Json): (name: string)
    ensures (name == "list" || name == "dict") <==> (j.JArray? || j.JObject?)
  {
    match j
    case JNull => "NoneType"
    case JBool(_) => "bool"
    case JInt(_) => "int"
    case JString(_) => "str"
    case JArray(_) => "list"
    case JObject(_) => "dict"
  }

  /** Two values have the same type name exactly when they are of the same kind. */
  lemma TypeNameIdentifiesKind(a: Json, b: Json)
    ensures TypeName(a) == TypeName(b) <==>
              (a.JNull? && b.JNull?) || (a.JBool? && b.JBool?) || (a.JInt? && b.JInt?) ||
              (a.JString? && b.JString?) || (a.JArray? && b.JArray?) || (a.JObject? && b.JObject?)
  {
  }

  /** Python's `str()` of a scalar value: a string is itself, an integer its
      canonical decimal notation, `None` and the booleans their names. Containers get a
      fixed placeholder. */
  function Str(j: Json): (text: string)
    ensures j.JString? ==> text == j.s
    ensures j.JInt? ==> Canonical(text) && ReadDecimal(text) == j.n
    ensures j.JNull? ==> text == "None"
    ensures j.JBool? ==> text == if j.b then "True" else "False"
  {
    match j
    case JNull => "None"
    case JBool(b) => if b then "True" else "False"
    case JInt(n) => Decimal(n)
    case JString(s) => s
    case JArray(_) => "[...]"
    case JObject(_) => "{...}"
  }

  /** Canonical decimal notation, as Python's `str()` of an integer writes it:
      an optional `-`, then digits with no leading zero, and no `-0`. */
  predicate Canonical(s: string)
  {
    |s| > 0 &&
    var digits := if s[0] == '-' then s[1..] else s;
    |digits| > 0 && (forall i :: 0 <= i < |digits| ==> IsDigit(digits[i])) &&
    (digits[0] == '0' ==> s == "0")
  }

  /** Decimal notation of an integer, with a leading `-` when negative. */
  function Decimal(n: int): (text: string)
    ensures Canonical(text) && ReadDecimal(text) == n
    ensures n < 0 ==> text[0] == '-' && text[1] != '0'
    ensures n >= 0 ==> text[0] != '-' && (text[0] == '0' ==> text == "0")
  {
    if n < 0 then
      var digits := Digits(-n);
      assert ("-" + digits)[1..] == digits;
      "-" + digits
    else
      Digits(n)
  }

  /** Decimal digits of a natural number, most significant first. */
  function Digits(n: nat): (text: string)
    ensures |text| > 0 && forall i :: 0 <= i < |text| ==> IsDigit(text[i])
    ensures text[0] == '0' ==> n == 0 && |text| == 1
    ensures ReadDigits(text) == n
    decreases n
  {
    var d := ('0' as int + n % 10) as char;
    if n < 10 then [d]
    else
      var high := Digits(n / 10);
      assert (high + [d])[..|high|] == high;
      high + [d]
  }

  predicate IsDigit(c: char)
  {
    '0' <= c <= '9'
  }

  /** The number a sequence of decimal digits denotes. */
  function ReadDigits(s: string): int
    decreases |s|
  {
    if s == [] then 0 else ReadDigits(s[..|s| - 1]) * 10 + (s[|s| - 1] as int - '0' as int)
  }

  /** The integer a decimal notation with an optional leading `-` denotes. */
  function ReadDecimal(s: string): int
  {
    if |s| > 0 && s[0] == '-' then -ReadDigits(s[1..]) else ReadDigits(s)
  }
}
