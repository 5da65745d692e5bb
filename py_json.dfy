/** JSON values as Python's json module hands them to the order-sync core,
    and the Python built-ins the core applies to them: truthiness, dict.get,
    str(), str.strip, str.lower, str.replace, float() and string ordering. */
module PyJson {

  datatype Option<T> = None | Some(value: T)

  /** The Python exceptions the core raises, catches or swallows. */
  datatype PyError =
    | TypeError       // float(None), None[:10], iterating a number, 0 + 'x'
    | ValueError      // float('abc')
    | AttributeError  // .get on something that is not a dict, .lower on a non-string
    | KeyError        // order_data['id'] on a record without 'id'
    | DecodeError     // json.JSONDecodeError
    | IntegrityError  // a UNIQUE or NOT NULL constraint of the store
    | OverflowError   // a Python int outside SQLite's 64-bit INTEGER
    | BindingError    // a list or dict bound as an SQL parameter
    | InvalidToken    // Fernet rejected an encrypted setting

  datatype Result<T> = Ok(value: T) | Err(error: PyError) {
    predicate IsFailure() { Err? }
    function PropagateFailure<U>(): Result<U> requires Err? { Err(error) }
    function Extract(): T requires Ok? { value }
  }

  /** A JSON value; objects are unordered (json.dumps(sort_keys=True) and
      dict lookups never depend on key order). */
  datatype Json =
    | JNull
    | JBool(b: bool)
    | JInt(i: int)
    | JFloat(r: real)
    | JStr(s: string)
    | JArr(items: seq<Json>)
    | JObj(fields: map<string, Json>)

  /** A Python dict decoded from JSON: a WooCommerce order, a billing block, a line item. */
  type Dict = map<string, Json>

  /** Python's bool(): None, False, 0, 0.0, '', [] and {} are false. */
  predicate Truthy(j: Json) {
    match j
    case JNull => false
    case JBool(b) => b
    case JInt(i) => i != 0
    case JFloat(r) => r != 0.0
    case JStr(s) => s != []
    case JArr(xs) => xs != []
    case JObj(m) => m != map[]
  }

  /** dict.get(key, default). */
  function Get(d: Dict, key: string, default: Json): Json {
    if key in d then d[key] else default
  }

  /** A value Python can hash (usable as a dict key): not a list or dict. */
  predicate Hashable(j: Json) { !j.JArr? && !j.JObj? }

  // ---------------------------------------------------------------- strings

  /** str.isspace() for one character: the Unicode whitespace set Python uses. */
  predicate IsSpace(c: char) {
    || c == ' ' || c == '\t' || c == '\n' || c == '\r' || c == '\U{000B}' || c == '\U{000C}'
    || ('\U{001C}' <= c <= '\U{001F}') || c == '\U{0085}' || c == '\U{00A0}' || c == '\U{1680}'
    || ('\U{2000}' <= c <= '\U{200A}') || c == '\U{2028}' || c == '\U{2029}' || c == '\U{202F}'
    || c == '\U{205F}' || c == '\U{3000}'
  }

  /** str.lstrip(): drops the leading whitespace and nothing else. */
  function TrimStart(s: string): (r: string)
    ensures |r| <= |s| && r == s[|s| - |r|..]
    ensures r == [] || !IsSpace(r[0])
    ensures forall i :: 0 <= i < |s| - |r| ==> IsSpace(s[i])
  {
    if s != [] && IsSpace(s[0]) then TrimStart(s[1..]) else s
  }

  /** str.rstrip(): drops the trailing whitespace and nothing else. */
  function TrimEnd(s: string): (r: string)
    ensures |r| <= |s| && r == s[..|r|]
    ensures r == [] || !IsSpace(r[|r| - 1])
    ensures forall i :: |r| <= i < |s| ==> IsSpace(s[i])
  {
    if s != [] && IsSpace(s[|s| - 1]) then TrimEnd(s[..|s| - 1]) else s
  }

  /** r is s with its first a characters, all whitespace, and its trailing
      whitespace removed. */
  predicate StrippedAt(s: string, a: int, r: string) {
    && 0 <= a <= |s| - |r| && r == s[a..a + |r|]
    && (forall i :: 0 <= i < a ==> IsSpace(s[i]))
    && (forall i :: a + |r| <= i < |s| ==> IsSpace(s[i]))
  }

  /** str.strip(): the longest slice of s that neither starts nor ends with
      whitespace, everything cut off on either side being whitespace. */
  function Strip(s: string): (r: string)
    ensures r == [] || (!IsSpace(r[0]) && !IsSpace(r[|r| - 1]))
    ensures exists a :: StrippedAt(s, a, r)
  {
    var t := TrimStart(s);
    StripWitness(s, t, TrimEnd(t));
    TrimEnd(t)
  }

  lemma StripWitness(s: string, t: string, r: string)
    requires |t| <= |s| && t == s[|s| - |t|..]
    requires forall i :: 0 <= i < |s| - |t| ==> IsSpace(s[i])
    requires |r| <= |t| && r == t[..|r|]
    requires forall i :: |r| <= i < |t| ==> IsSpace(t[i])
    ensures StrippedAt(s, |s| - |t|, r)
  {
    var a := |s| - |t|;
    assert t == s[a..];
    assert r == t[..|r|];
    forall k | 0 <= k < |r|
      ensures r[k] == s[a + k]
    {
      assert r[k] == t[k];
    }
    assert r == s[a..a + |r|];
    forall i | a + |r| <= i < |s|
      ensures IsSpace(s[i])
    {
      assert s[i] == t[i - a];
    }
  }

  /** A string that already neither starts nor ends with whitespace is its own strip. */
  lemma StripKeeps(s: string)
    requires s == [] || (!IsSpace(s[0]) && !IsSpace(s[|s| - 1]))
    ensures Strip(s) == s
  {
  }

  /** The lower-case form of one character as far as the five traveler key
      names can tell: A-Z become a-z, everything else is kept. */
  function LowerChar(c: char): char {
    if 'A' <= c <= 'Z' then (c as int + 32) as char else c
  }

  function Lower(s: string): (r: string)
    ensures |r| == |s| && forall i :: 0 <= i < |s| ==> r[i] == LowerChar(s[i])
  {
    if s == [] then [] else [LowerChar(s[0])] + Lower(s[1..])
  }

  /** value.replace('\\"', '"'): every backslash-quote pair, scanned left to
      right without overlap, becomes a plain quote. */
  function Unescape(s: string): (r: string)
    ensures |r| <= |s|
  {
    if |s| >= 2 && s[0] == '\\' && s[1] == '"' then ['"'] + Unescape(s[2..])
    else if s == [] then []
    else [s[0]] + Unescape(s[1..])
  }

  /** A string without backslashes is left as it is. */
  lemma {:induction false} UnescapeWithoutBackslash(s: string)
    requires forall i :: 0 <= i < |s| ==> s[i] != '\\'
    ensures Unescape(s) == s
  {
    if s != [] {
      UnescapeWithoutBackslash(s[1..]);
    }
  }

  /** s is a contiguous part of text (the test SQL's LIKE '%s%' makes). */
  predicate Contains(text: string, s: string) {
    exists i :: 0 <= i <= |text| - |s| && OccursAt(text, s, i)
  }

  predicate OccursAt(text: string, s: string, i: int) {
    0 <= i <= |text| - |s| && text[i..i + |s|] == s
  }

  /** Code-point order of strings: Python's and SQLite's (BINARY collation) `<=`. */
  predicate LexLe(a: string, b: string)
    decreases |a|
  {
    if a == [] then true
    else if b == [] then false
    else if a[0] != b[0] then a[0] < b[0]
    else LexLe(a[1..], b[1..])
  }

  lemma {:induction false} LexLeTotal(a: string, b: string)
    ensures LexLe(a, b) || LexLe(b, a)
    decreases |a|
  {
    if a != [] && b != [] && a[0] == b[0] {
      LexLeTotal(a[1..], b[1..]);
    }
  }

  lemma {:induction false} LexLeTrans(a: string, b: string, c: string)
    requires LexLe(a, b) && LexLe(b, c)
    ensures LexLe(a, c)
    decreases |a|
  {
    if a != [] && b != [] && c != [] && a[0] == b[0] && b[0] == c[0] {
      LexLeTrans(a[1..], b[1..], c[1..]);
    }
  }

  // ---------------------------------------------------------------- str()

  function DigitChar(d: nat): char
    requires d < 10
  {
    ('0' as int + d) as char
  }

  /** Decimal digits of a natural number, most significant first. */
  function NatStr(n: nat): (r: string)
    ensures r != []
    decreases n
  {
    if n < 10 then [DigitChar(n)] else NatStr(n / 10) + [DigitChar(n % 10)]
  }

  /** str(i) for a Python int. */
  function IntStr(i: int): string {
    if i < 0 then "-" + NatStr(-i) else NatStr(i)
  }

  /** str(j), as an f-string renders a value.  Exact for None, booleans,
      ints, strings, integral floats below 10**16 and empty containers;
      other floats, lists and dicts get a fixed stand-in. */
  function Str(j: Json): string {
    match j
    case JNull => "None"
    case JBool(b) => if b then "True" else "False"
    case JInt(i) => IntStr(i)
    case JFloat(r) =>
      if r == r.Floor as real && -10000000000000000.0 < r < 10000000000000000.0
      then IntStr(r.Floor) + ".0" else "<float>"
    case JStr(s) => s
    case JArr(xs) => if xs == [] then "[]" else "<list>"
    case JObj(m) => if m == map[] then "{}" else "<dict>"
  }

  // ---------------------------------------------------------------- float()

  predicate IsDigit(c: char) { '0' <= c <= '9' }

  predicate AllDigits(s: string) { forall i :: 0 <= i < |s| ==> IsDigit(s[i]) }

  function DigitsValue(s: string): nat
    requires AllDigits(s)
  {
    if s == [] then 0
    else 10 * DigitsValue(s[..|s| - 1]) + (s[|s| - 1] as int - '0' as int)
  }

  function Pow10(n: nat): (p: nat)
    ensures p >= 1
  {
    if n == 0 then 1 else 10 * Pow10(n - 1)
  }

  /** Index of the first '.', or |s|. */
  function FindDot(s: string): (k: nat)
    ensures k <= |s| && (k < |s| ==> s[k] == '.')
    ensures forall i :: 0 <= i < k ==> s[i] != '.'
  {
    if s == [] then 0 else if s[0] == '.' then 0 else 1 + FindDot(s[1..])
  }

  /** Index of the first 'e' or 'E', or |s|. */
  function FindExp(s: string): (k: nat)
    ensures k <= |s| && (k < |s| ==> s[k] == 'e' || s[k] == 'E')
    ensures forall i :: 0 <= i < k ==> s[i] != 'e' && s[i] != 'E'
  {
    if s == [] then 0 else if s[0] == 'e' || s[0] == 'E' then 0 else 1 + FindExp(s[1..])
  }

  /** digits [ '.' digits ] with at least one digit in all. */
  function ParseMantissa(m: string): Option<real> {
    var d := FindDot(m);
    var whole := m[..d];
    var frac := if d < |m| then m[d + 1..] else "";
    if AllDigits(whole) && AllDigits(frac) && |whole| + |frac| > 0 then
      Some(DigitsValue(whole) as real + DigitsValue(frac) as real / Pow10(|frac|) as real)
    else None
  }

  /** [ '+' | '-' ] digits */
  function ParseExponent(e: string): Option<int> {
    var neg := e != [] && e[0] == '-';
    var ds := if e != [] && (e[0] == '+' || e[0] == '-') then e[1..] else e;
    if ds != [] && AllDigits(ds) then
      var v: int := DigitsValue(ds);
      Some(if neg then -v else v)
    else None
  }

  function Scale(x: real, e: int): real {
    if e >= 0 then x * Pow10(e) as real else x / Pow10(-e) as real
  }

  function ParseUnsigned(t: string): Option<real> {
    var k := FindExp(t);
    match ParseMantissa(t[..k])
    case None => None
    case Some(m) =>
      if k == |t| then Some(m)
      else match ParseExponent(t[k + 1..])
        case None => None
        case Some(e) => Some(Scale(m, e))
  }

  /** float(s) for a string: surrounding whitespace, an optional sign, a
      decimal mantissa and an optional exponent; None where Python raises ValueError. */
  function ParseFloat(s: string): Option<real> {
    var t := Strip(s);
    if t != [] && (t[0] == '+' || t[0] == '-') then ParseSigned(t) else ParseUnsigned(t)
  }

  function ParseSigned(t: string): Option<real>
    requires t != []
  {
    match ParseUnsigned(t[1..])
    case None => None
    case Some(v) => Some(if t[0] == '-' then -v else v)
  }

  /** float(j) for any JSON value. */
  function ToFloat(j: Json): Result<real> {
    match j
    case JBool(b) => Ok(if b then 1.0 else 0.0)
    case JInt(i) => Ok(i as real)
    case JFloat(r) => Ok(r)
    case JStr(s) => (match ParseFloat(s) case Some(v) => Ok(v) case None => Err(ValueError))
    case _ => Err(TypeError)
  }

  lemma {:induction false} NatStrDigits(n: nat)
    ensures AllDigits(NatStr(n)) && DigitsValue(NatStr(n)) == n
    decreases n
  {
    if n >= 10 {
      NatStrDigits(n / 10);
      var s := NatStr(n / 10) + [DigitChar(n % 10)];
      assert s[..|s| - 1] == NatStr(n / 10);
    }
  }

  /** A run of digits has neither a dot nor an exponent mark. */
  lemma DigitsHaveNoMarks(ds: string)
    requires AllDigits(ds)
    ensures FindExp(ds) == |ds| && FindDot(ds) == |ds|
  {
    assert forall i :: 0 <= i < |ds| ==> ds[i] != 'e' && ds[i] != 'E' && ds[i] != '.';
  }

  /** A run of digits is a mantissa with no fraction. */
  lemma DigitsMantissa(ds: string)
    requires ds != [] && AllDigits(ds)
    ensures ParseMantissa(ds) == Some(DigitsValue(ds) as real)
  {
    DigitsHaveNoMarks(ds);
    assert ds[..|ds|] == ds;
    assert DigitsValue("") == 0 && Pow10(0) == 1;
  }

  /** A plain run of digits is read as its decimal value. */
  lemma DigitsParse(ds: string)
    requires ds != [] && AllDigits(ds)
    ensures ParseUnsigned(ds) == Some(DigitsValue(ds) as real)
  {
    DigitsHaveNoMarks(ds);
    DigitsMantissa(ds);
    assert ds[..|ds|] == ds;
  }

  /** A string whose ends are not whitespace and whose first character is
      no sign is parsed as an unsigned number. */
  lemma ParseFloatPlain(s: string)
    requires s != [] && !IsSpace(s[0]) && !IsSpace(s[|s| - 1]) && s[0] != '+' && s[0] != '-'
    ensures ParseFloat(s) == ParseUnsigned(s)
  {
    StripKeeps(s);
  }

  lemma NatStrParse(m: nat)
    ensures ParseFloat(NatStr(m)) == Some(m as real)
  {
    var ds := NatStr(m);
    NatStrDigits(m);
    DigitsParse(ds);
    assert IsDigit(ds[0]) && IsDigit(ds[|ds| - 1]);
    ParseFloatPlain(ds);
  }

  // ---------------------------------------------------------------- iteration

  /** The elements that `for item in j: item.get(...)` hands to its body
      before anything fails: a list yields its items; an empty string or dict
      yields nothing; a non-empty string or dict yields a string (a character
      or a key) whose `.get` raises AttributeError; anything else is not iterable. */
  function GetLoopItems(j: Json): Result<seq<Json>> {
    match j
    case JArr(xs) => Ok(xs)
    case JStr(s) => if s == [] then Ok([]) else Err(AttributeError)
    case JObj(m) => if m == map[] then Ok([]) else Err(AttributeError)
    case _ => Err(TypeError)
  }
}
