/** The part of the valibot schema library the front ends' validators use, over JSON-like
    input values: `v.string`, `v.minLength`/`v.maxLength` (which count UTF-16 code units,
    as JavaScript's `length` does), `v.array`, `v.optional`, `v.nullable`, `v.nullish`,
    and the JavaScript string operations the transforms call (`trim`, `parseInt`). A schema
    answers the parsed output or the issues found, in the order valibot reports them. */
module Valibot {
  import opened Base

  /** An input value: what a JSON body or a form field can carry. `undefined` is the
      absence of a key, `Option.None` where a field is read. */
  datatype Json = JNull | JBool(b: bool) | JNum(n: real) | JStr(s: string) | JArr(items: seq<Json>) | JObj(fields: map<string, Json>)

  /** An issue with the schema's own message, or with valibot's default message, which
      names the type the schema `expects`. */
  datatype Issue = Custom(message: string) | DefaultType(expected: string)

  /** An optional or nullable output field: missing, `null`, or a value. */
  datatype Field<+T> = Absent | Null | Present(value: T)

  function IssuesOf<T>(r: Result<T, seq<Issue>>): seq<Issue> {
    if r.Ok? then [] else r.error
  }

  /** The type issue of a schema given a custom message or none. */
  function TypeIssue(expected: string, message: Option<string>): Issue {
    if message.Some? then Custom(message.value) else DefaultType(expected)
  }

  /** `input[key]` of an object; missing for a key the object lacks or a non-object. */
  function Get(input: Json, key: string): Option<Json> {
    if input.JObj? && key in input.fields then Some(input.fields[key]) else None
  }

  // ---------------------------------------------------------------------------------------
  // JavaScript strings

  /** `s.length`: characters outside the Basic Multilingual Plane take two UTF-16 units. */
  function Utf16Length(s: string): (n: nat)
    ensures |s| <= n <= 2 * |s|
  {
    if s == [] then 0 else (if s[0] as int > 0xFFFF then 2 else 1) + Utf16Length(s[1..])
  }

  /** A string of Basic Multilingual Plane characters is as long as it has characters. */
  lemma {:induction false} Utf16LengthBmp(s: string)
    requires forall i | 0 <= i < |s| :: s[i] as int <= 0xFFFF
    ensures Utf16Length(s) == |s|
  {
    if s != [] {
      Utf16LengthBmp(s[1..]);
    }
  }

  /** A string of characters outside the Basic Multilingual Plane is twice as long. */
  lemma {:induction false} Utf16LengthAstral(s: string)
    requires forall i | 0 <= i < |s| :: s[i] as int > 0xFFFF
    ensures Utf16Length(s) == 2 * |s|
  {
    if s != [] {
      Utf16LengthAstral(s[1..]);
    }
  }

  /** The characters `trim` removes and `parseInt` skips: ECMAScript's WhiteSpace
      (tab, vertical tab, form feed, space, no-break space, byte order mark and the
      space separators) and LineTerminator (line feed, carriage return, line and
      paragraph separators). */
  predicate IsJsWhitespace(c: char) {
    var n := c as int;
    n == 0x09 || n == 0x0A || n == 0x0B || n == 0x0C || n == 0x0D || n == 0x20 || n == 0xA0
    || n == 0x1680 || (0x2000 <= n <= 0x200A) || n == 0x2028 || n == 0x2029 || n == 0x202F
    || n == 0x205F || n == 0x3000 || n == 0xFEFF
  }

  /** `s.trimStart()` */
  function TrimStart(s: string): (r: string)
    ensures |r| <= |s| && r == s[|s| - |r|..]
    ensures r != [] ==> !IsJsWhitespace(r[0])
  {
    if s != [] && IsJsWhitespace(s[0]) then TrimStart(s[1..]) else s
  }

  /** `s.trimEnd()` */
  function TrimEnd(s: string): (r: string)
    ensures |r| <= |s| && r == s[..|r|]
    ensures r != [] ==> !IsJsWhitespace(r[|r| - 1])
  {
    if s != [] && IsJsWhitespace(s[|s| - 1]) then TrimEnd(s[..|s| - 1]) else s
  }

  /** `s.trim()` */
  function Trim(s: string): string {
    TrimEnd(TrimStart(s))
  }

  /** `trimStart` removes everything exactly when every character is whitespace. */
  lemma {:induction false} TrimStartEmpty(s: string)
    ensures TrimStart(s) == [] <==> forall i | 0 <= i < |s| :: IsJsWhitespace(s[i])
  {
    if s != [] {
      TrimStartEmpty(s[1..]);
      if IsJsWhitespace(s[0]) {
        assert forall i | 1 <= i < |s| :: s[i] == s[1..][i - 1];
      }
    }
  }

  /** `s.trim().length === 0` holds exactly for strings made of whitespace. */
  lemma TrimEmpty(s: string)
    ensures Trim(s) == [] <==> forall i | 0 <= i < |s| :: IsJsWhitespace(s[i])
  {
    TrimStartEmpty(s);
    TrimEndEmpty(TrimStart(s));
  }

  /** `trimEnd` removes everything exactly when every character is whitespace. */
  lemma {:induction false} TrimEndEmpty(s: string)
    ensures TrimEnd(s) == [] <==> forall i | 0 <= i < |s| :: IsJsWhitespace(s[i])
  {
    if s != [] {
      var n := |s| - 1;
      TrimEndEmpty(s[..n]);
      if IsJsWhitespace(s[n]) {
        assert forall i | 0 <= i < n :: s[i] == s[..n][i];
      }
    }
  }

  predicate IsDigit(c: char) {
    '0' <= c <= '9'
  }

  function DigitValue(c: char): nat
    requires IsDigit(c)
  {
    c as int - '0' as int
  }

  function DigitChar(d: nat): (c: char)
    requires d < 10
    ensures IsDigit(c) && DigitValue(c) == d
  {
    ('0' as int + d) as char
  }

  predicate AllDigits(z: string) {
    forall i | 0 <= i < |z| :: IsDigit(z[i])
  }

  /** The longest prefix of decimal digits. */
  function DigitPrefix(s: string): (z: string)
    ensures |z| <= |s| && z == s[..|z|]
    ensures AllDigits(z)
    ensures |z| < |s| ==> !IsDigit(s[|z|])
  {
    if s != [] && IsDigit(s[0]) then [s[0]] + DigitPrefix(s[1..]) else []
  }

  /** The number a string of decimal digits denotes. */
  function DecimalValue(z: string): nat
    requires AllDigits(z)
  {
    if z == [] then 0 else 10 * DecimalValue(z[..|z| - 1]) + DigitValue(z[|z| - 1])
  }

  /** `String(n)` for a natural number: its decimal digits without leading zeros. */
  function DecimalString(n: nat): (z: string)
    ensures z != [] && AllDigits(z)
  {
    if n < 10 then [DigitChar(n)] else DecimalString(n / 10) + [DigitChar(n % 10)]
  }

  /** `Number.parseInt(s, 10)`: skip leading whitespace, read an optional sign and then the
      longest run of decimal digits; `NaN` (here `None`) when there is none. `-0` is `0`. */
  function ParseInt10(s: string): (r: Option<int>)
    ensures r.None? <==> DigitPrefix(Unsigned(TrimStart(s))) == []
  {
    ParseSigned(TrimStart(s))
  }

  /** `parseInt` of a text without leading whitespace. */
  function ParseSigned(t: string): (r: Option<int>)
    ensures r.None? <==> DigitPrefix(Unsigned(t)) == []
  {
    var z := DigitPrefix(Unsigned(t));
    if z == [] then None
    else if t[0] == '-' then Some(-(DecimalValue(z) as int))
    else Some(DecimalValue(z))
  }

  /** The text after a leading `+` or `-`. */
  function Unsigned(t: string): string {
    if t != [] && (t[0] == '-' || t[0] == '+') then t[1..] else t
  }

  /** Reading a number's decimal digits back gives the number. */
  lemma {:induction false} DecimalRoundTrip(n: nat)
    ensures DecimalValue(DecimalString(n)) == n
  {
    if n >= 10 {
      var z := DecimalString(n);
      assert z[..|z| - 1] == DecimalString(n / 10);
      DecimalRoundTrip(n / 10);
    }
  }

  /** The digit run of a digit string followed by a non-digit is that digit string. */
  lemma {:induction false} DigitPrefixOf(z: string, rest: string)
    requires AllDigits(z)
    requires rest == [] || !IsDigit(rest[0])
    ensures DigitPrefix(z + rest) == z
  {
    if z != [] {
      assert (z + rest)[1..] == z[1..] + rest;
      DigitPrefixOf(z[1..], rest);
    }
  }

  /** `trimStart` leaves a string that starts with a non-space alone. */
  lemma TrimStartKeeps(t: string)
    requires t != [] && !IsJsWhitespace(t[0])
    ensures TrimStart(t) == t
  {
  }

  /** `parseInt` of a digit run followed by a non-digit is the run's value. */
  lemma ParseIntDigits(t: string, z: string, rest: string)
    requires z != [] && AllDigits(z)
    requires rest == [] || !IsDigit(rest[0])
    requires t == z + rest
    ensures ParseInt10(t) == Some(DecimalValue(z))
  {
    assert t[0] == z[0];
    TrimStartKeeps(t);
    DigitPrefixOf(z, rest);
    assert ParseSigned(t) == Some(DecimalValue(z));
  }

  /** A minus sign before a text that starts with a digit negates what `parseInt` reads. */
  lemma ParseIntMinus(t: string, x: string)
    requires x != [] && IsDigit(x[0]) && t == "-" + x
    ensures ParseInt10(x).Some? && ParseInt10(t) == Some(-ParseInt10(x).value)
  {
    assert t[0] == '-' && t[1..] == x;
    TrimStartKeeps(t);
    TrimStartKeeps(x);
    assert Unsigned(t) == x && Unsigned(x) == x;
    assert DigitPrefix(x) != [];
  }

  /** `parseInt` reads a number's decimal form back and stops at the first character that
      is not a digit (`parseInt("12px", 10)` is 12). */
  lemma ParseIntDecimal(n: nat, rest: string)
    requires rest == [] || !IsDigit(rest[0])
    ensures ParseInt10(DecimalString(n) + rest) == Some(n)
  {
    ParseIntDigits(DecimalString(n) + rest, DecimalString(n), rest);
    DecimalRoundTrip(n);
  }

  /** `parseInt` of a text without leading whitespace that starts with a minus sign and
      then a digit. */
  lemma ParseIntSigned(t: string, u: string)
    requires t != [] && t[0] == '-' && TrimStart(t) == t && Unsigned(t) == u && DigitPrefix(u) != []
    ensures ParseInt10(t) == Some(-(DecimalValue(DigitPrefix(u)) as int))
  {
  }

  /** A text that starts with a minus sign has no leading whitespace, and its unsigned part
      is what follows the sign. */
  lemma MinusSign(t: string, x: string)
    requires t == "-" + x
    ensures t != [] && t[0] == '-' && TrimStart(t) == t && Unsigned(t) == x
  {
    assert t[0] == '-' && t[1..] == x;
    TrimStartKeeps(t);
  }

  /** `parseInt` of a minus sign, a digit run and a non-digit is the run's value negated. */
  lemma {:induction false} ParseIntMinusDigits(z: string, rest: string)
    requires z != [] && AllDigits(z)
    requires rest == [] || !IsDigit(rest[0])
    ensures ParseInt10("-" + z + rest) == Some(-(DecimalValue(z) as int))
  {
    var t, u := "-" + z + rest, z + rest;
    assert t == "-" + u;
    MinusSign(t, u);
    DigitPrefixOf(z, rest);
    ParseIntSigned(t, u);
  }

  /** A leading minus sign negates the number `parseInt` reads. */
  lemma {:induction false} ParseIntNegative(n: nat, rest: string)
    requires rest == [] || !IsDigit(rest[0])
    ensures ParseInt10("-" + DecimalString(n) + rest) == Some(-(n as int))
  {
    var z := DecimalString(n);
    var x := z + rest;
    assert x[0] == z[0] && IsDigit(x[0]);
    assert "-" + z + rest == "-" + x;
    ParseIntDecimal(n, rest);
    ParseIntMinus("-" + x, x);
  }

  // ---------------------------------------------------------------------------------------
  // Schemas

  predicate IsStr(v: Option<Json>) {
    v.Some? && v.value.JStr?
  }

  /** The text of a string value, `""` for anything else. */
  function Text(v: Option<Json>): string {
    if IsStr(v) then v.value.s else ""
  }

  /** `v.string(message)` */
  function Str(v: Option<Json>, message: Option<string>): (r: Result<string, seq<Issue>>)
    ensures r.Ok? <==> IsStr(v)
    ensures r.Ok? ==> r.value == v.value.s
    ensures r.Err? ==> r.error == [TypeIssue("string", message)]
  {
    if IsStr(v) then Ok(v.value.s) else Err([TypeIssue("string", message)])
  }

  /** The length bounds of a string pipe; no upper bound when `max` is `None`. */
  predicate Within(s: string, min: nat, max: Option<nat>) {
    min <= Utf16Length(s) && (max.None? || Utf16Length(s) <= max.value)
  }

  /** `v.pipe(v.string(message), v.minLength(min, minMessage), v.maxLength(max, maxMessage))`:
      the type issue alone when the value is not a string, otherwise one issue per length
      check that fails. */
  function StrPipe(v: Option<Json>, message: Option<string>, min: nat, minMessage: string,
                   max: Option<nat>, maxMessage: string): (r: Result<string, seq<Issue>>)
    ensures r.Ok? <==> IsStr(v) && Within(v.value.s, min, max)
    ensures r.Ok? ==> r.value == v.value.s
    ensures !IsStr(v) ==> r == Err([TypeIssue("string", message)])
    ensures IsStr(v) && Utf16Length(v.value.s) < min ==> r.Err? && |r.error| > 0 && r.error[0] == Custom(minMessage)
    ensures IsStr(v) && Utf16Length(v.value.s) < min && (max.None? || Utf16Length(v.value.s) <= max.value) ==>
      r == Err([Custom(minMessage)])
    ensures IsStr(v) && min <= Utf16Length(v.value.s) && max.Some? && Utf16Length(v.value.s) > max.value ==>
      r == Err([Custom(maxMessage)])
  {
    match Str(v, message)
    case Err(e) => Err(e)
    case Ok(s) =>
      var tooLong := max.Some? && Utf16Length(s) > max.value;
      if Utf16Length(s) < min then
        (if tooLong then Err([Custom(minMessage), Custom(maxMessage)]) else Err([Custom(minMessage)]))
      else if tooLong then Err([Custom(maxMessage)])
      else Ok(s)
  }

  predicate AllStrings(items: seq<Json>) {
    forall i | 0 <= i < |items| :: items[i].JStr?
  }

  function StrValue(j: Json): string {
    if j.JStr? then j.s else ""
  }

  /** The type issues of `v.array(v.string())`'s items: one per item that is not a string. */
  function ItemIssues(items: seq<Json>): (issues: seq<Issue>)
    ensures issues == [] <==> AllStrings(items)
  {
    if items == [] then []
    else (if items[0].JStr? then [] else [DefaultType("string")]) + ItemIssues(items[1..])
  }

  /** `v.array(v.string())` */
  function StrArray(v: Option<Json>): (r: Result<seq<string>, seq<Issue>>)
    ensures r.Ok? <==> v.Some? && v.value.JArr? && AllStrings(v.value.items)
    ensures r.Ok? ==>
      |r.value| == |v.value.items| && forall i | 0 <= i < |r.value| :: v.value.items[i] == JStr(r.value[i])
  {
    if v.None? || !v.value.JArr? then Err([DefaultType("Array")])
    else if ItemIssues(v.value.items) != [] then Err(ItemIssues(v.value.items))
    else Ok(Mapped(v.value.items, StrValue))
  }

  /** `v.optional(schema)`: a missing value is accepted and stays missing. */
  function Optional<T>(v: Option<Json>, schema: Option<Json> -> Result<T, seq<Issue>>): (r: Result<Field<T>, seq<Issue>>)
    ensures v.None? ==> r == Ok(Absent)
    ensures v.Some? ==> (r.Ok? <==> schema(v).Ok?)
    ensures v.Some? && r.Ok? ==> r.value == Present(schema(v).value)
    ensures v.Some? && r.Err? ==> r.error == schema(v).error
  {
    if v.None? then Ok(Absent)
    else match schema(v) case Ok(x) => Ok(Present(x)) case Err(e) => Err(e)
  }

  /** `v.optional(schema, default)`: a missing value is replaced by the default, which then
      goes through the schema like any input. */
  function OptionalDefault<T>(v: Option<Json>, default: Json, schema: Option<Json> -> Result<T, seq<Issue>>): (r: Result<T, seq<Issue>>)
    ensures v.None? ==> r == schema(Some(default))
    ensures v.Some? ==> r == schema(v)
  {
    schema(if v.None? then Some(default) else v)
  }

  /** `v.nullish(schema, null)`: a missing value or `null` becomes `null`. */
  function Nullish<T>(v: Option<Json>, schema: Option<Json> -> Result<T, seq<Issue>>): (r: Result<Field<T>, seq<Issue>>)
    ensures v.None? || v == Some(JNull) ==> r == Ok(Null)
    ensures v.Some? && v != Some(JNull) ==> (r.Ok? <==> schema(v).Ok?)
    ensures v.Some? && v != Some(JNull) && r.Ok? ==> r.value == Present(schema(v).value)
  {
    if v.None? || v == Some(JNull) then Ok(Null)
    else match schema(v) case Ok(x) => Ok(Present(x)) case Err(e) => Err(e)
  }

  /** `v.optional(v.nullable(schema))`: a missing value stays missing, `null` stays `null`. */
  function OptionalNullable<T>(v: Option<Json>, schema: Option<Json> -> Result<T, seq<Issue>>): (r: Result<Field<T>, seq<Issue>>)
    ensures v.None? ==> r == Ok(Absent)
    ensures v == Some(JNull) ==> r == Ok(Null)
    ensures v.Some? && v != Some(JNull) ==> (r.Ok? <==> schema(v).Ok?)
    ensures v.Some? && v != Some(JNull) && r.Ok? ==> r.value == Present(schema(v).value)
  {
    if v.None? then Ok(Absent)
    else if v == Some(JNull) then Ok(Null)
    else match schema(v) case Ok(x) => Ok(Present(x)) case Err(e) => Err(e)
  }

  /** What an optional string field that passed its schema holds. */
  function OptionalText(v: Option<Json>): Field<string> {
    if v.None? then Absent else if v == Some(JNull) then Null else Present(Text(v))
  }

  /** What `v.object` lets through to its entries: `input && typeof input === 'object'`
      holds for objects and for arrays, but not for `null`. An array has none of the
      keys the schemas read (`Get` is missing on it), so each entry sees a missing value. */
  predicate ObjectLike(input: Json) {
    input.JObj? || input.JArr?
  }

  /** The issue `v.object` reports for an input that is neither an object nor an array. */
  const NotAnObject := [DefaultType("Object")]
}
