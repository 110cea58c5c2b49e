/** A model of the request-body validator for persisted simulations
    (src/validators/simulationValidator.js): the hand-written length check and
    the declared rule table, evaluated to the list of issues the validator
    reports.  A body is accepted exactly when that list is empty.

    The string conversion and the date and float recognisers of the validator
    library are parameters (a Library value); the integer rule and the
    parseInt the length check calls are written out. */
module SimulationValidator {

  datatype Option<T> = None | Some(value: T)

  /** The JSON values a request body can carry (objects are not modelled). */
  datatype Json =
    | JNull
    | JBool(b: bool)
    | JNumber(x: real)
    | JString(s: string)
    | JArray(items: seq<Json>)

  /** The fields of a simulation record as they arrive; None is a missing key. */
  datatype SimulationRecord = SimulationRecord(
    createdAt: Option<Json>,
    name: Option<Json>,
    days: Option<Json>,
    infected: Option<Json>,
    dead: Option<Json>,
    recovered: Option<Json>)

  /** The library code the rules call and that is not modelled: the string
      form a value is checked in, and the date and float recognisers. */
  datatype Library = Library(toString: Json -> string, isDate: string -> bool, isFloat: string -> bool)

  /** The string form of a field; a missing field reads as the empty string. */
  function Text(lib: Library, v: Option<Json>): string
  {
    if v.None? then "" else lib.toString(v.value)
  }

  // ---------------------------------------------------------------------
  // parseInt

  /** White space and line terminators that parseInt skips. */
  predicate IsJsSpace(c: char)
  {
    var u := c as int;
    (0x09 <= u <= 0x0D) || u == 0x20 || u == 0xA0 || u == 0x1680 || (0x2000 <= u <= 0x200A)
    || u == 0x2028 || u == 0x2029 || u == 0x202F || u == 0x205F || u == 0x3000 || u == 0xFEFF
  }

  /** s without its leading white space. */
  function SkipSpace(s: string): (t: string)
    ensures |t| <= |s| && t == s[|s| - |t|..]
    ensures |t| == 0 || !IsJsSpace(t[0])
    ensures forall i | 0 <= i < |s| - |t| :: IsJsSpace(s[i])
  {
    if |s| > 0 && IsJsSpace(s[0]) then SkipSpace(s[1..]) else s
  }

  predicate IsDecDigit(c: char)
  {
    '0' <= c <= '9'
  }

  predicate IsHexDigit(c: char)
  {
    IsDecDigit(c) || ('a' <= c <= 'f') || ('A' <= c <= 'F')
  }

  predicate IsDigit(c: char, hex: bool)
  {
    if hex then IsHexDigit(c) else IsDecDigit(c)
  }

  function DigitValue(c: char): (d: nat)
    requires IsHexDigit(c)
    ensures d < 16
    ensures IsDecDigit(c) ==> d < 10
  {
    if IsDecDigit(c) then c as int - '0' as int
    else if 'a' <= c <= 'f' then c as int - 'a' as int + 10
    else c as int - 'A' as int + 10
  }

  /** The longest prefix of s made of digits. */
  function LeadingDigits(s: string, hex: bool): (ds: string)
    ensures |ds| <= |s| && ds == s[..|ds|]
    ensures forall i | 0 <= i < |ds| :: IsDigit(ds[i], hex)
    ensures |ds| < |s| ==> !IsDigit(s[|ds|], hex)
  {
    if |s| > 0 && IsDigit(s[0], hex) then [s[0]] + LeadingDigits(s[1..], hex) else []
  }

  /** The number a digit string denotes in base 10, or 16 when hex. */
  function DigitsValue(ds: string, hex: bool): nat
    requires forall i | 0 <= i < |ds| :: IsDigit(ds[i], hex)
  {
    if |ds| == 0 then 0
    else
      assert IsDigit(ds[|ds| - 1], hex);
      DigitsValue(ds[..|ds| - 1], hex) * (if hex then 16 else 10) + DigitValue(ds[|ds| - 1])
  }

  /** parseInt with no radix: leading white space skipped, an optional sign,
      a "0x" or "0X" prefix switching to base 16, then the longest digit
      prefix; None stands for NaN, the result when there is no digit. */
  function ParseInt(s: string): Option<int>
  {
    ParseSigned(SkipSpace(s))
  }

  /** What parseInt reads once the leading white space is skipped. */
  function ParseSigned(t: string): Option<int>
  {
    var negative := |t| > 0 && t[0] == '-';
    var u := if |t| > 0 && (t[0] == '-' || t[0] == '+') then t[1..] else t;
    var hex := |u| >= 2 && u[0] == '0' && (u[1] == 'x' || u[1] == 'X');
    var digits := if hex then u[2..] else u;
    var ds := LeadingDigits(digits, hex);
    if |ds| == 0 then None
    else
      var m: int := DigitsValue(ds, hex);
      Some(if negative then -m else m)
  }

  // ---------------------------------------------------------------------
  // The integer rule

  /** The digits of a string after an optional leading sign. */
  function Unsigned(s: string): string
  {
    if |s| > 0 && (s[0] == '-' || s[0] == '+') then s[1..] else s
  }

  /** The integer pattern with leading zeroes allowed: an optional sign and
      at least one decimal digit, nothing else. */
  predicate IsIntString(s: string)
  {
    |Unsigned(s)| >= 1 && forall i | 0 <= i < |Unsigned(s)| :: IsDecDigit(Unsigned(s)[i])
  }

  function IntValue(s: string): int
    requires IsIntString(s)
  {
    var m: int := DigitsValue(Unsigned(s), false);
    if s[0] == '-' then -m else m
  }

  /** The integer rule with a lower bound. */
  predicate IsIntAtLeast(s: string, min: int)
  {
    IsIntString(s) && IntValue(s) >= min
  }

  /** The digit scan stops at the first character that is not a digit. */
  lemma {:induction false} DigitsThenStop(s: string, rest: string, hex: bool)
    requires forall i | 0 <= i < |s| :: IsDigit(s[i], hex)
    requires |rest| > 0 ==> !IsDigit(rest[0], hex)
    ensures LeadingDigits(s + rest, hex) == s
  {
    if |s| == 0 {
      assert s + rest == rest;
    } else {
      assert forall i | 0 <= i < |s[1..]| :: IsDigit(s[1..][i], hex) by {
        forall i | 0 <= i < |s[1..]|
          ensures IsDigit(s[1..][i], hex)
        {
          assert s[1..][i] == s[i + 1];
        }
      }
      DigitsThenStop(s[1..], rest, hex);
      assert (s + rest)[1..] == s[1..] + rest;
      assert [s[0]] + s[1..] == s;
    }
  }

  /** parseInt reads an integer-rule string followed by any text that does
      not continue the number ("12abc" and "12.5" are read as 12). */
  lemma ParseIntReadsIntPrefix(s: string, rest: string)
    requires IsIntString(s)
    requires |rest| > 0 ==> !IsDecDigit(rest[0]) && rest[0] != 'x' && rest[0] != 'X'
    ensures ParseInt(s + rest) == Some(IntValue(s))
  {
    var t := s + rest;
    assert t[0] == s[0];
    assert !IsJsSpace(t[0]);
    assert SkipSpace(t) == t;
    SignedReadsIntPrefix(s, rest);
  }

  lemma SignedReadsIntPrefix(s: string, rest: string)
    requires IsIntString(s)
    requires |rest| > 0 ==> !IsDecDigit(rest[0]) && rest[0] != 'x' && rest[0] != 'X'
    ensures ParseSigned(s + rest) == Some(IntValue(s))
  {
    var d := Unsigned(s);
    var t := s + rest;
    if |s| > 0 && (s[0] == '-' || s[0] == '+') {
      assert t[1..] == d + rest;
    } else {
      assert d == s;
    }
    assert (d + rest)[0] == d[0];
    assert |d| >= 2 ==> (d + rest)[1] == d[1] && IsDecDigit(d[1]);
    assert |d| == 1 && |rest| > 0 ==> (d + rest)[1] == rest[0];
    DigitsThenStop(d, rest, false);
  }

  /** A string the integer rule accepts is read by parseInt as exactly the
      integer the rule checked. */
  lemma IntStringParses(s: string)
    requires IsIntString(s)
    ensures ParseInt(s) == Some(IntValue(s))
  {
    ParseIntReadsIntPrefix(s, "");
    assert s + "" == s;
  }

  /** Leading white space does not change what parseInt reads. */
  lemma {:induction false} ParseIntSkipsSpace(w: string, s: string)
    requires forall i | 0 <= i < |w| :: IsJsSpace(w[i])
    ensures ParseInt(w + s) == ParseInt(s)
  {
    SkipSpaceOfSpaces(w, s);
  }

  lemma {:induction false} SkipSpaceOfSpaces(w: string, s: string)
    requires forall i | 0 <= i < |w| :: IsJsSpace(w[i])
    ensures SkipSpace(w + s) == SkipSpace(s)
  {
    if |w| == 0 {
      assert w + s == s;
    } else {
      assert (w + s)[0] == w[0];
      assert (w + s)[1..] == w[1..] + s;
      assert forall i | 0 <= i < |w[1..]| :: IsJsSpace(w[1..][i]) by {
        forall i | 0 <= i < |w[1..]|
          ensures IsJsSpace(w[1..][i])
        {
          assert w[1..][i] == w[i + 1];
        }
      }
      SkipSpaceOfSpaces(w[1..], s);
    }
  }

  // ---------------------------------------------------------------------
  // checkLength

  /** Outcome of the custom length rule. */
  datatype Verdict =
    | Accepted
    | Rejected(message: string)
    | Crashed  // a TypeError raised by the engine, reading .length of undefined or null

  const LengthMessage: string := "Array length must match days"

  /** Number of UTF-16 code units of s, the string length the engine reports. */
  function Utf16Length(s: string): (n: nat)
    ensures n >= |s|
    ensures (forall i | 0 <= i < |s| :: s[i] as int < 0x10000) ==> n == |s|
  {
    if |s| == 0 then 0 else (if s[0] as int < 0x10000 then 1 else 2) + Utf16Length(s[1..])
  }

  /** The value of `.length`: None where it is undefined. */
  function JsLength(v: Json): Option<int>
  {
    match v
    case JArray(items) => Some(|items|)
    case JString(s) => Some(Utf16Length(s))
    case _ => None
  }

  /** checkLength with `days` already parsed (None for NaN): accepted when the
      length is defined and equals days, a TypeError when the value is missing
      or null, and the length message otherwise. */
  function CheckLength(arr: Option<Json>, days: Option<int>): (v: Verdict)
    ensures v.Crashed? <==> arr.None? || arr.value.JNull?
    ensures v.Rejected? ==> v.message == LengthMessage
    ensures forall items :: arr == Some(JArray(items)) ==> (v == Accepted <==> days == Some(|items|))
    ensures forall s :: arr == Some(JString(s)) ==> (v == Accepted <==> days == Some(Utf16Length(s)))
    ensures arr.Some? && (arr.value.JBool? || arr.value.JNumber?) ==> v == Rejected(LengthMessage)
  {
    if arr.None? || arr.value.JNull? then Crashed
    else if days.Some? && JsLength(arr.value) == days then Accepted
    else Rejected(LengthMessage)
  }

  // ---------------------------------------------------------------------
  // The rule table

  /** Where an issue is reported: a field, or one element of an array field. */
  datatype Field = Field(name: string) | Element(name: string, index: nat)

  /** The message of an issue: declared in the table, or the engine's TypeError. */
  datatype Message = Says(text: string) | TypeErrorThrown

  datatype Issue = Issue(field: Field, message: Message)

  const DateMessage: string := "Date format must be YYYY-MM-DD"
  const NameMessage: string := "Name must have between 3 and 255 characters"
  const DaysMessage: string := "Days must be an int >= 1"
  const MinNameLength: int := 3
  const MaxNameLength: int := 255

  function ArrayMessage(name: string): string
  {
    "The field \"" + name + "\" must be an array with at least one element."
  }

  function FloatMessage(name: string): string
  {
    "All elements of the array \"" + name + "\" must be floats"
  }

  /** createdAt: optional, and a date when present. */
  function CreatedAtIssues(body: SimulationRecord, lib: Library): (r: seq<Issue>)
    ensures r == [] <==> body.createdAt.None? || lib.isDate(lib.toString(body.createdAt.value))
    ensures forall x | x in r :: x == Issue(Field("createdAt"), Says(DateMessage))
  {
    if body.createdAt.None? || lib.isDate(Text(lib, body.createdAt)) then []
    else [Issue(Field("createdAt"), Says(DateMessage))]
  }

  /** name: optional, and 3 to 255 characters when present; the length is
      taken before the trim sanitizer that follows it in the table runs. */
  function NameIssues(body: SimulationRecord, lib: Library): (r: seq<Issue>)
    ensures r == [] <==> body.name.None? || 3 <= |lib.toString(body.name.value)| <= 255
    ensures forall x | x in r :: x == Issue(Field("name"), Says(NameMessage))
  {
    if body.name.None? || MinNameLength <= |Text(lib, body.name)| <= MaxNameLength then []
    else [Issue(Field("name"), Says(NameMessage))]
  }

  /** days: required, an integer of at least 1. */
  function DaysIssues(body: SimulationRecord, lib: Library): (r: seq<Issue>)
    ensures r == [] <==> IsIntString(Text(lib, body.days)) && IntValue(Text(lib, body.days)) >= 1
    ensures r == [] ==> body.days.Some? && ParsedDays(body, lib) == Some(IntValue(Text(lib, body.days)))
    ensures forall x | x in r :: x == Issue(Field("days"), Says(DaysMessage))
  {
    if IsIntAtLeast(Text(lib, body.days), 1) then
      IntStringParses(Text(lib, body.days));
      []
    else [Issue(Field("days"), Says(DaysMessage))]
  }

  /** `name.*`: one issue per element that is not a float, from index `from` on. */
  function ElementIssues(name: string, items: seq<Json>, from: nat, lib: Library): (r: seq<Issue>)
    requires from <= |items|
    ensures r == [] <==> forall i | from <= i < |items| :: lib.isFloat(lib.toString(items[i]))
    ensures forall x | x in r :: x.field.Element? && x.field.name == name
    decreases |items| - from
  {
    if from == |items| then []
    else
      (if lib.isFloat(lib.toString(items[from])) then []
       else [Issue(Element(name, from), Says(FloatMessage(name)))])
      + ElementIssues(name, items, from + 1, lib)
  }

  /** One series field: an array of at least one element, the custom length
      rule against the parsed days, and the float rule on every element. */
  function SeriesIssues(name: string, v: Option<Json>, days: Option<int>, lib: Library): (r: seq<Issue>)
    ensures r == [] <==>
      v.Some? && v.value.JArray? && |v.value.items| >= 1
      && days == Some(|v.value.items|)
      && forall i | 0 <= i < |v.value.items| :: lib.isFloat(lib.toString(v.value.items[i]))
    ensures forall x | x in r :: x.field == Field(name) || (x.field.Element? && x.field.name == name)
  {
    var isArray :=
      if v.Some? && v.value.JArray? && |v.value.items| >= 1 then []
      else [Issue(Field(name), Says(ArrayMessage(name)))];
    var custom :=
      match CheckLength(v, days)
      case Accepted => []
      case Rejected(m) => [Issue(Field(name), Says(m))]
      case Crashed => [Issue(Field(name), TypeErrorThrown)];
    var elements := if v.Some? && v.value.JArray? then ElementIssues(name, v.value.items, 0, lib) else [];
    isArray + custom + elements
  }

  /** The days value the custom rule compares with: parseInt of the field. */
  function ParsedDays(body: SimulationRecord, lib: Library): Option<int>
  {
    ParseInt(Text(lib, body.days))
  }

  const FieldNames: set<string> := {"createdAt", "name", "days", "infected", "dead", "recovered"}
  const SeriesNames: set<string> := {"infected", "dead", "recovered"}

  /** Every issue of r is on one of the table's fields, and on an element
      only for a series field. */
  predicate OnTableFields(r: seq<Issue>)
  {
    forall x | x in r :: x.field.name in FieldNames && (x.field.Element? ==> x.field.name in SeriesNames)
  }

  lemma ConcatOnTableFields(a: seq<Issue>, b: seq<Issue>)
    requires OnTableFields(a) && OnTableFields(b)
    ensures OnTableFields(a + b)
  {
  }

  lemma SeriesOnTableFields(name: string, v: Option<Json>, days: Option<int>, lib: Library)
    requires name in SeriesNames
    ensures OnTableFields(SeriesIssues(name, v, days, lib))
  {
    var r := SeriesIssues(name, v, days, lib);
    forall x | x in r
      ensures x.field.name in FieldNames && (x.field.Element? ==> x.field.name in SeriesNames)
    {
      assert x.field.name == name;
    }
  }

  /** Every issue the table reports for a body, in table order. */
  function Issues(body: SimulationRecord, lib: Library): (r: seq<Issue>)
    ensures OnTableFields(r)
  {
    var days := ParsedDays(body, lib);
    var c, n, d := CreatedAtIssues(body, lib), NameIssues(body, lib), DaysIssues(body, lib);
    var i := SeriesIssues("infected", body.infected, days, lib);
    var e := SeriesIssues("dead", body.dead, days, lib);
    var v := SeriesIssues("recovered", body.recovered, days, lib);
    assert OnTableFields(c) && OnTableFields(n) && OnTableFields(d);
    SeriesOnTableFields("infected", body.infected, days, lib);
    SeriesOnTableFields("dead", body.dead, days, lib);
    SeriesOnTableFields("recovered", body.recovered, days, lib);
    ConcatOnTableFields(c, n);
    ConcatOnTableFields(c + n, d);
    ConcatOnTableFields(c + n + d, i);
    ConcatOnTableFields(c + n + d + i, e);
    ConcatOnTableFields(c + n + d + i + e, v);
    c + n + d + i + e + v
  }

  /** The validator accepts a body when it reports no issue. */
  predicate Valid(body: SimulationRecord, lib: Library)
  {
    Issues(body, lib) == []
  }

  // ---------------------------------------------------------------------
  // An independent description of an accepted record

  /** v is an array of exactly n float elements. */
  predicate IsSeries(v: Option<Json>, n: int, lib: Library)
  {
    v.Some? && v.value.JArray? && |v.value.items| == n
    && forall i | 0 <= i < n :: lib.isFloat(lib.toString(v.value.items[i]))
  }

  /** A well-formed record: an optional date, an optional name of 3 to 255
      characters, a whole number n >= 1 of days, and three float series of
      exactly n entries each. */
  predicate WellFormed(body: SimulationRecord, lib: Library)
  {
    && (body.createdAt.None? || lib.isDate(lib.toString(body.createdAt.value)))
    && (body.name.None? || 3 <= |lib.toString(body.name.value)| <= 255)
    && IsIntString(Text(lib, body.days))
    && var n := IntValue(Text(lib, body.days));
       n >= 1 && IsSeries(body.infected, n, lib) && IsSeries(body.dead, n, lib)
       && IsSeries(body.recovered, n, lib)
  }

  lemma EmptyConcat<T>(a: seq<T>, b: seq<T>)
    ensures a + b == [] <==> a == [] && b == []
  {
    if a + b == [] {
      assert |a + b| == |a| + |b|;
    }
  }

  /** With days parsed to n >= 1, a series field reports no issue exactly
      when it is an array of n floats. */
  lemma SeriesIffIsSeries(name: string, v: Option<Json>, n: int, lib: Library)
    requires n >= 1
    ensures SeriesIssues(name, v, Some(n), lib) == [] <==> IsSeries(v, n, lib)
  {
  }

  /** The validator accepts exactly the well-formed records. */
  lemma ValidIffWellFormed(body: SimulationRecord, lib: Library)
    ensures Valid(body, lib) <==> WellFormed(body, lib)
  {
    var days := ParsedDays(body, lib);
    var c, m, d := CreatedAtIssues(body, lib), NameIssues(body, lib), DaysIssues(body, lib);
    var i := SeriesIssues("infected", body.infected, days, lib);
    var e := SeriesIssues("dead", body.dead, days, lib);
    var r := SeriesIssues("recovered", body.recovered, days, lib);
    assert Issues(body, lib) == c + m + d + i + e + r;
    EmptyConcat(c + m + d + i + e, r);
    EmptyConcat(c + m + d + i, e);
    EmptyConcat(c + m + d, i);
    EmptyConcat(c + m, d);
    EmptyConcat(c, m);
    var text := Text(lib, body.days);
    if IsIntString(text) && IntValue(text) >= 1 {
      IntStringParses(text);
      SeriesIffIsSeries("infected", body.infected, IntValue(text), lib);
      SeriesIffIsSeries("dead", body.dead, IntValue(text), lib);
      SeriesIffIsSeries("recovered", body.recovered, IntValue(text), lib);
    }
  }

  /** An accepted record has a whole number n >= 1 of days and three series
      of n entries each, so the series have equal lengths. */
  lemma ValidSeriesLengths(body: SimulationRecord, lib: Library)
    ensures Valid(body, lib) ==>
      && IsIntString(Text(lib, body.days)) && IntValue(Text(lib, body.days)) >= 1
      && body.infected.Some? && body.infected.value.JArray?
      && body.dead.Some? && body.dead.value.JArray?
      && body.recovered.Some? && body.recovered.value.JArray?
      && |body.infected.value.items| == IntValue(Text(lib, body.days))
      && |body.infected.value.items| == |body.dead.value.items| == |body.recovered.value.items|
  {
    ValidIffWellFormed(body, lib);
  }

  /** createdAt and name are optional: dropping either keeps a record valid. */
  lemma OptionalFields(body: SimulationRecord, lib: Library)
    ensures Valid(body, lib) ==> Valid(body.(createdAt := None), lib) && Valid(body.(name := None), lib)
  {
    ValidIffWellFormed(body, lib);
    ValidIffWellFormed(body.(createdAt := None), lib);
    ValidIffWellFormed(body.(name := None), lib);
  }

  /** A missing days field, or a name of two characters, is rejected. */
  lemma RequiredDaysAndShortName(body: SimulationRecord, lib: Library)
    ensures body.days.None? ==> !Valid(body, lib)
    ensures body.name.Some? && |lib.toString(body.name.value)| == 2 ==> !Valid(body, lib)
  {
    ValidIffWellFormed(body, lib);
  }
}
