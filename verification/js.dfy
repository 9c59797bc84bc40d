/**
  JavaScript value semantics the core relies on: a loosely typed JSON value,
  truthiness, and the `a || b || c` fallback chain ("the first truthy operand
  wins, otherwise the last one").  Optional record fields are `Option`s:
  `None` is `undefined`/`null`.
*/
module Js {
  import opened Wrappers
  import opened Text

  /** A JSON value as the configuration file and the API payloads hold them. */
  datatype Value = Null | Bool(b: bool) | Num(n: int) | Str(s: string) | List(items: seq<Value>)
                 | Obj(fields: map<string, Value>)

  /** A field the API sends either as a number or as preformatted text (`"1.2万"`). */
  datatype Scalar = IntVal(i: int) | StrVal(s: string)

  /** Truthiness of a scalar field. */
  predicate ScalarTruthy(o: Option<Scalar>)
  {
    match o
    case None => false
    case Some(IntVal(i)) => i != 0
    case Some(StrVal(s)) => s != ""
  }

  /** `String(x)` of a scalar. */
  function ScalarText(x: Scalar): string
  {
    match x
    case IntVal(i) => IntToString(i)
    case StrVal(s) => s
  }

  /**
    `Number(s)` for the strings the model reads as numbers: white space is
    trimmed, the empty string is 0 and a run of decimal digits is its value.
    `Number` also accepts a sign, a fraction, an exponent, hexadecimal and
    `Infinity`; this model has no such numbers and gives `None` for them, as
    it does for the strings that are `NaN`.
  */
  function StringToNumber(s: string): (r: Option<nat>)
    ensures Trim(s) == "" ==> r == Some(0)
    ensures r.Some? && Trim(s) != "" ==> AllDigits(Trim(s)) && r.value == DecimalValue(Trim(s))
    ensures r.None? ==> Trim(s) != "" && !AllDigits(Trim(s))
  {
    var t := Trim(s);
    if t == "" then Some(0) else if AllDigits(t) then Some(DecimalValue(t)) else None
  }

  /** The longest prefix of decimal digits. */
  function LeadingDigits(s: string): (r: string)
    ensures |r| <= |s| && AllDigits(r) && r == s[..|r|]
    ensures |r| < |s| ==> !IsDigit(s[|r|])
  {
    if s != [] && IsDigit(s[0]) then [s[0]] + LeadingDigits(s[1..]) else ""
  }

  /** The text `parseInt` reads digits from: white space skipped, then one sign dropped. */
  function AfterSign(s: string): string
  {
    var t := TrimStart(s);
    if t != [] && (t[0] == '-' || t[0] == '+') then t[1..] else t
  }

  /**
    `parseInt(s, 10)`: the value of the longest digit prefix after white space
    and an optional sign; NaN (`None`) when there is no digit there.
  */
  function ParseInt(s: string): (r: Option<int>)
    ensures r.None? <==> LeadingDigits(AfterSign(s)) == ""
  {
    var t := TrimStart(s);
    var ds := LeadingDigits(AfterSign(s));
    var v: int := if ds == "" then 0 else DecimalValue(ds);
    if ds == "" then None
    else if t[0] == '-' then Some(-v)
    else Some(v)
  }

  lemma {:induction false} LeadingDigitsAppend(ds: string, rest: string)
    requires AllDigits(ds)
    requires rest == [] || !IsDigit(rest[0])
    ensures LeadingDigits(ds + rest) == ds
  {
    if ds != [] {
      assert (ds + rest)[1..] == ds[1..] + rest;
      LeadingDigitsAppend(ds[1..], rest);
    } else {
      assert ds + rest == rest;
    }
  }

  /** `parseInt` reads back a number written in decimal, whatever non-digit text follows. */
  lemma ParseIntNat(n: nat, rest: string)
    requires rest == [] || !IsDigit(rest[0])
    ensures ParseInt(NatToString(n) + rest) == Some(n)
  {
    var d := NatToString(n);
    var s := d + rest;
    assert s[0] == d[0] && IsDigit(s[0]);
    assert !IsJsSpace(s[0]);
    assert TrimStart(s) == s;
    assert AfterSign(s) == s;
    LeadingDigitsAppend(d, rest);
    DecimalRoundTrip(n);
  }

  /** `Number(x)` for a scalar. */
  function ScalarToNumber(x: Scalar): Option<int>
  {
    match x
    case IntVal(i) => Some(i)
    case StrVal(s) => match StringToNumber(s) case Some(n) => Some(n) case None => None
  }

  /** JavaScript truthiness (`!!v`). */
  predicate Truthy(v: Value)
  {
    match v
    case Null => false
    case Bool(b) => b
    case Num(n) => n != 0
    case Str(s) => s != ""
    case List(_) => true
    case Obj(_) => true
  }

  /** Truthiness of an optional string field: present and non-empty. */
  predicate Present(o: Option<string>) { o.Some? && o.value != "" }

  /** Truthiness of an optional number field: present and non-zero. */
  predicate NonZero(o: Option<int>) { o.Some? && o.value != 0 }

  /** `o || default` for a string field. */
  function Or(o: Option<string>, default: string): (r: string)
    ensures Present(o) ==> r == o.value
    ensures !Present(o) ==> r == default
  {
    if Present(o) then o.value else default
  }

  /** `o || 0` for a number field. */
  function OrZero(o: Option<int>): (r: int)
    ensures NonZero(o) ==> r == o.value
    ensures !NonZero(o) ==> r == 0
  {
    if NonZero(o) then o.value else 0
  }

  /** How a template literal shows a field: `${x}` prints `undefined` for a missing one. */
  function Shown(o: Option<string>): string
  {
    match o
    case Some(s) => s
    case None => "undefined"
  }

  /**
    The fallback chain `c0 || c1 || ... || default` over optional fields of one
    type: the first candidate that is present and truthy, else `None`.
  */
  function FirstTruthy<T(==)>(cands: seq<Option<T>>, truthy: T -> bool): (r: Option<T>)
    ensures r.Some? ==> truthy(r.value)
    ensures r.Some? ==> exists k :: 0 <= k < |cands| && cands[k] == r
                          && forall j :: 0 <= j < k ==> !(cands[j].Some? && truthy(cands[j].value))
    ensures r.None? ==> forall j :: 0 <= j < |cands| ==> !(cands[j].Some? && truthy(cands[j].value))
  {
    if cands == [] then None
    else if cands[0].Some? && truthy(cands[0].value) then cands[0]
    else
      var r := FirstTruthy(cands[1..], truthy);
      if r.Some? then
        var k :| 0 <= k < |cands[1..]| && cands[1..][k] == r
                 && forall j :: 0 <= j < k ==> !(cands[1..][j].Some? && truthy(cands[1..][j].value));
        assert cands[k + 1] == r;
        r
      else
        r
  }

  function IsNonEmpty(s: string): bool { s != "" }

  function IsNonZero(n: int): bool { n != 0 }

  /** A string fallback chain ending in a literal default. */
  function FirstString(cands: seq<Option<string>>, default: string): (r: string)
    ensures (forall j :: 0 <= j < |cands| ==> !Present(cands[j])) ==> r == default
    ensures forall k :: (0 <= k < |cands| && Present(cands[k])
                         && forall j :: 0 <= j < k ==> !Present(cands[j])) ==> r == cands[k].value
  {
    var f := FirstTruthy(cands, IsNonEmpty);
    if f.Some? then
      assert forall k :: (0 <= k < |cands| && Present(cands[k])
                          && forall j :: 0 <= j < k ==> !Present(cands[j])) ==> f == cands[k];
      f.value
    else default
  }

  /** The chain read one candidate at a time. */
  lemma FirstStringUnfold(cands: seq<Option<string>>, default: string)
    ensures FirstString(cands, default)
            == if cands == [] then default
               else if Present(cands[0]) then cands[0].value
               else FirstString(cands[1..], default)
  {
  }

  /** A number fallback chain ending in a literal default. */
  function FirstNumber(cands: seq<Option<int>>, default: int): (r: int)
    ensures (forall j :: 0 <= j < |cands| ==> !NonZero(cands[j])) ==> r == default
    ensures forall k :: (0 <= k < |cands| && NonZero(cands[k])
                         && forall j :: 0 <= j < k ==> !NonZero(cands[j])) ==> r == cands[k].value
  {
    var f := FirstTruthy(cands, IsNonZero);
    if f.Some? then
      assert forall k :: (0 <= k < |cands| && NonZero(cands[k])
                          && forall j :: 0 <= j < k ==> !NonZero(cands[j])) ==> f == cands[k];
      f.value
    else default
  }
}
