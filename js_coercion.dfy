/** The parts of JavaScript's value semantics that the query builder leans on:
    truthiness of a parameter value, `Number(...)` coercion of a query-string
    value, and the global comma-to-space `replace(/,/g, " ")`. */
module JsCoercion {
  import opened Wrappers

  /** An untyped parameter value as the HTTP query-string parser hands it
      over: a string, a number, or a list of strings (a repeated key). */
  datatype Value = Str(s: string) | Num(n: int) | List(items: seq<string>)

  /** JavaScript truthiness of a value (`if (v)`, `v || fallback`): the empty
      string and zero are falsy, every array is truthy. */
  function Truthy(v: Value): (b: bool)
    ensures b <==> v != Str("") && v != Num(0)
  {
    match v
    case Str(s) => s != ""
    case Num(n) => n != 0
    case List(_) => true
  }

  // ----- Number(...) on decimal integer strings -----

  predicate IsDigit(c: char) {
    '0' <= c <= '9'
  }

  predicate AllDigits(s: string) {
    forall i :: 0 <= i < |s| ==> IsDigit(s[i])
  }

  /** The value of a string of decimal digits, most significant first. */
  function DigitsValue(ds: string): nat
    requires AllDigits(ds)
  {
    if ds == [] then 0 else DigitsValue(ds[..|ds| - 1]) * 10 + (ds[|ds| - 1] as int - '0' as int)
  }

  /** Position `i` of `s` holds a character `Number(...)` cannot read: anything
      but a decimal digit, except a sign in first place. */
  predicate Unreadable(s: string, i: int)
    requires 0 <= i < |s|
  {
    !IsDigit(s[i]) && !(i == 0 && (s[i] == '-' || s[i] == '+'))
  }

  /** `Number(s)` for the strings the model covers: the empty string is 0, an
      optional sign followed by at least one decimal digit is that integer,
      and everything else is NaN (None). */
  function ParseNumber(s: string): (r: Option<int>)
    ensures r.None? <==> s != "" && (s == "-" || s == "+" || exists i :: 0 <= i < |s| && Unreadable(s, i))
    ensures s == "" ==> r == Some(0)
    ensures s != "" && AllDigits(s) ==> r == Some(DigitsValue(s))
    ensures |s| > 1 && (s[0] == '-' || s[0] == '+') && AllDigits(s[1..]) ==>
      r == Some(if s[0] == '-' then -(DigitsValue(s[1..]) as int) else DigitsValue(s[1..]))
    ensures r.Some? && r.value < 0 ==> s != "" && s[0] == '-'
  {
    if s == "" then Some(0)
    else if s[0] == '-' && |s| > 1 && AllDigits(s[1..]) then
      assert forall i :: 1 <= i < |s| ==> s[i] == s[1..][i - 1];
      Some(-(DigitsValue(s[1..]) as int))
    else if s[0] == '+' && |s| > 1 && AllDigits(s[1..]) then
      assert forall i :: 1 <= i < |s| ==> s[i] == s[1..][i - 1];
      Some(DigitsValue(s[1..]))
    else if AllDigits(s) then Some(DigitsValue(s))
    else
      assert s == "-" || s == "+" || exists i :: 0 <= i < |s| && Unreadable(s, i) by {
        if (s[0] == '-' || s[0] == '+') && |s| > 1 {
          var j :| 0 <= j < |s| - 1 && !IsDigit(s[1..][j]);
          assert Unreadable(s, j + 1);
        } else if s[0] != '-' && s[0] != '+' {
          var j :| 0 <= j < |s| && !IsDigit(s[j]);
          assert Unreadable(s, j);
        }
      }
      None
  }

  /** `items.join(",")`: the text JavaScript reads a number from when it
      coerces an array. */
  function JoinCommas(items: seq<string>): string {
    if |items| == 0 then ""
    else if |items| == 1 then items[0]
    else items[0] + "," + JoinCommas(items[1..])
  }

  /** `Number(v)` on a parameter value, None standing for NaN. An array is
      first joined with commas, so the empty array is 0, a one-element array
      is its element's number and a longer one (which holds a comma) is NaN. */
  function ToNumber(v: Value): (r: Option<int>)
    ensures v.Num? ==> r == Some(v.n)
    ensures v.Str? ==> r == ParseNumber(v.s)
    ensures v.List? ==> r == ParseNumber(JoinCommas(v.items))
  {
    match v
    case Num(n) => Some(n)
    case Str(s) => ParseNumber(s)
    case List(items) =>
      if |items| == 0 then Some(0)
      else if |items| == 1 then ParseNumber(items[0])
      else
        var text := JoinCommas(items);
        assert text[|items[0]|] == ',' && Unreadable(text, |items[0]|);
        None
  }

  function DigitChar(d: nat): (c: char)
    requires d < 10
    ensures IsDigit(c)
  {
    ('0' as int + d) as char
  }

  /** Decimal rendering of a natural number: the inverse of DigitsValue. */
  function ShowNat(n: nat): (s: string)
    ensures |s| >= 1 && AllDigits(s)
  {
    if n < 10 then [DigitChar(n)] else ShowNat(n / 10) + [DigitChar(n % 10)]
  }

  /** Decimal rendering of an integer, as a client writes `page=-3` or `limit=25`. */
  function ShowInt(n: int): string {
    if n < 0 then "-" + ShowNat(-n) else ShowNat(n)
  }

  lemma {:induction false} DigitsValueOfShowNat(n: nat)
    ensures DigitsValue(ShowNat(n)) == n
  {
    if n >= 10 {
      var prefix := ShowNat(n / 10);
      var s := prefix + [DigitChar(n % 10)];
      assert s[..|s| - 1] == prefix;
      DigitsValueOfShowNat(n / 10);
    }
  }

  /** Every integer written in decimal is read back by the model of `Number(...)`
      as itself; JavaScript agrees for the integers a double holds exactly. */
  lemma ParseNumberOfShowInt(n: int)
    ensures ParseNumber(ShowInt(n)) == Some(n)
    ensures ToNumber(Str(ShowInt(n))) == Some(n)
  {
    if n < 0 {
      var s := ShowInt(n);
      assert s[1..] == ShowNat(-n);
      DigitsValueOfShowNat(-n);
    } else {
      DigitsValueOfShowNat(n);
    }
  }

  // ----- s.replace(/,/g, " ") -----

  /** Every comma of `s` replaced by a space; every other character kept. */
  function ReplaceCommas(s: string): (r: string)
    ensures |r| == |s|
    ensures forall i :: 0 <= i < |s| ==> r[i] == (if s[i] == ',' then ' ' else s[i])
  {
    if s == "" then "" else [if s[0] == ',' then ' ' else s[0]] + ReplaceCommas(s[1..])
  }

  /** The replacement leaves no comma behind, is empty exactly when its input
      is, and applying it twice is applying it once. */
  lemma ReplaceCommasProperties(s: string)
    ensures forall i :: 0 <= i < |ReplaceCommas(s)| ==> ReplaceCommas(s)[i] != ','
    ensures ReplaceCommas(s) == "" <==> s == ""
    ensures ReplaceCommas(ReplaceCommas(s)) == ReplaceCommas(s)
  {
  }

  /** The replacement works character by character, so it distributes over
      concatenation, and a string with no comma is its own replacement. */
  lemma ReplaceCommasConcat(a: string, b: string)
    ensures ReplaceCommas(a + b) == ReplaceCommas(a) + ReplaceCommas(b)
    ensures ReplaceCommas([',']) == [' ']
    ensures (forall i :: 0 <= i < |a| ==> a[i] != ',') ==> ReplaceCommas(a) == a
  {
  }

  /** Two comma-free field lists joined by a comma come out joined by a space. */
  lemma ReplaceCommasJoin(a: string, b: string)
    requires forall i :: 0 <= i < |a| ==> a[i] != ','
    requires forall i :: 0 <= i < |b| ==> b[i] != ','
    ensures ReplaceCommas(a + [','] + b) == a + [' '] + b
  {
    ReplaceCommasConcat(a, ",");
    ReplaceCommasConcat(a + ",", b);
    ReplaceCommasConcat(b, "");
  }
}
