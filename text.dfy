/**
 * The pieces of JavaScript string behaviour the plugin relies on:
 * `String.prototype.split` with a one-character separator, the `Number(...)`
 * conversion of an index text, and the decimal text of an integer as a
 * template literal renders it.
 */
module Text {
  import opened Wrappers

  // ---------------------------------------------------------------------------
  // split
  // ---------------------------------------------------------------------------

  /** `s.split(sep)` for a one-character separator: every field, in order, empty ones included. */
  function Split(s: string, sep: char): (r: seq<string>)
    ensures |r| >= 1
    ensures forall i :: 0 <= i < |r| ==> sep !in r[i]
    decreases |s|
  {
    if s == [] then [""]
    else if s[0] == sep then [""] + Split(s[1..], sep)
    else
      var rest := Split(s[1..], sep);
      [[s[0]] + rest[0]] + rest[1..]
  }

  /** The inverse of `Split`: `parts.join(sep)`. */
  function Join(parts: seq<string>, sep: char): string
    decreases |parts|
  {
    if |parts| == 0 then ""
    else if |parts| == 1 then parts[0]
    else parts[0] + [sep] + Join(parts[1..], sep)
  }

  /** Joining the fields of a split gives back the text that was split. */
  lemma {:induction false} JoinSplit(s: string, sep: char)
    ensures Join(Split(s, sep), sep) == s
    decreases |s|
  {
    if s == [] {
    } else if s[0] == sep {
      JoinSplit(s[1..], sep);
      var rest := Split(s[1..], sep);
      assert Split(s, sep) == [""] + rest;
      assert ([""] + rest)[1..] == rest;
      assert s == [sep] + s[1..];
    } else {
      JoinSplit(s[1..], sep);
      var rest := Split(s[1..], sep);
      var r := Split(s, sep);
      assert r == [[s[0]] + rest[0]] + rest[1..];
      if |rest| == 1 {
        assert s == [s[0]] + s[1..];
      } else {
        assert r[1..] == rest[1..];
        assert Join(rest, sep) == rest[0] + [sep] + Join(rest[1..], sep);
        assert s == [s[0]] + s[1..];
      }
    }
  }

  /** A text without the separator splits into itself alone. */
  lemma {:induction false} SplitWithoutSep(s: string, sep: char)
    requires sep !in s
    ensures Split(s, sep) == [s]
    decreases |s|
  {
    if s != [] {
      SplitWithoutSep(s[1..], sep);
      assert [s[0]] + s[1..] == s;
    }
  }

  /** Splitting at the first separator: the first field is everything before it. */
  lemma {:induction false} SplitAtFirst(a: string, b: string, sep: char)
    requires sep !in a
    ensures Split(a + [sep] + b, sep) == [a] + Split(b, sep)
    decreases |a|
  {
    var s := a + [sep] + b;
    if a == [] {
      assert s[0] == sep && s[1..] == b;
    } else {
      SplitAtFirst(a[1..], b, sep);
      assert s[0] == a[0];
      assert s[1..] == a[1..] + [sep] + b;
      assert [a[0]] + a[1..] == a;
    }
  }

  /** The position of the first `sep` in `s` (`s.indexOf(sep)`), or `|s|` when there is none. */
  function FirstIndex(s: string, sep: char): (k: nat)
    ensures k <= |s|
    ensures sep !in s[..k]
    ensures k < |s| <==> sep in s
    ensures k < |s| ==> s[k] == sep
    decreases |s|
  {
    if s == [] then 0
    else if s[0] == sep then 0
    else
      var k := 1 + FirstIndex(s[1..], sep);
      assert s[..k] == [s[0]] + s[1..][..k - 1];
      assert sep in s[1..] ==> sep in s;
      k
  }

  /** A text holding the separator splits into at least two fields, the first being what precedes it. */
  lemma SplitHasSep(s: string, sep: char)
    requires sep in s
    ensures |Split(s, sep)| >= 2
    ensures Split(s, sep)[0] == s[..FirstIndex(s, sep)]
    ensures Split(s, sep)[1..] == Split(s[FirstIndex(s, sep) + 1..], sep)
  {
    var k := FirstIndex(s, sep);
    assert s == s[..k] + [sep] + s[k + 1..];
    SplitAtFirst(s[..k], s[k + 1..], sep);
  }

  /** Destructuring `const [a, b] = fields`: the `i`-th field, or `undefined` past the end. */
  function Field(fields: seq<string>, i: nat): (r: Option<string>)
    ensures r.Some? <==> i < |fields|
    ensures r.Some? ==> r.value == fields[i]
  {
    if i < |fields| then Some(fields[i]) else None
  }

  // ---------------------------------------------------------------------------
  // Number(...) and the decimal text of an integer
  // ---------------------------------------------------------------------------

  /** A JavaScript number as far as array indexing sees it: an integer or NaN. */
  datatype JsNumber = Num(value: int) | NaN

  predicate IsDigit(c: char) { '0' <= c <= '9' }

  predicate AllDigits(s: string) { forall i :: 0 <= i < |s| ==> IsDigit(s[i]) }

  function DigitValue(c: char): nat
    requires IsDigit(c)
  {
    (c as int - '0' as int) as nat
  }

  function DigitChar(d: nat): (c: char)
    requires d < 10
    ensures IsDigit(c) && DigitValue(c) == d
  {
    ('0' as int + d) as char
  }

  /** The value of a string of decimal digits, most significant first. */
  function DigitsValue(s: string): nat
    requires AllDigits(s)
    decreases |s|
  {
    if s == [] then 0 else DigitsValue(s[..|s| - 1]) * 10 + DigitValue(s[|s| - 1])
  }

  /**
   * `Number(s)` for the texts an index or a modifier can be: the empty text
   * is 0, an optional sign followed by decimal digits is that integer, and
   * anything else is NaN.
   */
  function ToNumber(s: string): (r: JsNumber)
    ensures s == "" ==> r == Num(0)
    ensures s != "" && AllDigits(s) ==> r == Num(DigitsValue(s))
    ensures r.Num? && s != "" ==> AllDigits(s) || (|s| >= 2 && (s[0] == '+' || s[0] == '-') && AllDigits(s[1..]))
  {
    if s == "" then Num(0)
    else if AllDigits(s) then Num(DigitsValue(s))
    else if |s| >= 2 && s[0] == '+' && AllDigits(s[1..]) then Num(DigitsValue(s[1..]))
    else if |s| >= 2 && s[0] == '-' && AllDigits(s[1..]) then Num(-(DigitsValue(s[1..]) as int))
    else NaN
  }

  /** `Number(x)` of a destructured field: `Number(undefined)` is NaN. */
  function ToNumberOpt(s: Option<string>): (r: JsNumber)
    ensures s.None? ==> r == NaN
  {
    match s
    case None => NaN
    case Some(t) => ToNumber(t)
  }

  /** The decimal text of a natural number, without leading zeros. */
  function NatText(n: nat): (r: string)
    ensures |r| >= 1 && AllDigits(r)
    ensures |r| > 1 ==> r[0] != '0'
    decreases n
  {
    if n < 10 then [DigitChar(n)] else NatText(n / 10) + [DigitChar(n % 10)]
  }

  /** `${v}` for an integer `v`. */
  function IntText(v: int): (r: string)
    ensures |r| >= 1
    ensures r[0] == '-' <==> v < 0
  {
    if v < 0 then "-" + NatText(-v) else NatText(v)
  }

  /** Reading back the decimal text of `n` gives `n`. */
  lemma {:induction false} NatTextValue(n: nat)
    ensures DigitsValue(NatText(n)) == n
    decreases n
  {
    var r := NatText(n);
    if n >= 10 {
      NatTextValue(n / 10);
      assert r[..|r| - 1] == NatText(n / 10);
    }
  }

  /** `Number(`${v}`) === v`: the text of an integer converts back to that integer. */
  lemma IntTextRoundTrip(v: int)
    ensures ToNumber(IntText(v)) == Num(v)
  {
    if v < 0 {
      var t := IntText(v);
      NatTextValue(-v);
      assert t[1..] == NatText(-v);
      assert !AllDigits(t) by { assert !IsDigit(t[0]); }
    } else {
      NatTextValue(v);
    }
  }
}
