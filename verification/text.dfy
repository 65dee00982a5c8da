/** Character classes and small string operations shared by the validators and
    the query builder: JavaScript's `\s` and `\d` classes, ASCII case mapping,
    whitespace stripping, decimal rendering of integers and comma joining. */
module Text {

  /** JavaScript's `\s`: the ECMAScript white-space and line-terminator characters. */
  predicate IsSpace(c: char)
  {
    c == ' ' || c == '\t' || c == '\n' || c == '\r' || c == '\U{000B}' || c == '\U{000C}'
    || c == '\U{00A0}' || c == '\U{1680}' || ('\U{2000}' <= c <= '\U{200A}')
    || c == '\U{2028}' || c == '\U{2029}' || c == '\U{202F}' || c == '\U{205F}'
    || c == '\U{3000}' || c == '\U{FEFF}'
  }

  /** JavaScript's `\d` and `[0-9]` (ASCII digits only). */
  predicate IsDigit(c: char)
  {
    '0' <= c <= '9'
  }

  predicate IsLowerAscii(c: char)
  {
    'a' <= c <= 'z'
  }

  predicate IsUpperAscii(c: char)
  {
    'A' <= c <= 'Z'
  }

  predicate AllDigits(s: string)
  {
    forall i :: 0 <= i < |s| ==> IsDigit(s[i])
  }

  /** Lower-cases one character (ASCII letters only). */
  function LowerChar(c: char): (r: char)
    ensures IsUpperAscii(c) ==> IsLowerAscii(r) && r as int - c as int == 32
    ensures !IsUpperAscii(c) ==> r == c
  {
    if IsUpperAscii(c) then (c as int + 32) as char else c
  }

  /** `toLowerCase()` restricted to ASCII letters. */
  function Lower(s: string): (r: string)
    ensures |r| == |s|
    ensures forall i :: 0 <= i < |s| ==> r[i] == LowerChar(s[i])
  {
    seq(|s|, i requires 0 <= i < |s| => LowerChar(s[i]))
  }

  /** Lower-casing is idempotent, so comparing lower-cased strings is an equivalence. */
  lemma LowerIdempotent(s: string)
    ensures Lower(Lower(s)) == Lower(s)
  {
  }

  /** `s.replace(/\s/g, '')`. */
  function StripSpaces(s: string): (r: string)
    ensures |r| <= |s|
    ensures forall i :: 0 <= i < |r| ==> !IsSpace(r[i]) && r[i] in s
  {
    if |s| == 0 then ""
    else if IsSpace(s[0]) then StripSpaces(s[1..])
    else [s[0]] + StripSpaces(s[1..])
  }

  /** Stripping distributes over concatenation. */
  lemma {:induction false} StripSpacesAppend(a: string, b: string)
    ensures StripSpaces(a + b) == StripSpaces(a) + StripSpaces(b)
    decreases |a|
  {
    if |a| > 0 {
      assert (a + b)[0] == a[0];
      assert (a + b)[1..] == a[1..] + b;
      StripSpacesAppend(a[1..], b);
    } else {
      assert a + b == b;
    }
  }

  /** A string without white space is left as it is. */
  lemma {:induction false} StripSpacesNoop(s: string)
    requires forall i :: 0 <= i < |s| ==> !IsSpace(s[i])
    ensures StripSpaces(s) == s
    decreases |s|
  {
    if |s| > 0 {
      StripSpacesNoop(s[1..]);
      assert s == [s[0]] + s[1..];
    }
  }

  /** Number of characters that are not white space. */
  function NonSpaceCount(s: string): nat
  {
    if |s| == 0 then 0 else (if IsSpace(s[0]) then 0 else 1) + NonSpaceCount(s[1..])
  }

  /** Stripping keeps exactly the non-space characters, so its length is their
      count and it is all digits exactly when every non-space character is one. */
  lemma {:induction false} StripSpacesCharacterised(s: string)
    ensures |StripSpaces(s)| == NonSpaceCount(s)
    ensures AllDigits(StripSpaces(s)) <==>
      forall i :: 0 <= i < |s| && !IsSpace(s[i]) ==> IsDigit(s[i])
    decreases |s|
  {
    if |s| > 0 {
      StripSpacesCharacterised(s[1..]);
      var t := StripSpaces(s[1..]);
      if (forall i :: 0 <= i < |s| && !IsSpace(s[i]) ==> IsDigit(s[i])) {
        forall i | 0 <= i < |s[1..]| && !IsSpace(s[1..][i]) ensures IsDigit(s[1..][i]) {
          assert s[1..][i] == s[i + 1];
        }
      }
      if (forall i :: 0 <= i < |s[1..]| && !IsSpace(s[1..][i]) ==> IsDigit(s[1..][i])) {
        if !IsSpace(s[0]) {
          assert StripSpaces(s)[1..] == t;
        }
        if AllDigits(StripSpaces(s)) {
          forall i | 0 <= i < |s| && !IsSpace(s[i]) ensures IsDigit(s[i]) {
            if i == 0 {
              assert StripSpaces(s)[0] == s[0];
            } else {
              assert s[i] == s[1..][i - 1];
            }
          }
        }
      }
      if AllDigits(StripSpaces(s)) {
        var r := StripSpaces(s);
        if !IsSpace(s[0]) {
          assert r[1..] == t;
          assert forall i :: 0 <= i < |t| ==> t[i] == r[i + 1];
        }
      }
    }
  }

  /** Value of a string of decimal digits. */
  function DigitsValue(s: string): nat
    requires AllDigits(s)
  {
    if |s| == 0 then 0
    else DigitsValue(s[..|s| - 1]) * 10 + (s[|s| - 1] as int - '0' as int)
  }

  /** Decimal digits of a natural number, without leading zeros (`String(n)`). */
  function NatToString(n: nat): (r: string)
    ensures |r| > 0 && AllDigits(r)
    ensures DigitsValue(r) == n
    ensures |r| > 1 ==> r[0] != '0'
  {
    var d := ((n % 10) + '0' as int) as char;
    if n < 10 then [d]
    else
      var prefix := NatToString(n / 10);
      var r := prefix + [d];
      assert r[..|r| - 1] == prefix;
      r
  }

  /** `String(n)` for an integer: a minus sign before the digits of `|n|`. */
  function IntToString(n: int): (r: string)
    ensures n >= 0 ==> r == NatToString(n)
    ensures n < 0 ==> |r| > 1 && r[0] == '-' && r[1..] == NatToString(-n)
  {
    if n >= 0 then NatToString(n) else "-" + NatToString(-n)
  }

  /** `xs.join(',')`. */
  function JoinComma(xs: seq<string>): string
  {
    if |xs| == 0 then ""
    else if |xs| == 1 then xs[0]
    else xs[0] + "," + JoinComma(xs[1..])
  }

  /** Position of the first `c` in `s`, or `|s|` when there is none. */
  function FirstIndexOf(s: string, c: char): (r: nat)
    ensures r <= |s|
    ensures r < |s| ==> s[r] == c
    ensures forall i :: 0 <= i < r ==> s[i] != c
  {
    if |s| == 0 then 0
    else if s[0] == c then 0
    else 1 + FirstIndexOf(s[1..], c)
  }

  /** `s.split(',')`: the pieces between commas (always at least one). */
  function SplitComma(s: string): (r: seq<string>)
    ensures |r| >= 1
    ensures forall i :: 0 <= i < |r| ==> ',' !in r[i]
    decreases |s|
  {
    var i := FirstIndexOf(s, ',');
    if i == |s| then [s] else [s[..i]] + SplitComma(s[i + 1..])
  }

  /** Splitting a comma-joined list gives the list back, provided it is not empty
      and none of its pieces contains a comma. */
  lemma {:induction false} SplitJoinRoundTrip(xs: seq<string>)
    requires |xs| >= 1
    requires forall i :: 0 <= i < |xs| ==> ',' !in xs[i]
    ensures SplitComma(JoinComma(xs)) == xs
    decreases |xs|
  {
    if |xs| == 1 {
      assert FirstIndexOf(xs[0], ',') == |xs[0]|;
    } else {
      var x := xs[0];
      var tail := JoinComma(xs[1..]);
      SplitAtFirstComma(x, tail);
      SplitJoinRoundTrip(xs[1..]);
      assert xs == [x] + xs[1..];
    }
  }

  /** Splitting a comma-free piece followed by a comma and a rest yields the
      piece and then the split of the rest. */
  lemma SplitAtFirstComma(x: string, tail: string)
    requires ',' !in x
    ensures SplitComma(x + "," + tail) == [x] + SplitComma(tail)
  {
    var s := x + "," + tail;
    assert FirstIndexOf(s, ',') == |x| by {
      assert forall i :: 0 <= i < |x| ==> s[i] == x[i];
      assert s[|x|] == ',';
    }
    assert s[..|x|] == x;
    assert s[|x| + 1..] == tail;
  }
}
