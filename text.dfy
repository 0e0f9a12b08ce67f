/**
 The text primitives the line report is built from: right-aligned padding
 (the `%Ns` and `%Nd` verbs of Go's fmt package), decimal rendering of
 integers, and `strings.Join`. Each comes with the inverse a reader of the
 report would apply (trimming, decimal parsing, `strings.Split`) and a
 round-trip lemma.
 */
module Text {

  datatype Option<T> = None | Some(value: T)

  /** `n` space characters. */
  function Spaces(n: nat): (r: string)
    ensures |r| == n
  {
    if n == 0 then "" else " " + Spaces(n - 1)
  }

  lemma AppendAssoc(a: string, b: string, c: string)
    ensures a + (b + c) == a + b + c
  {
  }

  /** `s` right-aligned in a field of `width` characters: spaces are added on
      the left up to the width, and a longer string is kept whole. */
  function PadLeft(s: string, width: nat): (r: string)
    ensures |r| == if |s| < width then width else |s|
    ensures r == Spaces(|r| - |s|) + s
  {
    if |s| < width then Spaces(width - |s|) + s else s
  }

  /** `s` without its leading spaces. */
  function TrimLeft(s: string): (r: string)
    ensures r == [] || r[0] != ' '
    ensures |r| <= |s|
  {
    if s != [] && s[0] == ' ' then TrimLeft(s[1..]) else s
  }

  /** What trimming removes is a run of spaces, and all it keeps is the rest. */
  lemma {:induction false} TrimLeftSplit(s: string)
    ensures s == Spaces(|s| - |TrimLeft(s)|) + TrimLeft(s)
  {
    if s != [] && s[0] == ' ' {
      var r := TrimLeft(s[1..]);
      TrimLeftSplit(s[1..]);
      assert Spaces(|s| - |r|) == " " + Spaces(|s[1..]| - |r|);
      assert s == " " + s[1..];
    } else {
      assert Spaces(0) + s == s;
    }
  }

  lemma {:induction false} TrimSpaces(n: nat, s: string)
    requires s == [] || s[0] != ' '
    ensures TrimLeft(Spaces(n) + s) == s
  {
    if n > 0 {
      assert (Spaces(n) + s)[1..] == Spaces(n - 1) + s;
      TrimSpaces(n - 1, s);
    }
  }

  /** Padding loses nothing: a field that does not itself begin with a space
      is recovered from its padded form by trimming. */
  lemma TrimPadLeft(s: string, width: nat)
    requires s == [] || s[0] != ' '
    ensures TrimLeft(PadLeft(s, width)) == s
  {
    if |s| < width {
      TrimSpaces(width - |s|, s);
    }
  }

  predicate IsDigit(c: char) {
    '0' <= c <= '9'
  }

  function DigitChar(d: nat): (c: char)
    requires d < 10
    ensures IsDigit(c) && (c as int) - ('0' as int) == d
  {
    (('0' as int) + d) as char
  }

  /** The decimal digits of `n`, most significant first, without leading zeros. */
  function NatText(n: nat): (r: string)
    ensures |r| >= 1 && IsDigit(r[0])
    ensures |r| == 1 <==> n < 10
    decreases n
  {
    if n < 10 then [DigitChar(n)] else NatText(n / 10) + [DigitChar(n % 10)]
  }

  /** Go's `%d` on a signed integer: a minus sign before the digits of a negative value. */
  function IntText(n: int): (r: string)
    ensures r != [] && r[0] != ' '
  {
    if n < 0 then "-" + NatText(-n) else NatText(n)
  }

  /** The value of a string of decimal digits. */
  function DigitsValue(s: string): nat
    requires forall i :: 0 <= i < |s| ==> IsDigit(s[i])
  {
    if s == [] then 0
    else
      assert IsDigit(s[|s| - 1]);
      DigitsValue(s[..|s| - 1]) * 10 + ((s[|s| - 1] as int) - ('0' as int))
  }

  function ParseNat(s: string): Option<nat> {
    if s != [] && forall i :: 0 <= i < |s| ==> IsDigit(s[i]) then Some(DigitsValue(s)) else None
  }

  /** Reads back what `IntText` writes: an optional minus sign and at least one digit. */
  function ParseInt(s: string): Option<int> {
    if s != [] && s[0] == '-' then
      match ParseNat(s[1..])
      case Some(n) => Some(-(n as int))
      case None => None
    else
      match ParseNat(s)
      case Some(n) => Some(n)
      case None => None
  }

  lemma {:induction false} NatTextDigits(n: nat)
    ensures forall i :: 0 <= i < |NatText(n)| ==> IsDigit(NatText(n)[i])
    decreases n
  {
    if n >= 10 {
      NatTextDigits(n / 10);
    }
  }

  lemma {:induction false} NatTextValue(n: nat)
    requires forall i :: 0 <= i < |NatText(n)| ==> IsDigit(NatText(n)[i])
    ensures DigitsValue(NatText(n)) == n
    decreases n
  {
    if n >= 10 {
      NatTextDigits(n / 10);
      var r := NatText(n);
      assert r[..|r| - 1] == NatText(n / 10);
      NatTextValue(n / 10);
    }
  }

  lemma NatTextRoundTrip(n: nat)
    ensures ParseNat(NatText(n)) == Some(n)
  {
    NatTextDigits(n);
    NatTextValue(n);
  }

  /** Decimal rendering round-trips through parsing. */
  lemma IntTextRoundTrip(n: int)
    ensures ParseInt(IntText(n)) == Some(n)
  {
    if n < 0 {
      var d := NatText(-n);
      NatTextRoundTrip(-n);
      assert ("-" + d)[1..] == d;
      assert ("-" + d)[0] == '-';
    } else {
      NatTextRoundTrip(n);
      assert NatText(n)[0] != '-';
    }
  }

  /** How many characters `%d` takes for small values: the report's offset
      column is three wide, which holds every value from -99 to 999. */
  lemma IntTextWidth(n: int)
    requires -99 <= n <= 999
    ensures |IntText(n)| <= 3
  {
    if n < 0 {
      assert |NatText(-n)| <= 2 by {
        if -n >= 10 { assert |NatText(-n)| == |NatText(-n / 10)| + 1; }
      }
    } else if n >= 10 {
      assert |NatText(n / 10)| <= 2 by {
        if n / 10 >= 10 { assert |NatText(n / 10)| == |NatText(n / 100)| + 1; }
      }
    }
  }

  /** Go's `strings.Contains(s, string(c))` for a one-character needle. */
  predicate Contains(s: string, c: char) {
    c in s
  }

  /** Go's `strings.Join(parts, sep)` for a one-character separator. */
  function Join(parts: seq<string>, sep: char): (r: string)
    ensures parts == [] ==> r == ""
  {
    if parts == [] then ""
    else if |parts| == 1 then parts[0]
    else parts[0] + [sep] + Join(parts[1..], sep)
  }

  /** `Join` on three pieces, spelt out. */
  lemma JoinThree(a: string, b: string, c: string, sep: char)
    ensures Join([a, b, c], sep) == a + [sep] + b + [sep] + c
  {
    assert [a, b, c][1..] == [b, c] && [b, c][1..] == [c];
    assert Join([b, c], sep) == b + [sep] + c;
    assert a + [sep] + (b + [sep] + c) == a + [sep] + b + [sep] + c;
  }

  /** Go's `strings.Split(s, sep)` for a one-character separator: the pieces
      between separators, so that the empty string splits into one empty piece. */
  function Split(s: string, sep: char): (r: seq<string>)
    ensures |r| >= 1
  {
    if s == [] then [""]
    else if s[0] == sep then [""] + Split(s[1..], sep)
    else
      var rest := Split(s[1..], sep);
      [[s[0]] + rest[0]] + rest[1..]
  }

  lemma {:induction false} SplitAfterPiece(a: string, t: string, sep: char)
    requires sep !in a
    ensures Split(a + t, sep) == [a + Split(t, sep)[0]] + Split(t, sep)[1..]
  {
    if a == [] {
      var r := Split(t, sep);
      assert a + t == t && a + r[0] == r[0];
      assert r == [r[0]] + r[1..];
    } else {
      assert (a + t)[0] == a[0] && (a + t)[1..] == a[1..] + t;
      SplitAfterPiece(a[1..], t, sep);
      assert [a[0]] + (a[1..] + Split(t, sep)[0]) == a + Split(t, sep)[0];
    }
  }

  /** Splitting a joined list gives the list back, provided no piece holds the separator. */
  lemma {:induction false} SplitJoin(parts: seq<string>, sep: char)
    requires parts != []
    requires forall i :: 0 <= i < |parts| ==> sep !in parts[i]
    ensures Split(Join(parts, sep), sep) == parts
  {
    if |parts| == 1 {
      SplitAfterPiece(parts[0], "", sep);
      assert parts[0] + "" == parts[0];
    } else {
      var rest := Join(parts[1..], sep);
      SplitJoin(parts[1..], sep);
      assert parts[0] + [sep] + rest == parts[0] + ([sep] + rest);
      SplitAfterPiece(parts[0], [sep] + rest, sep);
      assert ([sep] + rest)[1..] == rest;
      assert Split([sep] + rest, sep) == [""] + parts[1..];
      assert parts[0] + "" == parts[0];
      assert [parts[0]] + parts[1..] == parts;
    }
  }
}
