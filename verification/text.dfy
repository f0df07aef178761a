/** String helpers shared by the parser and both backends. Characters are
    treated as ASCII where the source relies on Python's case mapping. */
module Text {

  /** `''.join(xs)` */
  function Concat(xs: seq<string>): string {
    if xs == [] then "" else xs[0] + Concat(xs[1..])
  }

  /** `sep.join(xs)` */
  function Join(sep: string, xs: seq<string>): string {
    if |xs| == 0 then ""
    else if |xs| == 1 then xs[0]
    else xs[0] + sep + Join(sep, xs[1..])
  }

  lemma {:induction false} JoinAppend(sep: string, xs: seq<string>, y: string)
    requires |xs| > 0
    ensures Join(sep, xs + [y]) == Join(sep, xs) + sep + y
  {
    if |xs| == 1 {
      assert xs + [y] == [xs[0], y];
    } else {
      assert (xs + [y])[1..] == xs[1..] + [y];
      JoinAppend(sep, xs[1..], y);
    }
  }

  /** `makepad(x)`: `x` blanks, or nothing when `x` is not positive. */
  function MakePad(x: int): (r: string)
    ensures |r| == if x <= 0 then 0 else x
    ensures forall i :: 0 <= i < |r| ==> r[i] == ' '
  {
    if x <= 0 then "" else seq(x, _ => ' ')
  }

  /** `pad_left(x, pad)` */
  function PadLeft(x: string, pad: int): string {
    MakePad(pad) + x
  }

  /** `s.replace(' ', '')`: the characters of `s` other than blanks, in order. */
  function RemoveSpaces(s: string): (r: string)
    ensures ' ' !in r
    ensures ' ' !in s ==> r == s
    ensures forall c :: c != ' ' ==> multiset(r)[c] == multiset(s)[c]
  {
    if s == [] then ""
    else
      assert s == [s[0]] + s[1..];
      (if s[0] == ' ' then "" else [s[0]]) + RemoveSpaces(s[1..])
  }

  /** Blanks are removed piece by piece: the result for a concatenation is
      the concatenation of the results, so the kept characters stay in order. */
  lemma {:induction false} RemoveSpacesAppend(a: string, b: string)
    ensures RemoveSpaces(a + b) == RemoveSpaces(a) + RemoveSpaces(b)
    decreases a
  {
    if a == [] {
      assert a + b == b;
    } else {
      assert (a + b)[0] == a[0];
      assert (a + b)[1..] == a[1..] + b;
      RemoveSpacesAppend(a[1..], b);
    }
  }

  /** A single character is dropped exactly when it is a blank. */
  lemma RemoveSpacesChar(c: char)
    ensures RemoveSpaces([c]) == if c == ' ' then "" else [c]
  {
    assert [c][1..] == "";
  }

  /** A blank between two strings joins them. */
  lemma RemoveSpacesJoins(a: string, b: string)
    ensures RemoveSpaces(a + " " + b) == RemoveSpaces(a) + RemoveSpaces(b)
  {
    assert a + " " + b == a + (" " + b);
    RemoveSpacesAppend(a, " " + b);
    RemoveSpacesAppend(" ", b);
    RemoveSpacesChar(' ');
  }

  predicate IsLower(c: char) { 'a' <= c <= 'z' }

  predicate IsUpper(c: char) { 'A' <= c <= 'Z' }

  /** Python's notion of a cased character, restricted to ASCII letters. */
  predicate IsCased(c: char) { IsLower(c) || IsUpper(c) }

  function ToUpper(c: char): char {
    if IsLower(c) then (c as int - 32) as char else c
  }

  function ToLower(c: char): char {
    if IsUpper(c) then (c as int + 32) as char else c
  }

  /** `x[0].upper() + x[1:]`, and `x` itself when it is empty. */
  function FirstUpper(s: string): (r: string)
    ensures |r| == |s|
    ensures s == [] ==> r == []
    ensures s != [] ==> r[0] == ToUpper(s[0]) && r[1..] == s[1..]
  {
    if |s| <= 0 then s else [ToUpper(s[0])] + s[1..]
  }

  lemma FirstUpperIdempotent(s: string)
    ensures FirstUpper(FirstUpper(s)) == FirstUpper(s)
  {
  }

  /** `str.title()`: a character that follows a cased character is lowered,
      every other character is upper-cased. */
  function Title(s: string): string {
    TitleFrom(s, false)
  }

  function TitleFrom(s: string, previousCased: bool): (r: string)
    ensures |r| == |s|
  {
    if s == [] then ""
    else [if previousCased then ToLower(s[0]) else ToUpper(s[0])] + TitleFrom(s[1..], IsCased(s[0]))
  }

  lemma {:induction false} TitleFromIdempotent(s: string, previousCased: bool)
    ensures TitleFrom(TitleFrom(s, previousCased), previousCased) == TitleFrom(s, previousCased)
    decreases s
  {
    if s != [] {
      var t := TitleFrom(s, previousCased);
      var c := if previousCased then ToLower(s[0]) else ToUpper(s[0]);
      assert t == [c] + TitleFrom(s[1..], IsCased(s[0]));
      assert t[0] == c && t[1..] == TitleFrom(s[1..], IsCased(s[0]));
      assert IsCased(c) == IsCased(s[0]);
      TitleFromIdempotent(s[1..], IsCased(s[0]));
    }
  }

  /** Title-casing a title-cased name changes nothing. */
  lemma TitleIdempotent(s: string)
    ensures Title(Title(s)) == Title(s)
    ensures |Title(s)| == |s|
  {
    TitleFromIdempotent(s, false);
  }

  function DigitChar(d: nat): char
    requires d < 10
  {
    "0123456789"[d]
  }

  function NatToString(n: nat): (r: string)
    ensures |r| > 0
    ensures forall i :: 0 <= i < |r| ==> '0' <= r[i] <= '9'
  {
    if n < 10 then [DigitChar(n)] else NatToString(n / 10) + [DigitChar(n % 10)]
  }

  /** `str(i)` for a Python `int`. */
  function IntToString(i: int): (r: string)
    ensures |r| > 0
    ensures (r[0] == '-') <==> i < 0
  {
    if i < 0 then "-" + NatToString(-i) else NatToString(i)
  }
}
