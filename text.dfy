/**
 * String primitives the router relies on: ASCII upper-casing (the model of
 * `String.prototype.toUpperCase`), the UTF-8 byte length used for
 * `content-length`, and `split('\n')` / `join(sep)` used by the error formatter.
 */
module Text {

  predicate IsLowerAscii(c: char) { 'a' <= c <= 'z' }

  /** ASCII upper-casing of one character; every other character is unchanged. */
  function UpperChar(c: char): (u: char)
    ensures IsLowerAscii(c) ==> 'A' <= u <= 'Z' && u as int == c as int - 32
    ensures !IsLowerAscii(c) ==> u == c
  {
    if IsLowerAscii(c) then (c as int - 32) as char else c
  }

  /** `s.toUpperCase()` restricted to ASCII letters. */
  function Upper(s: string): (r: string)
    ensures |r| == |s|
    ensures forall i :: 0 <= i < |s| ==> !IsLowerAscii(r[i])
    ensures forall i :: 0 <= i < |s| && !IsLowerAscii(s[i]) ==> r[i] == s[i]
    ensures forall i :: 0 <= i < |s| ==> r[i] == UpperChar(s[i])
  {
    seq(|s|, i requires 0 <= i < |s| => UpperChar(s[i]))
  }

  /** Upper-casing twice is upper-casing once. */
  lemma UpperIdempotent(s: string)
    ensures Upper(Upper(s)) == Upper(s)
  {
    var u := Upper(s);
    assert forall i :: 0 <= i < |u| ==> Upper(u)[i] == u[i];
  }

  /** Number of bytes the UTF-8 encoding of one Unicode scalar value takes. */
  function Utf8Width(c: char): (n: nat)
    ensures 1 <= n <= 4
    ensures n == 1 <==> c as int < 0x80
  {
    if c as int < 0x80 then 1
    else if c as int < 0x800 then 2
    else if c as int < 0x10000 then 3
    else 4
  }

  /** `Buffer.byteLength(s, 'utf8')`. */
  function Utf8Length(s: string): (n: nat)
    ensures |s| <= n <= 4 * |s|
  {
    if s == [] then 0 else Utf8Width(s[0]) + Utf8Length(s[1..])
  }

  /** The byte length of a concatenation is the sum of the byte lengths. */
  lemma {:induction false} Utf8LengthAppend(a: string, b: string)
    ensures Utf8Length(a + b) == Utf8Length(a) + Utf8Length(b)
  {
    if a == [] {
      assert a + b == b;
    } else {
      assert (a + b)[0] == a[0];
      assert (a + b)[1..] == a[1..] + b;
      Utf8LengthAppend(a[1..], b);
    }
  }

  /** Every character takes between one and four bytes; pure ASCII takes exactly one each. */
  lemma {:induction false} Utf8LengthBounds(s: string)
    ensures |s| <= Utf8Length(s) <= 4 * |s|
    ensures Utf8Length(s) == |s| <==> forall i :: 0 <= i < |s| ==> s[i] as int < 0x80
  {
    if s != [] {
      Utf8LengthBounds(s[1..]);
      assert forall i :: 1 <= i < |s| ==> s[i] == s[1..][i - 1];
    }
  }

  predicate IsAscii(s: string) { forall i :: 0 <= i < |s| ==> s[i] as int < 0x80 }

  /** An ASCII string takes one byte per character. */
  lemma AsciiUtf8Length(s: string)
    requires IsAscii(s)
    ensures Utf8Length(s) == |s|
  {
    Utf8LengthBounds(s);
  }

  /** `s.split('\n')`: the maximal newline-free pieces, always at least one. */
  function SplitLines(s: string): (parts: seq<string>)
    ensures |parts| >= 1
    ensures |parts| == 1 + NewlineCount(s)
  {
    if s == [] then [""]
    else if s[0] == '\n' then [""] + SplitLines(s[1..])
    else
      var rest := SplitLines(s[1..]);
      [[s[0]] + rest[0]] + rest[1..]
  }

  /** Number of newline characters in `s`. */
  function NewlineCount(s: string): nat
  {
    if s == [] then 0 else (if s[0] == '\n' then 1 else 0) + NewlineCount(s[1..])
  }

  /** Sum of the lengths of `parts`. */
  function TotalLength(parts: seq<string>): nat
  {
    if parts == [] then 0 else |parts[0]| + TotalLength(parts[1..])
  }

  /** `parts.join(sep)`: every part once, in order, with one separator between neighbours. */
  function Join(parts: seq<string>, sep: string): (s: string)
    ensures |parts| == 0 ==> s == ""
    ensures |parts| >= 1 ==> |s| == TotalLength(parts) + (|parts| - 1) * |sep|
    ensures |parts| >= 1 ==> s[..|parts[0]|] == parts[0]
  {
    if |parts| == 0 then ""
    else if |parts| == 1 then parts[0]
    else parts[0] + sep + Join(parts[1..], sep)
  }

  /** Joining a part in front of a non-empty list puts one separator between them. */
  lemma JoinCons(first: string, rest: seq<string>, sep: string)
    requires |rest| >= 1
    ensures Join([first] + rest, sep) == first + sep + Join(rest, sep)
  {
    assert ([first] + rest)[1..] == rest;
  }

  /** No piece produced by `SplitLines` contains a newline. */
  lemma {:induction false} SplitLinesNoNewline(s: string)
    ensures forall k, j :: 0 <= k < |SplitLines(s)| && 0 <= j < |SplitLines(s)[k]| ==> SplitLines(s)[k][j] != '\n'
  {
    if s != [] {
      SplitLinesNoNewline(s[1..]);
    }
  }

  /** Splitting on newlines and joining with a newline gives back the string. */
  lemma {:induction false} JoinSplitLines(s: string)
    ensures Join(SplitLines(s), "\n") == s
  {
    if s == [] {
    } else if s[0] == '\n' {
      var rest := SplitLines(s[1..]);
      JoinSplitLines(s[1..]);
      assert SplitLines(s) == [""] + rest;
      JoinCons("", rest, "\n");
      assert s == "\n" + s[1..];
    } else {
      var rest := SplitLines(s[1..]);
      JoinSplitLines(s[1..]);
      var head := [s[0]] + rest[0];
      assert SplitLines(s) == [head] + rest[1..];
      if |rest| == 1 {
        assert s == [s[0]] + rest[0];
      } else {
        assert rest == [rest[0]] + rest[1..];
        JoinCons(rest[0], rest[1..], "\n");
        JoinCons(head, rest[1..], "\n");
        var tail := Join(rest[1..], "\n");
        assert s == [s[0]] + (rest[0] + "\n" + tail);
        assert head + "\n" + tail == [s[0]] + (rest[0] + "\n" + tail);
      }
    }
  }

  /** What follows the first newline of `s`; empty when `s` has no newline. */
  function AfterFirstLine(s: string): (r: string)
    ensures |r| <= |s|
    ensures (forall i :: 0 <= i < |s| ==> s[i] != '\n') ==> r == ""
  {
    if s == [] then ""
    else if s[0] == '\n' then s[1..]
    else AfterFirstLine(s[1..])
  }

  /**
   * `s.split('\n').slice(1).join('\n')` drops exactly the first line of `s`,
   * newline included.
   */
  lemma {:induction false} DropFirstLine(s: string)
    ensures Join(SplitLines(s)[1..], "\n") == AfterFirstLine(s)
  {
    if s == [] {
    } else if s[0] == '\n' {
      JoinSplitLines(s[1..]);
      assert SplitLines(s)[1..] == SplitLines(s[1..]);
    } else {
      DropFirstLine(s[1..]);
      assert SplitLines(s)[1..] == SplitLines(s[1..])[1..];
    }
  }

  /** The string `s` is `AfterFirstLine(s)` preceded by its first line and a newline, when it has one. */
  lemma {:induction false} FirstLineSplit(s: string, i: nat)
    requires i < |s| && s[i] == '\n'
    requires forall j :: 0 <= j < i ==> s[j] != '\n'
    ensures AfterFirstLine(s) == s[i + 1..]
  {
    if i > 0 {
      FirstLineSplit(s[1..], i - 1);
    }
  }
}
