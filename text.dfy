/**
 * The string operations the handlers rely on: `strings.ToLower` (restricted to
 * ASCII letters), `strings.Split` with a one-character separator, and `len`,
 * which counts the bytes of a string's UTF-8 encoding.
 */
module Text {

  predicate IsUpperAscii(c: char) {
    'A' <= c <= 'Z'
  }

  function LowerChar(c: char): (d: char)
    ensures !IsUpperAscii(d)
    ensures IsUpperAscii(c) ==> d as int == c as int + 32
    ensures !IsUpperAscii(c) ==> d == c
  {
    if IsUpperAscii(c) then (c as int + 32) as char else c
  }

  /** `strings.ToLower` on ASCII text: same length, no upper-case letter left, every other character kept. */
  function ToLower(s: string): (r: string)
    ensures |r| == |s|
    ensures forall i :: 0 <= i < |s| ==> r[i] == LowerChar(s[i])
  {
    seq(|s|, i requires 0 <= i < |s| => LowerChar(s[i]))
  }

  /** Lower-casing twice is lower-casing once. */
  lemma ToLowerIdempotent(s: string)
    ensures ToLower(ToLower(s)) == ToLower(s)
  {
  }

  /** The number of bytes UTF-8 spends on one scalar value. */
  function Utf8Width(c: char): (n: nat)
    ensures 1 <= n <= 4
    ensures n == 1 <==> c as int < 0x80
  {
    if c as int < 0x80 then 1
    else if c as int < 0x800 then 2
    else if c as int < 0x1_0000 then 3
    else 4
  }

  /** Go's `len` on a string: the length of its UTF-8 encoding in bytes. */
  function ByteLength(s: string): (n: nat)
    ensures |s| <= n <= 4 * |s|
  {
    if s == "" then 0 else Utf8Width(s[0]) + ByteLength(s[1..])
  }

  /** On ASCII text, bytes and characters agree. */
  lemma {:induction false} AsciiByteLength(s: string)
    requires forall i :: 0 <= i < |s| ==> s[i] as int < 0x80
    ensures ByteLength(s) == |s|
  {
    if s != "" {
      AsciiByteLength(s[1..]);
    }
  }

  /** A text repeating one character takes that character's width once per copy. */
  lemma {:induction false} UniformByteLength(s: string, c: char)
    requires forall i :: 0 <= i < |s| ==> s[i] == c
    ensures ByteLength(s) == |s| * Utf8Width(c)
  {
    if s != "" {
      UniformByteLength(s[1..], c);
    }
  }

  function CountChar(c: char, s: string): nat {
    if s == "" then 0 else (if s[0] == c then 1 else 0) + CountChar(c, s[1..])
  }

  /**
   * `strings.Split(s, string(sep))`: the pieces between separators, so one more
   * piece than there are separators; the empty string gives one empty piece.
   */
  function Split(s: string, sep: char): (parts: seq<string>)
    ensures |parts| >= 1
    ensures forall k :: 0 <= k < |parts| ==> sep !in parts[k]
    decreases |s|
  {
    if s == "" then [""]
    else
      var rest := Split(s[1..], sep);
      if s[0] == sep then [""] + rest else [[s[0]] + rest[0]] + rest[1..]
  }

  /** `strings.Join(parts, string(sep))`. */
  function Join(parts: seq<string>, sep: char): string
    requires |parts| >= 1
  {
    if |parts| == 1 then parts[0] else parts[0] + [sep] + Join(parts[1..], sep)
  }

  lemma {:induction false} SplitCount(s: string, sep: char)
    ensures |Split(s, sep)| == CountChar(sep, s) + 1
    decreases |s|
  {
    if s != "" {
      SplitCount(s[1..], sep);
    }
  }

  /** Joining the pieces with the separator gives back the string. */
  lemma {:induction false} JoinSplit(s: string, sep: char)
    ensures Join(Split(s, sep), sep) == s
    decreases |s|
  {
    if s != "" {
      var rest := Split(s[1..], sep);
      JoinSplit(s[1..], sep);
      if s[0] == sep {
        assert Split(s, sep)[1..] == rest;
        assert s == [s[0]] + s[1..];
      } else {
        var parts := Split(s, sep);
        if |rest| == 1 {
          assert parts == [[s[0]] + rest[0]];
          assert s == [s[0]] + s[1..];
        } else {
          assert parts[1..] == rest[1..];
          assert Join(rest, sep) == rest[0] + [sep] + Join(rest[1..], sep);
          assert s == [s[0]] + s[1..];
        }
      }
    }
  }

  /** A string without the separator is a single piece. */
  lemma {:induction false} SplitNoSeparator(s: string, sep: char)
    requires sep !in s
    ensures Split(s, sep) == [s]
    decreases |s|
  {
    if s != "" {
      assert sep !in s[1..];
      SplitNoSeparator(s[1..], sep);
      assert [s[0]] + s[1..] == s;
    }
  }

  /** Text with exactly one separator splits into what precedes it and what follows it. */
  lemma {:induction false} SplitOneSeparator(a: string, b: string, sep: char)
    requires sep !in a && sep !in b
    ensures Split(a + [sep] + b, sep) == [a, b]
    decreases |a|
  {
    if a == "" {
      assert a + [sep] + b == [sep] + b;
      assert ([sep] + b)[1..] == b;
      SplitNoSeparator(b, sep);
    } else {
      assert (a + [sep] + b)[1..] == a[1..] + [sep] + b;
      assert sep !in a[1..];
      SplitOneSeparator(a[1..], b, sep);
      assert [a[0]] + a[1..] == a;
    }
  }
}
