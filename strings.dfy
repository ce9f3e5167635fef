/**
 * The string operations the demo relies on: `str.split` (to read a built
 * string back into its parts), ASCII `str.upper`, and `str.format` with
 * positional `{0}`..`{9}` placeholders.
 */
module Strings {

  /** Python's `s.split(d)` for a one-character separator: always at least one part. */
  function Split(s: string, d: char): (parts: seq<string>)
    ensures |parts| >= 1
    decreases |s|
  {
    if s == [] then [""]
    else if s[0] == d then [""] + Split(s[1..], d)
    else
      var rest := Split(s[1..], d);
      [[s[0]] + rest[0]] + rest[1..]
  }

  /** A string without the separator is a single part. */
  lemma {:induction false} SplitWithoutSeparator(s: string, d: char)
    requires d !in s
    ensures Split(s, d) == [s]
  {
    if s != [] {
      assert s[0] != d;
      SplitWithoutSeparator(s[1..], d);
      assert [s[0]] + s[1..] == s;
    }
  }

  /** A separator-free prefix followed by the separator is split off as the first part. */
  lemma {:induction false} SplitAfterPart(a: string, d: char, b: string)
    requires d !in a
    ensures Split(a + [d] + b, d) == [a] + Split(b, d)
  {
    if a == [] {
      assert a + [d] + b == [d] + b;
      assert ([d] + b)[1..] == b;
    } else {
      SplitAfterPart(a[1..], d, b);
      assert (a + [d] + b)[1..] == a[1..] + [d] + b;
      assert [a[0]] + a[1..] == a;
    }
  }

  /** ASCII upper-casing of one character. */
  function UpperChar(c: char): char
  {
    if 'a' <= c <= 'z' then (c as int - 32) as char else c
  }

  /** Python's `s.upper()` on ASCII text. */
  function Upper(s: string): (r: string)
    ensures |r| == |s|
    ensures forall i :: 0 <= i < |s| ==> r[i] == UpperChar(s[i])
  {
    if s == [] then [] else [UpperChar(s[0])] + Upper(s[1..])
  }

  /** True when `t` starts with a placeholder `{d}` whose index `d` names one of `n` arguments. */
  predicate IsPlaceholder(t: string, n: nat)
  {
    |t| >= 3 && t[0] == '{' && '0' <= t[1] <= '9' && t[2] == '}' && t[1] as int - '0' as int < n
  }

  /** Python's `template.format(*args)` for templates whose only braces are `{0}`..`{9}`. */
  function Format(template: string, args: seq<string>): string
    decreases |template|
  {
    if template == [] then ""
    else if IsPlaceholder(template, |args|) then
      args[template[1] as int - '0' as int] + Format(template[3..], args)
    else [template[0]] + Format(template[1..], args)
  }

  /** Text without braces is copied through unchanged. */
  lemma {:induction false} FormatText(text: string, rest: string, args: seq<string>)
    requires '{' !in text
    ensures Format(text + rest, args) == text + Format(rest, args)
  {
    if text == [] {
      assert text + rest == rest;
    } else {
      assert (text + rest)[0] == text[0];
      assert !IsPlaceholder(text + rest, |args|);
      assert (text + rest)[1..] == text[1..] + rest;
      FormatText(text[1..], rest, args);
      assert [text[0]] + text[1..] == text;
    }
  }

  /** A placeholder `{d}` is replaced by argument `d`. */
  lemma FormatArgument(d: char, rest: string, args: seq<string>)
    requires '0' <= d <= '9' && d as int - '0' as int < |args|
    ensures Format(['{', d, '}'] + rest, args) == args[d as int - '0' as int] + Format(rest, args)
  {
    var t := ['{', d, '}'] + rest;
    assert t[0] == '{' && t[1] == d && t[2] == '}';
    assert IsPlaceholder(t, |args|);
    assert t[3..] == rest;
  }

  /** A placeholder ending the template is replaced by its argument. */
  lemma FormatLastArgument(d: char, args: seq<string>)
    requires '0' <= d <= '9' && d as int - '0' as int < |args|
    ensures Format(['{', d, '}'], args) == args[d as int - '0' as int]
  {
    FormatArgument(d, "", args);
    assert ['{', d, '}'] + "" == ['{', d, '}'];
  }

  /** Text ending the template is copied through. */
  lemma FormatLastText(text: string, args: seq<string>)
    requires '{' !in text
    ensures Format(text, args) == text
  {
    FormatText(text, "", args);
    assert text + "" == text;
  }

  /** A brace-free text followed by a placeholder: the text is copied and the placeholder replaced. */
  lemma FormatPiece(text: string, d: char, rest: string, args: seq<string>)
    requires '{' !in text && '0' <= d <= '9' && d as int - '0' as int < |args|
    ensures Format(text + (['{', d, '}'] + rest), args) == text + (args[d as int - '0' as int] + Format(rest, args))
  {
    FormatText(text, ['{', d, '}'] + rest, args);
    FormatArgument(d, rest, args);
  }

  /** `(t0 + "{0}" + t1).format(a0)` */
  lemma FormatOne(t0: string, t1: string, args: seq<string>)
    requires '{' !in t0 && '{' !in t1 && |args| >= 1
    ensures Format(t0 + ("{0}" + t1), args) == t0 + (args[0] + t1)
  {
    FormatPiece(t0, '0', t1, args);
    FormatLastText(t1, args);
  }

  /** `(t0 + "{0}" + t1 + "{1}" + t2).format(a0, a1)` */
  lemma FormatTwo(t0: string, t1: string, t2: string, args: seq<string>)
    requires '{' !in t0 && '{' !in t1 && '{' !in t2 && |args| >= 2
    ensures Format(t0 + ("{0}" + (t1 + ("{1}" + t2))), args) == t0 + (args[0] + (t1 + (args[1] + t2)))
  {
    FormatPiece(t0, '0', t1 + ("{1}" + t2), args);
    FormatPiece(t1, '1', t2, args);
    FormatLastText(t2, args);
  }

  /** `(t0 + "{0}" + t1 + "{1}" + t2 + "{2}" + t3).format(a0, a1, a2)` */
  lemma FormatThree(t0: string, t1: string, t2: string, t3: string, args: seq<string>)
    requires '{' !in t0 && '{' !in t1 && '{' !in t2 && '{' !in t3 && |args| >= 3
    ensures Format(t0 + ("{0}" + (t1 + ("{1}" + (t2 + ("{2}" + t3))))), args)
            == t0 + (args[0] + (t1 + (args[1] + (t2 + (args[2] + t3)))))
  {
    FormatPiece(t0, '0', t1 + ("{1}" + (t2 + ("{2}" + t3))), args);
    FormatPiece(t1, '1', t2 + ("{2}" + t3), args);
    FormatPiece(t2, '2', t3, args);
    FormatLastText(t3, args);
  }

  /** Three brace-free texts, each followed by a placeholder, then anything. */
  lemma FormatPieces(t0: string, d0: char, t1: string, d1: char, t2: string, d2: char, rest: string,
                     args: seq<string>)
    requires '{' !in t0 && '{' !in t1 && '{' !in t2
    requires '0' <= d0 <= '9' && d0 as int - '0' as int < |args|
    requires '0' <= d1 <= '9' && d1 as int - '0' as int < |args|
    requires '0' <= d2 <= '9' && d2 as int - '0' as int < |args|
    ensures Format(t0 + (['{', d0, '}'] + (t1 + (['{', d1, '}'] + (t2 + (['{', d2, '}'] + rest))))), args)
            == t0 + (args[d0 as int - '0' as int] + (t1 + (args[d1 as int - '0' as int]
               + (t2 + (args[d2 as int - '0' as int] + Format(rest, args))))))
  {
    FormatPiece(t0, d0, t1 + (['{', d1, '}'] + (t2 + (['{', d2, '}'] + rest))), args);
    FormatPiece(t1, d1, t2 + (['{', d2, '}'] + rest), args);
    FormatPiece(t2, d2, rest, args);
  }

  /** `(t0 + "{0}" + t1 + "{1}" + ... + "{5}" + t6).format(a0, ..., a5)` */
  lemma FormatSix(t0: string, t1: string, t2: string, t3: string, t4: string, t5: string, t6: string,
                  args: seq<string>)
    requires '{' !in t0 && '{' !in t1 && '{' !in t2 && '{' !in t3
    requires '{' !in t4 && '{' !in t5 && '{' !in t6 && |args| >= 6
    ensures var r3 := t3 + ("{3}" + (t4 + ("{4}" + (t5 + ("{5}" + t6)))));
            Format(t0 + ("{0}" + (t1 + ("{1}" + (t2 + ("{2}" + r3))))), args)
            == t0 + (args[0] + (t1 + (args[1] + (t2 + (args[2] + (t3 + (args[3] + (t4 + (args[4] + (t5 + (args[5] + t6)))))))))))
  {
    var r3 := t3 + ("{3}" + (t4 + ("{4}" + (t5 + ("{5}" + t6)))));
    FormatPieces(t3, '3', t4, '4', t5, '5', t6, args);
    FormatLastText(t6, args);
    assert Format(r3, args) == t3 + (args[3] + (t4 + (args[4] + (t5 + (args[5] + t6)))));
    FormatPieces(t0, '0', t1, '1', t2, '2', r3, args);
  }

  /** Regrouping a right-nested concatenation of seven parts. */
  lemma Join7(a: string, b: string, c: string, d: string, e: string, f: string, g: string)
    ensures a + (b + (c + (d + (e + (f + g))))) == a + b + c + d + e + f + g
  {
  }

  /** Regrouping a right-nested concatenation of thirteen parts. */
  lemma Join13(a: string, b: string, c: string, d: string, e: string, f: string, g: string,
               h: string, i: string, j: string, k: string, l: string, m: string)
    ensures a + (b + (c + (d + (e + (f + (g + (h + (i + (j + (k + (l + m)))))))))))
            == a + b + c + d + e + f + g + h + i + j + k + l + m
  {
  }

  lemma AppendEmpty(s: string)
    ensures s + "" == s
  {
  }
}
