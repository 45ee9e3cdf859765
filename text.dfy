/**
 * Text helpers shared by every renderer: written pieces, indentation, ASCII case
 * mapping (`str.upper`, `str.capitalize`), `str.split` with its inverse, `str.replace`,
 * and the renderings Python's `str()` gives integers and booleans.
 */
module Text {

  /** One piece written by `f.write(s + '\n')`. */
  function Ln(s: string): string { s + "\n" }

  /** Indentation by repeated `'  '`, as the writers build it. */
  const I1: string := "  "
  const I2: string := "    "
  const I3: string := "      "
  const I4: string := "        "
  const I5: string := "          "
  const I6: string := "            "
  const I7: string := "              "
  const I8: string := "                "
  const I9: string := "                  "

  lemma AppendAssoc<T>(a: seq<T>, b: seq<T>, c: seq<T>)
    ensures (a + b) + c == a + (b + c)
  {
  }

  /** The text a file holds after the given pieces were written to it in order. */
  function Concat(pieces: seq<string>): string
  {
    if pieces == [] then "" else pieces[0] + Concat(pieces[1..])
  }

  lemma {:induction false} ConcatAppend(a: seq<string>, b: seq<string>)
    ensures Concat(a + b) == Concat(a) + Concat(b)
  {
    if a == [] {
      assert a + b == b;
    } else {
      assert (a + b)[1..] == a[1..] + b;
      ConcatAppend(a[1..], b);
    }
  }

  predicate IsAsciiLetter(c: char) { 'a' <= c <= 'z' || 'A' <= c <= 'Z' }

  function UpperChar(c: char): char { if 'a' <= c <= 'z' then (c as int - 32) as char else c }

  function LowerChar(c: char): char { if 'A' <= c <= 'Z' then (c as int + 32) as char else c }

  /** `str.upper()` on ASCII text. */
  function Upper(s: string): string
  {
    seq(|s|, i requires 0 <= i < |s| => UpperChar(s[i]))
  }

  /** `str.lower()` on ASCII text. */
  function Lower(s: string): string
  {
    seq(|s|, i requires 0 <= i < |s| => LowerChar(s[i]))
  }

  /** `str.capitalize()` on ASCII text: first character upper-cased, the rest lower-cased. */
  function Capitalize(s: string): string
  {
    if s == "" then "" else [UpperChar(s[0])] + Lower(s[1..])
  }

  /** Case mapping never produces a non-letter from a letter or the reverse. */
  lemma CapitalizeKeepsNonLetter(s: string, c: char)
    requires !IsAsciiLetter(c) && c !in s
    ensures c !in Capitalize(s)
  {
    if s != "" {
      var t := Capitalize(s);
      forall i | 0 <= i < |t| ensures t[i] != c {
        if i == 0 { assert s[0] != c; } else { assert s[1..][i - 1] == s[i]; }
      }
    }
  }

  /** `s.split(sep)`: the pieces between occurrences of `sep`, empty ones included. */
  function Split(s: string, sep: char): (r: seq<string>)
    ensures |r| >= 1
    decreases |s|
  {
    if s == "" then [""] else SplitStep(s[0], Split(s[1..], sep), sep)
  }

  /** One character in front of an already split text: a separator opens a new piece. */
  function SplitStep(c: char, rest: seq<string>, sep: char): (r: seq<string>)
    requires |rest| >= 1
    ensures |r| >= 1
  {
    if c == sep then [""] + rest else [[c] + rest[0]] + rest[1..]
  }

  /** `sep.join(tokens)`. */
  function Join(tokens: seq<string>, sep: char): string
    requires |tokens| >= 1
  {
    if |tokens| == 1 then tokens[0] else tokens[0] + [sep] + Join(tokens[1..], sep)
  }

  /** Joining the pieces of a split gives back the original text. */
  lemma {:induction false} JoinSplit(s: string, sep: char)
    ensures Join(Split(s, sep), sep) == s
  {
    if s != "" {
      var rest := Split(s[1..], sep);
      JoinSplit(s[1..], sep);
      if s[0] == sep {
        assert Split(s, sep) == [""] + rest;
        assert ([""] + rest)[1..] == rest;
        assert s == [sep] + s[1..];
      } else {
        var r := Split(s, sep);
        assert r == [[s[0]] + rest[0]] + rest[1..];
        if |rest| == 1 {
          assert s == [s[0]] + s[1..];
        } else {
          assert r[1..] == rest[1..];
          assert Join(rest, sep) == rest[0] + [sep] + Join(rest[1..], sep);
          assert s == [s[0]] + s[1..];
        }
      }
    }
  }

  /** No piece of a split contains the separator. */
  lemma {:induction false} SplitTokensFree(s: string, sep: char)
    ensures forall t :: t in Split(s, sep) ==> sep !in t
  {
    if s != "" {
      SplitTokensFree(s[1..], sep);
      var rest := Split(s[1..], sep);
      if s[0] != sep {
        assert rest[0] in rest;
        forall t | t in Split(s, sep) ensures sep !in t {
          if t != [s[0]] + rest[0] {
            assert t in rest[1..];
          }
        }
      }
    }
  }

  /** Text without the separator is one piece. */
  lemma {:induction false} SplitWithoutSeparator(s: string, sep: char)
    requires sep !in s
    ensures Split(s, sep) == [s]
  {
    if s != "" {
      SplitWithoutSeparator(s[1..], sep);
      assert s == [s[0]] + s[1..];
    }
  }

  /** Text free of the separator, put in front, only extends the first piece. */
  lemma {:induction false} SplitFreePrefix(a: string, s: string, sep: char)
    requires sep !in a
    ensures Split(a + s, sep) == [a + Split(s, sep)[0]] + Split(s, sep)[1..]
  {
    if a != [] {
      SplitFreePrefix(a[1..], s, sep);
      assert (a + s)[1..] == a[1..] + s;
      assert a[0] != sep;
      assert [a[0]] + (a[1..] + Split(s, sep)[0]) == a + Split(s, sep)[0];
    } else {
      assert a + s == s;
      var r := Split(s, sep);
      assert a + r[0] == r[0];
      assert r == [r[0]] + r[1..];
    }
  }

  /** Splitting a join of separator-free pieces gives the pieces back. */
  lemma {:induction false} SplitJoin(tokens: seq<string>, sep: char)
    requires |tokens| >= 1
    requires forall i :: 0 <= i < |tokens| ==> sep !in tokens[i]
    ensures Split(Join(tokens, sep), sep) == tokens
  {
    if |tokens| == 1 {
      SplitWithoutSeparator(tokens[0], sep);
      assert tokens == [tokens[0]];
    } else {
      var rest := Join(tokens[1..], sep);
      SplitJoin(tokens[1..], sep);
      assert Join(tokens, sep) == tokens[0] + ([sep] + rest);
      SplitFreePrefix(tokens[0], [sep] + rest, sep);
      assert ([sep] + rest)[1..] == rest;
      assert Split([sep] + rest, sep) == [""] + tokens[1..];
      assert (([""] + tokens[1..])[0]) == "";
      assert ([""] + tokens[1..])[1..] == tokens[1..];
      assert tokens[0] + "" == tokens[0];
      assert tokens == [tokens[0]] + tokens[1..];
    }
  }

  /** `s.replace(a, b)` for single characters. */
  function ReplaceChar(s: string, a: char, b: char): string
  {
    seq(|s|, i requires 0 <= i < |s| => if s[i] == a then b else s[i])
  }

  predicate StartsWith(s: string, prefix: string)
  {
    |prefix| <= |s| && s[..|prefix|] == prefix
  }

  /** `pattern` occurs in `s` starting at index `i`. */
  predicate OccursAt(s: string, pattern: string, i: int)
  {
    0 <= i && i + |pattern| <= |s| && s[i..i + |pattern|] == pattern
  }

  /** `pattern in s`. */
  predicate Contains(s: string, pattern: string)
  {
    exists i | 0 <= i <= |s| :: OccursAt(s, pattern, i)
  }

  /** `s.replace(pattern, repl)`: every occurrence, scanning left to right without overlap. */
  function ReplaceAll(s: string, pattern: string, repl: string): string
    requires pattern != ""
    decreases |s|
  {
    if |s| < |pattern| then s
    else if s[..|pattern|] == pattern then repl + ReplaceAll(s[|pattern|..], pattern, repl)
    else [s[0]] + ReplaceAll(s[1..], pattern, repl)
  }

  /** Text in which the pattern does not occur is left as it is. */
  lemma {:induction false} ReplaceAllAbsent(s: string, pattern: string, repl: string)
    requires pattern != "" && !Contains(s, pattern)
    ensures ReplaceAll(s, pattern, repl) == s
  {
    if |s| >= |pattern| {
      assert !OccursAt(s, pattern, 0);
      assert s[0..|pattern|] == s[..|pattern|];
      assert !Contains(s[1..], pattern) by {
        forall i | OccursAt(s[1..], pattern, i) ensures OccursAt(s, pattern, i + 1) {
          assert s[1..][i..i + |pattern|] == s[i + 1..i + 1 + |pattern|];
        }
      }
      ReplaceAllAbsent(s[1..], pattern, repl);
      assert s == [s[0]] + s[1..];
    }
  }

  function DigitChar(d: nat): char requires d < 10 { "0123456789"[d] }

  /** `str(n)` for a non-negative integer. */
  function NatToString(n: nat): string
    decreases n
  {
    if n < 10 then [DigitChar(n)] else NatToString(n / 10) + [DigitChar(n % 10)]
  }

  /** `str(n)` for an integer. */
  function IntToString(n: int): string
  {
    if n < 0 then "-" + NatToString(-n) else NatToString(n)
  }

  /** `str(b).lower()`. */
  function BoolLower(b: bool): string { if b then "true" else "false" }

  /** `str(b)`, as an f-string renders a boolean. */
  function PyBool(b: bool): string { if b then "True" else "False" }
}
