/**
 * The name transform the generator repeats wherever it turns a resource or
 * variable name into a `values.yaml` key: split on a separator, start from the
 * first token, and append every token that differs from the name built so far,
 * passed through `str.capitalize`. A token equal to the accumulated name is
 * skipped, so `db-db` becomes `db`, not `dbDb`.
 */
module Camel {
  import opened Text

  /** The loop over the tokens, starting from the accumulated name `acc`. */
  function Fold(acc: string, tokens: seq<string>): string
    decreases |tokens|
  {
    if tokens == [] then acc
    else Fold(if tokens[0] != acc then acc + Capitalize(tokens[0]) else acc, tokens[1..])
  }

  /** The whole transform: the first token is the starting name, then every token is visited. */
  function CamelCase(name: string, sep: char): string
  {
    var tokens := Split(name, sep);
    Fold(tokens[0], tokens)
  }

  /** The transform as the writers run it, one token per loop iteration. */
  method CamelCaseName(name: string, sep: char) returns (camel: string)
    ensures camel == CamelCase(name, sep)
  {
    var tokens := Split(name, sep);
    camel := tokens[0];
    for i := 0 to |tokens|
      invariant Fold(camel, tokens[i..]) == CamelCase(name, sep)
    {
      assert tokens[i..][1..] == tokens[i + 1..];
      if tokens[i] != camel {
        camel := camel + Capitalize(tokens[i]);
      }
    }
    assert tokens[|tokens|..] == [];
  }

  /** The accumulated name only ever grows at its end. */
  lemma {:induction false} FoldExtends(acc: string, tokens: seq<string>)
    ensures StartsWith(Fold(acc, tokens), acc)
    decreases |tokens|
  {
    if tokens != [] {
      var next := if tokens[0] != acc then acc + Capitalize(tokens[0]) else acc;
      FoldExtends(next, tokens[1..]);
      assert next[..|acc|] == acc;
    }
  }

  /** The result begins with the first token, unchanged (it is not lower-cased). */
  lemma CamelKeepsFirstToken(name: string, sep: char)
    ensures StartsWith(CamelCase(name, sep), Split(name, sep)[0])
  {
    var tokens := Split(name, sep);
    FoldExtends(tokens[0], tokens);
  }

  lemma {:induction false} FoldAvoids(acc: string, tokens: seq<string>, c: char)
    requires !IsAsciiLetter(c) && c !in acc
    requires forall t :: t in tokens ==> c !in t
    ensures c !in Fold(acc, tokens)
    decreases |tokens|
  {
    if tokens != [] {
      CapitalizeKeepsNonLetter(tokens[0], c);
      var next := if tokens[0] != acc then acc + Capitalize(tokens[0]) else acc;
      FoldAvoids(next, tokens[1..], c);
    }
  }

  /** No separator survives the transform (every separator used here is `-` or `_`). */
  lemma CamelDropsSeparator(name: string, sep: char)
    requires !IsAsciiLetter(sep)
    ensures sep !in CamelCase(name, sep)
  {
    var tokens := Split(name, sep);
    SplitTokensFree(name, sep);
    assert tokens[0] in tokens;
    FoldAvoids(tokens[0], tokens, sep);
  }

  /** A name without the separator is one token and comes back unchanged. */
  lemma CamelOfSingleToken(name: string, sep: char)
    requires sep !in name
    ensures CamelCase(name, sep) == name
  {
    SplitWithoutSeparator(name, sep);
    assert Fold(name, [name]) == Fold(name, []);
  }

  /** Applying the transform twice gives the same key as applying it once. */
  lemma CamelIdempotent(name: string, sep: char)
    requires !IsAsciiLetter(sep)
    ensures CamelCase(CamelCase(name, sep), sep) == CamelCase(name, sep)
  {
    CamelDropsSeparator(name, sep);
    CamelOfSingleToken(CamelCase(name, sep), sep);
  }

  predicate IsUpper(c: char) { 'A' <= c <= 'Z' }

  /** No character of `t` is an upper-case letter. */
  predicate NoUpper(t: string)
  {
    t == [] || (!IsUpper(t[0]) && NoUpper(t[1..]))
  }

  lemma {:induction false} NoUpperAt(t: string, k: nat)
    requires NoUpper(t) && k < |t|
    ensures !IsUpper(t[k])
  {
    if k > 0 {
      NoUpperAt(t[1..], k - 1);
    }
  }

  /** A token that starts with a lower-case letter and holds no upper-case letter. */
  predicate LowerWord(t: string)
  {
    |t| > 0 && 'a' <= t[0] <= 'z' && NoUpper(t)
  }

  lemma LowerOfNoUpper(t: string)
    requires NoUpper(t)
    ensures Lower(t) == t
  {
    forall i | 0 <= i < |t| ensures Lower(t)[i] == t[i] {
      NoUpperAt(t, i);
    }
  }

  /** `str.capitalize` of a lower-case word only upper-cases its first letter. */
  lemma CapitalizeLowerWord(t: string)
    requires LowerWord(t)
    ensures Capitalize(t) == [UpperChar(t[0])] + t[1..]
  {
    LowerOfNoUpper(t[1..]);
  }

  /** The conventional camelCase join: first token as is, every later one capitalised. */
  function CapitalizeAll(tokens: seq<string>): string
  {
    if tokens == [] then "" else Capitalize(tokens[0]) + CapitalizeAll(tokens[1..])
  }

  /** Once the name holds an upper-case letter, no lower-case word can equal it. */
  lemma {:induction false} FoldAfterUpper(acc: string, tokens: seq<string>, k: nat)
    requires k < |acc| && IsUpper(acc[k])
    requires forall i :: 0 <= i < |tokens| ==> LowerWord(tokens[i])
    ensures Fold(acc, tokens) == acc + CapitalizeAll(tokens)
    decreases |tokens|
  {
    if tokens != [] {
      var t := tokens[0];
      assert t != acc by {
        assert LowerWord(t);
        if k < |t| {
          NoUpperAt(t, k);
        }
      }
      var next := acc + Capitalize(t);
      assert Fold(acc, tokens) == Fold(next, tokens[1..]);
      assert next[k] == acc[k];
      assert forall i :: 0 <= i < |tokens[1..]| ==> LowerWord(tokens[1..][i]) by {
        forall i | 0 <= i < |tokens[1..]| ensures LowerWord(tokens[1..][i]) {
          assert tokens[1..][i] == tokens[i + 1];
        }
      }
      FoldAfterUpper(next, tokens[1..], k);
      var c, r := Capitalize(t), CapitalizeAll(tokens[1..]);
      assert CapitalizeAll(tokens) == c + r;
      AppendAssoc(acc, c, r);
    }
  }

  lemma {:induction false} FoldConventional(tokens: seq<string>)
    requires |tokens| >= 1
    requires forall i :: 1 <= i < |tokens| ==> LowerWord(tokens[i]) && tokens[i] != tokens[0]
    ensures Fold(tokens[0], tokens) == tokens[0] + CapitalizeAll(tokens[1..])
  {
    var first := tokens[0];
    assert Fold(first, tokens) == Fold(first, tokens[1..]);
    if |tokens| > 1 {
      var t := tokens[1];
      var next := first + Capitalize(t);
      assert IsUpper(next[|first|]);
      assert tokens[1..][1..] == tokens[2..];
      assert Fold(first, tokens[1..]) == Fold(next, tokens[2..]);
      forall i | 0 <= i < |tokens[2..]| ensures LowerWord(tokens[2..][i]) {
        assert tokens[2..][i] == tokens[i + 2];
      }
      FoldAfterUpper(next, tokens[2..], |first|);
      var c, r := Capitalize(t), CapitalizeAll(tokens[2..]);
      assert CapitalizeAll(tokens[1..]) == c + r;
      AppendAssoc(first, c, r);
    } else {
      assert tokens[1..] == [];
    }
  }

  /**
   * The quirk is the only difference from conventional camelCase: when every later
   * token is a lower-case word different from the first token, the result is the
   * first token followed by the later tokens capitalised.
   */
  lemma CamelConventional(name: string, sep: char, tokens: seq<string>)
    requires tokens == Split(name, sep)
    requires forall i :: 1 <= i < |tokens| ==> LowerWord(tokens[i]) && tokens[i] != tokens[0]
    ensures CamelCase(name, sep) == tokens[0] + CapitalizeAll(tokens[1..])
  {
    FoldConventional(tokens);
  }

  /** A token equal to the name built so far is dropped. */
  lemma RepeatedTokenDropped()
    ensures CamelCase("db-db", '-') == "db"
  {
    assert "db-db" == Join(["db", "db"], '-');
    SplitJoin(["db", "db"], '-');
    assert Fold("db", ["db", "db"]) == Fold("db", ["db"]);
  }

  /** Joining lower-case words that differ from the first gives their conventional camelCase. */
  lemma CamelCaseOfJoin(tokens: seq<string>, sep: char)
    requires |tokens| >= 1
    requires forall i :: 0 <= i < |tokens| ==> sep !in tokens[i]
    requires forall i :: 1 <= i < |tokens| ==> LowerWord(tokens[i]) && tokens[i] != tokens[0]
    ensures CamelCase(Join(tokens, sep), sep) == tokens[0] + CapitalizeAll(tokens[1..])
  {
    SplitJoin(tokens, sep);
    FoldConventional(tokens);
  }

  /** Two words joined by the separator: the second is capitalised unless it repeats the first. */
  lemma CamelCaseOfTwoWords(a: string, b: string, sep: char)
    requires sep !in a && sep !in b && b != a
    ensures CamelCase(a + [sep] + b, sep) == a + Capitalize(b)
  {
    var tokens := [a, b];
    assert tokens[1..] == [b];
    assert Join(tokens, sep) == a + [sep] + b;
    SplitJoin(tokens, sep);
    assert Fold(a, tokens) == Fold(a, [b]);
    assert [b][1..] == [];
  }

  /** Three words: each later word is capitalised unless it repeats the name built so far. */
  lemma CamelCaseOfThreeWords(a: string, b: string, c: string, sep: char)
    requires sep !in a && sep !in b && sep !in c
    requires b != a && c != a + Capitalize(b)
    ensures CamelCase(a + [sep] + b + [sep] + c, sep) == a + Capitalize(b) + Capitalize(c)
  {
    var tokens := [a, b, c];
    assert Join(tokens, sep) == a + [sep] + b + [sep] + c by {
      assert tokens[1..] == [b, c];
      assert [b, c][1..] == [c];
      assert Join([b, c], sep) == b + [sep] + c;
      AppendAssoc(a + [sep], b + [sep], c);
      AppendAssoc(a, [sep], b);
      AppendAssoc(a + [sep], b, [sep]);
    }
    SplitJoin(tokens, sep);
    assert tokens[1..] == [b, c] && [b, c][1..] == [c] && [c][1..] == [];
    assert Fold(a, tokens) == Fold(a, [b, c]);
    assert Fold(a, [b, c]) == Fold(a + Capitalize(b), [c]);
  }

  /*
   * Keys the generator derives from fixed names. Each is stated for a variable
   * equal to the name, which keeps the solver from evaluating the split itself.
   */

  /** OAuth's `base-app-url` ... */
  lemma CamelOfBaseAppUrl(name: string)
    requires name == "base-app-url"
    ensures CamelCase(name, '-') == "baseAppUrl"
  {
    CapitalizeApp();
    CapitalizeUrl();
    CamelCaseOfThreeWords("base", "app", "url", '-');
    assert "base" + ['-'] + "app" + ['-'] + "url" == name;
  }

  /** ... the other OAuth keys ... */
  lemma CamelOfAppAbbreviation(name: string)
    requires name == "app-abbreviation"
    ensures CamelCase(name, '-') == "appAbbreviation"
  {
    CapitalizeAbbreviation();
    CamelCaseOfTwoWords("app", "abbreviation", '-');
    assert "app" + ['-'] + "abbreviation" == name;
  }

  lemma CamelOfAppName(name: string)
    requires name == "app-name"
    ensures CamelCase(name, '-') == "appName"
  {
    CapitalizeName();
    CamelCaseOfTwoWords("app", "name", '-');
    assert "app" + ['-'] + "name" == name;
  }

  lemma CamelOfServiceName(name: string)
    requires name == "service-name"
    ensures CamelCase(name, '-') == "serviceName"
  {
    CapitalizeName();
    CamelCaseOfTwoWords("service", "name", '-');
    assert "service" + ['-'] + "name" == name;
  }

  lemma CamelOfDevPort(name: string)
    requires name == "dev-port"
    ensures CamelCase(name, '-') == "devPort"
  {
    CapitalizePort();
    CamelCaseOfTwoWords("dev", "port", '-');
    assert "dev" + ['-'] + "port" == name;
  }

  /** The capitalisations the OAuth keys above need, as proof steps. */
  lemma CapitalizeApp() ensures Capitalize("app") == "App" {}
  lemma CapitalizeUrl() ensures Capitalize("url") == "Url" {}
  lemma CapitalizeAbbreviation() ensures Capitalize("abbreviation") == "Abbreviation" {}
  lemma CapitalizeName() ensures Capitalize("name") == "Name" {}
  lemma CapitalizePort() ensures Capitalize("port") == "Port" {}
}
