/** The string operations of Go that the encodings use, on ASCII letters: splitting at a
    separator, replacing substrings, and changing case. */
module GoStrings {
  import opened Sequences

  /** `strings.Split` with a one-character separator. */
  function Split(s: string, sep: char): (r: seq<string>)
    ensures |r| > 0
  {
    if s == "" then [""]
    else if s[0] == sep then [""] + Split(s[1..], sep)
    else
      var r := Split(s[1..], sep);
      [[s[0]] + r[0]] + r[1..]
  }

  /** `strings.Join`. */
  function Join(parts: seq<string>, sep: char): string
    requires |parts| > 0
  {
    if |parts| == 1 then parts[0] else parts[0] + [sep] + Join(parts[1..], sep)
  }

  ghost predicate Free(parts: seq<string>, sep: char) {
    forall i :: 0 <= i < |parts| ==> sep !in parts[i]
  }

  lemma JoinCons(p: string, parts: seq<string>, sep: char)
    requires |parts| > 0
    ensures Join([p] + parts, sep) == p + [sep] + Join(parts, sep)
  {
  }

  /** Putting a character in front of the first part puts it in front of the joined string. */
  lemma JoinPrepend(c: char, parts: seq<string>, sep: char)
    requires |parts| > 0
    ensures Join([[c] + parts[0]] + parts[1..], sep) == [c] + Join(parts, sep)
  {
  }

  /** Splitting loses nothing, and no piece contains the separator. */
  lemma {:induction false} SplitJoin(s: string, sep: char)
    ensures Join(Split(s, sep), sep) == s && Free(Split(s, sep), sep)
  {
    if s != "" {
      SplitJoin(s[1..], sep);
      var r := Split(s[1..], sep);
      if s[0] == sep {
        JoinCons("", r, sep);
      } else {
        JoinPrepend(s[0], r, sep);
      }
    }
  }

  lemma {:induction false} SplitHead(p: string, rest: string, sep: char)
    requires sep !in p
    ensures Split(p + [sep] + rest, sep) == [p] + Split(rest, sep)
  {
    var s := p + [sep] + rest;
    if p == "" {
      assert s[1..] == rest;
    } else {
      SplitHead(p[1..], rest, sep);
      assert s[1..] == p[1..] + [sep] + rest;
      assert [p[0]] + p[1..] == p;
    }
  }

  lemma {:induction false} SplitWhole(p: string, sep: char)
    requires sep !in p
    ensures Split(p, sep) == [p]
  {
    if p != "" {
      SplitWhole(p[1..], sep);
      assert [p[0]] + p[1..] == p;
    }
  }

  /** And it is the only way to cut the string into pieces without the separator. */
  lemma {:induction false} JoinSplit(parts: seq<string>, sep: char)
    requires |parts| > 0 && Free(parts, sep)
    ensures Split(Join(parts, sep), sep) == parts
  {
    if |parts| == 1 {
      SplitWhole(parts[0], sep);
    } else {
      JoinSplit(parts[1..], sep);
      SplitHead(parts[0], Join(parts[1..], sep), sep);
    }
  }

  lemma {:induction false} SplitCount(s: string, sep: char)
    ensures |Split(s, sep)| > 1 <==> sep in s
  {
    if s != "" {
      SplitCount(s[1..], sep);
    }
  }

  /** `strings.Replace`: the first `n` occurrences from the left, all of them if `n` is negative. */
  function Replace(s: string, from: string, to: string, n: int): string
    requires from != ""
    decreases |s|, |to|
  {
    if n == 0 || s == "" then s
    else if from <= s then to + Replace(s[|from|..], from, to, n - 1)
    else [s[0]] + Replace(s[1..], from, to, n)
  }

  /** A string without the first character of the pattern stays as it is. */
  lemma {:induction false} ReplaceNothing(s: string, from: string, to: string, n: int)
    requires from != "" && from[0] !in s
    ensures Replace(s, from, to, n) == s
    decreases |s|
  {
    if n != 0 && s != "" {
      assert !(from <= s);
      ReplaceNothing(s[1..], from, to, n);
    }
  }

  lemma PrefixAround(a: string, sep: char, b: string, from: string)
    requires sep !in from
    ensures from <= a + [sep] + b <==> from <= a
  {
    var s := a + [sep] + b;
    if from <= s {
      assert forall i :: 0 <= i < |from| ==> from[i] == s[i];
      assert s[|a|] == sep;
    }
  }

  /** Replacing everywhere, unfolded once. */
  lemma ReplaceStep(s: string, from: string, to: string)
    requires from != "" && s != ""
    ensures from <= s ==> Replace(s, from, to, -1) == to + Replace(s[|from|..], from, to, -1)
    ensures !(from <= s) ==> Replace(s, from, to, -1) == [s[0]] + Replace(s[1..], from, to, -1)
  {
    if from <= s {
      ReplaceNegative(s[|from|..], from, to);
    }
  }

  /** A match does not straddle a character that the pattern does not contain. */
  lemma {:induction false} ReplaceAround(a: string, sep: char, b: string, from: string, to: string)
    requires from != "" && sep !in from
    ensures Replace(a + [sep] + b, from, to, -1) == Replace(a, from, to, -1) + [sep] + Replace(b, from, to, -1)
    decreases |a|
  {
    var s := a + [sep] + b;
    PrefixAround(a, sep, b, from);
    ReplaceStep(s, from, to);
    if a == "" {
      assert s[0] == sep && s[1..] == b;
    } else {
      ReplaceStep(a, from, to);
      var k := if from <= a then |from| else 1;
      assert s[k..] == a[k..] + [sep] + b && s[0] == a[0];
      ReplaceAround(a[k..], sep, b, from, to);
      var piece := if from <= a then to else [a[0]];
      Associative(piece, Replace(a[k..], from, to, -1) + [sep], Replace(b, from, to, -1));
      Associative(piece, Replace(a[k..], from, to, -1), [sep]);
    }
  }

  lemma {:induction false} ReplaceNegative(s: string, from: string, to: string)
    requires from != ""
    ensures forall n: int :: n < 0 ==> Replace(s, from, to, n) == Replace(s, from, to, -1)
    decreases |s|
  {
    if s != "" {
      ReplaceNegative(s[1..], from, to);
      if from <= s {
        ReplaceNegative(s[|from|..], from, to);
      }
    }
  }

  /** Every character of the result comes from the string or from the replacement. */
  lemma {:induction false} ReplaceChars(s: string, from: string, to: string, n: int, c: char)
    requires from != "" && c !in s && c !in to
    ensures c !in Replace(s, from, to, n)
    decreases |s|
  {
    if n != 0 && s != "" {
      if from <= s {
        ReplaceChars(s[|from|..], from, to, n - 1, c);
      } else {
        ReplaceChars(s[1..], from, to, n, c);
      }
    }
  }

  function LowerChar(c: char): char {
    if 'A' <= c <= 'Z' then (c as int + 32) as char else c
  }

  function UpperChar(c: char): char {
    if 'a' <= c <= 'z' then (c as int - 32) as char else c
  }

  function ToLower(s: string): (r: string)
    ensures |r| == |s|
  {
    seq(|s|, i requires 0 <= i < |s| => LowerChar(s[i]))
  }

  function ToUpper(s: string): (r: string)
    ensures |r| == |s|
  {
    seq(|s|, i requires 0 <= i < |s| => UpperChar(s[i]))
  }

  /** Upper-case letters are moved by 32, and nothing else changes. */
  lemma ToLowerChars(s: string, i: nat)
    requires i < |s|
    ensures var c := s[i];
            if 'A' <= c <= 'Z' then ToLower(s)[i] as int == c as int + 32 else ToLower(s)[i] == c
    ensures !('A' <= ToLower(s)[i] <= 'Z')
  {
  }

  lemma ToUpperChars(s: string, i: nat)
    requires i < |s|
    ensures var c := s[i];
            if 'a' <= c <= 'z' then ToUpper(s)[i] as int == c as int - 32 else ToUpper(s)[i] == c
    ensures !('a' <= ToUpper(s)[i] <= 'z')
  {
  }

  /** No character is an upper-case letter. */
  predicate NoUpper(s: string) {
    forall c <- s :: !('A' <= c <= 'Z')
  }

  lemma ToLowerHasNoUpper(s: string)
    ensures NoUpper(ToLower(s))
  {
  }

  /** Lower-casing keeps every character that is not a letter, and nothing but letters changes. */
  lemma ToLowerKeeps(s: string, c: char)
    requires !('a' <= c <= 'z') && !('A' <= c <= 'Z')
    ensures c in ToLower(s) <==> c in s
  {
    if c in s {
      var i :| 0 <= i < |s| && s[i] == c;
      assert ToLower(s)[i] == c;
    }
  }

  lemma ToLowerAppend(a: string, b: string)
    ensures ToLower(a + b) == ToLower(a) + ToLower(b)
  {
  }

  lemma CaseRoundTrip(s: string)
    ensures ToUpper(ToLower(s)) == ToUpper(s) && ToLower(ToLower(s)) == ToLower(s)
  {
  }
}
