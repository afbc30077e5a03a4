/**
 * The Python string operations the core relies on, over `seq<char>`:
 * `lower()` (ASCII letters only), `in` for substrings, `sep.join`, `split(sep)`,
 * `split()` on whitespace, `strip()`, `<` on strings and `str()` of an integer.
 */
module Text {

  // ---------- lower() ----------

  function LowerChar(c: char): char
  {
    if 'A' <= c <= 'Z' then (c as int + 32) as char else c
  }

  function Lower(s: string): (r: string)
    ensures |r| == |s|
    ensures forall i :: 0 <= i < |s| ==> r[i] == LowerChar(s[i])
  {
    seq(|s|, i requires 0 <= i < |s| => LowerChar(s[i]))
  }

  /** After `lower()` no ASCII capital remains; every other character is left as it was,
      and each capital becomes its small letter. */
  lemma LowerMeaning(s: string)
    ensures forall i :: 0 <= i < |s| ==> !('A' <= Lower(s)[i] <= 'Z')
    ensures forall i :: 0 <= i < |s| && !('A' <= s[i] <= 'Z') ==> Lower(s)[i] == s[i]
    ensures forall i :: 0 <= i < |s| && 'A' <= s[i] <= 'Z' ==> Lower(s)[i] as int == s[i] as int + 32
  {
  }

  /** Lower-casing twice is lower-casing once. */
  lemma LowerIdempotent(s: string)
    ensures Lower(Lower(s)) == Lower(s)
  {
    var l := Lower(s);
    assert forall i :: 0 <= i < |s| ==> LowerChar(l[i]) == l[i];
  }

  // ---------- substring test: `small in big` ----------

  predicate StartsWith(s: string, prefix: string)
  {
    |prefix| <= |s| && s[..|prefix|] == prefix
  }

  predicate EndsWith(s: string, suffix: string)
  {
    |suffix| <= |s| && s[|s| - |suffix|..] == suffix
  }

  lemma EndsWithConcat(a: string, b: string)
    ensures EndsWith(a + b, b)
  {
    assert (a + b)[|a + b| - |b|..] == b;
  }

  lemma EndsWithExtend(s: string, t: string, u: string)
    requires EndsWith(s, t)
    ensures EndsWith(s + u, t + u)
  {
    assert (s + u)[|s + u| - |t + u|..] == s[|s| - |t|..] + u;
  }

  lemma EndsWithPrepend(p: string, s: string, t: string)
    requires EndsWith(s, t)
    ensures EndsWith(p + s, t)
  {
    assert (p + s)[|p + s| - |t|..] == s[|s| - |t|..];
  }

  /** A string does not end with a suffix it differs from at some place counted from the end. */
  lemma NotEndsWithAt(s: string, t: string, k: nat)
    requires 0 < k <= |s| && k <= |t| && s[|s| - k] != t[|t| - k]
    ensures !EndsWith(s, t)
  {
    if |t| <= |s| {
      assert s[|s| - |t|..][|t| - k] == s[|s| - k];
    }
  }

  /** Python's `small in big` for two strings. */
  predicate Contains(big: string, small: string)
    decreases |big|
  {
    StartsWith(big, small) || (|big| > 0 && Contains(big[1..], small))
  }

  predicate OccursAt(big: string, small: string, i: int)
  {
    0 <= i && i + |small| <= |big| && big[i..i + |small|] == small
  }

  /** `Contains` holds exactly when `small` occurs at some offset of `big`. */
  lemma {:induction false} ContainsIff(big: string, small: string)
    ensures Contains(big, small) <==> exists i :: OccursAt(big, small, i)
    decreases |big|
  {
    if StartsWith(big, small) {
      assert OccursAt(big, small, 0);
    }
    if |big| > 0 {
      ContainsIff(big[1..], small);
      if Contains(big[1..], small) {
        var i :| OccursAt(big[1..], small, i);
        assert big[i + 1..i + 1 + |small|] == big[1..][i..i + |small|];
        assert OccursAt(big, small, i + 1);
      }
      if exists i :: OccursAt(big, small, i) {
        var i :| OccursAt(big, small, i);
        if i > 0 {
          assert big[1..][i - 1..i - 1 + |small|] == big[i..i + |small|];
          assert OccursAt(big[1..], small, i - 1);
        }
      }
    }
  }

  // ---------- sep.join(parts) ----------

  function Join(parts: seq<string>, sep: string): string
    decreases |parts|
  {
    if |parts| == 0 then ""
    else if |parts| == 1 then parts[0]
    else parts[0] + sep + Join(parts[1..], sep)
  }

  /** Appending one more part appends the separator and that part. */
  lemma {:induction false} JoinSnoc(parts: seq<string>, last: string, sep: string)
    ensures Join(parts + [last], sep) == if |parts| == 0 then last else Join(parts, sep) + sep + last
    decreases |parts|
  {
    if |parts| == 1 {
      assert (parts + [last])[1..] == [last];
    } else if |parts| > 1 {
      assert (parts + [last])[1..] == parts[1..] + [last];
      JoinSnoc(parts[1..], last, sep);
    }
  }

  // ---------- s.split(sep) for a one-character separator ----------

  /** Python's `s.split(sep)`: never empty, separators removed. */
  function Split(s: string, sep: char): (parts: seq<string>)
    ensures |parts| >= 1
    decreases |s|
  {
    if |s| == 0 then [""]
    else
      var rest := Split(s[1..], sep);
      if s[0] == sep then [""] + rest else [[s[0]] + rest[0]] + rest[1..]
  }

  lemma {:induction false} SplitNoSep(s: string, sep: char)
    requires sep !in s
    ensures Split(s, sep) == [s]
    decreases |s|
  {
    if |s| > 0 {
      SplitNoSep(s[1..], sep);
      assert [s[0]] + s[1..] == s;
    }
  }

  lemma {:induction false} SplitAtSep(a: string, sep: char, rest: string)
    requires sep !in a
    ensures Split(a + [sep] + rest, sep) == [a] + Split(rest, sep)
    decreases |a|
  {
    var s := a + [sep] + rest;
    if |a| == 0 {
      assert s[1..] == rest;
    } else {
      assert s[1..] == a[1..] + [sep] + rest;
      SplitAtSep(a[1..], sep, rest);
      assert [a[0]] + a[1..] == a;
    }
  }

  /** Joining on a separator that no part contains, then splitting on it, gives the parts back. */
  lemma {:induction false} SplitJoin(parts: seq<string>, sep: char)
    requires |parts| >= 1
    requires forall i :: 0 <= i < |parts| ==> sep !in parts[i]
    ensures Split(Join(parts, [sep]), sep) == parts
    decreases |parts|
  {
    if |parts| == 1 {
      SplitNoSep(parts[0], sep);
    } else {
      SplitJoin(parts[1..], sep);
      SplitAtSep(parts[0], sep, Join(parts[1..], [sep]));
      assert [parts[0]] + parts[1..] == parts;
    }
  }

  /** The first part of a split is the longest separator-free prefix. */
  lemma {:induction false} SplitFirst(s: string, sep: char)
    ensures StartsWith(s, Split(s, sep)[0])
    ensures sep !in Split(s, sep)[0]
    ensures |Split(s, sep)[0]| == |s| || s[|Split(s, sep)[0]|] == sep
    decreases |s|
  {
    if |s| > 0 {
      SplitFirst(s[1..], sep);
    }
  }

  // ---------- whitespace, split() and strip() ----------

  /** The ASCII characters Python's `str.isspace` accepts: space, tab, newline, carriage
      return, vertical tab, form feed and the four separators U+001C to U+001F. */
  predicate IsSpace(c: char)
  {
    c == ' ' || c == '\t' || c == '\n' || c == '\r' || c == '\U{B}' || c == '\U{C}'
    || c == '\U{1C}' || c == '\U{1D}' || c == '\U{1E}' || c == '\U{1F}'
  }

  predicate NoSpace(s: string)
  {
    forall i :: 0 <= i < |s| ==> !IsSpace(s[i])
  }

  function DropLeadingSpace(s: string): (r: string)
    ensures |r| <= |s| && r == s[|s| - |r|..]
    ensures |r| > 0 ==> !IsSpace(r[0])
    decreases |s|
  {
    if |s| > 0 && IsSpace(s[0]) then DropLeadingSpace(s[1..]) else s
  }

  function DropTrailingSpace(s: string): (r: string)
    ensures |r| <= |s| && r == s[..|r|]
    ensures |r| > 0 ==> !IsSpace(r[|r| - 1])
    decreases |s|
  {
    if |s| > 0 && IsSpace(s[|s| - 1]) then DropTrailingSpace(s[..|s| - 1]) else s
  }

  /** Python's `s.strip()`. */
  function Strip(s: string): string
  {
    DropTrailingSpace(DropLeadingSpace(s))
  }

  /** The longest prefix of `s` without whitespace. */
  function LeadingWord(s: string): (w: string)
    ensures NoSpace(w) && StartsWith(s, w)
    ensures |w| == |s| || IsSpace(s[|w|])
    ensures |s| > 0 && !IsSpace(s[0]) ==> |w| > 0
    decreases |s|
  {
    if |s| == 0 || IsSpace(s[0]) then ""
    else
      var w' := LeadingWord(s[1..]);
      assert [s[0]] + s[1..] == s;
      [s[0]] + w'
  }

  /** Python's `s.split()` with no argument: the maximal runs of non-whitespace. */
  function Words(s: string): seq<string>
    decreases |s|
  {
    var t := DropLeadingSpace(s);
    if |t| == 0 then []
    else
      var w := LeadingWord(t);
      [w] + Words(t[|w|..])
  }

  /** The information separators count as whitespace for `split()` and `strip()`. */
  lemma SeparatorsAreSpace()
    ensures Words("a\U{1F}b") == ["a", "b"]
    ensures Strip("a\U{1F}") == "a"
  {
    var s: string := "a\U{1F}b";
    assert s[1..] == "\U{1F}b" && s[1..][1..] == "b" && "b"[1..] == "";
    assert LeadingWord(s[1..]) == "";
    assert LeadingWord("") == "" && LeadingWord("b") == "b";
    assert LeadingWord(s) == "a";
    assert DropLeadingSpace(s) == s;
    assert DropLeadingSpace("b") == "b";
    assert DropLeadingSpace(s[1..]) == "b";
    assert Words("") == [];
    assert Words("b") == ["b"];
    assert Words(s) == ["a"] + Words(s[1..]);
    var u: string := "a\U{1F}";
    assert u[..1] == "a" && "a"[..0] == "";
    assert DropLeadingSpace(u) == u;
    assert DropTrailingSpace("a") == "a";
  }

  /** Every element is a non-empty run of non-whitespace characters. */
  predicate AllWords(ws: seq<string>)
  {
    forall i :: 0 <= i < |ws| ==> |ws[i]| > 0 && NoSpace(ws[i])
  }

  lemma {:induction false} WordsAreWords(s: string)
    ensures AllWords(Words(s))
    decreases |s|
  {
    var t := DropLeadingSpace(s);
    if |t| > 0 {
      var w := LeadingWord(t);
      WordsAreWords(t[|w|..]);
      var rest := Words(t[|w|..]);
      assert Words(s) == [w] + rest;
      forall i | 0 <= i < |[w] + rest| ensures |([w] + rest)[i]| > 0 && NoSpace(([w] + rest)[i]) {
        if i > 0 { assert ([w] + rest)[i] == rest[i - 1]; }
      }
    }
  }

  lemma {:induction false} LeadingWordOf(w: string, rest: string)
    requires NoSpace(w)
    requires |rest| == 0 || IsSpace(rest[0])
    ensures LeadingWord(w + rest) == w
    decreases |w|
  {
    if |w| > 0 {
      assert (w + rest)[1..] == w[1..] + rest;
      LeadingWordOf(w[1..], rest);
      assert [w[0]] + w[1..] == w;
    } else {
      assert w + rest == rest;
    }
  }

  lemma {:induction false} WordsOfWord(w: string, rest: string)
    requires |w| > 0 && NoSpace(w)
    requires |rest| == 0 || IsSpace(rest[0])
    ensures Words(w + rest) == [w] + Words(rest)
  {
    var s := w + rest;
    assert DropLeadingSpace(s) == s;
    LeadingWordOf(w, rest);
    assert s[|w|..] == rest;
  }

  lemma {:induction false} JoinWordsStart(ws: seq<string>)
    requires AllWords(ws)
    ensures |Join(ws, " ")| > 0 ==> !IsSpace(Join(ws, " ")[0])
  {
    if |ws| == 1 {
      assert !IsSpace(ws[0][0]);
    } else if |ws| > 1 {
      assert Join(ws, " ")[0] == ws[0][0];
      assert !IsSpace(ws[0][0]);
    }
  }

  /** A space before text that starts with a word splits the same as the text. */
  lemma WordsAfterSpace(rest: string)
    requires |rest| == 0 || !IsSpace(rest[0])
    ensures Words(" " + rest) == Words(rest)
  {
    assert DropLeadingSpace(" " + rest) == DropLeadingSpace(rest) by {
      assert (" " + rest)[1..] == rest;
    }
    assert DropLeadingSpace(rest) == rest;
  }

  /** Joining space-free, non-empty words on one space and re-splitting gives the words back. */
  lemma {:induction false} WordsJoin(ws: seq<string>)
    requires AllWords(ws)
    ensures Words(Join(ws, " ")) == ws
    decreases |ws|
  {
    if |ws| == 0 {
    } else if |ws| == 1 {
      assert ws[0] + "" == ws[0];
      WordsOfWord(ws[0], "");
    } else {
      var tail := ws[1..];
      assert AllWords(tail) by {
        forall i | 0 <= i < |tail| ensures |tail[i]| > 0 && NoSpace(tail[i]) {
          assert tail[i] == ws[i + 1];
        }
      }
      var rest := Join(tail, " ");
      assert Join(ws, " ") == ws[0] + (" " + rest);
      calc {
        Words(Join(ws, " "));
        == { WordsOfWord(ws[0], " " + rest); }
        [ws[0]] + Words(" " + rest);
        == { JoinWordsStart(tail); WordsAfterSpace(rest); }
        [ws[0]] + Words(rest);
        == { WordsJoin(tail); }
        [ws[0]] + tail;
        == { assert [ws[0]] + tail == ws; }
        ws;
      }
    }
  }

  // ---------- ordering of strings (code-point lexicographic, as Python compares str) ----------

  predicate StrLess(a: string, b: string)
    decreases |a|
  {
    if |a| == 0 then |b| > 0
    else if |b| == 0 then false
    else if a[0] != b[0] then a[0] < b[0]
    else StrLess(a[1..], b[1..])
  }

  predicate StrLessEq(a: string, b: string)
  {
    a == b || StrLess(a, b)
  }

  lemma {:induction false} StrLessTotal(a: string, b: string)
    ensures a == b || StrLess(a, b) || StrLess(b, a)
    decreases |a|
  {
    if |a| > 0 && |b| > 0 && a[0] == b[0] {
      StrLessTotal(a[1..], b[1..]);
      if a[1..] == b[1..] {
        assert a == [a[0]] + a[1..] && b == [b[0]] + b[1..];
      }
    }
  }

  lemma {:induction false} StrLessTrans(a: string, b: string, c: string)
    requires StrLess(a, b) && StrLess(b, c)
    ensures StrLess(a, c)
    decreases |a|
  {
    if |a| > 0 && a[0] == b[0] && b[0] == c[0] {
      StrLessTrans(a[1..], b[1..], c[1..]);
    }
  }

  lemma {:induction false} StrLessIrreflexive(a: string)
    ensures !StrLess(a, a)
    decreases |a|
  {
    if |a| > 0 { StrLessIrreflexive(a[1..]); }
  }

  // ---------- str() of an integer ----------

  function DigitChar(d: nat): char
    requires d < 10
  {
    "0123456789"[d]
  }

  function NatToString(n: nat): (s: string)
    ensures |s| > 0
  {
    if n < 10 then [DigitChar(n)] else NatToString(n / 10) + [DigitChar(n % 10)]
  }

  /** Python's `str(i)` for an integer. */
  function IntToString(i: int): string
  {
    if i < 0 then "-" + NatToString(-i) else NatToString(i)
  }
}
