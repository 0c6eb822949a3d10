/** The Python `str` operations the services rely on, over ASCII text:
    whitespace classification, case mapping, `strip`, `split`, `join`,
    `replace`, `ljust` and `str()` of an integer. */
module Strings {

  /** `str.isspace` on the ASCII range: space, the controls \t \n \v \f \r,
      and the separators 0x1C-0x1F. */
  predicate IsSpace(c: char) {
    c == ' ' || '\t' <= c <= '\r' || '\U{1C}' <= c <= '\U{1F}'
  }

  function Lower(c: char): char {
    if 'A' <= c <= 'Z' then (c as int + 32) as char else c
  }

  function Upper(c: char): char {
    if 'a' <= c <= 'z' then (c as int - 32) as char else c
  }

  /** `str.lower()`. */
  function LowerStr(s: string): string {
    seq(|s|, i requires 0 <= i < |s| => Lower(s[i]))
  }

  /** `str.startswith`. */
  predicate StartsWith(s: string, prefix: string) {
    |prefix| <= |s| && s[..|prefix|] == prefix
  }

  /** `str.endswith`. */
  predicate EndsWith(s: string, suffix: string) {
    |suffix| <= |s| && s[|s| - |suffix|..] == suffix
  }

  /** The number of occurrences of `c` in `s`. */
  function Count(c: char, s: string): nat {
    if s == [] then 0 else (if s[0] == c then 1 else 0) + Count(c, s[1..])
  }

  /** The concatenation of all `parts`. */
  function Concat(parts: seq<string>): string {
    if parts == [] then [] else parts[0] + Concat(parts[1..])
  }

  // ---------------------------------------------------------------------------
  // strip

  /** Every character of `p` is whitespace. */
  predicate AllSpace(p: string) {
    forall k :: 0 <= k < |p| ==> IsSpace(p[k])
  }

  /** `str.lstrip()`: the longest suffix of `s` that does not start with whitespace. */
  function TrimLeft(s: string): (r: string)
    ensures |r| <= |s|
    ensures r == s[|s| - |r|..]
    ensures r == [] || !IsSpace(r[0])
    ensures AllSpace(s[..|s| - |r|])
  {
    if s != [] && IsSpace(s[0]) then
      var r := TrimLeft(s[1..]);
      assert s[..|s| - |r|] == [s[0]] + s[1..][..|s| - 1 - |r|];
      r
    else s
  }

  /** `str.rstrip()`: the longest prefix of `s` that does not end with whitespace. */
  function TrimRight(s: string): (r: string)
    ensures |r| <= |s|
    ensures r == s[..|r|]
    ensures r == [] || !IsSpace(r[|r| - 1])
    ensures AllSpace(s[|r|..])
  {
    if s != [] && IsSpace(s[|s| - 1]) then
      var r := TrimRight(s[..|s| - 1]);
      assert s[|r|..] == s[..|s| - 1][|r|..] + [s[|s| - 1]];
      r
    else s
  }

  /** `str.strip()`. */
  function Strip(s: string): string {
    TrimLeft(TrimRight(s))
  }

  /** Stripping a string that is framed by non-whitespace and followed only by
      whitespace gives back exactly the framed part. */
  lemma {:induction false} StripFramed(core: string, tail: string)
    requires core != [] && !IsSpace(core[0]) && !IsSpace(core[|core| - 1])
    requires forall k :: 0 <= k < |tail| ==> IsSpace(tail[k])
    ensures Strip(core + tail) == core
  {
    TrimRightSpaces(core, tail);
  }

  lemma {:induction false} TrimRightSpaces(core: string, tail: string)
    requires core != [] && !IsSpace(core[|core| - 1])
    requires forall k :: 0 <= k < |tail| ==> IsSpace(tail[k])
    ensures TrimRight(core + tail) == core
    decreases |tail|
  {
    if tail == [] {
      assert core + tail == core;
    } else {
      var s := core + tail;
      assert s[..|s| - 1] == core + tail[..|tail| - 1];
      TrimRightSpaces(core, tail[..|tail| - 1]);
    }
  }

  // ---------------------------------------------------------------------------
  // split() and " ".join(...)

  /** A piece of `str.split()`'s result: non-empty and free of whitespace. */
  predicate IsWord(w: string) {
    w != [] && forall k :: 0 <= k < |w| ==> !IsSpace(w[k])
  }

  /** `str.split()` with no separator: the maximal runs of non-whitespace, in
      order. A non-whitespace character either starts the first word of what
      follows it or is a word of its own. */
  function Words(s: string): (ws: seq<string>)
    ensures forall i :: 0 <= i < |ws| ==> IsWord(ws[i])
    ensures s != [] && !IsSpace(s[0]) ==> |ws| > 0 && ws[0] != [] && ws[0][0] == s[0]
    decreases |s|
  {
    if s == [] then []
    else
      var rest := Words(s[1..]);
      if IsSpace(s[0]) then rest
      else if |s| > 1 && !IsSpace(s[1]) then [[s[0]] + rest[0]] + rest[1..]
      else [[s[0]]] + rest
  }

  /** `sep.join(parts)`. */
  function JoinWith(sep: string, parts: seq<string>): string
    decreases |parts|
  {
    if |parts| == 0 then ""
    else if |parts| == 1 then parts[0]
    else parts[0] + sep + JoinWith(sep, parts[1..])
  }

  /** `" ".join(s.split())`: every whitespace run becomes one space and the ends are trimmed. */
  function Collapse(s: string): string {
    JoinWith(" ", Words(s))
  }

  /** The shape `Collapse` produces: the only whitespace is single spaces between
      non-whitespace characters. */
  ghost predicate Collapsed(s: string) {
    && (s == [] || (!IsSpace(s[0]) && !IsSpace(s[|s| - 1])))
    && (forall i :: 0 <= i < |s| && IsSpace(s[i]) ==> s[i] == ' ')
    && (forall i, j :: 0 <= i && j == i + 1 && j < |s| ==> !IsSpace(s[i]) || !IsSpace(s[j]))
  }

  /** The non-whitespace characters of `s`, in order. */
  function NonSpace(s: string): string {
    if s == [] then [] else (if IsSpace(s[0]) then [] else [s[0]]) + NonSpace(s[1..])
  }

  /** Every character `NonSpace` keeps comes from `s`. */
  lemma {:induction false} NonSpaceFrom(s: string, c: char)
    ensures c in NonSpace(s) ==> c in s && !IsSpace(c)
  {
    if s != [] {
      NonSpaceFrom(s[1..], c);
    }
  }

  /** `NonSpace` keeps every non-whitespace character of `s`. */
  lemma {:induction false} NonSpaceKeeps(s: string, i: nat)
    requires i < |s| && !IsSpace(s[i])
    ensures s[i] in NonSpace(s)
  {
    if i > 0 {
      NonSpaceKeeps(s[1..], i - 1);
      assert s[1..][i - 1] == s[i];
    }
  }

  lemma {:induction false} JoinWithStart(sep: string, parts: seq<string>)
    requires |parts| >= 1
    ensures StartsWith(JoinWith(sep, parts), parts[0])
  {
  }

  /** Joining words with single spaces yields a collapsed string. */
  lemma {:induction false} JoinWordsCollapsed(ws: seq<string>)
    requires forall i :: 0 <= i < |ws| ==> IsWord(ws[i])
    ensures Collapsed(JoinWith(" ", ws))
  {
    if |ws| >= 2 {
      var w := ws[0];
      var rest := JoinWith(" ", ws[1..]);
      JoinWordsCollapsed(ws[1..]);
      JoinWithStart(" ", ws[1..]);
      var s := w + " " + rest;
      assert JoinWith(" ", ws) == s;
      assert rest[0] == ws[1][0];
      assert s[0] == w[0] && s[|s| - 1] == rest[|rest| - 1];
      forall i | 0 <= i < |s|
        ensures IsSpace(s[i]) ==> s[i] == ' '
      {
        if i < |w| {
          assert s[i] == w[i];
        } else if i > |w| {
          assert s[i] == rest[i - |w| - 1];
        }
      }
      forall i, j | 0 <= i && j == i + 1 && j < |s|
        ensures !IsSpace(s[i]) || !IsSpace(s[j])
      {
        if i < |w| {
          assert s[i] == w[i];
        } else if i == |w| {
          assert s[j] == rest[0];
        } else {
          assert s[i] == rest[i - |w| - 1];
          assert s[j] == rest[j - |w| - 1];
        }
      }
    }
  }

  /** A word followed by whitespace (or nothing) is the first word. */
  lemma {:induction false} WordsOfWordThen(w: string, t: string)
    requires IsWord(w)
    requires t == [] || IsSpace(t[0])
    ensures Words(w + t) == [w] + Words(t)
    decreases |w|
  {
    var s := w + t;
    assert s[0] == w[0];
    if |w| == 1 {
      assert s[1..] == t;
      assert w == [w[0]];
      if t != [] {
        assert s[1] == t[0];
      }
    } else {
      assert s[1..] == w[1..] + t;
      WordsOfWordThen(w[1..], t);
      assert s[1] == w[1];
      assert [w[0]] + w[1..] == w;
    }
  }

  /** Round trip: splitting words joined by single spaces gives back the words. */
  lemma {:induction false} WordsOfJoin(ws: seq<string>)
    requires forall i :: 0 <= i < |ws| ==> IsWord(ws[i])
    ensures Words(JoinWith(" ", ws)) == ws
  {
    if |ws| == 1 {
      WordsOfWordThen(ws[0], "");
      assert ws[0] + "" == ws[0];
    } else if |ws| >= 2 {
      var rest := JoinWith(" ", ws[1..]);
      calc {
        Words(JoinWith(" ", ws));
        { assert JoinWith(" ", ws) == ws[0] + (" " + rest); }
        Words(ws[0] + (" " + rest));
        { WordsOfWordThen(ws[0], " " + rest); }
        [ws[0]] + Words(" " + rest);
        { assert (" " + rest)[1..] == rest; }
        [ws[0]] + Words(rest);
        { WordsOfJoin(ws[1..]); }
        [ws[0]] + ws[1..];
      }
      assert ws == [ws[0]] + ws[1..];
    }
  }

  /** `" ".join(s.split())` is idempotent. */
  lemma CollapseIdempotent(s: string)
    ensures Collapse(Collapse(s)) == Collapse(s)
  {
    WordsOfJoin(Words(s));
  }

  /** `Collapse` always produces a collapsed string. */
  lemma CollapseIsCollapsed(s: string)
    ensures Collapsed(Collapse(s))
  {
    JoinWordsCollapsed(Words(s));
  }

  lemma {:induction false} NonSpaceAppend(a: string, b: string)
    ensures NonSpace(a + b) == NonSpace(a) + NonSpace(b)
  {
    if a != [] {
      assert (a + b)[0] == a[0];
      assert (a + b)[1..] == a[1..] + b;
      NonSpaceAppend(a[1..], b);
    } else {
      assert a + b == b;
    }
  }

  lemma {:induction false} NonSpaceOfSpaces(p: string)
    requires forall k :: 0 <= k < |p| ==> IsSpace(p[k])
    ensures NonSpace(p) == []
  {
    if p != [] {
      NonSpaceOfSpaces(p[1..]);
    }
  }

  lemma {:induction false} NonSpaceOfWord(w: string)
    requires forall k :: 0 <= k < |w| ==> !IsSpace(w[k])
    ensures NonSpace(w) == w
  {
    if w != [] {
      NonSpaceOfWord(w[1..]);
    }
  }

  lemma {:induction false} NonSpaceOfJoin(ws: seq<string>)
    requires forall i :: 0 <= i < |ws| ==> IsWord(ws[i])
    ensures NonSpace(JoinWith(" ", ws)) == Concat(ws)
  {
    if |ws| == 1 {
      NonSpaceOfWord(ws[0]);
      assert Concat(ws[1..]) == [];
    } else if |ws| >= 2 {
      var rest := JoinWith(" ", ws[1..]);
      NonSpaceAppend(ws[0] + " ", rest);
      NonSpaceAppend(ws[0], " ");
      NonSpaceOfWord(ws[0]);
      NonSpaceOfJoin(ws[1..]);
      assert JoinWith(" ", ws) == (ws[0] + " ") + rest;
    }
  }

  lemma ConcatCons(w: string, ws: seq<string>)
    ensures Concat([w] + ws) == w + Concat(ws)
  {
    assert ([w] + ws)[1..] == ws;
  }

  lemma {:induction false} NonSpaceOfWords(s: string)
    ensures Concat(Words(s)) == NonSpace(s)
    decreases |s|
  {
    if s != [] {
      var rest := Words(s[1..]);
      NonSpaceOfWords(s[1..]);
      if !IsSpace(s[0]) {
        if |s| > 1 && !IsSpace(s[1]) {
          ConcatCons([s[0]] + rest[0], rest[1..]);
          ConcatCons(rest[0], rest[1..]);
          assert rest == [rest[0]] + rest[1..];
        } else {
          ConcatCons([s[0]], rest);
        }
      }
    }
  }

  /** `" ".join(s.split())` keeps every non-whitespace character, in order, and adds none. */
  lemma CollapseKeepsText(s: string)
    ensures NonSpace(Collapse(s)) == NonSpace(s)
  {
    NonSpaceOfJoin(Words(s));
    NonSpaceOfWords(s);
  }

  // ---------------------------------------------------------------------------
  // split(c) on one separator character

  /** `s.split(c)` for a one-character separator: the pieces between occurrences
      of `c`, empty pieces included; there is always one more piece than
      occurrences of `c`. */
  function SplitOn(s: string, c: char): (parts: seq<string>)
    ensures |parts| == Count(c, s) + 1
    ensures forall i :: 0 <= i < |parts| ==> c !in parts[i]
    decreases |s|
  {
    if s == [] then [""]
    else
      var rest := SplitOn(s[1..], c);
      if s[0] == c then [""] + rest
      else [[s[0]] + rest[0]] + rest[1..]
  }

  /** Round trip: joining the pieces with the separator gives back the string. */
  lemma {:induction false} JoinOfSplit(s: string, c: char)
    ensures JoinWith([c], SplitOn(s, c)) == s
    decreases |s|
  {
    if s != [] {
      var rest := SplitOn(s[1..], c);
      JoinOfSplit(s[1..], c);
      if s[0] == c {
        assert SplitOn(s, c) == [""] + rest;
        assert ([""] + rest)[1..] == rest;
      } else {
        var parts := [[s[0]] + rest[0]] + rest[1..];
        assert SplitOn(s, c) == parts;
        if |rest| == 1 {
          assert JoinWith([c], rest) == rest[0];
        } else {
          assert rest == [rest[0]] + rest[1..];
          assert parts[1..] == rest[1..];
          assert JoinWith([c], rest) == rest[0] + [c] + JoinWith([c], rest[1..]);
        }
      }
    }
  }

  lemma {:induction false} SplitOnWithout(p: string, c: char)
    requires c !in p
    ensures SplitOn(p, c) == [p]
  {
    if p != [] {
      SplitOnWithout(p[1..], c);
      assert p[0] != c;
      assert [p[0]] + p[1..] == p;
    }
  }

  lemma {:induction false} SplitOnAfter(p: string, c: char, x: string)
    requires c !in p
    ensures SplitOn(p + [c] + x, c) == [p] + SplitOn(x, c)
    decreases |p|
  {
    var s := p + [c] + x;
    if p == [] {
      assert s == [c] + x;
      assert s[1..] == x;
    } else {
      assert s[0] == p[0] && p[0] != c;
      assert s[1..] == p[1..] + [c] + x;
      SplitOnAfter(p[1..], c, x);
      assert [p[0]] + p[1..] == p;
    }
  }

  /** Round trip: splitting pieces joined by a separator none of them contains
      gives back the pieces. */
  lemma {:induction false} SplitOfJoin(parts: seq<string>, c: char)
    requires |parts| >= 1
    requires forall i :: 0 <= i < |parts| ==> c !in parts[i]
    ensures SplitOn(JoinWith([c], parts), c) == parts
  {
    if |parts| == 1 {
      SplitOnWithout(parts[0], c);
    } else {
      SplitOfJoin(parts[1..], c);
      SplitOnAfter(parts[0], c, JoinWith([c], parts[1..]));
    }
  }

  /** Lines, each terminated by a newline. */
  function Unlines(lines: seq<string>): string {
    if lines == [] then "" else lines[0] + "\n" + Unlines(lines[1..])
  }

  /** Splitting newline-terminated lines on the newline gives back the lines and a
      final empty piece. */
  lemma {:induction false} SplitOfUnlines(lines: seq<string>)
    requires forall i :: 0 <= i < |lines| ==> '\n' !in lines[i]
    ensures SplitOn(Unlines(lines), '\n') == lines + [""]
  {
    if lines != [] {
      SplitOfUnlines(lines[1..]);
      SplitOnAfter(lines[0], '\n', Unlines(lines[1..]));
      assert lines == [lines[0]] + lines[1..];
    }
  }

  // ---------------------------------------------------------------------------
  // replace

  /** `s.replace(pat, rep)`: non-overlapping occurrences of `pat`, scanned left to
      right, each replaced by `rep`; the replacement text is not rescanned. */
  function Replace(s: string, pat: string, rep: string): string
    requires pat != []
    decreases |s|
  {
    if |s| < |pat| then s
    else if s[..|pat|] == pat then rep + Replace(s[|pat|..], pat, rep)
    else [s[0]] + Replace(s[1..], pat, rep)
  }

  /** Removing every occurrence of a character leaves none behind. */
  lemma {:induction false} RemoveCharGone(s: string, c: char)
    ensures c !in Replace(s, [c], "")
    decreases |s|
  {
    if |s| >= 1 {
      RemoveCharGone(s[1..], c);
      assert s[1..] == s[|[c]|..];
    }
  }

  // ---------------------------------------------------------------------------
  // ljust and str(int)

  function Spaces(n: nat): (r: string)
    ensures |r| == n && forall i :: 0 <= i < n ==> r[i] == ' '
  {
    if n == 0 then "" else [' '] + Spaces(n - 1)
  }

  /** `s.ljust(width)`: `s` followed by spaces up to `width` characters; a longer
      `s` is returned whole, never truncated. */
  function LJust(s: string, width: nat): (r: string)
    ensures |r| == if |s| < width then width else |s|
    ensures r[..|s|] == s
    ensures forall i :: |s| <= i < |r| ==> r[i] == ' '
  {
    if |s| < width then s + Spaces(width - |s|) else s
  }

  predicate IsDigit(c: char) {
    '0' <= c <= '9'
  }

  function DigitChar(d: nat): char
    requires d < 10
  {
    ('0' as int + d) as char
  }

  function DigitValue(c: char): nat
    requires IsDigit(c)
  {
    c as int - '0' as int
  }

  /** `str(n)` for a natural number: its decimal digits, without leading zeros. */
  function NatToString(n: nat): (s: string)
    ensures |s| >= 1
    ensures forall i :: 0 <= i < |s| ==> IsDigit(s[i])
    decreases n
  {
    if n < 10 then [DigitChar(n)] else NatToString(n / 10) + [DigitChar(n % 10)]
  }

  /** `int(s)` for a string of decimal digits. */
  function ParseNat(s: string): nat
    requires forall i :: 0 <= i < |s| ==> IsDigit(s[i])
    decreases |s|
  {
    if s == [] then 0 else ParseNat(s[..|s| - 1]) * 10 + DigitValue(s[|s| - 1])
  }

  /** Round trip: parsing the decimal text of `n` gives back `n`. */
  lemma {:induction false} ParseNatToString(n: nat)
    ensures ParseNat(NatToString(n)) == n
    decreases n
  {
    var s := NatToString(n);
    if n >= 10 {
      ParseNatToString(n / 10);
      assert s[..|s| - 1] == NatToString(n / 10);
    }
  }

  /** Distinct numbers have distinct decimal texts. */
  lemma NatToStringInjective(a: nat, b: nat)
    ensures NatToString(a) == NatToString(b) ==> a == b
  {
    ParseNatToString(a);
    ParseNatToString(b);
  }

  /** `str` is one-to-one on the naturals and `int` reads its text back. */
  lemma NumeralsDecode()
    ensures forall a: nat, b: nat :: NatToString(a) == NatToString(b) ==> a == b
    ensures forall a: nat :: ParseNat(NatToString(a)) == a
  {
    forall a: nat, b: nat
      ensures NatToString(a) == NatToString(b) ==> a == b
    {
      NatToStringInjective(a, b);
    }
    forall a: nat
      ensures ParseNat(NatToString(a)) == a
    {
      ParseNatToString(a);
    }
  }

  /** `str(i)` for any integer. */
  function IntToString(i: int): (s: string)
    ensures |s| >= 1
    ensures forall k :: 0 <= k < |s| ==> IsDigit(s[k]) || s[k] == '-'
  {
    if i < 0 then "-" + NatToString(-i) else NatToString(i)
  }
}
