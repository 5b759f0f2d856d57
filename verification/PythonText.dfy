/** Whitespace as Python's `str` methods see it. */
module PythonText {
  predicate IsSpace(c: char) {
    var n := c as int;
    0x09 <= n <= 0x0D || 0x1C <= n <= 0x20 || n == 0x85 || n == 0xA0 || n == 0x1680 || 0x2000 <= n <= 0x200A
    || n == 0x2028 || n == 0x2029 || n == 0x202F || n == 0x205F || n == 0x3000
  }

  predicate IsBlank(s: string) {
    forall i | 0 <= i < |s| :: IsSpace(s[i])
  }

  function StripLeft(s: string): (r: string)
    ensures r == [] || !IsSpace(r[0])
    ensures s != [] && !IsSpace(s[0]) ==> r == s
  {
    if s != [] && IsSpace(s[0]) then StripLeft(s[1..]) else s
  }

  function StripRight(s: string): (r: string)
    ensures r <= s
    ensures r == [] || !IsSpace(r[|r| - 1])
    ensures s != [] && !IsSpace(s[|s| - 1]) ==> r == s
  {
    if s != [] && IsSpace(s[|s| - 1]) then StripRight(s[..|s| - 1]) else s
  }

  function Strip(s: string): string {
    StripRight(StripLeft(s))
  }

  /** A text that neither starts nor ends with a space is its own strip. */
  lemma StripKeeps(s: string)
    requires s != [] ==> !IsSpace(s[0]) && !IsSpace(s[|s| - 1])
    ensures Strip(s) == s
  {}

  lemma {:induction false} StripSurrounded(before: string, s: string, after: string)
    requires IsBlank(before) && IsBlank(after)
    requires s != [] && !IsSpace(s[0]) && !IsSpace(s[|s| - 1])
    ensures Strip(before + s + after) == s
    decreases |before| + |after|
  {
    var t := before + s + after;
    if before != [] {
      assert t[0] == before[0] && t[1..] == before[1..] + s + after;
      StripSurrounded(before[1..], s, after);
    } else {
      assert t == s + after && t[0] == s[0];
      StripRightOf(s, after);
    }
  }

  lemma {:induction false} StripRightOf(s: string, after: string)
    requires IsBlank(after) && s != [] && !IsSpace(s[|s| - 1])
    ensures StripRight(s + after) == s
  {
    if after == [] {
      assert s + after == s;
    } else {
      var t := s + after;
      assert t[|t| - 1] == after[|after| - 1] && t[..|t| - 1] == s + after[..|after| - 1];
      StripRightOf(s, after[..|after| - 1]);
    }
  }

  // ---- words: `split()` and `" ".join` ----

  /** The length of the word that starts a text. */
  function WordLength(s: string): (n: nat)
    ensures n <= |s| && (forall k | 0 <= k < n :: !IsSpace(s[k])) && (n < |s| ==> IsSpace(s[n]))
  {
    if s == [] || IsSpace(s[0]) then 0 else 1 + WordLength(s[1..])
  }

  lemma {:induction false} StripLeftIsShorter(s: string)
    ensures |StripLeft(s)| <= |s|
  {
    if s != [] && IsSpace(s[0]) { StripLeftIsShorter(s[1..]); }
  }

  /** Python's `split()`: the maximal runs of characters that are not spaces. */
  function Words(s: string): seq<string>
    decreases |s|
  {
    StripLeftIsShorter(s);
    var t := StripLeft(s);
    if t == [] then [] else [t[..WordLength(t)]] + Words(t[WordLength(t)..])
  }

  function Join(words: seq<string>): string {
    if words == [] then "" else if |words| == 1 then words[0] else words[0] + " " + Join(words[1..])
  }

  /** A text with one space between its words and none around them. */
  function Normalized(s: string): string {
    Join(Words(s))
  }

  predicate IsWord(w: string) {
    w != [] && forall k | 0 <= k < |w| :: !IsSpace(w[k])
  }

  predicate AreWords(words: seq<string>) {
    forall k | 0 <= k < |words| :: IsWord(words[k])
  }

  lemma {:induction false} WordsAreWords(s: string)
    ensures AreWords(Words(s))
    decreases |s|
  {
    StripLeftIsShorter(s);
    var t := StripLeft(s);
    if t != [] {
      assert !IsSpace(t[0]);
      WordsAreWords(t[WordLength(t)..]);
    }
  }

  lemma {:induction false} WordLengthIs(w: string, rest: string)
    requires forall k | 0 <= k < |w| :: !IsSpace(w[k])
    requires rest == [] || IsSpace(rest[0])
    ensures WordLength(w + rest) == |w|
  {
    if w == [] {
      assert w + rest == rest;
    } else {
      assert (w + rest)[0] == w[0] && (w + rest)[1..] == w[1..] + rest;
      WordLengthIs(w[1..], rest);
    }
  }

  lemma {:induction false} WordsOfJoin(words: seq<string>)
    requires AreWords(words)
    ensures Words(Join(words)) == words
  {
    if words != [] {
      var s, rest := Join(words), words[1..];
      var tail := if rest == [] then "" else " " + Join(rest);
      assert s == words[0] + tail;
      assert IsWord(words[0]);
      assert s[0] == words[0][0];
      assert StripLeft(s) == s;
      WordLengthIs(words[0], tail);
      WordsOfJoin(rest);
      if rest != [] {
        assert s[|words[0]|..] == tail && tail[1..] == Join(rest) && IsSpace(tail[0]);
        assert StripLeft(tail) == StripLeft(Join(rest));
        assert Words(tail) == Words(Join(rest));
      } else {
        assert s[|words[0]|..] == "";
      }
    }
  }

  /** Normalising is done once and for all. */
  lemma NormalizedTwice(s: string)
    ensures Normalized(Normalized(s)) == Normalized(s)
  {
    WordsAreWords(s);
    WordsOfJoin(Words(s));
  }

  /** The characters of joined words: those of the words, and spaces. */
  lemma {:induction false} JoinChars(words: seq<string>, k: nat)
    requires AreWords(words) && k < |Join(words)|
    ensures var c := Join(words)[k]; c == ' ' || (!IsSpace(c) && exists w | w in words :: c in w)
  {
    var s := Join(words);
    if k < |words[0]| {
      assert s[k] == words[0][k] && words[0] in words && IsWord(words[0]);
    } else if k > |words[0]| {
      JoinChars(words[1..], k - |words[0]| - 1);
      assert s[k] == Join(words[1..])[k - |words[0]| - 1];
    }
  }

  lemma {:induction false} StripLeftChars(s: string, c: char)
    requires c in StripLeft(s)
    ensures c in s
  {
    if s != [] && IsSpace(s[0]) {
      StripLeftChars(s[1..], c);
    }
  }

  lemma {:induction false} WordChars(s: string, w: string, c: char)
    requires w in Words(s) && c in w
    ensures c in s
    decreases |s|
  {
    StripLeftIsShorter(s);
    var t := StripLeft(s);
    var n := WordLength(t);
    if w == t[..n] {
      assert c in t;
      StripLeftChars(s, c);
    } else {
      WordChars(t[n..], w, c);
      assert c in t;
      StripLeftChars(s, c);
    }
  }

  /** A normalised text has no character but plain spaces and the original's own. */
  lemma NormalizedChars(s: string, k: nat)
    requires k < |Normalized(s)|
    ensures var c := Normalized(s)[k]; c == ' ' || (!IsSpace(c) && c in s)
  {
    WordsAreWords(s);
    JoinChars(Words(s), k);
    var c := Normalized(s)[k];
    if c != ' ' {
      var w :| w in Words(s) && c in w;
      WordChars(s, w, c);
    }
  }

  // ---- lines: `splitlines()` ----

  predicate IsLineBreak(c: char) {
    var n := c as int;
    0x0A <= n <= 0x0D || 0x1C <= n <= 0x1E || n == 0x85 || n == 0x2028 || n == 0x2029
  }

  function LineLength(s: string): (n: nat)
    ensures n <= |s| && (forall k | 0 <= k < n :: !IsLineBreak(s[k])) && (n < |s| ==> IsLineBreak(s[n]))
  {
    if s == [] || IsLineBreak(s[0]) then 0 else 1 + LineLength(s[1..])
  }

  /** The length of the line break that starts a text: carriage return and line feed are one. */
  function BreakLength(s: string): (n: nat)
    requires s != []
    ensures 1 <= n <= |s|
  {
    if s[0] == '\r' && |s| > 1 && s[1] == '\n' then 2 else 1
  }

  function Lines(s: string): seq<string>
    decreases |s|
  {
    if s == [] then [] else
    var n := LineLength(s);
    [s[..n]] + (if n == |s| then [] else Lines(s[n + BreakLength(s[n..])..]))
  }

  predicate IsLine(s: string) {
    forall k | 0 <= k < |s| :: !IsLineBreak(s[k])
  }

  lemma {:induction false} LineLengthIs(line: string, rest: string)
    requires IsLine(line) && (rest == [] || IsLineBreak(rest[0]))
    ensures LineLength(line + rest) == |line|
  {
    if line == [] {
      assert line + rest == rest;
    } else {
      assert (line + rest)[0] == line[0] && (line + rest)[1..] == line[1..] + rest;
      LineLengthIs(line[1..], rest);
    }
  }

  lemma FirstLine(line: string, rest: string)
    requires IsLine(line)
    ensures Lines(line + "\n" + rest) == [line] + Lines(rest)
  {
    var s, tail := line + "\n" + rest, "\n" + rest;
    assert s == line + tail;
    LineLengthIs(line, tail);
    assert s[|line|..] == tail && s[..|line|] == line && s[|line| + 1..] == rest;
  }
}
