/**
  Whitespace normalisation of log lines, as done by `QString::simplified`:
  leading and trailing whitespace is removed and every internal run of
  whitespace becomes one ASCII space. The operation is defined through the
  words of a string (its maximal runs of non-whitespace characters) and is
  characterised by the predicate `Simple`, the set of its fixed points.
 */
module Whitespace {

  /** `QChar::isSpace`: TAB through CR, SPACE, NEL, NO-BREAK SPACE and the
      Unicode space, line and paragraph separators. */
  predicate IsSpace(c: char) {
    var n := c as int;
    || n == 0x20
    || 0x09 <= n <= 0x0D
    || n == 0x85
    || n == 0xA0
    || n == 0x1680
    || 0x2000 <= n <= 0x200A
    || n == 0x2028
    || n == 0x2029
    || n == 0x202F
    || n == 0x205F
    || n == 0x3000
  }

  /** A word: a string without any whitespace character. */
  predicate NoSpace(w: string) {
    forall i :: 0 <= i < |w| ==> !IsSpace(w[i])
  }

  predicate AllSpace(s: string) {
    forall i :: 0 <= i < |s| ==> IsSpace(s[i])
  }

  /** Every word of the sequence is a non-empty word. */
  predicate WellFormedWords(ws: seq<string>) {
    forall w :: w in ws ==> w != [] && NoSpace(w)
  }

  /** The shape of a simplified string: no whitespace at either end, every
      whitespace character is an ASCII space, and no two are adjacent. */
  predicate Simple(s: string) {
    && (s != [] ==> !IsSpace(s[0]) && !IsSpace(s[|s| - 1]))
    && (forall i :: 0 <= i < |s| && IsSpace(s[i]) ==> s[i] == ' ')
    && (forall i, j :: 0 <= i < |s| && i < j < |s| && j - i == 1 ==> !IsSpace(s[i]) || !IsSpace(s[j]))
  }

  /** The suffix of `s` after its leading whitespace. */
  function DropSpaces(s: string): (r: string)
    ensures |r| <= |s| && r == s[|s| - |r|..]
    ensures r == [] || !IsSpace(r[0])
    ensures forall i :: 0 <= i < |s| - |r| ==> IsSpace(s[i])
  {
    if s != [] && IsSpace(s[0]) then DropSpaces(s[1..]) else s
  }

  /** The length of the longest prefix of `s` that holds no whitespace. */
  function WordLength(s: string): (n: nat)
    ensures n <= |s|
    ensures NoSpace(s[..n])
    ensures n == |s| || IsSpace(s[n])
  {
    if s == [] || IsSpace(s[0]) then 0 else 1 + WordLength(s[1..])
  }

  /** The maximal whitespace-free runs of `s`, in order. */
  function Words(s: string): (ws: seq<string>)
    ensures WellFormedWords(ws)
    decreases |s|
  {
    var t := DropSpaces(s);
    if t == [] then []
    else
      var n := WordLength(t);
      [t[..n]] + Words(t[n..])
  }

  /** The words joined by single spaces. */
  function Unwords(ws: seq<string>): string
  {
    if |ws| == 0 then []
    else if |ws| == 1 then ws[0]
    else ws[0] + " " + Unwords(ws[1..])
  }

  /** `QString::simplified`. */
  function Simplified(s: string): (r: string)
    ensures Simple(r)
    ensures Words(r) == Words(s)
    ensures r == [] <==> AllSpace(s)
  {
    var ws := Words(s);
    UnwordsIsSimple(ws);
    WordsOfUnwords(ws);
    WordsEmptyIff(s);
    Unwords(ws)
  }

  lemma DropSpacesOfWord(s: string)
    requires s == [] || !IsSpace(s[0])
    ensures DropSpaces(s) == s
  {
  }

  lemma {:induction false} WordLengthOfWord(w: string, rest: string)
    requires NoSpace(w)
    requires rest == [] || IsSpace(rest[0])
    ensures WordLength(w + rest) == |w|
  {
    if w != [] {
      assert (w + rest)[1..] == w[1..] + rest;
      WordLengthOfWord(w[1..], rest);
    }
  }

  /** One step of Words on a string that starts with a word. */
  lemma WordsOfWordStart(t: string, w: string, rest: string)
    requires t == w + rest && w != [] && NoSpace(w)
    requires rest == [] || IsSpace(rest[0])
    ensures Words(t) == [w] + Words(rest)
  {
    DropSpacesOfWord(t);
    WordLengthOfWord(w, rest);
    assert t[..|w|] == w;
    assert t[|w|..] == rest;
  }

  lemma WordsOfOneWord(w: string)
    requires w != [] && NoSpace(w)
    ensures Words(w) == [w]
  {
    assert w == w + [];
    WordsOfWordStart(w, w, []);
  }

  /** One step of Words on a word followed by a space. */
  lemma WordsOfWordThenSpace(w: string, u: string)
    requires w != [] && NoSpace(w)
    ensures Words(w + " " + u) == [w] + Words(u)
  {
    assert w + " " + u == w + (" " + u);
    WordsOfWordStart(w + " " + u, w, " " + u);
    WordsSkipSpace(u);
  }

  lemma WordsSkipSpace(u: string)
    ensures Words(" " + u) == Words(u)
  {
    assert (" " + u)[1..] == u;
    assert DropSpaces(" " + u) == DropSpaces(u);
  }

  /** Words only ever returns empty when the input is all whitespace. */
  lemma WordsEmptyIff(s: string)
    ensures Words(s) == [] <==> AllSpace(s)
  {
    var t := DropSpaces(s);
    if t == [] {
    } else {
      assert !IsSpace(s[|s| - |t|]);
    }
  }

  /** A word on its own is simple. */
  lemma WordIsSimple(w: string)
    requires NoSpace(w)
    ensures Simple(w)
  {
  }

  /** The head of well-formed words is a word and the rest stays well formed. */
  lemma WellFormedUncons(ws: seq<string>)
    requires WellFormedWords(ws) && ws != []
    ensures ws[0] != [] && NoSpace(ws[0])
    ensures WellFormedWords(ws[1..])
    ensures ws == [ws[0]] + ws[1..]
  {
    assert ws[0] in ws;
    assert forall v :: v in ws[1..] ==> v in ws;
  }

  /** One step of joining: a word, a space and a simple string that starts
      with a non-space make a simple string. */
  lemma UnwordsIsSimpleCons(w: string, u: string)
    requires w != [] && NoSpace(w)
    requires Simple(u) && u != [] && !IsSpace(u[0])
    ensures Simple(w + " " + u)
  {
    var r := w + " " + u;
    assert r[0] == w[0];
    assert r[|r| - 1] == u[|u| - 1];
    assert forall i :: 0 <= i < |w| ==> r[i] == w[i];
    forall i | 0 <= i < |r| && IsSpace(r[i])
      ensures r[i] == ' '
    {
      if i > |w| {
        assert r[i] == u[i - |w| - 1];
      }
    }
    forall i, j | 0 <= i < |r| && i < j < |r| && j - i == 1
      ensures !IsSpace(r[i]) || !IsSpace(r[j])
    {
      if j <= |w| {
        assert r[i] == w[i];
      } else if i == |w| {
        assert r[j] == u[0];
      } else {
        assert r[i] == u[i - |w| - 1] && r[j] == u[j - |w| - 1];
      }
    }
  }

  /** Joining non-empty words gives a simple string that, unless no words
      were given, starts with a non-space. */
  lemma {:induction false} UnwordsIsSimple(ws: seq<string>)
    requires WellFormedWords(ws)
    ensures Simple(Unwords(ws))
    ensures ws != [] ==> Unwords(ws) != [] && !IsSpace(Unwords(ws)[0])
  {
    if ws != [] {
      WellFormedUncons(ws);
      var w, tail := ws[0], ws[1..];
      if tail == [] {
        WordIsSimple(w);
      } else {
        UnwordsIsSimple(tail);
        var u := Unwords(tail);
        assert Unwords(ws) == w + " " + u;
        UnwordsIsSimpleCons(w, u);
      }
    }
  }

  /** One step of splitting joined words: a leading word comes off first. */
  lemma WordsOfUnwordsCons(w: string, tail: seq<string>)
    requires w != [] && NoSpace(w) && tail != []
    requires Words(Unwords(tail)) == tail
    ensures Words(Unwords([w] + tail)) == [w] + tail
  {
    var ws := [w] + tail;
    assert ws[0] == w && ws[1..] == tail;
    assert Unwords(ws) == w + " " + Unwords(tail);
    WordsOfWordThenSpace(w, Unwords(tail));
  }

  /** Splitting the joined words gives back the words. */
  lemma {:induction false} WordsOfUnwords(ws: seq<string>)
    requires WellFormedWords(ws)
    ensures Words(Unwords(ws)) == ws
  {
    if ws != [] {
      WellFormedUncons(ws);
      var w, tail := ws[0], ws[1..];
      if tail == [] {
        WordsOfOneWord(w);
      } else {
        WordsOfUnwords(tail);
        WordsOfUnwordsCons(w, tail);
      }
    }
  }

  /** The part of a simple string after a space is simple. */
  lemma SimpleSuffix(s: string, k: nat)
    requires Simple(s) && 0 < k < |s| && IsSpace(s[k - 1])
    ensures Simple(s[k..])
  {
    var rest := s[k..];
    assert rest[0] == s[k];
    assert !IsSpace(s[k - 1]) || !IsSpace(s[k]);
    forall i | 0 <= i < |rest| && IsSpace(rest[i])
      ensures rest[i] == ' '
    {
      assert rest[i] == s[k + i];
    }
    forall i, j | 0 <= i < |rest| && i < j < |rest| && j - i == 1
      ensures !IsSpace(rest[i]) || !IsSpace(rest[j])
    {
      assert rest[i] == s[k + i] && rest[j] == s[k + j];
    }
  }

  /** A simple string is a fixed point of simplification. */
  lemma {:induction false} SimpleIsFixedPoint(s: string)
    requires Simple(s)
    ensures Unwords(Words(s)) == s
    decreases |s|
  {
    if s != [] {
      var n := WordLength(s);
      var w := s[..n];
      if n < |s| {
        assert s[n] == ' ' && n + 1 < |s|;
        var rest := s[n + 1..];
        assert s == w + " " + rest;
        WordsOfWordThenSpace(w, rest);
        SimpleSuffix(s, n + 1);
        SimpleIsFixedPoint(rest);
        WordsEmptyIff(rest);
        assert Words(s) == [w] + Words(rest);
      } else {
        assert w == s;
        WordsOfOneWord(s);
      }
    }
  }

  /** The fixed points of simplification are exactly the simple strings. */
  lemma SimplifiedFixedPointIff(s: string)
    ensures Simplified(s) == s <==> Simple(s)
  {
    if Simple(s) {
      SimpleIsFixedPoint(s);
    }
  }

  /** A simple string is determined by its words, so `Simplified(s)` is the
      only simple string with the words of `s`. */
  lemma SimpleUnique(a: string, b: string)
    requires Simple(a) && Simple(b) && Words(a) == Words(b)
    ensures a == b
  {
    SimpleIsFixedPoint(a);
    SimpleIsFixedPoint(b);
  }

  /** Simplifying twice is the same as simplifying once. */
  lemma SimplifiedIdempotent(s: string)
    ensures Simplified(Simplified(s)) == Simplified(s)
  {
    SimplifiedFixedPointIff(Simplified(s));
  }
}
