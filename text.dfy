/** String helpers shared by the client pages and the server: the parts of
    JavaScript's string API that the modelled code uses, over ASCII. */
module Text {

  /** `toLowerCase` of one character, ASCII letters only. */
  function LowerChar(c: char): char {
    if 'A' <= c <= 'Z' then (c as int + 32) as char else c
  }

  /** `toUpperCase` of one character, ASCII letters only. */
  function UpperChar(c: char): char {
    if 'a' <= c <= 'z' then (c as int - 32) as char else c
  }

  predicate IsLowerLetter(c: char) {
    'a' <= c <= 'z'
  }

  function Lower(s: string): string {
    if s == [] then [] else [LowerChar(s[0])] + Lower(s[1..])
  }

  function Upper(s: string): string {
    if s == [] then [] else [UpperChar(s[0])] + Upper(s[1..])
  }

  lemma {:induction false} UpperHasNoLowerLetter(s: string)
    ensures |Upper(s)| == |s|
    ensures forall i :: 0 <= i < |s| ==> Upper(s)[i] == UpperChar(s[i]) && !IsLowerLetter(Upper(s)[i])
  {
    if s != [] {
      UpperHasNoLowerLetter(s[1..]);
    }
  }

  lemma {:induction false} LowerLength(s: string)
    ensures |Lower(s)| == |s|
  {
    if s != [] {
      LowerLength(s[1..]);
    }
  }

  /** `s.includes(sub)`: `sub` occurs in `s` at some offset. */
  predicate Includes(s: string, sub: string) {
    exists i :: 0 <= i <= |s| - |sub| && OccursAt(s, sub, i)
  }

  predicate OccursAt(s: string, sub: string, i: int) {
    0 <= i <= |s| - |sub| && s[i..i + |sub|] == sub
  }

  /** `s.toLowerCase().includes(q.toLowerCase())`. */
  predicate IncludesIgnoringCase(s: string, q: string) {
    Includes(Lower(s), Lower(q))
  }

  /** The empty query is included in every string. */
  lemma EmptyIncludedEverywhere(s: string)
    ensures IncludesIgnoringCase(s, "")
  {
    assert Lower("") == "";
    assert OccursAt(Lower(s), "", 0);
  }

  /** `s.split(' ')`: the pieces between single spaces, so consecutive spaces
      give empty pieces and the result is never empty. */
  function SplitOnSpace(s: string): (parts: seq<string>)
    ensures |parts| >= 1
  {
    if s == [] then [[]]
    else
      var rest := SplitOnSpace(s[1..]);
      if s[0] == ' ' then [[]] + rest else [[s[0]] + rest[0]] + rest[1..]
  }

  /** `parts.join(' ')`. */
  function JoinWithSpace(parts: seq<string>): string {
    if |parts| == 0 then []
    else if |parts| == 1 then parts[0]
    else parts[0] + [' '] + JoinWithSpace(parts[1..])
  }

  lemma {:induction false} JoinPrepend(p: string, parts: seq<string>)
    requires |parts| >= 1
    ensures JoinWithSpace([p] + parts) == p + [' '] + JoinWithSpace(parts)
  {
    assert ([p] + parts)[1..] == parts;
  }

  lemma {:induction false} JoinPrependChar(c: char, parts: seq<string>)
    requires |parts| >= 1
    ensures JoinWithSpace([[c] + parts[0]] + parts[1..]) == [c] + JoinWithSpace(parts)
  {
    var head, tail := parts[0], parts[1..];
    if |tail| == 0 {
      assert [[c] + head] + tail == [[c] + head];
      assert parts == [head];
    } else {
      JoinPrepend([c] + head, tail);
      assert parts == [head] + tail;
      JoinPrepend(head, tail);
      var j := JoinWithSpace(tail);
      assert ([c] + head) + [' '] + j == [c] + (head + [' '] + j);
    }
  }

  /** Splitting on spaces loses nothing: joining the pieces gives the string
      back. */
  lemma {:induction false} JoinSplitRoundTrip(s: string)
    ensures JoinWithSpace(SplitOnSpace(s)) == s
  {
    if s != [] {
      var rest := SplitOnSpace(s[1..]);
      JoinSplitRoundTrip(s[1..]);
      if s[0] == ' ' {
        JoinPrepend([], rest);
      } else {
        JoinPrependChar(s[0], rest);
      }
      assert s == [s[0]] + s[1..];
    }
  }

  /** No piece of a split holds a space. */
  lemma {:induction false} SplitPiecesHaveNoSpace(s: string)
    ensures forall k :: 0 <= k < |SplitOnSpace(s)| ==> ' ' !in SplitOnSpace(s)[k]
  {
    if s != [] {
      SplitPiecesHaveNoSpace(s[1..]);
      var rest := SplitOnSpace(s[1..]);
      if s[0] != ' ' {
        assert forall k :: 1 <= k < |SplitOnSpace(s)| ==> SplitOnSpace(s)[k] == rest[k];
      }
    }
  }

  /** `parts.map(part => part[0]).join('')`: an empty piece yields
      `undefined`, which `join` renders as nothing. */
  function FirstLetters(parts: seq<string>): string {
    if parts == [] then []
    else (if parts[0] == [] then [] else [parts[0][0]]) + FirstLetters(parts[1..])
  }

  /** Reference definition: the characters of `s` that start a word, a word
      being a maximal run of non-space characters. `atStart` says whether the
      previous character was a space (or there was none). */
  function WordStarts(s: string, atStart: bool): string {
    if s == [] then []
    else if s[0] == ' ' then WordStarts(s[1..], true)
    else (if atStart then [s[0]] else []) + WordStarts(s[1..], false)
  }

  /** The first letters of the split pieces are exactly the word starts. */
  lemma {:induction false} FirstLettersAreWordStarts(s: string)
    ensures FirstLetters(SplitOnSpace(s)) == WordStarts(s, true)
    ensures FirstLetters(SplitOnSpace(s)[1..]) == WordStarts(s, false)
  {
    if s != [] {
      var rest := SplitOnSpace(s[1..]);
      FirstLettersAreWordStarts(s[1..]);
      if s[0] == ' ' {
        assert SplitOnSpace(s) == [[]] + rest;
        assert SplitOnSpace(s)[1..] == rest;
      } else {
        var head := [s[0]] + rest[0];
        assert SplitOnSpace(s) == [head] + rest[1..];
        assert SplitOnSpace(s)[1..] == rest[1..];
        assert FirstLetters(SplitOnSpace(s)) == [s[0]] + FirstLetters(rest[1..]);
      }
    }
  }

  lemma {:induction false} WordStartsHaveNoSpace(s: string, atStart: bool)
    ensures ' ' !in WordStarts(s, atStart)
    ensures |WordStarts(s, atStart)| <= |s|
  {
    if s != [] {
      WordStartsHaveNoSpace(s[1..], s[0] == ' ' || !atStart);
      WordStartsHaveNoSpace(s[1..], true);
      WordStartsHaveNoSpace(s[1..], false);
    }
  }

  /** A doubled space anywhere contributes no word start. */
  lemma {:induction false} DoubledSpaceAddsNoWord(a: string, b: string, atStart: bool)
    ensures WordStarts(a + "  " + b, atStart) == WordStarts(a + " " + b, atStart)
  {
    if a == [] {
      assert (a + "  " + b)[1..] == " " + b;
      assert (" " + b)[1..] == b;
      assert (a + " " + b)[1..] == b;
    } else {
      assert (a + "  " + b)[1..] == a[1..] + "  " + b;
      assert (a + " " + b)[1..] == a[1..] + " " + b;
      DoubledSpaceAddsNoWord(a[1..], b, true);
      DoubledSpaceAddsNoWord(a[1..], b, false);
    }
  }

  /** `name.split(' ').map(part => part[0]).join('').toUpperCase().substring(0, 2)`:
      the upper-cased word starts, at most two of them. There is one per
      non-empty piece of the split, nothing for the empty pieces that
      consecutive spaces produce, and never a lower-case letter. */
  function Initials(name: string): (r: string)
    ensures |r| <= 2
    ensures var w := WordStarts(name, true);
      |r| == (if |w| < 2 then |w| else 2) &&
      forall i :: 0 <= i < |r| ==> r[i] == UpperChar(w[i]) && !IsLowerLetter(r[i])
  {
    FirstLettersAreWordStarts(name);
    UpperHasNoLowerLetter(WordStarts(name, true));
    var letters := Upper(FirstLetters(SplitOnSpace(name)));
    if |letters| <= 2 then letters else letters[..2]
  }

  /** `s.charAt(0).toUpperCase() + s.slice(1)`. */
  function Capitalize(s: string): string {
    if s == [] then [] else [UpperChar(s[0])] + s[1..]
  }

  /** The characters `String.prototype.trim` removes, restricted to ASCII. */
  predicate IsWhitespace(c: char) {
    c == ' ' || c == '\t' || c == '\n' || c == '\r' || c == '\U{B}' || c == '\U{C}'
  }

  /** `!s.trim()`: nothing is left once surrounding white space is removed. */
  predicate IsBlank(s: string) {
    forall i :: 0 <= i < |s| ==> IsWhitespace(s[i])
  }

  function DigitChar(d: nat): char
    requires d < 10
  {
    "0123456789"[d]
  }

  /** Decimal rendering of a natural number (template-literal `${n}`). */
  function NatToString(n: nat): (r: string)
    ensures |r| >= 1
    decreases n
  {
    if n < 10 then [DigitChar(n)] else NatToString(n / 10) + [DigitChar(n % 10)]
  }

  /** Decimal rendering of an integer, with a leading minus when negative. */
  function IntToString(n: int): string {
    if n < 0 then "-" + NatToString(-n) else NatToString(n)
  }
}
