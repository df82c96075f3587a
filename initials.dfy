/**
 * `String.initialsFor(name:)` (ChatBird/Classes/Utils.swift): up to two capital letters
 * taken from the first and the last word of a name, where a word is a run of letters.
 * Letters and upper-casing are those of ASCII.
 */
module Initials {

  predicate IsLetter(c: char) {
    'A' <= c <= 'Z' || 'a' <= c <= 'z'
  }

  predicate AllLetters(s: string) {
    forall i :: 0 <= i < |s| ==> IsLetter(s[i])
  }

  function UpperChar(c: char): (u: char)
    ensures IsLetter(u) <==> IsLetter(c)
  {
    if 'a' <= c <= 'z' then (c as int - 32) as char else c
  }

  /** `uppercased()`. */
  function Upper(s: string): (r: string)
    ensures |r| == |s|
    ensures forall i :: 0 <= i < |s| ==> r[i] == UpperChar(s[i])
  {
    if s == [] then [] else [UpperChar(s[0])] + Upper(s[1..])
  }

  /**
   * `components(separatedBy: CharacterSet.letters.inverted)`: the pieces between
   * non-letters, empty pieces included, so there is one more piece than there are
   * non-letters.
   */
  function Components(s: string): (r: seq<string>)
    ensures |r| >= 1
    ensures forall i :: 0 <= i < |r| ==> AllLetters(r[i])
  {
    if s == [] then [""]
    else
      var rest := Components(s[1..]);
      if IsLetter(s[0]) then [[s[0]] + rest[0]] + rest[1..] else [""] + rest
  }

  /** `removeAll(where: { $0.isEmpty })`. */
  function RemoveEmpty(cs: seq<string>): (r: seq<string>)
    ensures forall i :: 0 <= i < |r| ==> r[i] != ""
    ensures |r| <= |cs|
  {
    if cs == [] then []
    else if cs[0] == "" then RemoveEmpty(cs[1..])
    else [cs[0]] + RemoveEmpty(cs[1..])
  }

  /** The words of an (upper-cased) name: its maximal runs of letters. */
  function Runs(s: string): seq<string> {
    RemoveEmpty(Components(s))
  }

  function InitialsFor(name: string): (r: string)
    ensures |r| <= 2
    ensures r == [] <==> Runs(Upper(name)) == []
    ensures |r| == 2 <==> |Runs(Upper(name))| >= 2
    ensures var runs := Runs(Upper(name));
      |runs| >= 1 ==> r[0] == runs[0][0] && (|runs| >= 2 ==> r[1] == runs[|runs| - 1][0])
  {
    var runs := Runs(Upper(name));
    var first := if |runs| > 0 then [runs[0][0]] else [];
    var last := if |runs| > 1 then [runs[|runs| - 1][0]] else [];
    first + last
  }

  // Reference definitions the result is compared with.

  /** The letters of `s`, in order. */
  function Letters(s: string): (r: string)
    ensures AllLetters(r)
  {
    if s == [] then [] else (if IsLetter(s[0]) then [s[0]] else []) + Letters(s[1..])
  }

  function Concat(cs: seq<string>): string {
    if cs == [] then [] else cs[0] + Concat(cs[1..])
  }

  /** Two letters with a non-letter between them: the name has at least two words. */
  ghost predicate SeparatedLetters(s: string) {
    exists i, j, k :: SeparatedAt(s, i, j, k)
  }

  predicate SeparatedAt(s: string, i: int, j: int, k: int) {
    0 <= i < j < k < |s| && IsLetter(s[i]) && !IsLetter(s[j]) && IsLetter(s[k])
  }

  /** A non-letter followed, somewhere later, by a letter. */
  ghost predicate LetterAfterBreak(s: string) {
    exists j, k :: 0 <= j < k < |s| && !IsLetter(s[j]) && IsLetter(s[k])
  }

  lemma {:induction false} ConcatComponents(s: string)
    ensures Concat(Components(s)) == Letters(s)
  {
    if s != [] {
      var rest := Components(s[1..]);
      ConcatComponents(s[1..]);
      assert Concat(rest) == rest[0] + Concat(rest[1..]);
      if IsLetter(s[0]) {
        assert Components(s) == [[s[0]] + rest[0]] + rest[1..];
        assert Concat(Components(s)) == ([s[0]] + rest[0]) + Concat(rest[1..]);
      } else {
        assert Components(s) == [""] + rest;
        assert Concat(Components(s)) == "" + Concat(rest);
      }
    }
  }

  lemma {:induction false} ConcatRemoveEmpty(cs: seq<string>)
    ensures Concat(RemoveEmpty(cs)) == Concat(cs)
  {
    if cs != [] {
      var tail := RemoveEmpty(cs[1..]);
      ConcatRemoveEmpty(cs[1..]);
      assert Concat(cs) == cs[0] + Concat(cs[1..]);
      if cs[0] != "" {
        var r := [cs[0]] + tail;
        assert RemoveEmpty(cs) == r;
        assert r[0] == cs[0] && r[1..] == tail;
        assert Concat(r) == cs[0] + Concat(tail);
      } else {
        assert RemoveEmpty(cs) == tail;
      }
    }
  }

  lemma {:induction false} EmptyIffConcatEmpty(cs: seq<string>)
    ensures RemoveEmpty(cs) == [] <==> Concat(cs) == []
  {
    if cs != [] {
      EmptyIffConcatEmpty(cs[1..]);
    }
  }

  /** The words of a name, run together, are exactly its letters. */
  lemma RunsAreTheLetters(s: string)
    ensures Concat(Runs(s)) == Letters(s)
    ensures Runs(s) == [] <==> Letters(s) == []
  {
    ConcatComponents(s);
    ConcatRemoveEmpty(Components(s));
    EmptyIffConcatEmpty(Components(s));
  }

  lemma {:induction false} LettersUpper(s: string)
    ensures Letters(Upper(s)) == Upper(Letters(s))
  {
    if s != [] {
      LettersUpper(s[1..]);
      assert Upper(s)[1..] == Upper(s[1..]);
      if IsLetter(s[0]) {
        assert Upper([s[0]] + Letters(s[1..])) == [UpperChar(s[0])] + Upper(Letters(s[1..]));
      }
    }
  }

  lemma {:induction false} LettersEmptyIffNone(s: string)
    ensures Letters(s) == [] <==> forall i :: 0 <= i < |s| ==> !IsLetter(s[i])
  {
    if s != [] {
      LettersEmptyIffNone(s[1..]);
      assert forall i :: 1 <= i < |s| ==> s[i] == s[1..][i - 1];
    }
  }

  /** A name yields no initials exactly when it holds no letter at all. */
  lemma InitialsEmptyIffNoLetter(name: string)
    ensures InitialsFor(name) == "" <==> forall i :: 0 <= i < |name| ==> !IsLetter(name[i])
  {
    RunsAreTheLetters(Upper(name));
    LettersUpper(name);
    LettersEmptyIffNone(name);
  }

  /** The first initial is the first letter of the name, upper-cased. */
  lemma FirstInitialIsFirstLetter(name: string)
    requires Letters(name) != []
    ensures InitialsFor(name) != "" && InitialsFor(name)[0] == UpperChar(Letters(name)[0])
  {
    var runs := Runs(Upper(name));
    RunsAreTheLetters(Upper(name));
    LettersUpper(name);
    assert Concat(runs) == runs[0] + Concat(runs[1..]);
    assert Concat(runs)[0] == runs[0][0];
  }

  lemma {:induction false} RestOfComponentsNonEmpty(t: string)
    ensures RemoveEmpty(Components(t)[1..]) != [] <==> LetterAfterBreak(t)
  {
    if t == [] {
    } else {
      var rest := Components(t[1..]);
      if IsLetter(t[0]) {
        assert Components(t)[1..] == rest[1..];
        RestOfComponentsNonEmpty(t[1..]);
        LetterAfterBreakTail(t);
      } else {
        assert Components(t)[1..] == rest;
        RunsAreTheLetters(t[1..]);
        LettersEmptyIffNone(t[1..]);
        if LetterAfterBreak(t) {
          var j, k :| 0 <= j < k < |t| && !IsLetter(t[j]) && IsLetter(t[k]);
          assert t[1..][k - 1] == t[k];
        }
        if Letters(t[1..]) != [] {
          var k :| 0 <= k < |t[1..]| && IsLetter(t[1..][k]);
          assert !IsLetter(t[0]) && IsLetter(t[k + 1]);
        }
      }
    }
  }

  /** When `t` starts with a letter, a break followed by a letter lies in its tail. */
  lemma LetterAfterBreakTail(t: string)
    requires t != [] && IsLetter(t[0])
    ensures LetterAfterBreak(t) <==> LetterAfterBreak(t[1..])
  {
    if LetterAfterBreak(t) {
      var j, k :| 0 <= j < k < |t| && !IsLetter(t[j]) && IsLetter(t[k]);
      assert t[1..][j - 1] == t[j] && t[1..][k - 1] == t[k];
    }
    if LetterAfterBreak(t[1..]) {
      var j, k :| 0 <= j < k < |t[1..]| && !IsLetter(t[1..][j]) && IsLetter(t[1..][k]);
      assert t[j + 1] == t[1..][j] && t[k + 1] == t[1..][k];
    }
  }

  /** A name has two or more words exactly when two of its letters are separated by a non-letter. */
  lemma {:induction false} TwoRunsIffSeparated(s: string)
    ensures |Runs(s)| >= 2 <==> SeparatedLetters(s)
  {
    if s != [] {
      var rest := Components(s[1..]);
      if IsLetter(s[0]) {
        assert Components(s) == [[s[0]] + rest[0]] + rest[1..];
        assert Runs(s) == [[s[0]] + rest[0]] + RemoveEmpty(rest[1..]);
        RestOfComponentsNonEmpty(s[1..]);
        SeparatedFromFirstLetter(s);
      } else {
        assert Components(s) == [""] + rest;
        assert Runs(s) == Runs(s[1..]);
        TwoRunsIffSeparated(s[1..]);
        SeparatedTail(s);
      }
    }
  }

  lemma SeparatedFromFirstLetter(s: string)
    requires s != [] && IsLetter(s[0])
    ensures SeparatedLetters(s) <==> LetterAfterBreak(s[1..])
  {
    if SeparatedLetters(s) {
      var i, j, k :| 0 <= i < j < k < |s| && IsLetter(s[i]) && !IsLetter(s[j]) && IsLetter(s[k]);
      assert s[1..][j - 1] == s[j] && s[1..][k - 1] == s[k];
    }
    if LetterAfterBreak(s[1..]) {
      var j, k :| 0 <= j < k < |s[1..]| && !IsLetter(s[1..][j]) && IsLetter(s[1..][k]);
      assert IsLetter(s[0]) && s[j + 1] == s[1..][j] && s[k + 1] == s[1..][k];
      assert SeparatedAt(s, 0, j + 1, k + 1);
    }
  }

  lemma SeparatedTail(s: string)
    requires s != [] && !IsLetter(s[0])
    ensures SeparatedLetters(s) <==> SeparatedLetters(s[1..])
  {
    if SeparatedLetters(s) {
      var i, j, k :| 0 <= i < j < k < |s| && IsLetter(s[i]) && !IsLetter(s[j]) && IsLetter(s[k]);
      assert s[1..][i - 1] == s[i] && s[1..][j - 1] == s[j] && s[1..][k - 1] == s[k];
      assert SeparatedAt(s[1..], i - 1, j - 1, k - 1);
    }
    if SeparatedLetters(s[1..]) {
      var i, j, k :| 0 <= i < j < k < |s[1..]| && IsLetter(s[1..][i]) && !IsLetter(s[1..][j]) && IsLetter(s[1..][k]);
      assert s[i + 1] == s[1..][i] && s[j + 1] == s[1..][j] && s[k + 1] == s[1..][k];
      assert SeparatedAt(s, i + 1, j + 1, k + 1);
    }
  }

  /** Upper-casing keeps letters letters and non-letters non-letters, so it keeps the word breaks. */
  lemma SeparatedUpper(s: string)
    ensures SeparatedLetters(Upper(s)) <==> SeparatedLetters(s)
  {
    var u := Upper(s);
    if SeparatedLetters(u) {
      var i, j, k :| SeparatedAt(u, i, j, k);
      assert u[i] == UpperChar(s[i]) && u[j] == UpperChar(s[j]) && u[k] == UpperChar(s[k]);
      assert SeparatedAt(s, i, j, k);
    }
    if SeparatedLetters(s) {
      var i, j, k :| SeparatedAt(s, i, j, k);
      assert u[i] == UpperChar(s[i]) && u[j] == UpperChar(s[j]) && u[k] == UpperChar(s[k]);
      assert SeparatedAt(u, i, j, k);
    }
  }

  /** `k` is where the last word of `s` starts: a letter with no letter before it and no word starting later. */
  predicate LastWordStart(s: string, k: int) {
    0 <= k < |s| && IsLetter(s[k]) && (k == 0 || !IsLetter(s[k - 1])) &&
    forall m :: k < m < |s| && IsLetter(s[m]) ==> IsLetter(s[m - 1])
  }

  /** A name that starts with a letter and has no word starting later has no further runs. */
  lemma NoLaterWord(s: string)
    requires s != [] && IsLetter(s[0])
    requires forall m :: 0 < m < |s| && IsLetter(s[m]) ==> IsLetter(s[m - 1])
    ensures !LetterAfterBreak(s)
  {
    if LetterAfterBreak(s) {
      var j, k :| 0 <= j < k < |s| && !IsLetter(s[j]) && IsLetter(s[k]);
      var m := k;
      while m > j + 1
        invariant j < m <= k && IsLetter(s[m])
        decreases m
      {
        m := m - 1;
      }
      assert false;
    }
  }

  /** The last run of `s` begins at the start of its last word. */
  lemma {:induction false} LastRunStart(s: string, k: int)
    requires LastWordStart(s, k)
    ensures Runs(s) != [] && Runs(s)[|Runs(s)| - 1][0] == s[k]
  {
    var rest := Components(s[1..]);
    if k == 0 {
      assert Components(s) == [[s[0]] + rest[0]] + rest[1..];
      NoLaterWord(s);
      RestOfComponentsNonEmpty(s);
      assert Components(s)[1..] == rest[1..];
      assert Runs(s) == [[s[0]] + rest[0]];
    } else {
      var t := s[1..];
      assert LastWordStart(t, k - 1) by {
        assert t[k - 1] == s[k];
        if k - 1 > 0 {
          assert t[k - 2] == s[k - 1];
        }
        forall m | k - 1 < m < |t| && IsLetter(t[m])
          ensures IsLetter(t[m - 1])
        {
          assert t[m] == s[m + 1] && t[m - 1] == s[m];
        }
      }
      LastRunStart(t, k - 1);
      if IsLetter(s[0]) {
        var later := RemoveEmpty(rest[1..]);
        assert Components(s) == [[s[0]] + rest[0]] + rest[1..];
        assert Runs(s) == [[s[0]] + rest[0]] + later;
        assert k >= 2 && !IsLetter(t[k - 2]) && IsLetter(t[k - 1]);
        RestOfComponentsNonEmpty(t);
        assert later != [];
        if rest[0] == "" {
          assert Runs(t) == later;
        } else {
          assert Runs(t) == [rest[0]] + later;
        }
      } else {
        assert Components(s) == [""] + rest;
        assert Runs(s) == Runs(t);
      }
    }
  }

  /** With two words, the second initial is the first letter of the last word, upper-cased. */
  lemma LastInitialIsLastWordStart(name: string, k: int)
    requires SeparatedLetters(name) && LastWordStart(name, k)
    ensures |InitialsFor(name)| == 2 && InitialsFor(name)[1] == UpperChar(name[k])
  {
    InitialsLength(name);
    var u := Upper(name);
    assert LastWordStart(u, k) by {
      assert u[k] == UpperChar(name[k]);
      if k > 0 {
        assert u[k - 1] == UpperChar(name[k - 1]);
      }
      forall m | k < m < |u| && IsLetter(u[m])
        ensures IsLetter(u[m - 1])
      {
        assert u[m] == UpperChar(name[m]) && u[m - 1] == UpperChar(name[m - 1]);
      }
    }
    LastRunStart(u, k);
  }

  /**
   * Two initials appear exactly when the name has two letters with a non-letter between
   * them; a name whose letters form a single word gives exactly one initial.
   */
  lemma InitialsLength(name: string)
    ensures |InitialsFor(name)| == 2 <==> SeparatedLetters(name)
    ensures |InitialsFor(name)| == 1 <==> Letters(name) != [] && !SeparatedLetters(name)
  {
    TwoRunsIffSeparated(Upper(name));
    SeparatedUpper(name);
    RunsAreTheLetters(Upper(name));
    LettersUpper(name);
  }
}
