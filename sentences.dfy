/** split_sentences: `re.split(r'(?<=[.!?])\s+', text.strip())`.

    The regex can only start a match at a whitespace character whose predecessor is
    '.', '!' or '?'; \s+ then takes the whole whitespace run. Scanning left to right,
    the text falls into pieces (what re.split returns) and gaps (the removed runs). */
module Sentences {
  import opened Builtins

  predicate IsTerminator(c: char) { c == '.' || c == '!' || c == '?' }

  /** The lookbehind (?<=[.!?]) followed by one \s both hold at position i of t. */
  predicate CutsAt(t: string, i: int) {
    0 < i < |t| && IsTerminator(t[i - 1]) && IsSpace(t[i])
  }

  /** No position inside p (other than its very start) is where the pattern could match. */
  predicate NoCutInside(p: string) {
    forall j :: 0 < j < |p| ==> !(IsTerminator(p[j - 1]) && IsSpace(p[j]))
  }

  /** End of the whitespace run that starts at i: the greedy \s+. */
  function RunEnd(t: string, i: nat): (e: nat)
    requires i <= |t|
    ensures i <= e <= |t|
    ensures forall k :: i <= k < e ==> IsSpace(t[k])
    ensures e < |t| ==> !IsSpace(t[e])
    decreases |t| - i
  {
    if i < |t| && IsSpace(t[i]) then RunEnd(t, i + 1) else i
  }

  /** The pieces re.split returns and the separators it drops. */
  datatype Split = Split(pieces: seq<string>, gaps: seq<string>)

  /** Puts the dropped separators back between the pieces. */
  function Rejoin(pieces: seq<string>, gaps: seq<string>): string
    requires |pieces| == |gaps| + 1
  {
    if gaps == [] then pieces[0] else pieces[0] + gaps[0] + Rejoin(pieces[1..], gaps[1..])
  }

  /** The regex scan over t[start..], where the current piece is t[start..i] and no
      match has started inside it. */
  function SplitFrom(t: string, start: nat, i: nat): (s: Split)
    requires start <= i <= |t|
    requires start == 0 || IsSpace(t[start - 1])
    ensures |s.pieces| == |s.gaps| + 1
    decreases |t| - i
  {
    if i == |t| then
      Split([t[start..]], [])
    else if CutsAt(t, i) then
      var e := RunEnd(t, i);
      var rest := SplitFrom(t, e, e);
      Split([t[start..i]] + rest.pieces, [t[i..e]] + rest.gaps)
    else
      SplitFrom(t, start, i + 1)
  }

  /** The pieces and gaps, put back together, are the scanned text. */
  lemma {:induction false} SplitFromRejoins(t: string, start: nat, i: nat)
    requires start <= i <= |t|
    requires start == 0 || IsSpace(t[start - 1])
    ensures Rejoin(SplitFrom(t, start, i).pieces, SplitFrom(t, start, i).gaps) == t[start..]
    decreases |t| - i
  {
    var s := SplitFrom(t, start, i);
    if i == |t| {
    } else if CutsAt(t, i) {
      var e := RunEnd(t, i);
      SplitFromRejoins(t, e, e);
      var rest := SplitFrom(t, e, e);
      assert s.pieces == [t[start..i]] + rest.pieces && s.gaps == [t[i..e]] + rest.gaps;
      assert s.pieces[1..] == rest.pieces && s.gaps[1..] == rest.gaps;
      calc {
        Rejoin(s.pieces, s.gaps);
        t[start..i] + t[i..e] + Rejoin(rest.pieces, rest.gaps);
        t[start..i] + t[i..e] + t[e..];
        { assert t[start..] == t[start..i] + t[i..e] + t[e..]; }
        t[start..];
      }
    } else {
      assert s == SplitFrom(t, start, i + 1);
      SplitFromRejoins(t, start, i + 1);
    }
  }

  /** The first piece opens the scanned text and the last one closes it. */
  lemma {:induction false} SplitFromEnds(t: string, start: nat, i: nat)
    requires start <= i <= |t|
    requires start == 0 || IsSpace(t[start - 1])
    ensures SplitFrom(t, start, i).pieces[0] <= t[start..]
    ensures var last := SplitFrom(t, start, i).pieces[|SplitFrom(t, start, i).pieces| - 1];
            (last == [] ==> start == |t| || IsSpace(t[|t| - 1]))
            && (last != [] ==> last[|last| - 1] == t[|t| - 1])
    decreases |t| - i
  {
    var s := SplitFrom(t, start, i);
    if i == |t| {
    } else if CutsAt(t, i) {
      var e := RunEnd(t, i);
      SplitFromEnds(t, e, e);
      var rest := SplitFrom(t, e, e);
      assert s.pieces == [t[start..i]] + rest.pieces;
      assert s.pieces[|s.pieces| - 1] == rest.pieces[|rest.pieces| - 1];
    } else {
      assert s == SplitFrom(t, start, i + 1);
      SplitFromEnds(t, start, i + 1);
    }
  }

  /** Every gap is a non-empty whitespace run. */
  lemma {:induction false} SplitFromGapsSpace(t: string, start: nat, i: nat)
    requires start <= i <= |t|
    requires start == 0 || IsSpace(t[start - 1])
    ensures forall k :: 0 <= k < |SplitFrom(t, start, i).gaps| ==>
              SplitFrom(t, start, i).gaps[k] != [] && AllSpace(SplitFrom(t, start, i).gaps[k])
    decreases |t| - i
  {
    var s := SplitFrom(t, start, i);
    if i == |t| {
    } else if CutsAt(t, i) {
      var e := RunEnd(t, i);
      SplitFromGapsSpace(t, e, e);
      var rest := SplitFrom(t, e, e);
      assert s.gaps == [t[i..e]] + rest.gaps;
      forall k | 0 <= k < |s.gaps| ensures s.gaps[k] != [] && AllSpace(s.gaps[k]) {
        if k > 0 {
          assert s.gaps[k] == rest.gaps[k - 1];
        }
      }
    } else {
      assert s == SplitFrom(t, start, i + 1);
      SplitFromGapsSpace(t, start, i + 1);
    }
  }

  /** Every piece followed by a gap is non-empty and ends in a terminator. */
  lemma {:induction false} SplitFromPiecesEnd(t: string, start: nat, i: nat)
    requires start <= i <= |t|
    requires start == 0 || IsSpace(t[start - 1])
    ensures forall k :: 0 <= k < |SplitFrom(t, start, i).gaps| ==>
              var piece := SplitFrom(t, start, i).pieces[k];
              piece != [] && IsTerminator(piece[|piece| - 1])
    decreases |t| - i
  {
    var s := SplitFrom(t, start, i);
    if i == |t| {
    } else if CutsAt(t, i) {
      var e := RunEnd(t, i);
      SplitFromPiecesEnd(t, e, e);
      var rest := SplitFrom(t, e, e);
      assert s.pieces == [t[start..i]] + rest.pieces && s.gaps == [t[i..e]] + rest.gaps;
      forall k | 0 <= k < |s.gaps| ensures s.pieces[k] != [] && IsTerminator(s.pieces[k][|s.pieces[k]| - 1]) {
        if k > 0 {
          assert s.pieces[k] == rest.pieces[k - 1];
        }
      }
    } else {
      assert s == SplitFrom(t, start, i + 1);
      SplitFromPiecesEnd(t, start, i + 1);
    }
  }

  /** Every piece after the first that is not empty starts with a non-space. */
  lemma {:induction false} SplitFromPiecesStart(t: string, start: nat, i: nat)
    requires start <= i <= |t|
    requires start == 0 || IsSpace(t[start - 1])
    ensures forall k :: 0 < k < |SplitFrom(t, start, i).pieces| && SplitFrom(t, start, i).pieces[k] != [] ==>
              !IsSpace(SplitFrom(t, start, i).pieces[k][0])
    decreases |t| - i
  {
    var s := SplitFrom(t, start, i);
    if i == |t| {
    } else if CutsAt(t, i) {
      var e := RunEnd(t, i);
      SplitFromPiecesStart(t, e, e);
      SplitFromEnds(t, e, e);
      var rest := SplitFrom(t, e, e);
      assert s.pieces == [t[start..i]] + rest.pieces;
      forall k | 0 < k < |s.pieces| && s.pieces[k] != [] ensures !IsSpace(s.pieces[k][0]) {
        assert s.pieces[k] == rest.pieces[k - 1];
        if k == 1 {
          assert rest.pieces[0][0] == t[e..][0] == t[e];
        }
      }
    } else {
      assert s == SplitFrom(t, start, i + 1);
      SplitFromPiecesStart(t, start, i + 1);
    }
  }

  /** No piece holds a place where the pattern could have matched. */
  lemma {:induction false} SplitFromNoCut(t: string, start: nat, i: nat)
    requires start <= i <= |t|
    requires start == 0 || IsSpace(t[start - 1])
    requires forall p :: start < p < i ==> !CutsAt(t, p)
    ensures forall k :: 0 <= k < |SplitFrom(t, start, i).pieces| ==>
              NoCutInside(SplitFrom(t, start, i).pieces[k])
    decreases |t| - i
  {
    var s := SplitFrom(t, start, i);
    if i == |t| {
      var piece := t[start..];
      forall j | 0 < j < |piece| ensures !(IsTerminator(piece[j - 1]) && IsSpace(piece[j])) {
        assert !CutsAt(t, start + j);
      }
    } else if CutsAt(t, i) {
      var e := RunEnd(t, i);
      SplitFromNoCut(t, e, e);
      var rest := SplitFrom(t, e, e);
      var piece := t[start..i];
      forall j | 0 < j < |piece| ensures !(IsTerminator(piece[j - 1]) && IsSpace(piece[j])) {
        assert !CutsAt(t, start + j);
      }
      assert s.pieces == [piece] + rest.pieces;
      assert forall k :: 0 < k < |s.pieces| ==> s.pieces[k] == rest.pieces[k - 1];
    } else {
      assert s == SplitFrom(t, start, i + 1);
      SplitFromNoCut(t, start, i + 1);
    }
  }

  /** The split of the stripped text. */
  function SentenceSplit(text: string): Split {
    SplitFrom(Strip(text), 0, 0)
  }

  /** split_sentences(text). */
  function SplitSentences(text: string): seq<string> {
    SentenceSplit(text).pieces
  }

  /** At least one piece comes back; an all-whitespace text gives the single empty
      piece; every piece but the last ends in '.', '!' or '?'; and no piece holds a
      place where the pattern could have matched. */
  lemma SplitSentencesShape(text: string)
    ensures |SplitSentences(text)| >= 1
    ensures AllSpace(text) ==> SplitSentences(text) == [""]
    ensures forall k :: 0 <= k < |SplitSentences(text)| - 1 ==>
              SplitSentences(text)[k] != []
              && IsTerminator(SplitSentences(text)[k][|SplitSentences(text)[k]| - 1])
    ensures forall k :: 0 <= k < |SplitSentences(text)| ==> NoCutInside(SplitSentences(text)[k])
  {
    var t := Strip(text);
    SplitFromPiecesEnd(t, 0, 0);
    SplitFromNoCut(t, 0, 0);
  }

  /** When the text is not all whitespace, every piece is non-empty and carries no
      whitespace at either end. */
  lemma SplitSentencesTrimmed(text: string)
    requires !AllSpace(text)
    ensures forall k :: 0 <= k < |SplitSentences(text)| ==>
              SplitSentences(text)[k] != []
              && !IsSpace(SplitSentences(text)[k][0])
              && !IsSpace(SplitSentences(text)[k][|SplitSentences(text)[k]| - 1])
  {
    var t := Strip(text);
    var r := SplitSentences(text);
    SplitFromEnds(t, 0, 0);
    SplitFromPiecesEnd(t, 0, 0);
    SplitFromPiecesStart(t, 0, 0);
    forall k | 0 <= k < |r| ensures r[k] != [] && !IsSpace(r[k][0]) && !IsSpace(r[k][|r[k]| - 1]) {
      if k < |r| - 1 {
        assert IsTerminator(r[k][|r[k]| - 1]);
      } else {
        assert r[k] != [] && r[k][|r[k]| - 1] == t[|t| - 1];
      }
      if k == 0 {
        assert r[0][0] == t[0];
      }
    }
  }

  /** The whitespace runs split_sentences removes, in order. */
  function SentenceGaps(text: string): seq<string> {
    SentenceSplit(text).gaps
  }

  /** Putting each removed whitespace run back between consecutive pieces gives the
      stripped text exactly; each run is a non-empty whitespace run that follows a
      terminator and is followed by a non-space character. */
  lemma {:induction false} SplitRejoins(text: string)
    ensures |SplitSentences(text)| == |SentenceGaps(text)| + 1
    ensures Rejoin(SplitSentences(text), SentenceGaps(text)) == Strip(text)
    ensures forall k :: 0 <= k < |SentenceGaps(text)| ==>
              SentenceGaps(text)[k] != [] && AllSpace(SentenceGaps(text)[k])
              && SplitSentences(text)[k + 1] != [] && !IsSpace(SplitSentences(text)[k + 1][0])
  {
    var t := Strip(text);
    SplitFromRejoins(t, 0, 0);
    SplitFromGapsSpace(t, 0, 0);
    if !AllSpace(text) {
      SplitSentencesTrimmed(text);
    }
    assert t[0..] == t;
  }
}
