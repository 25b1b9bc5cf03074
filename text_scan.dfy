/**
 * The string primitives the analyser relies on, written out for the
 * cases it uses: `toLowerCase()`, `split(/\s+/)`, `trim()` and
 * `match(new RegExp(word, 'g'))` for a word made of plain letters.
 * Texts are taken to hold characters of the Basic Multilingual Plane, so a
 * `char` here is one UTF-16 code unit of a JavaScript string.
 */
module TextScan {

  /** The characters that `\s` matches and that `trim()` removes:
      ECMAScript WhiteSpace and LineTerminator. */
  predicate IsSpace(c: char) {
    c == ' ' || c == '\t' || c == '\n' || c == '\r' || c == '\U{0B}' || c == '\U{0C}' ||
    c == '\U{A0}' || c == '\U{1680}' || ('\U{2000}' <= c <= '\U{200A}') ||
    c == '\U{2028}' || c == '\U{2029}' || c == '\U{202F}' || c == '\U{205F}' ||
    c == '\U{3000}' || c == '\U{FEFF}'
  }

  predicate IsUpper(c: char) {
    'A' <= c <= 'Z'
  }

  function LowerChar(c: char): (d: char)
    ensures !IsUpper(d)
    ensures IsUpper(c) ==> d as int == c as int + 32
    ensures !IsUpper(c) ==> d == c
  {
    if IsUpper(c) then (c as int + 32) as char else c
  }

  /** `s.toLowerCase()` on the ASCII letters. */
  function Lower(s: string): (r: string)
    ensures |r| == |s|
    ensures forall i :: 0 <= i < |r| ==> !IsUpper(r[i])
    ensures forall i :: 0 <= i < |r| && !IsUpper(s[i]) ==> r[i] == s[i]
    ensures forall i :: 0 <= i < |s| && IsUpper(s[i]) ==> r[i] as int == s[i] as int + 32
  {
    seq(|s|, i requires 0 <= i < |s| => LowerChar(s[i]))
  }

  // ---------------------------------------------------------------------
  // split(/\s+/)

  /** `s.split(/\s+/)`: the pieces between maximal whitespace runs. A run at
      the start or the end of `s` yields an empty piece there, and the empty
      string splits into one empty piece. */
  function Split(s: string): (pieces: seq<string>)
    ensures |pieces| >= 1
    decreases |s|
  {
    if s == [] then [[]]
    else
      var rest := Split(s[1..]);
      if !IsSpace(s[0]) then [[s[0]] + rest[0]] + rest[1..]
      else if |s| > 1 && IsSpace(s[1]) then rest   // the run goes on
      else [[]] + rest                              // the run ends here
  }

  /** `s[i]` is the last character of a maximal whitespace run. */
  predicate RunEnd(s: string, i: int) {
    0 <= i < |s| && IsSpace(s[i]) && (i + 1 == |s| || !IsSpace(s[i + 1]))
  }

  /** The number of maximal whitespace runs in `s`, counted by their ends. */
  function WhitespaceRuns(s: string): nat
    decreases |s|
  {
    if s == [] then 0
    else (if RunEnd(s, 0) then 1 else 0) + WhitespaceRuns(s[1..])
  }

  /** The characters of `s` that are not whitespace, in order. */
  function NonSpace(s: string): string
    decreases |s|
  {
    if s == [] then []
    else if IsSpace(s[0]) then NonSpace(s[1..])
    else [s[0]] + NonSpace(s[1..])
  }

  function Concat(pieces: seq<string>): string
    decreases |pieces|
  {
    if pieces == [] then [] else pieces[0] + Concat(pieces[1..])
  }

  /** Splitting yields one piece more than there are whitespace runs. */
  lemma {:induction false} SplitCount(s: string)
    ensures |Split(s)| == WhitespaceRuns(s) + 1
    decreases |s|
  {
    if s != [] {
      SplitCount(s[1..]);
    }
  }

  predicate NoSpaceIn(piece: string) {
    forall j :: 0 <= j < |piece| ==> !IsSpace(piece[j])
  }

  /** No piece holds whitespace. */
  lemma {:induction false} SplitPiecesNoSpace(s: string)
    ensures forall k :: 0 <= k < |Split(s)| ==> NoSpaceIn(Split(s)[k])
    decreases |s|
  {
    if s != [] {
      var rest := Split(s[1..]);
      SplitPiecesNoSpace(s[1..]);
      var p := Split(s);
      if !IsSpace(s[0]) {
        assert p[0] == [s[0]] + rest[0];
        assert NoSpaceIn(p[0]);
        assert forall k :: 1 <= k < |p| ==> p[k] == rest[k];
      } else if !(|s| > 1 && IsSpace(s[1])) {
        assert forall k :: 1 <= k < |p| ==> p[k] == rest[k - 1];
      }
    }
  }

  /** The pieces put together are exactly the non-whitespace characters of
      `s`, in order. */
  lemma {:induction false} SplitConcat(s: string)
    ensures Concat(Split(s)) == NonSpace(s)
    decreases |s|
  {
    if s != [] {
      var rest := Split(s[1..]);
      SplitConcat(s[1..]);
      if !IsSpace(s[0]) {
        var p := Split(s);
        assert rest == [rest[0]] + rest[1..];
        assert Concat(rest) == rest[0] + Concat(rest[1..]);
        assert p[1..] == rest[1..];
        assert Concat(p) == [s[0]] + rest[0] + Concat(rest[1..]);
      } else if !(|s| > 1 && IsSpace(s[1])) {
        assert Split(s)[1..] == rest;
      }
    }
  }

  // ---------------------------------------------------------------------
  // trim()

  function TrimStart(s: string): (r: string)
    ensures |r| <= |s| && r == s[|s| - |r|..]
    ensures r != [] ==> !IsSpace(r[0])
    ensures AllSpace(s[..|s| - |r|])
    decreases |s|
  {
    if s != [] && IsSpace(s[0]) then
      var r := TrimStart(s[1..]);
      assert s[..|s| - |r|] == [s[0]] + s[1..][..|s| - 1 - |r|];
      r
    else s
  }

  function TrimEnd(s: string): (r: string)
    ensures |r| <= |s| && r == s[..|r|]
    ensures r != [] ==> !IsSpace(r[|r| - 1])
    ensures AllSpace(s[|r|..])
    decreases |s|
  {
    if s != [] && IsSpace(s[|s| - 1]) then
      var r := TrimEnd(s[..|s| - 1]);
      assert s[|r|..] == s[..|s| - 1][|r|..] + [s[|s| - 1]];
      r
    else s
  }

  /** `s` is `r` at index `k` with only whitespace before and after it. */
  predicate PaddedAt(s: string, r: string, k: int) {
    OccursAt(s, r, k) && AllSpace(s[..k]) && AllSpace(s[k + |r|..])
  }

  /** `s.trim()`: the piece of `s` left once the whitespace at both ends is
      removed; it neither starts nor ends with whitespace. */
  function Trim(s: string): (r: string)
    ensures |r| <= |s|
    ensures exists k :: PaddedAt(s, r, k)
    ensures r != [] ==> !IsSpace(r[0]) && !IsSpace(r[|r| - 1])
  {
    TrimPadded(s);
    TrimEnd(TrimStart(s))
  }

  /** What `TrimStart` and then `TrimEnd` cut off is whitespace. */
  lemma TrimPadded(s: string)
    ensures PaddedAt(s, TrimEnd(TrimStart(s)), |s| - |TrimStart(s)|)
  {
    var t := TrimStart(s);
    var r := TrimEnd(t);
    var k := |s| - |t|;
    assert s[k..k + |r|] == r;
    assert s[k + |r|..] == t[|r|..];
  }

  /** Every character of `s` is whitespace (`\s`). */
  predicate AllSpace(s: string) {
    forall i :: 0 <= i < |s| ==> IsSpace(s[i])
  }

  /** `s.trim().length === 0` holds exactly when every character is whitespace. */
  lemma TrimEmptyIffBlank(s: string)
    ensures |Trim(s)| == 0 <==> AllSpace(s)
  {
    var t := TrimStart(s);
    if |Trim(s)| == 0 {
      assert t == [];
    }
  }

  // ---------------------------------------------------------------------
  // text.match(new RegExp(word, 'g'))

  /** `w` occurs in `t` at index `i`. */
  predicate OccursAt(t: string, w: string, i: int) {
    0 <= i && i + |w| <= |t| && t[i..i + |w|] == w
  }

  /** The start indices of the matches a global search for the literal `w`
      finds in `t` when it starts at index `from`: it tries each index in
      turn and, after a match, resumes just past it. */
  function MatchesFrom(t: string, w: string, from: nat): (m: seq<nat>)
    requires |w| > 0
    ensures forall k :: 0 <= k < |m| ==> from <= m[k] && m[k] + |w| <= |t|
    decreases |t| - from
  {
    if from + |w| > |t| then []
    else if t[from..from + |w|] == w then [from] + MatchesFrom(t, w, from + |w|)
    else MatchesFrom(t, w, from + 1)
  }

  function Matches(t: string, w: string): seq<nat>
    requires |w| > 0
  {
    MatchesFrom(t, w, 0)
  }

  /** `(t.match(new RegExp(w, 'g')) || []).length`: the matches do not
      overlap, so they fit in the text side by side. */
  function Occurrences(t: string, w: string): (n: nat)
    requires |w| > 0
    ensures n * |w| <= |t|
  {
    MatchesFromBound(t, w, 0);
    |Matches(t, w)|
  }

  /** Each index in `m` is an occurrence of `w` in `t` at or after `from`. */
  predicate AllOccur(t: string, w: string, from: nat, m: seq<nat>) {
    forall k :: 0 <= k < |m| ==> from <= m[k] && OccursAt(t, w, m[k])
  }

  /** The indices in `m` increase and the matches they start do not overlap. */
  predicate NonOverlapping(w: string, m: seq<nat>) {
    forall k :: 0 < k < |m| ==> m[k - 1] + |w| <= m[k]
  }

  /** Every reported match is a real occurrence at or after `from`, and the
      matches come in order without overlapping. */
  lemma {:induction false} MatchesFromSound(t: string, w: string, from: nat)
    requires |w| > 0
    ensures AllOccur(t, w, from, MatchesFrom(t, w, from))
    ensures NonOverlapping(w, MatchesFrom(t, w, from))
    decreases |t| - from
  {
    var m := MatchesFrom(t, w, from);
    if from + |w| <= |t| {
      if t[from..from + |w|] == w {
        MatchesFromSound(t, w, from + |w|);
        var m' := MatchesFrom(t, w, from + |w|);
        assert m == [from] + m';
        assert OccursAt(t, w, from);
        forall k | 0 < k < |m| ensures m[k - 1] + |w| <= m[k] {
          assert m[k] == m'[k - 1];
          if k > 1 { assert m[k - 1] == m'[k - 2]; }
        }
        forall k | 0 <= k < |m| ensures from <= m[k] && OccursAt(t, w, m[k]) {
          if k > 0 { assert m[k] == m'[k - 1]; }
        }
      } else {
        MatchesFromSound(t, w, from + 1);
      }
    }
  }

  /** No occurrence at or after `from` is missed, except one that overlaps a
      match found further left. */
  lemma {:induction false} MatchesFromComplete(t: string, w: string, from: nat, i: int)
    requires |w| > 0
    requires from <= i && OccursAt(t, w, i)
    ensures var m := MatchesFrom(t, w, from);
      i in m || exists k :: 0 <= k < |m| && m[k] < i < m[k] + |w|
    decreases |t| - from
  {
    var m := MatchesFrom(t, w, from);
    if t[from..from + |w|] == w {
      if i >= from + |w| {
        MatchesFromComplete(t, w, from + |w|, i);
        var m' := MatchesFrom(t, w, from + |w|);
        assert m == [from] + m';
        if i !in m' {
          var k :| 0 <= k < |m'| && m'[k] < i < m'[k] + |w|;
          assert m[k + 1] == m'[k];
        }
      } else if i > from {
        assert m[0] == from;
      }
    } else {
      assert i != from;
      MatchesFromComplete(t, w, from + 1, i);
    }
  }

  /** The count is positive exactly when the word occurs somewhere, also
      inside a longer word. */
  lemma OccurrencesPositiveIff(t: string, w: string)
    requires |w| > 0
    ensures Occurrences(t, w) > 0 <==> exists i :: OccursAt(t, w, i)
  {
    var m := Matches(t, w);
    MatchesFromSound(t, w, 0);
    if |m| > 0 {
      assert OccursAt(t, w, m[0]);
    }
    if i :| OccursAt(t, w, i) {
      MatchesFromComplete(t, w, 0, i);
    }
  }

  lemma MulSucc(a: nat, b: nat)
    ensures (a + 1) * b == a * b + b
  {
  }

  /** Non-overlapping matches: there are at most `|t| / |w|` of them. */
  lemma {:induction false} MatchesFromBound(t: string, w: string, from: nat)
    requires |w| > 0 && from <= |t|
    ensures |MatchesFrom(t, w, from)| * |w| <= |t| - from
    decreases |t| - from
  {
    if from + |w| <= |t| {
      if t[from..from + |w|] == w {
        var rest := MatchesFrom(t, w, from + |w|);
        MatchesFromBound(t, w, from + |w|);
        assert |MatchesFrom(t, w, from)| == |rest| + 1;
        MulSucc(|rest|, |w|);
      } else {
        MatchesFromBound(t, w, from + 1);
        assert MatchesFrom(t, w, from) == MatchesFrom(t, w, from + 1);
      }
    } else {
      assert MatchesFrom(t, w, from) == [];
    }
  }

  /** A word embedded in any text is counted at least once. */
  lemma EmbeddedWordCounts(u: string, w: string, v: string)
    requires |w| > 0
    ensures Occurrences(u + w + v, w) >= 1
  {
    var t := u + w + v;
    assert t[|u|..|u| + |w|] == w;
    assert OccursAt(t, w, |u|);
    OccurrencesPositiveIff(t, w);
  }

  /** A pattern is found inside a longer word, and matches never overlap. */
  lemma SubstringMatchExamples()
    ensures Occurrences("madrid", "mad") == 1
    ensures Occurrences("joyful", "joy") == 1
    ensures Occurrences("aaa", "aa") == 1
    ensures Occurrences("aaaa", "aa") == 2
  {
    assert MatchesFrom("madrid", "mad", 4) == [];
    assert "madrid"[3..6] == "rid";
    assert MatchesFrom("madrid", "mad", 3) == [];
    assert MatchesFrom("joyful", "joy", 4) == [];
    assert "joyful"[3..6] == "ful";
    assert MatchesFrom("joyful", "joy", 3) == [];
    assert MatchesFrom("aaa", "aa", 2) == [];
    assert "aaaa"[2..4] == "aa";
    assert MatchesFrom("aaaa", "aa", 4) == [];
    assert MatchesFrom("aaaa", "aa", 2) == [2];
  }
}
