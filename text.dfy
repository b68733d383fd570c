/** The string operations of Python that the core relies on: whitespace
    splitting (str.split() with no separator), str.replace, and the
    comparisons SQL makes on text (ORDER BY name, ILIKE). */
module Text {

  /** Python's str.isspace() for the characters below U+0100. */
  predicate IsSpace(c: char)
  {
    c == ' ' || '\t' <= c <= '\r' || '\U{1C}' <= c <= '\U{1F}' || c == '\U{85}' || c == '\U{A0}'
  }

  predicate AllSpace(s: string)
  {
    forall i :: 0 <= i < |s| ==> IsSpace(s[i])
  }

  predicate NoSpace(s: string)
  {
    forall i :: 0 <= i < |s| ==> !IsSpace(s[i])
  }

  /** The length of the run of non-whitespace characters that starts `s`. */
  function WordLength(s: string): (n: nat)
    ensures n <= |s|
    ensures NoSpace(s[..n])
    ensures n < |s| ==> IsSpace(s[n])
  {
    if s == [] || IsSpace(s[0]) then 0
    else
      var m := WordLength(s[1..]);
      assert s[..m + 1] == [s[0]] + s[1..][..m];
      1 + m
  }

  /** Python's str.split() with no separator: the maximal runs of
      non-whitespace characters, left to right. */
  function Words(s: string): (ws: seq<string>)
    ensures forall k :: 0 <= k < |ws| ==> ws[k] != [] && NoSpace(ws[k])
    decreases |s|
  {
    if s == [] then []
    else if IsSpace(s[0]) then Words(s[1..])
    else
      var n := WordLength(s);
      [s[..n]] + Words(s[n..])
  }

  /** split() finds no token exactly when the string is blank. */
  lemma {:induction false} WordsEmptyIffBlank(s: string)
    ensures Words(s) == [] <==> AllSpace(s)
    decreases |s|
  {
    if s != [] && IsSpace(s[0]) {
      WordsEmptyIffBlank(s[1..]);
      forall i | 0 < i < |s|
        ensures s[i] == s[1..][i - 1]
      {
      }
    }
  }

  lemma {:induction false} WordLengthOfWord(w: string, rest: string)
    requires NoSpace(w) && (rest == [] || IsSpace(rest[0]))
    ensures WordLength(w + rest) == |w|
    decreases |w|
  {
    if w == [] {
      assert w + rest == rest;
    } else {
      assert (w + rest)[1..] == w[1..] + rest;
      WordLengthOfWord(w[1..], rest);
    }
  }

  /** A word followed by whitespace or the end is split off as one token. */
  lemma WordsOfWordThen(w: string, rest: string)
    requires w != [] && NoSpace(w) && (rest == [] || IsSpace(rest[0]))
    ensures Words(w + rest) == [w] + Words(rest)
  {
    WordLengthOfWord(w, rest);
    assert (w + rest)[..|w|] == w;
    assert (w + rest)[|w|..] == rest;
  }

  /** `w` sits at `k` in `s` as the first token: only whitespace before it,
      whitespace or the end after it. */
  predicate FirstRunAt(s: string, w: string, k: nat)
  {
    k + |w| <= |s| && AllSpace(s[..k]) && s[k..k + |w|] == w && (k + |w| == |s| || IsSpace(s[k + |w|]))
  }

  /** `w` sits at `k` in `s` as the last token: the start or whitespace
      before it, only whitespace after it. */
  predicate LastRunAt(s: string, w: string, k: nat)
  {
    k + |w| <= |s| && (k == 0 || IsSpace(s[k - 1])) && s[k..k + |w|] == w && AllSpace(s[k + |w|..])
  }

  /** The first token is the run of non-whitespace characters that follows
      the leading whitespace. */
  lemma {:induction false} FirstWordIsFirstRun(s: string)
    requires Words(s) != []
    ensures exists k: nat :: FirstRunAt(s, Words(s)[0], k)
    decreases |s|
  {
    var w := Words(s)[0];
    if IsSpace(s[0]) {
      var t := s[1..];
      FirstWordIsFirstRun(t);
      var k: nat :| FirstRunAt(t, w, k);
      assert s[..k + 1] == [s[0]] + t[..k];
      assert s[k + 1..k + 1 + |w|] == t[k..k + |w|];
      assert FirstRunAt(s, w, k + 1);
    } else {
      var n := WordLength(s);
      assert w == s[..n];
      assert s[..0] == [];
      assert FirstRunAt(s, w, 0);
    }
  }

  function Last(ws: seq<string>): string
    requires ws != []
  {
    ws[|ws| - 1]
  }

  lemma LastRunInSuffix(s: string, n: nat, w: string, k: nat)
    requires n <= |s| && LastRunAt(s[n..], w, k)
    requires k > 0 || n == 0 || IsSpace(s[n - 1])
    ensures LastRunAt(s, w, n + k)
  {
    var t := s[n..];
    assert k > 0 ==> s[n + k - 1] == t[k - 1];
    assert s[n + k..n + k + |w|] == t[k..k + |w|];
    assert s[n + k + |w|..] == t[k + |w|..];
  }

  /** The last token is a run of non-whitespace characters that starts the
      string or follows whitespace, and only whitespace comes after it. */
  lemma {:induction false} LastWordIsLastRun(s: string)
    requires Words(s) != []
    ensures exists k: nat :: LastRunAt(s, Last(Words(s)), k)
    decreases |s|
  {
    var w := Last(Words(s));
    if IsSpace(s[0]) {
      LastWordIsLastRun(s[1..]);
      var k: nat :| LastRunAt(s[1..], w, k);
      LastRunInSuffix(s, 1, w, k);
    } else {
      var n := WordLength(s);
      var t := s[n..];
      if Words(t) == [] {
        WordsEmptyIffBlank(t);
        assert LastRunAt(s, w, 0);
      } else {
        LastWordIsLastRun(t);
        assert w == Last(Words(t));
        var k: nat :| LastRunAt(t, w, k);
        assert k != 0 by {
          assert w != [] && NoSpace(w) && IsSpace(t[0]);
        }
        LastRunInSuffix(s, n, w, k);
      }
    }
  }

  /** `pat` appears somewhere in `s`. */
  predicate Occurs(s: string, pat: string)
  {
    exists i: nat :: i <= |s| && OccursAt(s, pat, i)
  }

  predicate OccursAt(s: string, pat: string, i: nat)
  {
    i + |pat| <= |s| && s[i..i + |pat|] == pat
  }

  /** Python's str.replace(pat, rep): every non-overlapping occurrence of
      `pat`, found scanning left to right, is replaced by `rep`. */
  function ReplaceAll(s: string, pat: string, rep: string): string
    requires pat != []
    decreases |s|
  {
    if |s| < |pat| then s
    else if s[..|pat|] == pat then rep + ReplaceAll(s[|pat|..], pat, rep)
    else [s[0]] + ReplaceAll(s[1..], pat, rep)
  }

  /** Replacing a pattern that does not occur leaves the string unchanged. */
  lemma {:induction false} ReplaceAbsent(s: string, pat: string, rep: string)
    requires pat != [] && !Occurs(s, pat)
    ensures ReplaceAll(s, pat, rep) == s
    decreases |s|
  {
    if |s| >= |pat| {
      assert !OccursAt(s, pat, 0);
      assert s[0..0 + |pat|] == s[..|pat|];
      forall i: nat
        ensures !OccursAt(s[1..], pat, i)
      {
        assert !OccursAt(s, pat, i + 1);
        if i + |pat| <= |s[1..]| {
          assert s[1..][i..i + |pat|] == s[i + 1..i + 1 + |pat|];
        }
      }
      ReplaceAbsent(s[1..], pat, rep);
      assert s == [s[0]] + s[1..];
    }
  }

  /** Python's str.split(pat): the pieces of `s` between the non-overlapping
      occurrences of `pat`, always at least one piece. */
  function SplitOn(s: string, pat: string): (pieces: seq<string>)
    requires pat != []
    ensures |pieces| >= 1
    decreases |s|
  {
    if |s| < |pat| then [s]
    else if s[..|pat|] == pat then [[]] + SplitOn(s[|pat|..], pat)
    else
      var rest := SplitOn(s[1..], pat);
      [[s[0]] + rest[0]] + rest[1..]
  }

  /** Python's sep.join(pieces). */
  function Join(pieces: seq<string>, sep: string): string
  {
    if pieces == [] then []
    else if |pieces| == 1 then pieces[0]
    else pieces[0] + sep + Join(pieces[1..], sep)
  }

  lemma JoinCons(head: string, tail: seq<string>, sep: string)
    requires tail != []
    ensures Join([head] + tail, sep) == head + sep + Join(tail, sep)
  {
    assert ([head] + tail)[1..] == tail;
  }

  /** Putting a character in front of the first piece puts it in front of the join. */
  lemma JoinPrependChar(c: char, pieces: seq<string>, sep: string)
    requires pieces != []
    ensures Join([[c] + pieces[0]] + pieces[1..], sep) == [c] + Join(pieces, sep)
  {
    if |pieces| == 1 {
      assert [[c] + pieces[0]] + pieces[1..] == [[c] + pieces[0]];
    } else {
      JoinCons([c] + pieces[0], pieces[1..], sep);
      JoinCons(pieces[0], pieces[1..], sep);
      assert pieces == [pieces[0]] + pieces[1..];
    }
  }

  /** str.replace agrees with its reference definition:
      s.replace(p, r) == r.join(s.split(p)). */
  lemma {:induction false} ReplaceIsJoinOfSplit(s: string, pat: string, rep: string)
    requires pat != []
    ensures ReplaceAll(s, pat, rep) == Join(SplitOn(s, pat), rep)
    decreases |s|
  {
    if |s| >= |pat| {
      if s[..|pat|] == pat {
        ReplaceIsJoinOfSplit(s[|pat|..], pat, rep);
        JoinCons([], SplitOn(s[|pat|..], pat), rep);
      } else {
        ReplaceIsJoinOfSplit(s[1..], pat, rep);
        JoinPrependChar(s[0], SplitOn(s[1..], pat), rep);
      }
    }
  }

  /** Code-point lexicographic order on strings. */
  predicate LexLe(a: string, b: string)
  {
    a == [] || (b != [] && (a[0] < b[0] || (a[0] == b[0] && LexLe(a[1..], b[1..]))))
  }

  lemma {:induction false} LexLeTotal(a: string, b: string)
    ensures LexLe(a, b) || LexLe(b, a)
  {
    if a != [] && b != [] && a[0] == b[0] {
      LexLeTotal(a[1..], b[1..]);
    }
  }

  lemma {:induction false} LexLeTransitive(a: string, b: string, c: string)
    requires LexLe(a, b) && LexLe(b, c)
    ensures LexLe(a, c)
  {
    if a != [] && a[0] == b[0] && b[0] == c[0] {
      LexLeTransitive(a[1..], b[1..], c[1..]);
    }
  }

  function LowerChar(c: char): char
  {
    if 'A' <= c <= 'Z' then (c as int + 32) as char else c
  }

  function Lower(s: string): string
  {
    seq(|s|, i requires 0 <= i < |s| => LowerChar(s[i]))
  }

  /** `needle` occurs in `hay` when both are lower-cased (ASCII folding). */
  predicate ContainsIgnoringCase(hay: string, needle: string)
  {
    Occurs(Lower(hay), Lower(needle))
  }
}
