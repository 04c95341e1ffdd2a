/**
 * The two Python string builtins the builder relies on: `str.split()` with
 * no argument (used to count the words of a reply) and `sep.join(parts)`
 * (used to list key concepts and prior knowledge in a prompt).
 */
module Text {

  /**
   * The characters Python 3's `str.split()` treats as separators: those for
   * which `str.isspace()` holds.
   */
  predicate IsSpace(c: char)
  {
    || c == ' '
    || ('\t' <= c <= '\r')              // tab, line feed, vertical tab, form feed, carriage return
    || ('\U{1C}' <= c <= '\U{1F}')      // file, group, record and unit separators
    || c == '\U{85}' || c == '\U{A0}' || c == '\U{1680}'
    || ('\U{2000}' <= c <= '\U{200A}')
    || c == '\U{2028}' || c == '\U{2029}' || c == '\U{202F}' || c == '\U{205F}' || c == '\U{3000}'
  }

  /** `s` is empty or made of whitespace only. */
  predicate IsBlank(s: string)
  {
    forall i :: 0 <= i < |s| ==> IsSpace(s[i])
  }

  /** A word as `split()` yields it: non-empty, no whitespace. */
  predicate IsWord(w: string)
  {
    w != [] && forall i :: 0 <= i < |w| ==> !IsSpace(w[i])
  }

  /** The concatenation of `parts`, Python's `"".join(parts)`. */
  function Concat(parts: seq<string>): string
  {
    if parts == [] then [] else parts[0] + Concat(parts[1..])
  }

  /** Python's `sep.join(parts)`. */
  function Join(parts: seq<string>, sep: string): string
  {
    if |parts| == 0 then []
    else if |parts| == 1 then parts[0]
    else parts[0] + sep + Join(parts[1..], sep)
  }

  /** The characters of `s` that are not whitespace, in order. */
  function NonSpace(s: string): string
  {
    if s == [] then []
    else (if IsSpace(s[0]) then [] else [s[0]]) + NonSpace(s[1..])
  }

  /** The length of the longest whitespace-free prefix of `s`. */
  function WordLength(s: string): (n: nat)
    ensures n <= |s|
    ensures s != [] && !IsSpace(s[0]) ==> n > 0
  {
    if s == [] || IsSpace(s[0]) then 0 else 1 + WordLength(s[1..])
  }

  /**
   * Python's `s.split()`: the maximal whitespace-free runs of `s`, in order.
   * Leading and trailing whitespace and runs of whitespace produce no empty words.
   */
  function Split(s: string): (words: seq<string>)
    ensures |words| <= |s|
    decreases |s|
  {
    if s == [] then []
    else if IsSpace(s[0]) then Split(s[1..])
    else
      var n := WordLength(s);
      [s[..n]] + Split(s[n..])
  }

  /**
   * The number of words of `s` counted character by character: a
   * non-whitespace character starts a word when it opens the text or follows
   * whitespace (`afterSpace` says whether the text before `s` ended in
   * whitespace or is empty).
   */
  function WordStarts(s: string, afterSpace: bool): nat
    decreases |s|
  {
    if s == [] then 0
    else if IsSpace(s[0]) then WordStarts(s[1..], true)
    else (if afterSpace then 1 else 0) + WordStarts(s[1..], false)
  }

  /** `len(s.split())`. */
  function WordCount(s: string): (n: nat)
    ensures n <= |s|
  {
    |Split(s)|
  }

  /** Splitting `parts` at index `k` splits their concatenation accordingly. */
  lemma {:induction false} ConcatAt(parts: seq<string>, k: nat)
    requires k < |parts|
    ensures Concat(parts) == Concat(parts[..k]) + parts[k] + Concat(parts[k + 1..])
  {
    if k > 0 {
      ConcatAt(parts[1..], k - 1);
      assert parts[1..][..k - 1] == parts[1..k];
      assert parts[1..][k - 1 + 1..] == parts[k + 1..];
      assert parts[..k][1..] == parts[1..k];
    }
  }

  /** Concatenation distributes over appending lists of parts. */
  lemma {:induction false} ConcatAppend(a: seq<string>, b: seq<string>)
    ensures Concat(a + b) == Concat(a) + Concat(b)
  {
    if a == [] {
      assert a + b == b;
    } else {
      assert (a + b)[0] == a[0];
      assert (a + b)[1..] == a[1..] + b;
      ConcatAppend(a[1..], b);
    }
  }

  /** `t` occurs in `s` as a contiguous piece. */
  ghost predicate IsInfix(t: string, s: string)
  {
    exists i :: OccursAt(t, s, i)
  }

  /** `t` occurs in `s` starting at index `i`. */
  predicate OccursAt(t: string, s: string, i: int)
  {
    0 <= i <= |s| - |t| && s[i..i + |t|] == t
  }

  /** Every part occurs in the concatenation of the parts. */
  lemma PartIsInfix(parts: seq<string>, k: nat)
    requires k < |parts|
    ensures IsInfix(parts[k], Concat(parts))
  {
    ConcatAt(parts, k);
    var i := |Concat(parts[..k])|;
    assert OccursAt(parts[k], Concat(parts), i);
  }

  /** Every part occurs in the joined string. */
  lemma {:induction false} JoinedPartIsInfix(parts: seq<string>, sep: string, k: nat)
    requires k < |parts|
    ensures IsInfix(parts[k], Join(parts, sep))
  {
    var s := Join(parts, sep);
    if |parts| == 1 {
      assert s[0..|parts[0]|] == parts[0];
      assert OccursAt(parts[k], s, 0);
    } else if k == 0 {
      assert s == parts[0] + (sep + Join(parts[1..], sep));
      assert s[0..|parts[0]|] == parts[0];
      assert OccursAt(parts[k], s, 0);
    } else {
      JoinedPartIsInfix(parts[1..], sep, k - 1);
      var rest := Join(parts[1..], sep);
      var j :| OccursAt(parts[1..][k - 1], rest, j);
      var off := |parts[0] + sep|;
      assert s == (parts[0] + sep) + rest;
      assert s[off + j..off + j + |parts[k]|] == rest[j..j + |parts[k]|];
      assert OccursAt(parts[k], s, off + j);
    }
  }

  /** Joining one more part appends the separator and that part. */
  lemma {:induction false} JoinAppend(parts: seq<string>, p: string, sep: string)
    requires parts != []
    ensures Join(parts + [p], sep) == Join(parts, sep) + sep + p
  {
    var all := parts + [p];
    assert all[0] == parts[0];
    if |parts| > 1 {
      assert all[1..] == parts[1..] + [p];
      JoinAppend(parts[1..], p, sep);
    } else {
      assert all[1..] == [p];
    }
  }

  /** The length of a joined string: the parts plus one separator between each two. */
  lemma {:induction false} JoinLength(parts: seq<string>, sep: string)
    requires parts != []
    ensures |Join(parts, sep)| == |Concat(parts)| + (|parts| - 1) * |sep|
  {
    if |parts| > 1 {
      JoinLength(parts[1..], sep);
    }
  }

  lemma {:induction false} NonSpaceAppend(a: string, b: string)
    ensures NonSpace(a + b) == NonSpace(a) + NonSpace(b)
  {
    if a == [] {
      assert a + b == b;
    } else {
      assert (a + b)[0] == a[0];
      assert (a + b)[1..] == a[1..] + b;
      NonSpaceAppend(a[1..], b);
    }
  }

  lemma {:induction false} NonSpaceOfWord(w: string)
    requires forall i :: 0 <= i < |w| ==> !IsSpace(w[i])
    ensures NonSpace(w) == w
  {
    if w != [] {
      NonSpaceOfWord(w[1..]);
    }
  }

  /** The prefix `WordLength` measures is whitespace-free and ends at whitespace or at the end. */
  lemma {:induction false} WordLengthIsWord(s: string)
    ensures forall i :: 0 <= i < WordLength(s) ==> !IsSpace(s[i])
    ensures WordLength(s) == |s| || IsSpace(s[WordLength(s)])
  {
    if s != [] && !IsSpace(s[0]) {
      WordLengthIsWord(s[1..]);
      forall i | 0 < i < WordLength(s) ensures !IsSpace(s[i]) {
        assert s[i] == s[1..][i - 1];
      }
    }
  }

  /** Every piece `split()` yields is a word. */
  lemma {:induction false} SplitYieldsWords(s: string)
    ensures forall i :: 0 <= i < |Split(s)| ==> IsWord(Split(s)[i])
    decreases |s|
  {
    if s != [] {
      if IsSpace(s[0]) {
        SplitYieldsWords(s[1..]);
      } else {
        var n := WordLength(s);
        WordLengthIsWord(s);
        SplitYieldsWords(s[n..]);
        assert IsWord(s[..n]);
      }
    }
  }

  /** `split()` yields nothing exactly when the text is blank. */
  lemma {:induction false} SplitEmptyIffBlank(s: string)
    ensures Split(s) == [] <==> IsBlank(s)
    decreases |s|
  {
    if s != [] && IsSpace(s[0]) {
      SplitEmptyIffBlank(s[1..]);
      if IsBlank(s[1..]) {
        forall i | 0 < i < |s| ensures IsSpace(s[i]) {
          assert s[i] == s[1..][i - 1];
        }
      }
    }
  }

  /**
   * Splitting loses exactly the whitespace: the words, put back together,
   * are the non-whitespace characters of `s` in their original order.
   */
  lemma {:induction false} SplitKeepsText(s: string)
    ensures Concat(Split(s)) == NonSpace(s)
    decreases |s|
  {
    if s != [] {
      if IsSpace(s[0]) {
        SplitKeepsText(s[1..]);
      } else {
        var n := WordLength(s);
        var w, rest := s[..n], Split(s[n..]);
        SplitKeepsText(s[n..]);
        WordLengthIsWord(s);
        assert s == w + s[n..];
        NonSpaceAppend(w, s[n..]);
        NonSpaceOfWord(w);
        assert ([w] + rest)[0] == w && ([w] + rest)[1..] == rest;
      }
    }
  }

  lemma {:induction false} WordLengthOfWordThenSpace(w: string, rest: string)
    requires forall i :: 0 <= i < |w| ==> !IsSpace(w[i])
    requires rest != [] && IsSpace(rest[0])
    ensures WordLength(w + rest) == |w|
  {
    if w != [] {
      assert (w + rest)[1..] == w[1..] + rest;
      WordLengthOfWordThenSpace(w[1..], rest);
    }
  }

  lemma {:induction false} WordLengthOfWord(w: string)
    requires forall i :: 0 <= i < |w| ==> !IsSpace(w[i])
    ensures WordLength(w) == |w|
  {
    if w != [] {
      WordLengthOfWord(w[1..]);
    }
  }

  /** A single word splits into itself. */
  lemma SplitOfWord(w: string)
    requires IsWord(w)
    ensures Split(w) == [w]
  {
    WordLengthOfWord(w);
    assert w[..|w|] == w;
    assert w[|w|..] == [];
  }

  /** A word followed by a space comes out first, then the words of what follows. */
  lemma SplitWordThenSpace(w: string, rest: string)
    requires IsWord(w)
    ensures Split(w + " " + rest) == [w] + Split(rest)
  {
    var s := w + (" " + rest);
    assert w + " " + rest == s;
    WordLengthOfWordThenSpace(w, " " + rest);
    assert s[0] == w[0];
    assert s[..|w|] == w;
    assert s[|w|..] == " " + rest;
    assert (" " + rest)[1..] == rest;
  }

  /** Round trip: words joined by single spaces split back into the same words. */
  lemma {:induction false} SplitJoin(words: seq<string>)
    requires forall i :: 0 <= i < |words| ==> IsWord(words[i])
    ensures Split(Join(words, " ")) == words
  {
    if |words| == 1 {
      assert Join(words, " ") == words[0];
      SplitOfWord(words[0]);
    } else if |words| > 1 {
      var w, ws := words[0], words[1..];
      assert words == [w] + ws;
      assert Join(words, " ") == w + " " + Join(ws, " ");
      assert IsWord(w);
      SplitWordThenSpace(w, Join(ws, " "));
      assert forall i :: 0 <= i < |ws| ==> IsWord(ws[i]) by {
        forall i | 0 <= i < |ws| ensures IsWord(ws[i]) { assert ws[i] == words[i + 1]; }
      }
      SplitJoin(ws);
    }
  }

  /** A prefix that stops at whitespace keeps its word length whatever follows. */
  lemma {:induction false} WordLengthAppend(a: string, t: string)
    requires WordLength(a) < |a|
    ensures WordLength(a + t) == WordLength(a)
  {
    if !IsSpace(a[0]) {
      assert (a + t)[1..] == a[1..] + t;
      WordLengthAppend(a[1..], t);
    }
  }

  /** `split()` skips whitespace at the front. */
  lemma SplitAfterSpace(s: string)
    requires s != [] && IsSpace(s[0])
    ensures Split(s) == Split(s[1..])
  {
  }

  /** `split()` takes the word at the front, then splits what follows it. */
  lemma SplitAfterWord(s: string)
    requires s != [] && !IsSpace(s[0])
    ensures Split(s) == [s[..WordLength(s)]] + Split(s[WordLength(s)..])
  {
  }

  /**
   * Every whitespace character separates: the words around it are split
   * independently. With `Split([]) == []` and `SplitOfWord` this determines
   * `Split` on every string, so the words are the maximal whitespace-free runs.
   */
  lemma SplitAtSpace(a: string, c: char, b: string)
    requires IsSpace(c)
    ensures Split(a + [c] + b) == Split(a) + Split(b)
  {
    assert a + [c] + b == a + ([c] + b);
    assert ([c] + b)[1..] == b;
    SplitBeforeSpace(a, [c] + b);
  }

  /** What precedes a whitespace character is split on its own. */
  lemma {:induction false} SplitBeforeSpace(a: string, t: string)
    requires t != [] && IsSpace(t[0])
    ensures Split(a + t) == Split(a) + Split(t[1..])
    decreases |a|
  {
    if a == [] {
      assert a + t == t;
      SplitAfterSpace(t);
    } else if IsSpace(a[0]) {
      assert (a + t)[1..] == a[1..] + t;
      SplitAfterSpace(a + t);
      SplitAfterSpace(a);
      SplitBeforeSpace(a[1..], t);
    } else if WordLength(a) < |a| {
      SplitBeforeSpaceAfterWord(a, t);
    } else {
      SplitBeforeSpaceEndingWord(a, t);
    }
  }

  /** `SplitBeforeSpace` when `a` starts with a word that ends inside `a`. */
  lemma {:induction false} SplitBeforeSpaceAfterWord(a: string, t: string)
    requires t != [] && IsSpace(t[0])
    requires a != [] && !IsSpace(a[0]) && WordLength(a) < |a|
    ensures Split(a + t) == Split(a) + Split(t[1..])
    decreases |a|, 0
  {
    var m := WordLength(a);
    WordLengthAppend(a, t);
    assert (a + t)[..m] == a[..m];
    assert (a + t)[m..] == a[m..] + t;
    SplitAfterWord(a + t);
    SplitAfterWord(a);
    SplitBeforeSpace(a[m..], t);
  }

  /** `SplitBeforeSpace` when all of `a` is one word. */
  lemma {:induction false} SplitBeforeSpaceEndingWord(a: string, t: string)
    requires t != [] && IsSpace(t[0])
    requires a != [] && !IsSpace(a[0]) && WordLength(a) == |a|
    ensures Split(a + t) == Split(a) + Split(t[1..])
  {
    WordLengthIsWord(a);
    assert IsWord(a);
    SplitOfWord(a);
    WordLengthOfWordThenSpace(a, t);
    assert (a + t)[..|a|] == a && (a + t)[|a|..] == t;
    SplitAfterWord(a + t);
    SplitAfterSpace(t);
  }

  /** Inside a word no new word starts until the next whitespace. */
  lemma {:induction false} InsideWord(s: string)
    ensures WordStarts(s, false) == WordStarts(s[WordLength(s)..], true)
    decreases |s|
  {
    if s != [] && !IsSpace(s[0]) {
      InsideWord(s[1..]);
      assert s[1..][WordLength(s[1..])..] == s[WordLength(s)..];
    }
  }

  /** `len(s.split())` is the number of places where a word starts. */
  lemma {:induction false} WordCountIsWordStarts(s: string)
    ensures WordCount(s) == WordStarts(s, true)
    decreases |s|
  {
    if s != [] {
      if IsSpace(s[0]) {
        WordCountIsWordStarts(s[1..]);
      } else {
        var n := WordLength(s);
        InsideWord(s[1..]);
        assert s[1..][WordLength(s[1..])..] == s[n..];
        WordCountIsWordStarts(s[n..]);
      }
    }
  }
}
