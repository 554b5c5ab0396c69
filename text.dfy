/**
 * The Python string operations the feedback scripts rely on: slicing
 * (`s[:n]`, `s[-n:]`), `str.strip()`, `str.split(sep)` and the substring
 * test `sub in s`.
 */
module Text {

  function Min(a: int, b: int): int
  {
    if a <= b then a else b
  }

  /** `s[:n]`: the first min(|s|, n) elements of `s`. */
  function Take<T>(s: seq<T>, n: nat): (r: seq<T>)
    ensures |r| == Min(|s|, n)
    ensures r == s[..|r|]
  {
    if |s| <= n then s else s[..n]
  }

  /** `s[-n:]` for a positive `n`: the last min(|s|, n) elements of `s`. */
  function TakeLast<T>(s: seq<T>, n: nat): (r: seq<T>)
    requires n > 0
    ensures |r| == Min(|s|, n)
    ensures r == s[|s| - |r|..]
  {
    if |s| <= n then s else s[|s| - n..]
  }

  /** Taking from a concatenation takes the whole first part first. */
  lemma TakeAppend<T>(a: seq<T>, b: seq<T>, n: nat)
    requires |a| <= n
    ensures Take(a + b, n) == a + Take(b, n - |a|)
  {
    assert (a + b)[..|a|] == a;
    if |a + b| > n {
      assert (a + b)[..n] == a + b[..n - |a|];
    }
  }

  // ---------------------------------------------------------------------
  // str.strip()

  /** The characters for which Python's `str.isspace()` holds. */
  predicate IsSpace(c: char)
  {
    || c == ' '
    || '\t' <= c <= '\r'
    || '\U{1C}' <= c <= '\U{1F}'
    || c == '\U{85}' || c == '\U{A0}' || c == '\U{1680}'
    || '\U{2000}' <= c <= '\U{200A}'
    || c == '\U{2028}' || c == '\U{2029}' || c == '\U{202F}' || c == '\U{205F}' || c == '\U{3000}'
  }

  /** Neither end of `s` is whitespace. */
  predicate IsStripped(s: string)
  {
    s == [] || (!IsSpace(s[0]) && !IsSpace(s[|s| - 1]))
  }

  /** `s.lstrip()`: drops the leading whitespace and nothing else. */
  function StripLeft(s: string): (r: string)
    ensures |r| <= |s| && r == s[|s| - |r|..]
    ensures r == [] || !IsSpace(r[0])
    ensures forall i :: 0 <= i < |s| - |r| ==> IsSpace(s[i])
  {
    if s != [] && IsSpace(s[0]) then
      var r := StripLeft(s[1..]);
      assert s[1..][|s| - 1 - |r|..] == s[|s| - |r|..];
      assert forall i :: 1 <= i < |s| - |r| ==> s[i] == s[1..][i - 1];
      r
    else s
  }

  /** `s.rstrip()`: drops the trailing whitespace and nothing else. */
  function StripRight(s: string): (r: string)
    ensures |r| <= |s| && r == s[..|r|]
    ensures r == [] || !IsSpace(r[|r| - 1])
    ensures forall i :: |r| <= i < |s| ==> IsSpace(s[i])
  {
    if s != [] && IsSpace(s[|s| - 1]) then StripRight(s[..|s| - 1]) else s
  }

  /**
   * `s.strip()`: the infix of `s` that starts after its leading whitespace,
   * ends before its trailing whitespace and neither starts nor ends with
   * whitespace itself.
   */
  function Strip(s: string): (r: string)
    ensures IsStripped(r)
    ensures |r| <= |s| && forall c :: c in r ==> c in s
  {
    StripRight(StripLeft(s))
  }

  // ---------------------------------------------------------------------
  // sub in s

  /** `sub` occurs in `s` starting at index `i`. */
  predicate OccursAt(s: string, sub: string, i: nat)
  {
    i + |sub| <= |s| && s[i..i + |sub|] == sub
  }

  /** Python's `sub in s` on strings. */
  predicate Contains(s: string, sub: string)
  {
    exists i: nat :: i <= |s| && OccursAt(s, sub, i)
  }

  /** An occurrence inside an infix of `s` is an occurrence in `s`. */
  lemma OccursInInfix(s: string, part: string, off: nat, sub: string, i: nat)
    requires OccursAt(s, part, off) && OccursAt(part, sub, i)
    ensures OccursAt(s, sub, off + i)
  {
    forall k | 0 <= k < |sub|
      ensures s[off + i + k] == sub[k]
    {
      assert s[off..off + |part|][i + k] == part[i + k];
      assert part[i..i + |sub|][k] == sub[k];
    }
    assert s[off + i..off + i + |sub|] == sub;
  }

  /** An occurrence at or after `lo` is an occurrence in `s[lo..]`. */
  lemma OccursInSuffix(s: string, lo: nat, w: string, i: nat)
    requires lo <= i && OccursAt(s, w, i)
    ensures OccursAt(s[lo..], w, i - lo)
  {
    assert s[lo..][i - lo..i - lo + |w|] == s[i..i + |w|];
  }

  /** An occurrence that ends by `n` is an occurrence in `s[..n]`. */
  lemma OccursInPrefix(s: string, n: nat, w: string, i: nat)
    requires i + |w| <= n <= |s| && OccursAt(s, w, i)
    ensures OccursAt(s[..n], w, i)
  {
    assert s[..n][i..i + |w|] == s[i..i + |w|];
  }

  /** Dropping leading whitespace keeps exactly the occurrences of such a word. */
  lemma StripLeftKeepsWord(s: string, w: string)
    requires w != [] && !IsSpace(w[0])
    ensures Contains(StripLeft(s), w) <==> Contains(s, w)
  {
    if Contains(StripLeft(s), w) {
      StripLeftOccurrence(s, w);
    }
    if Contains(s, w) {
      var i: nat :| i <= |s| && OccursAt(s, w, i);
      StripLeftKeepsOccurrence(s, w, i);
    }
  }

  /** An occurrence in `s.lstrip()` is one in `s`. */
  lemma StripLeftOccurrence(s: string, w: string)
    requires Contains(StripLeft(s), w)
    ensures Contains(s, w)
  {
    var r := StripLeft(s);
    var lo := |s| - |r|;
    var i: nat :| i <= |r| && OccursAt(r, w, i);
    assert OccursAt(s, r, lo) by { assert s[lo..] == s[lo..lo + |r|]; }
    OccursInInfix(s, r, lo, w, i);
  }

  /** An occurrence in `s` of a word that starts with no whitespace survives `lstrip()`. */
  lemma StripLeftKeepsOccurrence(s: string, w: string, i: nat)
    requires w != [] && !IsSpace(w[0]) && OccursAt(s, w, i)
    ensures Contains(StripLeft(s), w)
  {
    var lo := |s| - |StripLeft(s)|;
    assert s[i] == w[0] by { assert s[i] == s[i..i + |w|][0]; }
    OccursInSuffix(s, lo, w, i);
    assert OccursAt(StripLeft(s), w, i - lo);
  }

  /** Dropping trailing whitespace keeps exactly the occurrences of such a word. */
  lemma StripRightKeepsWord(s: string, w: string)
    requires w != [] && !IsSpace(w[|w| - 1])
    ensures Contains(StripRight(s), w) <==> Contains(s, w)
  {
    var r := StripRight(s);
    assert OccursAt(s, r, 0) by { assert s[0..|r|] == s[..|r|]; }
    if Contains(r, w) {
      var i: nat :| i <= |r| && OccursAt(r, w, i);
      OccursInInfix(s, r, 0, w, i);
    }
    if Contains(s, w) {
      var i: nat :| i <= |s| && OccursAt(s, w, i);
      assert s[i + |w| - 1] == s[i..i + |w|][|w| - 1];
      OccursInPrefix(s, |r|, w, i);
    }
  }

  /**
   * Stripping never adds nor removes an occurrence of a word that begins
   * and ends with a non-whitespace character (such as "Error:").
   */
  lemma StripKeepsWord(s: string, w: string)
    requires w != [] && !IsSpace(w[0]) && !IsSpace(w[|w| - 1])
    ensures Contains(Strip(s), w) <==> Contains(s, w)
  {
    StripLeftKeepsWord(s, w);
    StripRightKeepsWord(StripLeft(s), w);
  }

  // ---------------------------------------------------------------------
  // str.split(sep) and sep.join(parts)

  /** The index of the first `c` in `s`, or |s| when there is none. */
  function IndexOf(s: string, c: char): (i: nat)
    ensures i <= |s|
    ensures i < |s| ==> s[i] == c
    ensures c !in s[..i]
  {
    if s == [] || s[0] == c then 0
    else
      var j := IndexOf(s[1..], c);
      assert s[..1 + j] == [s[0]] + s[1..][..j];
      1 + j
  }

  /** `s.split(sep)` for a one-character separator (never an empty list). */
  function Split(s: string, sep: char): (parts: seq<string>)
    ensures |parts| >= 1
    decreases |s|
  {
    var i := IndexOf(s, sep);
    if i == |s| then
      assert s[..i] == s;
      [s]
    else
      [s[..i]] + Split(s[i + 1..], sep)
  }

  /** `sep.join(parts)`. */
  function Join(parts: seq<string>, sep: char): string
  {
    if parts == [] then ""
    else if |parts| == 1 then parts[0]
    else parts[0] + [sep] + Join(parts[1..], sep)
  }

  /** No piece of a split holds the separator. */
  lemma {:induction false} SplitPiecesFree(s: string, sep: char)
    ensures forall k :: 0 <= k < |Split(s, sep)| ==> sep !in Split(s, sep)[k]
    decreases |s|
  {
    var i := IndexOf(s, sep);
    if i == |s| {
      SplitNoSeparator(s, sep);
    } else {
      SplitPiecesFree(s[i + 1..], sep);
      SplitAt(s, sep, i);
      ConsPiecesFree(s[..i], Split(s[i + 1..], sep), sep);
    }
  }

  /** A separator-free piece in front of separator-free pieces. */
  lemma ConsPiecesFree(head: string, tail: seq<string>, sep: char)
    requires sep !in head
    requires forall k :: 0 <= k < |tail| ==> sep !in tail[k]
    ensures forall k :: 0 <= k < |[head] + tail| ==> sep !in ([head] + tail)[k]
  {
    forall k | 0 <= k < |[head] + tail|
      ensures sep !in ([head] + tail)[k]
    {
      if k > 0 {
        assert ([head] + tail)[k] == tail[k - 1];
      }
    }
  }

  /** Joining the pieces of a split gives back the original text. */
  lemma {:induction false} JoinSplit(s: string, sep: char)
    ensures Join(Split(s, sep), sep) == s
    decreases |s|
  {
    var i := IndexOf(s, sep);
    if i < |s| {
      var rest := s[i + 1..];
      var pieces := Split(rest, sep);
      assert Join(pieces, sep) == rest by { JoinSplit(rest, sep); }
      assert Split(s, sep) == [s[..i]] + pieces;
      assert ([s[..i]] + pieces)[1..] == pieces;
      assert s == s[..i] + [sep] + rest;
    } else {
      assert s[..i] == s;
    }
  }

  /** A text without the separator splits into itself alone. */
  lemma SplitNoSeparator(s: string, sep: char)
    requires sep !in s
    ensures Split(s, sep) == [s]
  {
    assert s[..IndexOf(s, sep)] == s[..|s|] == s;
  }

  /** Splitting at the first separator: the piece before it, then the split of the rest. */
  lemma SplitAt(s: string, sep: char, i: nat)
    requires i < |s| && s[i] == sep && sep !in s[..i]
    ensures Split(s, sep) == [s[..i]] + Split(s[i + 1..], sep)
  {
    IndexOfFirst(s, sep, i);
  }

  /** Splitting at a separator splits the two sides independently. */
  lemma {:induction false} SplitConcat(x: string, y: string, sep: char)
    ensures Split(x + [sep] + y, sep) == Split(x, sep) + Split(y, sep)
    decreases |x|
  {
    var i := IndexOf(x, sep);
    if i == |x| {
      assert x[..i] == x;
      SplitConcatFirst(x, y, sep);
    } else {
      SplitConcat(x[i + 1..], y, sep);
      SplitConcatStep(x, y, sep, i);
    }
  }

  /** The case of SplitConcat where the added separator is the first one. */
  lemma SplitConcatFirst(x: string, y: string, sep: char)
    requires sep !in x
    ensures Split(x + [sep] + y, sep) == Split(x, sep) + Split(y, sep)
  {
    var s := x + [sep] + y;
    assert s[..|x|] == x;
    assert s[|x| + 1..] == y;
    SplitAt(s, sep, |x|);
    SplitNoSeparator(x, sep);
  }

  /** The case of SplitConcat where `x` holds a separator at `i`, the first one. */
  lemma SplitConcatStep(x: string, y: string, sep: char, i: nat)
    requires i < |x| && x[i] == sep && sep !in x[..i]
    requires Split(x[i + 1..] + [sep] + y, sep) == Split(x[i + 1..], sep) + Split(y, sep)
    ensures Split(x + [sep] + y, sep) == Split(x, sep) + Split(y, sep)
  {
    SplitAtConcat(x, y, sep, i);
    SplitAt(x, sep, i);
    ConsAppend(x[..i], Split(x[i + 1..], sep), Split(y, sep));
  }

  /** The first separator of `x` is also the first of `x + [sep] + y`. */
  lemma SplitAtConcat(x: string, y: string, sep: char, i: nat)
    requires i < |x| && x[i] == sep && sep !in x[..i]
    ensures Split(x + [sep] + y, sep) == [x[..i]] + Split(x[i + 1..] + [sep] + y, sep)
  {
    var s := x + [sep] + y;
    assert s[..i] == x[..i];
    assert s[i + 1..] == x[i + 1..] + [sep] + y;
    SplitAt(s, sep, i);
  }

  lemma ConsAppend<T>(h: T, a: seq<T>, b: seq<T>)
    ensures [h] + (a + b) == [h] + a + b
  {
  }

  /** Regrouping a concatenation of four parts. */
  lemma AppendAssoc<T>(a: seq<T>, b: seq<T>, c: seq<T>, d: seq<T>)
    ensures a + b + c + d == a + b + (c + d)
  {
  }

  /** The first `c` is where nothing before it is `c` and `c` stands. */
  lemma IndexOfFirst(s: string, c: char, i: nat)
    requires i < |s| && s[i] == c && c !in s[..i]
    ensures IndexOf(s, c) == i
  {
    var j := IndexOf(s, c);
    if j < i {
      assert false;
    } else if j > i {
      assert false;
    }
  }

  /** Splitting a join of separator-free parts gives the parts back. */
  lemma {:induction false} SplitJoin(parts: seq<string>, sep: char)
    requires |parts| >= 1
    requires forall k :: 0 <= k < |parts| ==> sep !in parts[k]
    ensures Split(Join(parts, sep), sep) == parts
  {
    if |parts| == 1 {
      SplitNoSeparator(parts[0], sep);
    } else {
      var rest := Join(parts[1..], sep);
      assert Join(parts, sep) == parts[0] + [sep] + rest;
      assert Split(rest, sep) == parts[1..] by { SplitJoin(parts[1..], sep); }
      assert Split(parts[0] + [sep] + rest, sep) == Split(parts[0], sep) + Split(rest, sep) by {
        SplitConcat(parts[0], rest, sep);
      }
      assert Split(parts[0], sep) == [parts[0]] by { SplitNoSeparator(parts[0], sep); }
      assert parts == [parts[0]] + parts[1..];
    }
  }

  /** Every piece of a split occurs in the split text. */
  lemma {:induction false} SplitPartOccurs(s: string, sep: char, k: nat) returns (off: nat)
    requires k < |Split(s, sep)|
    ensures OccursAt(s, Split(s, sep)[k], off)
    decreases |s|
  {
    var i := IndexOf(s, sep);
    if k == 0 {
      SplitFirstPartOccurs(s, sep);
      off := 0;
    } else {
      assert i < |s| by {
        if i == |s| {
          SplitNoSeparator(s, sep);
        }
      }
      var rest := s[i + 1..];
      assert k - 1 < |Split(rest, sep)| by { SplitAt(s, sep, i); }
      var o := SplitPartOccurs(rest, sep, k - 1);
      SplitLaterPartOccurs(s, sep, i, k, o);
      off := i + 1 + o;
    }
  }

  /** The first piece of a split is a prefix of the string. */
  lemma SplitFirstPartOccurs(s: string, sep: char)
    ensures OccursAt(s, Split(s, sep)[0], 0)
  {
    var i := IndexOf(s, sep);
    assert s[0..i] == s[..i];
    if i == |s| {
      assert s[..i] == s;
    }
  }

  /** A later piece found in the rest after the first separator is found in `s`, past that separator. */
  lemma SplitLaterPartOccurs(s: string, sep: char, i: nat, k: nat, o: nat)
    requires i < |s| && s[i] == sep && sep !in s[..i]
    requires 0 < k && k - 1 < |Split(s[i + 1..], sep)| && OccursAt(s[i + 1..], Split(s[i + 1..], sep)[k - 1], o)
    ensures k < |Split(s, sep)| && OccursAt(s, Split(s, sep)[k], i + 1 + o)
  {
    SplitAt(s, sep, i);
    OccursAfter(s, i, Split(s[i + 1..], sep)[k - 1], o);
  }

  /** An occurrence in the part of `s` after index `i`. */
  lemma OccursAfter(s: string, i: nat, w: string, o: nat)
    requires i < |s| && OccursAt(s[i + 1..], w, o)
    ensures OccursAt(s, w, i + 1 + o)
  {
    var rest := s[i + 1..];
    assert OccursAt(s, rest, i + 1) by { assert s[i + 1..i + 1 + |rest|] == rest; }
    OccursInInfix(s, rest, i + 1, w, o);
  }

  /** A word found in a piece of a split is found in the split text. */
  lemma SplitPartContains(s: string, sep: char, k: nat, w: string)
    requires k < |Split(s, sep)| && Contains(Split(s, sep)[k], w)
    ensures Contains(s, w)
  {
    var p := Split(s, sep)[k];
    var off := SplitPartOccurs(s, sep, k);
    var i: nat :| i <= |p| && OccursAt(p, w, i);
    OccursInInfix(s, p, off, w, i);
  }

  // ---------------------------------------------------------------------
  // order

  /** `a` is `b` with some elements left out, the rest in the same order. */
  predicate IsSubsequence<T(==)>(a: seq<T>, b: seq<T>)
    decreases |b|
  {
    || a == []
    || (b != [] && ((a[0] == b[0] && IsSubsequence(a[1..], b[1..])) || IsSubsequence(a, b[1..])))
  }

  /** Matching `x` against the head of `b` extends a subsequence of its tail. */
  lemma SubsequenceCons<T>(x: T, a: seq<T>, b: seq<T>)
    requires b != [] && b[0] == x && IsSubsequence(a, b[1..])
    ensures IsSubsequence([x] + a, b)
  {
    assert ([x] + a)[1..] == a;
  }

  // ---------------------------------------------------------------------
  // lines, and lists built piece by piece

  /** Each line followed by `sep`, as a loop of `text += line + "\n"` builds it. */
  function Terminated(lines: seq<string>, sep: char): string
  {
    if lines == [] then "" else lines[0] + [sep] + Terminated(lines[1..], sep)
  }

  /** One more line at the end. */
  lemma {:induction false} TerminatedSnoc(lines: seq<string>, line: string, sep: char)
    ensures Terminated(lines + [line], sep) == Terminated(lines, sep) + line + [sep]
  {
    if lines == [] {
      assert [line][1..] == [];
    } else {
      assert (lines + [line])[1..] == lines[1..] + [line];
      TerminatedSnoc(lines[1..], line, sep);
    }
  }

  /** Terminated lines followed by more text are the lines and that text, joined. */
  lemma {:induction false} TerminatedJoin(lines: seq<string>, tail: string, sep: char)
    ensures Terminated(lines, sep) + tail == Join(lines + [tail], sep)
  {
    if lines == [] {
      assert lines + [tail] == [tail];
    } else {
      TerminatedJoin(lines[1..], tail, sep);
      assert (lines + [tail])[1..] == lines[1..] + [tail];
      AppendAssoc(lines[0], [sep], Terminated(lines[1..], sep), tail);
    }
  }

  /** Joining in a text that is itself a join of `b`. */
  lemma {:induction false} JoinNested(a: seq<string>, b: seq<string>, sep: char)
    requires b != []
    ensures Join(a + [Join(b, sep)], sep) == Join(a + b, sep)
  {
    if a == [] {
      assert a + [Join(b, sep)] == [Join(b, sep)];
      assert a + b == b;
    } else {
      JoinNested(a[1..], b, sep);
      assert (a + [Join(b, sep)])[1..] == a[1..] + [Join(b, sep)];
      assert (a + b)[1..] == a[1..] + b;
    }
  }

  /** Terminated lines without the separator split back into exactly those lines. */
  lemma TerminatedSplit(lines: seq<string>, tail: string, sep: char)
    requires forall k :: 0 <= k < |lines| ==> sep !in lines[k]
    ensures Split(Terminated(lines, sep) + tail, sep) == lines + Split(tail, sep)
  {
    var tailParts := Split(tail, sep);
    SplitPiecesFree(tail, sep);
    TerminatedJoin(lines, tail, sep);
    JoinSplit(tail, sep);
    JoinNested(lines, tailParts, sep);
    SplitJoin(lines + tailParts, sep);
  }

  /** A text, a separator, terminated lines and more text split into the parts of each. */
  lemma SplitAround(head: string, lines: seq<string>, tail: string, sep: char)
    requires forall k :: 0 <= k < |lines| ==> sep !in lines[k]
    ensures Split(head + [sep] + Terminated(lines, sep) + tail, sep) == Split(head, sep) + lines + Split(tail, sep)
  {
    var t := Terminated(lines, sep);
    var rest := t + tail;
    assert Split(rest, sep) == lines + Split(tail, sep) by {
      TerminatedSplit(lines, tail, sep);
    }
    assert head + [sep] + t + tail == head + [sep] + rest by {
      AppendAssoc(head, [sep], t, tail);
    }
    assert Split(head + [sep] + rest, sep) == Split(head, sep) + Split(rest, sep) by {
      SplitConcat(head, rest, sep);
    }
  }

  /** The pieces `f` gives for each element, concatenated in order. */
  function FlatMap<A, B>(f: A -> seq<B>, xs: seq<A>): seq<B>
  {
    if xs == [] then [] else FlatMap(f, xs[..|xs| - 1]) + f(xs[|xs| - 1])
  }

  lemma {:induction false} FlatMapAppend<A, B>(f: A -> seq<B>, xs: seq<A>, ys: seq<A>)
    ensures FlatMap(f, xs + ys) == FlatMap(f, xs) + FlatMap(f, ys)
  {
    if ys == [] {
      assert xs + ys == xs;
    } else {
      var zs := xs + ys;
      assert zs[..|zs| - 1] == xs + ys[..|ys| - 1];
      assert zs[|zs| - 1] == ys[|ys| - 1];
      FlatMapAppend(f, xs, ys[..|ys| - 1]);
    }
  }
}
