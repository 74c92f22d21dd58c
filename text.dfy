/**
 * Strings as the formatter sees them: a `string` accumulator that every
 * `write!` extends at the end.  `Concat` is the text a loop produces when it
 * writes one piece per iteration; `Count` counts occurrences of a character
 * (used for line terminators).
 */
module Text {

  /** The pieces written one after another, in order.  Defined from the back,
      the way a loop appends. */
  function Concat(parts: seq<string>): string
  {
    if parts == [] then "" else Concat(parts[..|parts| - 1]) + parts[|parts| - 1]
  }

  /** Writing one more piece after the first `i` extends the text by that piece. */
  lemma ConcatPrefix(parts: seq<string>, i: nat)
    requires i < |parts|
    ensures Concat(parts[..i + 1]) == Concat(parts[..i]) + parts[i]
  {
    assert parts[..i + 1][..i] == parts[..i];
  }

  /** Writing one more piece at the end. */
  lemma ConcatSnoc(parts: seq<string>, x: string)
    ensures Concat(parts + [x]) == Concat(parts) + x
  {
    assert (parts + [x])[..|parts|] == parts;
  }

  /** The text of eight pieces, spelled out. */
  lemma Concat8(parts: seq<string>)
    requires |parts| == 8
    ensures Concat(parts) == parts[0] + parts[1] + parts[2] + parts[3]
                           + parts[4] + parts[5] + parts[6] + parts[7]
  {
    var p := parts;
    assert p[..0] + [p[0]] == p[..1];
    ConcatSnoc(p[..0], p[0]);
    assert Concat(p[..1]) == p[0];
    assert p[..1] + [p[1]] == p[..2];
    ConcatSnoc(p[..1], p[1]);
    assert p[..2] + [p[2]] == p[..3];
    ConcatSnoc(p[..2], p[2]);
    assert p[..3] + [p[3]] == p[..4];
    ConcatSnoc(p[..3], p[3]);
    assert p[..4] + [p[4]] == p[..5];
    ConcatSnoc(p[..4], p[4]);
    assert p[..5] + [p[5]] == p[..6];
    ConcatSnoc(p[..5], p[5]);
    assert p[..6] + [p[6]] == p[..7];
    ConcatSnoc(p[..6], p[6]);
    assert p[..7] + [p[7]] == p;
    ConcatSnoc(p[..7], p[7]);
  }

  lemma {:induction false} ConcatAppend(a: seq<string>, b: seq<string>)
    ensures Concat(a + b) == Concat(a) + Concat(b)
    decreases |b|
  {
    if b == [] {
      assert a + b == a;
    } else {
      var b', x := b[..|b| - 1], b[|b| - 1];
      assert b == b' + [x];
      assert a + b == (a + b') + [x];
      ConcatSnoc(a + b', x);
      ConcatSnoc(b', x);
      ConcatAppend(a, b');
      AppendAssoc(Concat(a), Concat(b'), x);
    }
  }

  /** When every piece has width `w`, the text is `w * |parts|` long. */
  lemma {:induction false} ConcatUniformLength(parts: seq<string>, w: nat)
    requires forall i :: 0 <= i < |parts| ==> |parts[i]| == w
    ensures |Concat(parts)| == w * |parts|
    decreases |parts|
  {
    if parts != [] {
      var n := |parts| - 1;
      ConcatUniformLength(parts[..n], w);
      assert w * (n + 1) == w * n + w;
    }
  }

  /** When every piece has width `w`, piece `k` sits at offset `w * k`: the
      pieces can be cut apart again. */
  lemma ConcatUniformAt(parts: seq<string>, w: nat, k: nat)
    requires forall i :: 0 <= i < |parts| ==> |parts[i]| == w
    requires k < |parts|
    ensures |Concat(parts)| == w * |parts|
    ensures w * k + w <= |Concat(parts)|
    ensures Concat(parts)[w * k .. w * k + w] == parts[k]
  {
    var front, back := parts[..k], parts[k + 1..];
    assert parts == front + [parts[k]] + back;
    ConcatAppend(front + [parts[k]], back);
    ConcatSnoc(front, parts[k]);
    assert forall i :: 0 <= i < |front| ==> front[i] == parts[i];
    ConcatUniformLength(front, w);
    ConcatUniformLength(parts, w);
    SliceOfMiddle(Concat(front), parts[k], Concat(back), 0, w);
    assert parts[k][0..w] == parts[k];
  }

  /** `s` holds no line terminator: it stays on one line. */
  predicate NoNewline(s: string)
  {
    '\n' !in s
  }

  /** A text without terminators, then one terminator, is one line. */
  lemma OneLine(s: string)
    requires NoNewline(s)
    ensures Count(s + "\n", '\n') == 1
  {
    CountAbsent(s, '\n');
    CountAppend(s, "\n", '\n');
  }

  lemma NoNewlineAppend(a: string, b: string)
    requires NoNewline(a) && NoNewline(b)
    ensures NoNewline(a + b)
  {
  }

  /** Three pieces that each stay on one line stay on one line together. */
  lemma NoNewlineAppend3(a: string, b: string, c: string)
    requires NoNewline(a) && NoNewline(b) && NoNewline(c)
    ensures NoNewline(a + b + c)
  {
    NoNewlineAppend(a, b);
    NoNewlineAppend(a + b, c);
  }

  lemma {:induction false} NoNewlineConcat(parts: seq<string>)
    requires forall i :: 0 <= i < |parts| ==> NoNewline(parts[i])
    ensures NoNewline(Concat(parts))
    decreases |parts|
  {
    if parts != [] {
      NoNewlineConcat(parts[..|parts| - 1]);
      NoNewlineAppend(Concat(parts[..|parts| - 1]), parts[|parts| - 1]);
    }
  }

  /** Number of occurrences of `c` in `s`. */
  function Count(s: string, c: char): nat
  {
    if s == [] then 0 else Count(s[..|s| - 1], c) + (if s[|s| - 1] == c then 1 else 0)
  }

  lemma {:induction false} CountAppend(s: string, t: string, c: char)
    ensures Count(s + t, c) == Count(s, c) + Count(t, c)
    decreases |t|
  {
    if t != [] {
      var t' := t[..|t| - 1];
      assert (s + t)[..|s + t| - 1] == s + t';
      CountAppend(s, t', c);
    } else {
      assert s + t == s;
    }
  }

  lemma {:induction false} CountAbsent(s: string, c: char)
    requires c !in s
    ensures Count(s, c) == 0
    decreases |s|
  {
    if s != [] {
      CountAbsent(s[..|s| - 1], c);
    }
  }

  /** When every piece holds exactly one `c`, the text holds one per piece. */
  lemma {:induction false} CountConcat(parts: seq<string>, c: char)
    requires forall i :: 0 <= i < |parts| ==> Count(parts[i], c) == 1
    ensures Count(Concat(parts), c) == |parts|
    decreases |parts|
  {
    if parts != [] {
      var n := |parts| - 1;
      assert forall i :: 0 <= i < n ==> parts[..n][i] == parts[i];
      CountConcat(parts[..n], c);
      CountAppend(Concat(parts[..n]), parts[n], c);
    }
  }

  /** Proof step: the front of a concatenation. */
  lemma PrefixOfAppend<T>(a: seq<T>, b: seq<T>)
    ensures |a + b| == |a| + |b| && (a + b)[..|a|] == a
  {
  }

  /** A slice of the middle piece, read off the whole. */
  lemma SliceOfMiddle<T>(pre: seq<T>, body: seq<T>, post: seq<T>, i: nat, j: nat)
    requires i <= j <= |body|
    ensures (pre + body + post)[|pre| + i .. |pre| + j] == body[i..j]
  {
    assert forall k :: |pre| + i <= k < |pre| + j ==> (pre + body + post)[k] == body[k - |pre|];
  }

  /** Occurrences in three pieces written one after another add up. */
  lemma CountAppend3(a: string, b: string, d: string, c: char)
    ensures Count(a + b + d, c) == Count(a, c) + Count(b, c) + Count(d, c)
  {
    CountAppend(a, b, c);
    CountAppend(a + b, d, c);
  }

  /** Proof step: concatenation regrouped, for the solver's benefit. */
  lemma AppendAssoc<T>(a: seq<T>, b: seq<T>, c: seq<T>)
    ensures (a + b) + c == a + (b + c)
  {
  }
}
