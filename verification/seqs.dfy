/** Small generic sequence combinators: element-wise mapping, flattening,
    filtering and repetition, with the facts the rest of the model needs. */
module Seqs {

  /** `xs.map(f)`: the image of every element, in order. */
  function Map<A, B>(f: A -> B, xs: seq<A>): (r: seq<B>)
    ensures |r| == |xs|
    ensures forall i :: 0 <= i < |xs| ==> r[i] == f(xs[i])
  {
    if xs == [] then [] else [f(xs[0])] + Map(f, xs[1..])
  }

  /** Concatenation of a sequence of sequences, in order. */
  function Flatten<T>(xss: seq<seq<T>>): seq<T> {
    if xss == [] then [] else xss[0] + Flatten(xss[1..])
  }

  /** The elements of `xs` that satisfy `p`, in order. */
  function Filter<T>(p: T -> bool, xs: seq<T>): (r: seq<T>)
    ensures |r| <= |xs|
    ensures forall i :: 0 <= i < |r| ==> p(r[i])
  {
    if xs == [] then []
    else if p(xs[0]) then [xs[0]] + Filter(p, xs[1..])
    else Filter(p, xs[1..])
  }

  /** `n` copies of `x`. */
  function Repeat<T>(x: T, n: nat): (r: seq<T>)
    ensures |r| == n
    ensures forall i :: 0 <= i < n ==> r[i] == x
  {
    if n == 0 then [] else [x] + Repeat(x, n - 1)
  }

  lemma SeqAssoc<T>(a: seq<T>, b: seq<T>, c: seq<T>)
    ensures (a + b) + c == a + (b + c)
  {
  }

  lemma AppendTail<T>(a: seq<T>, b: seq<T>)
    requires a != []
    ensures (a + b)[0] == a[0] && (a + b)[1..] == a[1..] + b
  {
  }

  lemma {:induction false} MapAppend<A, B>(f: A -> B, xs: seq<A>, ys: seq<A>)
    ensures Map(f, xs + ys) == Map(f, xs) + Map(f, ys)
  {
    if xs == [] {
      assert xs + ys == ys;
    } else {
      assert (xs + ys)[1..] == xs[1..] + ys;
      MapAppend(f, xs[1..], ys);
    }
  }

  lemma {:induction false} FlattenAppend<T>(a: seq<seq<T>>, b: seq<seq<T>>)
    ensures Flatten(a + b) == Flatten(a) + Flatten(b)
  {
    if a == [] {
      assert a + b == b;
    } else {
      assert (a + b)[1..] == a[1..] + b;
      FlattenAppend(a[1..], b);
    }
  }

  lemma {:induction false} FilterAppend<T>(p: T -> bool, xs: seq<T>, ys: seq<T>)
    ensures Filter(p, xs + ys) == Filter(p, xs) + Filter(p, ys)
  {
    if xs == [] {
      assert xs + ys == ys;
    } else {
      assert (xs + ys)[1..] == xs[1..] + ys;
      FilterAppend(p, xs[1..], ys);
    }
  }

  /** Filtering keeps nothing of a sequence none of whose elements qualifies. */
  lemma {:induction false} FilterNone<T>(p: T -> bool, xs: seq<T>)
    requires forall i :: 0 <= i < |xs| ==> !p(xs[i])
    ensures Filter(p, xs) == []
  {
    if xs != [] {
      FilterNone(p, xs[1..]);
    }
  }

  lemma FlattenMapCons<A, B>(f: A -> seq<B>, xs: seq<A>)
    requires xs != []
    ensures Flatten(Map(f, xs)) == f(xs[0]) + Flatten(Map(f, xs[1..]))
  {
    assert Map(f, xs)[1..] == Map(f, xs[1..]);
  }

  lemma RepeatAppend<T>(x: T, m: nat, n: nat)
    ensures Repeat(x, m) + Repeat(x, n) == Repeat(x, m + n)
  {
  }

  /** The two middle parts of a sequence framed by one leading and one
      trailing item. */
  lemma FrameSlices<T>(first: T, a: seq<T>, b: seq<T>, last: T)
    ensures var r := [first] + a + b + [last];
            r[1..1 + |a|] == a && r[1 + |a|..|r| - 1] == b
  {
    var r := [first] + a + b + [last];
    assert r[1..1 + |a|] == a;
    assert r[1 + |a|..|r| - 1] == b;
  }

  /** The items of `[first] + a + [last]`, by index. */
  lemma FrameIndices<T>(first: T, a: seq<T>, last: T)
    ensures var r := [first] + a + [last];
            && |r| == |a| + 2
            && r[0] == first
            && r[|r| - 1] == last
            && forall i :: 0 <= i < |a| ==> r[1 + i] == a[i]
  {
  }

  /** The five parts of `a + b + c + d + e`, as slices. */
  lemma FiveSlices<T>(a: seq<T>, b: seq<T>, c: seq<T>, d: seq<T>, e: seq<T>)
    ensures var s := a + b + c + d + e;
            var i, j, k := |a|, |a| + |b|, |a| + |b| + |c|;
            && s[..i] == a
            && s[i..j] == b
            && s[j..k] == c
            && s[k..|s| - |e|] == d
            && s[|s| - |e|..] == e
  {
    var s := a + b + c + d + e;
    assert s == (a + b) + c + (d + e);
    SliceMiddle(a, b, c + d + e);
    SliceMiddle(a + b, c, d + e);
    SliceMiddle(a + b + c, d, e);
  }

  /** From index `start`, `out` reads `heading`, the items of `mid`, the
      items of `block`, then `blank`. */
  predicate FramedAt<T(==)>(out: seq<T>, start: nat, heading: T, mid: seq<T>, block: seq<T>, blank: T) {
    var end := start + 1 + |mid| + |block| + 1;
    end <= |out| && out[start..end] == [heading] + mid + block + [blank]
  }

  lemma SliceMiddle<T>(a: seq<T>, b: seq<T>, c: seq<T>)
    ensures (a + b + c)[|a|..|a| + |b|] == b
  {
    assert forall j :: 0 <= j < |b| ==> (a + b + c)[|a| + j] == b[j];
  }

  /** A sequence around its `i`-th item. */
  lemma SplitAt<T>(s: seq<T>, i: nat)
    requires i < |s|
    ensures s == s[..i] + [s[i]] + s[i + 1..]
  {
    assert s[..i + 1] == s[..i] + [s[i]];
    assert s == s[..i + 1] + s[i + 1..];
  }

  /** The concatenation around its `k`-th part. */
  lemma {:induction false} FlattenSplit<T>(ss: seq<seq<T>>, k: nat)
    requires k < |ss|
    ensures Flatten(ss) == Flatten(ss[..k]) + ss[k] + Flatten(ss[k + 1..])
  {
    SplitAt(ss, k);
    FlattenAppend(ss[..k] + [ss[k]], ss[k + 1..]);
    FlattenAppend(ss[..k], [ss[k]]);
    assert Flatten([ss[k]]) == ss[k];
  }

  /** Part `k` of a concatenation is a heading followed by lines that hold
      `block` after `mid` and before `blank`: the output after `head` frames
      it right after the parts before `k`. */
  lemma SectionFramed<T>(out: seq<T>, head: seq<T>, ss: seq<seq<T>>, k: nat, heading: T, body: seq<T>,
                         mid: seq<T>, block: seq<T>, blank: T, rest: seq<T>)
    requires k < |ss|
    requires ss[k] == [heading] + body
    requires body == mid + block + [blank] + rest
    requires out == head + Flatten(ss)
    ensures FramedAt(out, |head| + |Flatten(ss[..k])|, heading, mid, block, blank)
  {
    var front := head + Flatten(ss[..k]);
    var frame := [heading] + mid + block + [blank];
    FlattenSplit(ss, k);
    assert out == front + frame + (rest + Flatten(ss[k + 1..]));
    SliceMiddle(front, frame, rest + Flatten(ss[k + 1..]));
  }

  lemma FlattenFive<T>(a: seq<T>, b: seq<T>, c: seq<T>, d: seq<T>, e: seq<T>)
    ensures Flatten([a, b, c, d, e]) == a + b + c + d + e
  {
    assert [e][1..] == [];
    assert Flatten([e]) == e;
    assert [d, e][1..] == [e];
    assert Flatten([d, e]) == d + e;
    assert [c, d, e][1..] == [d, e];
    assert Flatten([c, d, e]) == c + (d + e);
    assert [b, c, d, e][1..] == [c, d, e];
    assert Flatten([b, c, d, e]) == b + (c + (d + e));
    assert [a, b, c, d, e][1..] == [b, c, d, e];
  }
}
