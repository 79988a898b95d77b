/** Counting the elements of a sequence (calls in a log, events of a span)
    that satisfy a predicate. */
module Sequences {

  /** How many elements of `s` satisfy `p`. */
  ghost function Count<T>(s: seq<T>, p: T -> bool): (n: nat)
    ensures n <= |s|
    ensures n == 0 <==> forall i | 0 <= i < |s| :: !p(s[i])
  {
    if s == [] then 0 else Count(s[..|s| - 1], p) + (if p(s[|s| - 1]) then 1 else 0)
  }

  /** Counting distributes over concatenation. */
  lemma {:induction false} CountAppend<T>(a: seq<T>, b: seq<T>, p: T -> bool)
    ensures Count(a + b, p) == Count(a, p) + Count(b, p)
    decreases |b|
  {
    if b == [] {
      assert a + b == a;
    } else {
      var b' := b[..|b| - 1];
      assert (a + b)[..|a + b| - 1] == a + b';
      CountAppend(a, b', p);
    }
  }

  /** A one-element sequence counts its element iff it satisfies `p`. */
  lemma CountSingle<T>(x: T, p: T -> bool)
    ensures Count([x], p) == if p(x) then 1 else 0
  {
    assert [x][..0] == [];
  }

  /** Counting over a sequence framed by a first and a last element. */
  lemma CountFramed<T>(first: T, middle: seq<T>, rest: seq<T>, last: T, p: T -> bool)
    ensures Count([first] + middle + rest + [last], p) ==
            (if p(first) then 1 else 0) + Count(middle, p) + Count(rest, p) + (if p(last) then 1 else 0)
  {
    CountAppend([first] + middle + rest, [last], p);
    CountAppend([first] + middle, rest, p);
    CountAppend([first], middle, p);
    CountSingle(first, p);
    CountSingle(last, p);
  }

  /** No element occurs twice. */
  ghost predicate Distinct<T>(s: seq<T>)
  {
    forall i, j | 0 <= i < j < |s| :: s[i] != s[j]
  }
}
