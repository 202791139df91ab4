/** Optional values. A Java reference that may be null is an Option here: None stands for null. */
module Wrappers {

  datatype Option<+T> = None | Some(value: T)

  /** n copies of x, in a row */
  function Repeat<T>(x: T, n: nat): (r: seq<T>)
    ensures |r| == n
    ensures forall i :: 0 <= i < n ==> r[i] == x
  {
    seq(n, _ => x)
  }

  /** One more copy at the end */
  lemma RepeatOneMore<T>(x: T, n: nat)
    ensures Repeat(x, n) + [x] == Repeat(x, n + 1)
  {
  }

  /** Taking the head off a sequence that does not hold x */
  lemma TailWithout<T>(a: seq<T>, x: T)
    requires a != [] && x !in a
    ensures a[0] != x && x !in a[1..]
  {
    assert a[0] in a;
    forall i | 0 <= i < |a[1..]|
      ensures a[1..][i] != x
    {
      assert a[1..][i] == a[i + 1] && a[i + 1] in a;
    }
  }

  /** The head and tail of a concatenation whose left part is not empty; head and tail put back before t */
  lemma ConcatHead<T>(a: seq<T>, b: seq<T>, t: seq<T>)
    requires a != []
    ensures (a + b)[0] == a[0] && (a + b)[1..] == a[1..] + b
    ensures [a[0]] + (a[1..] + t) == a + t
  {
    assert [a[0]] + a[1..] == a;
  }
}
