/** Sequence helpers shared by the batching and the views. */
module Seqs {

  /** The concatenation of a list of lists, in order. */
  function Flatten<T>(ss: seq<seq<T>>): seq<T>
  {
    if |ss| == 0 then [] else ss[0] + Flatten(ss[1..])
  }

  lemma {:induction false} FlattenAppend<T>(ss: seq<seq<T>>, x: seq<T>)
    ensures Flatten(ss + [x]) == Flatten(ss) + x
  {
    if |ss| == 0 {
      assert ss + [x] == [x];
      assert Flatten([x]) == x + Flatten([x][1..]);
    } else {
      assert (ss + [x])[1..] == ss[1..] + [x];
      FlattenAppend(ss[1..], x);
    }
  }

  /** `s.map(f)`. */
  function Map<T, U>(f: T -> U, s: seq<T>): (r: seq<U>)
    ensures |r| == |s| && forall i :: 0 <= i < |s| ==> r[i] == f(s[i])
  {
    seq(|s|, i requires 0 <= i < |s| => f(s[i]))
  }

  lemma MapAppend<T, U>(f: T -> U, a: seq<T>, b: seq<T>)
    ensures Map(f, a + b) == Map(f, a) + Map(f, b)
  {
  }

  /** Mapping commutes with concatenating a list of lists. */
  lemma {:induction false} MapFlatten<T, U>(f: T -> U, ss: seq<seq<T>>)
    ensures Map(f, Flatten(ss)) == Flatten(seq(|ss|, i requires 0 <= i < |ss| => Map(f, ss[i])))
  {
    var ms := seq(|ss|, i requires 0 <= i < |ss| => Map(f, ss[i]));
    if |ss| > 0 {
      MapFlatten(f, ss[1..]);
      MapAppend(f, ss[0], Flatten(ss[1..]));
      assert ms[1..] == seq(|ss[1..]|, i requires 0 <= i < |ss[1..]| => Map(f, ss[1..][i]));
    }
  }
}
