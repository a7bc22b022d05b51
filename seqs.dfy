/** Facts about sequence concatenation and slicing used by the proofs of the other modules. */
module Seqs {
  lemma {:induction false} SeqAssoc<T>(a: seq<T>, b: seq<T>, c: seq<T>)
    ensures (a + b) + c == a + (b + c)
  {
  }

  lemma {:induction false} ConcatInit<T>(a: seq<T>, b: seq<T>)
    requires b != []
    ensures (a + b)[..|a + b| - 1] == a + b[..|b| - 1] && (a + b)[|a + b| - 1] == b[|b| - 1]
  {
  }

  lemma {:induction false} InitLast<T>(s: seq<T>)
    requires s != []
    ensures s[..|s| - 1] + [s[|s| - 1]] == s
  {
  }

  lemma {:induction false} DropEmpty<T>(a: seq<T>, b: seq<T>, c: seq<T>)
    requires b == []
    ensures a + b + c == a + c
  {
  }

  lemma {:induction false} EmptyAround<T>(x: seq<T>)
    ensures [] + (x + []) == x
  {
  }

  lemma {:induction false} SplitThree<T>(s: seq<T>, a: nat, b: nat)
    requires a <= b <= |s|
    ensures s == s[..a] + s[a..b] + s[b..]
  {
  }
}
