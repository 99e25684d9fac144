/** Sequence helpers shared by the model: the in-order concatenation of a list of
    lists, and the sum of their lengths. */
module Seqs {

  /** Sum of the lengths of the lists in `xss`. */
  function SumLengths<T>(xss: seq<seq<T>>): nat
  {
    if xss == [] then 0 else SumLengths(xss[..|xss| - 1]) + |xss[|xss| - 1]|
  }

  /** The lists of `xss` appended one after the other, in order: what a Python loop
      building a list with `extend` (or a string with `+=`) ends with. */
  function Flatten<T>(xss: seq<seq<T>>): (r: seq<T>)
    ensures |r| == SumLengths(xss)
  {
    if xss == [] then [] else Flatten(xss[..|xss| - 1]) + xss[|xss| - 1]
  }

  /** Flattening distributes over concatenation of the outer list. */
  lemma {:induction false} FlattenAppend<T>(a: seq<seq<T>>, b: seq<seq<T>>)
    ensures Flatten(a + b) == Flatten(a) + Flatten(b)
    decreases |b|
  {
    if b == [] {
      assert a + b == a;
    } else {
      var b', last := b[..|b| - 1], b[|b| - 1];
      assert (a + b)[..|a + b| - 1] == a + b';
      calc {
        Flatten(a + b);
        Flatten(a + b') + last;
        { FlattenAppend(a, b'); }
        (Flatten(a) + Flatten(b')) + last;
        Flatten(a) + (Flatten(b') + last);
        Flatten(a) + Flatten(b);
      }
    }
  }

  /** The block contributed by `xss[i]` is contiguous in `Flatten(xss)`, keeps its own
      order, and starts right after the blocks of `xss[..i]`. */
  lemma {:induction false} FlattenBlock<T>(xss: seq<seq<T>>, i: nat)
    requires i < |xss|
    ensures SumLengths(xss[..i]) + |xss[i]| <= |Flatten(xss)|
    ensures Flatten(xss)[SumLengths(xss[..i])..SumLengths(xss[..i]) + |xss[i]|] == xss[i]
  {
    var pre, post := xss[..i], xss[i + 1..];
    assert xss == pre + [xss[i]] + post;
    assert Flatten([xss[i]]) == xss[i] by {
      assert [xss[i]][..0] == [];
    }
    FlattenAppend(pre + [xss[i]], post);
    FlattenAppend(pre, [xss[i]]);
  }
}
