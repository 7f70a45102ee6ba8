/** List operations the source performs with comprehensions, `extend` and `append`. */
module Lists {

  /** The in-order concatenation of the inner lists (repeated `extend`). */
  function Flatten<T>(xss: seq<seq<T>>): seq<T>
  {
    if xss == [] then [] else Flatten(xss[..|xss| - 1]) + xss[|xss| - 1]
  }

  /** `[f(x) for x in s]`. */
  function Each<A, B>(f: A -> B, s: seq<A>): (r: seq<B>)
    ensures |r| == |s|
    ensures forall j :: 0 <= j < |s| ==> r[j] == f(s[j])
  {
    seq(|s|, j requires 0 <= j < |s| => f(s[j]))
  }

  lemma EachAppend<A, B>(f: A -> B, s: seq<A>, t: seq<A>)
    ensures Each(f, s + t) == Each(f, s) + Each(f, t)
  {
  }

  lemma {:induction false} FlattenAppend<T>(xss: seq<seq<T>>, yss: seq<seq<T>>)
    ensures Flatten(xss + yss) == Flatten(xss) + Flatten(yss)
  {
    if yss != [] {
      var zss := xss + yss;
      assert zss[..|zss| - 1] == xss + yss[..|yss| - 1];
      FlattenAppend(xss, yss[..|yss| - 1]);
    } else {
      assert xss + yss == xss;
    }
  }

  /** Concatenating lists of at most `k` elements each gives at most `k` per list. */
  lemma {:induction false} FlattenLengthBound<T>(xss: seq<seq<T>>, k: nat)
    requires forall j :: 0 <= j < |xss| ==> |xss[j]| <= k
    ensures |Flatten(xss)| <= k * |xss|
  {
    if xss != [] {
      var n := |xss|;
      FlattenLengthBound(xss[..n - 1], k);
      assert k * (n - 1) + k == k * n;
    }
  }

  /** Mapping over a concatenation is the concatenation of the mapped lists. */
  lemma {:induction false} EachFlatten<A, B>(f: A -> B, xss: seq<seq<A>>)
    ensures Each(f, Flatten(xss)) == Flatten(Each((xs: seq<A>) => Each(f, xs), xss))
  {
    var g := (xs: seq<A>) => Each(f, xs);
    if xss != [] {
      var n := |xss|;
      EachFlatten(f, xss[..n - 1]);
      EachAppend(f, Flatten(xss[..n - 1]), xss[n - 1]);
      assert Each(g, xss)[..n - 1] == Each(g, xss[..n - 1]);
    }
  }
}
