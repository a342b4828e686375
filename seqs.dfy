/** Sequence helpers shared by the whole model: an Option type and the
    order-preserving "map then drop the misses" combinator that both the
    aggregate loop and the array filters of the page are built from. */
module Seqs {

  datatype Option<+T> = None | Some(value: T)

  /** The images of the elements of `s` that `f` maps to `Some`, in the order
      of `s`. Defined on prefixes, the way a loop that pushes builds it. */
  function FilterMap<A, B>(s: seq<A>, f: A --> Option<B>): (r: seq<B>)
    requires forall i :: 0 <= i < |s| ==> f.requires(s[i])
    ensures |r| <= |s|
    decreases |s|
  {
    if s == [] then []
    else
      var init := s[..|s| - 1];
      assert forall i :: 0 <= i < |init| ==> init[i] == s[i];
      FilterMap(init, f) + (match f(s[|s| - 1]) case Some(b) => [b] case None => [])
  }

  /** The positions of `s` whose element `f` keeps. */
  ghost function KeptIndices<A, B>(s: seq<A>, f: A --> Option<B>): seq<nat>
    requires forall i :: 0 <= i < |s| ==> f.requires(s[i])
    decreases |s|
  {
    if s == [] then []
    else
      var init := s[..|s| - 1];
      assert forall i :: 0 <= i < |init| ==> init[i] == s[i];
      KeptIndices(init, f) + (if f(s[|s| - 1]).Some? then [|s| - 1] else [])
  }

  /** FilterMap, characterised through its kept positions: the k-th output is
      the image of the k-th kept position, kept positions are strictly
      increasing (order is preserved), and every position that `f` maps to
      `Some` is kept (nothing is dropped). */
  lemma {:induction false} FilterMapIndices<A, B>(s: seq<A>, f: A --> Option<B>)
    requires forall i :: 0 <= i < |s| ==> f.requires(s[i])
    ensures |KeptIndices(s, f)| == |FilterMap(s, f)|
    ensures forall k :: 0 <= k < |KeptIndices(s, f)| ==>
              KeptIndices(s, f)[k] < |s| && f(s[KeptIndices(s, f)[k]]) == Some(FilterMap(s, f)[k])
    ensures forall k, l :: 0 <= k < l < |KeptIndices(s, f)| ==> KeptIndices(s, f)[k] < KeptIndices(s, f)[l]
    ensures forall i :: 0 <= i < |s| && f(s[i]).Some? ==> i in KeptIndices(s, f)
    decreases |s|
  {
    if s != [] {
      var init := s[..|s| - 1];
      assert forall i :: 0 <= i < |init| ==> init[i] == s[i];
      FilterMapIndices(init, f);
      var idx0 := KeptIndices(init, f);
      assert forall k :: 0 <= k < |idx0| ==> idx0[k] < |init|;
    }
  }

  /** Membership in a FilterMap, both directions. */
  lemma FilterMapMember<A, B>(s: seq<A>, f: A --> Option<B>, b: B)
    requires forall i :: 0 <= i < |s| ==> f.requires(s[i])
    ensures b in FilterMap(s, f) <==> exists i :: 0 <= i < |s| && f(s[i]) == Some(b)
  {
    FilterMapIndices(s, f);
    var r, idx := FilterMap(s, f), KeptIndices(s, f);
    if b in r {
      var k :| 0 <= k < |r| && r[k] == b;
      assert f(s[idx[k]]) == Some(b);
    }
    if exists i :: 0 <= i < |s| && f(s[i]) == Some(b) {
      var i :| 0 <= i < |s| && f(s[i]) == Some(b);
      assert i in idx;
      var k :| 0 <= k < |idx| && idx[k] == i;
      assert r[k] == b;
    }
  }

  /** One step of a loop that pushes: the next prefix adds the image of the
      next element, if any. */
  lemma FilterMapStep<A, B>(s: seq<A>, i: nat, f: A --> Option<B>)
    requires i < |s| && forall j :: 0 <= j < |s| ==> f.requires(s[j])
    ensures FilterMap(s[..i + 1], f) ==
      FilterMap(s[..i], f) + (match f(s[i]) case Some(b) => [b] case None => [])
  {
    assert s[..i + 1][..i] == s[..i];
  }

  /** The same step, for a loop that has already computed the image `y`
      and the output `acc` so far. */
  lemma FilterMapPush<A, B>(s: seq<A>, i: nat, f: A --> Option<B>, acc: seq<B>, y: Option<B>)
    requires i < |s| && forall j :: 0 <= j < |s| ==> f.requires(s[j])
    requires acc == FilterMap(s[..i], f) && y == f(s[i])
    ensures FilterMap(s[..i + 1], f) == if y.Some? then acc + [y.value] else acc
  {
    FilterMapStep(s, i, f);
  }
}
