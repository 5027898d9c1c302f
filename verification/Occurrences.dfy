/** Where a run of elements occurs in a sequence. */
module Occurrences {
  predicate At<T(==)>(s: seq<T>, run: seq<T>, k: nat) {
    k + |run| <= |s| && s[k..k + |run|] == run
  }

  ghost predicate Lacks<T>(s: seq<T>, run: seq<T>) {
    forall k: nat :: !At(s, run, k)
  }

  lemma Mismatch<T>(s: seq<T>, run: seq<T>, k: nat, j: nat)
    requires j < |run| && (k + j < |s| ==> s[k + j] != run[j])
    ensures !At(s, run, k)
  {
    assert k + |run| <= |s| ==> s[k..k + |run|][j] == s[k + j];
  }

  lemma AtShift<T>(x: seq<T>, y: seq<T>, run: seq<T>, k: nat)
    requires k >= |x|
    ensures At(x + y, run, k) <==> At(y, run, k - |x|)
  {
    if k + |run| <= |x + y| {
      assert (x + y)[k..k + |run|] == y[k - |x|..k - |x| + |run|];
    }
  }

  lemma AtFront<T>(x: seq<T>, run: seq<T>, y: seq<T>)
    ensures At(x + (run + y), run, |x|)
  {
    AtShift(x, run + y, run, |x|);
    assert (run + y)[..|run|] == run;
  }

  /** A run that occurs brings its parts along. */
  lemma PartOccurs<T>(s: seq<T>, x: seq<T>, run: seq<T>, y: seq<T>, k: nat)
    requires At(s, x + run + y, k)
    ensures At(s, run, k + |x|)
  {
    var whole := x + run + y;
    forall i | 0 <= i < |run|
      ensures s[k + |x| + i] == run[i]
    {
      assert s[k..k + |whole|][|x| + i] == whole[|x| + i];
    }
  }

  /** An occurrence stays one whatever is put around the text. */
  lemma OccursInside<T>(x: seq<T>, s: seq<T>, y: seq<T>, run: seq<T>)
    requires !Lacks(s, run)
    ensures !Lacks(x + s + y, run)
  {
    var k: nat :| At(s, run, k);
    assert (x + s + y)[|x| + k..|x| + k + |run|] == s[k..k + |run|];
    assert At(x + s + y, run, |x| + k);
  }
}
