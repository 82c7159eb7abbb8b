/**
 What Close records about a run.
 */
module Closings {

  import opened Documents
  import opened Pods
  import opened Protocol
  import opened Rebinding

  /** Every changed application was written. */
  ghost predicate Written(s: Cluster, p: Pass, after: seq<Json>)
    requires |p.docs| == |s.apps|
  {
    |after| == |s.apps| && forall k :: 0 <= k < |s.apps| && p.docs[k] != s.apps[k] ==> after[k] == Norm(p.docs[k])
  }

  ghost predicate Hindered(s: Cluster, p: Pass, f: Fate)
    requires |p.docs| == |s.apps|
  {
    p.loaded && exists k: nat :: RefusedAt(s.apps, p.docs, p.touched, f.refused, 0, k)
  }

  lemma {:induction false} WritesUnless(stored: seq<Json>, docs: seq<Json>, touched: bool, refused: set<nat>, i: nat)
    requires |stored| == |docs|
    ensures WriteApps(stored, docs, touched, refused, i).1 <==>
      forall k: nat :: !RefusedAt(stored, docs, touched, refused, i, k)
    decreases |docs|
  {
    hide Norm;
    if docs != [] {
      if RefusedAt(stored, docs, touched, refused, i, 0) {
        assert i + 0 == i;
      } else {
        WritesUnless(stored[1..], docs[1..], touched, refused, i + 1);
        forall k: nat | k > 0
          ensures RefusedAt(stored, docs, touched, refused, i, k) <==>
            RefusedAt(stored[1..], docs[1..], touched, refused, i + 1, k - 1)
        {
          RefusedTail(stored, docs, touched, refused, i, k);
        }
        var j := i + 1;
        if k: nat :| RefusedAt(stored[1..], docs[1..], touched, refused, j, k) {
          assert RefusedAt(stored, docs, touched, refused, i, k + 1);
        }
      }
    }
  }

  lemma {:induction false} WritesChanged(
    stored: seq<Json>, docs: seq<Json>, touched: bool, refused: set<nat>, i: nat, k: nat)
    requires |stored| == |docs| && k < |docs| && docs[k] != stored[k]
    ensures var w := WriteApps(stored, docs, touched, refused, i);
      |w.0| == |stored| && (w.1 ==> w.0[k] == Norm(docs[k]))
    decreases |docs|
  {
    hide Norm;
    WriteLength(stored, docs, touched, refused, i);
    if k > 0 && !RefusedAt(stored, docs, touched, refused, i, 0) {
      WritesChanged(stored[1..], docs[1..], touched, refused, i + 1, k - 1);
    }
  }

  /** Once the status is stored, the binding is marked ready exactly when the
      run had no error and no write was refused, and then every changed
      application is stored. */
  lemma ReadyMeansWritten(s: Cluster, p: Pass, f: Fate)
    requires s.binding.Some? && |p.docs| == |s.apps| && (!p.loaded ==> p.docs == s.apps)
    ensures var c := Close(s, p, f);
      && c.0.binding.Some?
      && (f.statusWrite ==> (c.0.binding.value.ready <==> !p.err && !Hindered(s, p, f)))
      && (!f.statusWrite ==> c.0.binding == s.binding)
      && (!p.err && !Hindered(s, p, f) ==> Written(s, p, c.0.apps))
      && (p.err ==> c.0.apps == s.apps)
  {
    hide Norm, WriteApps;
    WritesUnless(s.apps, p.docs, p.touched, f.refused, 0);
    WriteLength(s.apps, p.docs, p.touched, f.refused, 0);
    forall k | 0 <= k < |s.apps| && p.docs[k] != s.apps[k]
      ensures var w := WriteApps(s.apps, p.docs, p.touched, f.refused, 0); w.1 ==> w.0[k] == Norm(p.docs[k])
    {
      WritesChanged(s.apps, p.docs, p.touched, f.refused, 0, k);
    }
  }
}
