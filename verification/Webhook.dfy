/**
 The webhook's half of the rebind protocol: before a changed mapping is
 admitted, every binding on a resource that the old mapping accepts is
 annotated with the old mapping, one after the other.
 */
module Webhooks {

  import opened Pods
  import opened Templates
  import opened Protocol

  /** A ServiceBinding in the cluster, the resource of its workload as far as it
      can be determined, and whether the binding can be written. */
  datatype Registered = Registered(binding: BindingObject, gvr: Option<GroupVersionResource>, writable: bool)

  function Marked(m: ResourceMapping, r: Registered): Registered
  {
    r.(binding := r.binding.(annotation := Some(m)))
  }

  predicate Relevant(m: ResourceMapping, r: Registered)
  {
    r.gvr.Some? && Accepts(m, r.gvr.value)
  }

  /** The loop gets past this binding. */
  predicate Passes(m: ResourceMapping, r: Registered)
  {
    r.gvr.Some? && (Accepts(m, r.gvr.value) ==> r.writable)
  }

  /** Every binding before `n` is annotated if the mapping matters to it, and no other. */
  ghost predicate MarkedUpTo(m: ResourceMapping, before: seq<Registered>, after: seq<Registered>, n: nat)
    requires |before| == |after|
  {
    forall k :: 0 <= k < |before| ==>
      after[k] == if k < n && Relevant(m, before[k]) then Marked(m, before[k]) else before[k]
  }

  /** Every binding has a known resource; those on resources that the mapping
      accepts could be written and carry the mapping, and nothing else changed. */
  ghost predicate Serialized(m: ResourceMapping, before: seq<Registered>, after: seq<Registered>)
  {
    && |after| == |before|
    && forall k :: 0 <= k < |before| ==>
         && before[k].gvr.Some?
         && (if Accepts(m, before[k].gvr.value)
             then before[k].writable && after[k].binding.annotation == Some(m) else after[k] == before[k])
         && after[k] == before[k].(binding := before[k].binding.(annotation := after[k].binding.annotation))
  }

  lemma AllMarked(m: ResourceMapping, before: seq<Registered>, after: seq<Registered>)
    requires |before| == |after| && MarkedUpTo(m, before, after, |before|)
    requires forall k :: 0 <= k < |before| ==> Passes(m, before[k])
    ensures Serialized(m, before, after)
  {
    hide Accepts;
    forall k | 0 <= k < |before|
      ensures before[k].gvr.Some? && (Accepts(m, before[k].gvr.value) ==> before[k].writable)
    {
      assert Passes(m, before[k]);
    }
  }

  /** One loop of Serialize: it ends at the first binding that it cannot
      classify or write, and annotates the relevant ones before it. */
  method SerializeGroup(m: ResourceMapping, bs: array<Registered>) returns (done: nat)
    modifies bs
    ensures done <= bs.Length && MarkedUpTo(m, old(bs[..]), bs[..], done)
    ensures forall k :: 0 <= k < done ==> Passes(m, old(bs[..])[k])
    ensures done < bs.Length ==> !Passes(m, old(bs[..])[done])
  {
    hide Accepts;
    done := 0;
    while done < bs.Length
      invariant done <= bs.Length
      invariant MarkedUpTo(m, old(bs[..]), bs[..], done)
      invariant forall k :: 0 <= k < done ==> Passes(m, old(bs[..])[k])
    {
      assert bs[done] == bs[..][done] == old(bs[..])[done];
      var r := bs[done];
      if r.gvr.None? { return; }
      var relevant := AcceptsGVR(m, r.gvr.value);
      if relevant {
        if !r.writable { return; }
        bs[done] := Marked(m, r);
      }
      done := done + 1;
    }
  }

  /** ValidateUpdate: the new mapping must be valid, and Serialize must get
      through both groups of bindings. */
  method ValidateUpdate(old_: ResourceMapping, new_: ResourceMapping, beta: array<Registered>, alpha: array<Registered>,
                        betaListed: bool, alphaListed: bool) returns (admitted: bool, n: nat, i: nat)
    requires beta != alpha
    modifies beta, alpha
    ensures admitted <==>
      && Valid(new_) && betaListed && alphaListed
      && (forall k :: 0 <= k < beta.Length ==> Passes(old_, old(beta[..])[k]))
      && (forall k :: 0 <= k < alpha.Length ==> Passes(old_, old(alpha[..])[k]))
    ensures admitted ==> Serialized(old_, old(beta[..]), beta[..]) && Serialized(old_, old(alpha[..]), alpha[..])
    ensures n <= beta.Length && MarkedUpTo(old_, old(beta[..]), beta[..], n)
    ensures i <= alpha.Length && MarkedUpTo(old_, old(alpha[..]), alpha[..], i)
    ensures (i > 0 ==> n == beta.Length) && (admitted ==> i == alpha.Length && n == beta.Length)
    ensures (!Valid(new_) ==> n == 0)
  {
    hide Accepts, Valid, Passes, Relevant;
    NoneAnnotated(old_, beta[..]);
    NoneAnnotated(old_, alpha[..]);
    admitted, n, i := false, 0, 0;
    var errs := Validate(new_);
    if errs != 0 { return; }
    if !betaListed { return; }
    n := SerializeGroup(old_, beta);
    if n < beta.Length { return; }
    if !alphaListed { return; }
    i := SerializeGroup(old_, alpha);
    admitted := i == alpha.Length;
    if admitted {
      AllMarked(old_, old(beta[..]), beta[..]);
      AllMarked(old_, old(alpha[..]), alpha[..]);
    }
  }

  lemma NoneAnnotated(m: ResourceMapping, bs: seq<Registered>)
    ensures MarkedUpTo(m, bs, bs, 0)
  {
  }

  /** For each binding by itself, the loop is a mapping update of the protocol:
      stored with an annotation, refused after it, or refused before it. */
  lemma EachBinding(
    cfg: Config, m: ResourceMapping, new_: ResourceMapping, before: seq<Registered>, after: seq<Registered>,
    n: nat, k: nat, admitted: bool, s: Cluster)
    requires |before| == |after| && MarkedUpTo(m, before, after, n) && k < |before| && n <= |before|
    requires before[k].gvr == Some(cfg.gvr) && s.mapping == Some(m) && s.binding == Some(before[k].binding)
    requires Valid(new_) && (admitted ==> n == |before|)
    ensures s.(binding := Some(after[k].binding), mapping := if admitted then Some(new_) else s.mapping) ==
      MappingUpdated(cfg, s, new_, if admitted then UpdateFate.Stored else if k < n then RefusedLate else Refused)
  {
    hide Accepts, Valid;
  }
}
