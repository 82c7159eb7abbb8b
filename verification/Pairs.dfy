/**
 Two bindings on one workload: what is left of binding A when A is bound, B is
 bound and A is unbound, compared with binding B alone.
 */
module Pairs {

  import opened Sequences
  import opened Documents
  import opened Entries
  import opened Pods
  import opened Views
  import opened Projection
  import opened Slots
  import opened Laws
  import opened Stored
  import opened Signs
  import opened Theorems

  // ---- Lists ----

  lemma {:induction false} DropListBefore(xs: seq<Json>, ys: seq<Json>, names: seq<string>)
    requires NoneNamed(ys, names)
    ensures DropList(EnvVar, xs + ys, names) == DropList(EnvVar, xs, names) + ys
    decreases |names|
  {
    if names != [] {
      DropBefore(EnvVar, xs, ys, names[0]);
      DropListBefore(DropFirst(EnvVar, xs, names[0]), ys, names[1..]);
    }
  }

  lemma {:induction false} DropBefore(kind: Kind, xs: seq<Json>, ys: seq<Json>, n: string)
    requires Has(kind, xs, n) || !Has(kind, ys, n)
    ensures DropFirst(kind, xs + ys, n) == DropFirst(kind, xs, n) + ys
  {
    if xs == [] {
      assert xs + ys == ys;
      DropNone(kind, ys, n);
    } else {
      assert (xs + ys)[0] == xs[0] && (xs + ys)[1..] == xs[1..] + ys;
      if !Named(kind, xs[0], n) { DropBefore(kind, xs[1..], ys, n); }
    }
  }

  /** Names that are in one of two lists only are removed from each by itself. */
  lemma {:induction false} DropListSplit(xs: seq<Json>, ys: seq<Json>, names: seq<string>)
    requires forall n :: n in names ==> !Has(EnvVar, xs, n) || !Has(EnvVar, ys, n)
    ensures DropList(EnvVar, xs + ys, names) == DropList(EnvVar, xs, names) + DropList(EnvVar, ys, names)
    decreases |names|
  {
    if names != [] {
      var n := names[0];
      if Has(EnvVar, ys, n) {
        DropSkips(EnvVar, xs, ys, n);
        DropNone(EnvVar, xs, n);
      } else {
        DropBefore(EnvVar, xs, ys, n);
        DropNone(EnvVar, ys, n);
      }
      forall m | m in names[1..]
        ensures !Has(EnvVar, DropFirst(EnvVar, xs, n), m) || !Has(EnvVar, DropFirst(EnvVar, ys, n), m)
      {
        OneName(EnvVar, n, m);
        CountDrop(EnvVar, xs, n, m);
        CountDrop(EnvVar, ys, n, m);
      }
      DropListSplit(DropFirst(EnvVar, xs, n), DropFirst(EnvVar, ys, n), names[1..]);
    }
  }

  /** Entries between two lists are gone after removing `keys`, with both lists
      kept, exactly when every one of them is removed by name and no key names
      an entry of the lists. */
  lemma BetweenExactly(xs: seq<Json>, es: seq<Json>, zs: seq<Json>, vars: set<string>, keys: seq<string>)
    requires forall e :: e in es ==> exists n :: n in vars && Named(EnvVar, e, n)
    requires forall n :: n in vars ==> Count(EnvVar, es, n) == 1 && !Has(EnvVar, xs, n) && !Has(EnvVar, zs, n)
    requires forall n :: n !in vars ==> Count(EnvVar, es, n) == 0
    ensures DropList(EnvVar, xs + es + zs, keys) == xs + zs <==>
      (forall n :: n in vars ==> n in keys) && NoneNamed(xs, keys) && NoneNamed(zs, keys)
  {
    if DropList(EnvVar, xs + es + zs, keys) == xs + zs {
      forall n | n in vars || n in keys ensures n in keys && !Has(EnvVar, xs, n) && !Has(EnvVar, zs, n) {
        CountConcat(EnvVar, xs + es, zs, n);
        CountConcat(EnvVar, xs, es, n);
        CountConcat(EnvVar, xs, zs, n);
        CountDropList(EnvVar, xs + es + zs, keys, n);
      }
    }
    if (forall n :: n in vars ==> n in keys) && NoneNamed(xs, keys) && NoneNamed(zs, keys) {
      DropListBefore(xs + es, zs, keys);
      RemovedExactly(xs, es, vars, keys);
    }
  }

  /** An entry that was added before an upsert of another name can be removed
      after it. */
  lemma DropUpserted(kind: Kind, xs: seq<Json>, e: Json, m: string, n: string, f: Json)
    requires m != n && Named(kind, e, m) && Named(kind, f, n) && !Has(kind, xs, m)
    ensures DropFirst(kind, Upserted(kind, xs + [e], n, f), m) == Upserted(kind, xs, n, f)
    ensures Count(kind, Upserted(kind, xs + [e], n, f), m) == 1
  {
    OneName(kind, m, n);
    CountConcat(kind, xs, [e], n);
    CountOne(kind, e, n);
    UpsertCountOther(kind, xs + [e], n, f, m);
    CountConcat(kind, xs, [e], m);
    CountOne(kind, e, m);
    if Has(kind, xs, n) {
      var ys := Replace(kind, xs, n, f);
      assert Replace(kind, xs + [e], n, f) == ys + [e] + [];
      ReplaceCountOther(kind, xs, n, f, m);
      DropAdded(kind, ys, e, [], m);
      assert ys + [] == ys;
    } else {
      DropAdded(kind, xs, e, [f], m);
    }
  }

  /** An upsert shows which entry it wrote. */
  lemma UpsertShows(kind: Kind, xs: seq<Json>, n: string, e: Json, f: Json)
    requires Upserted(kind, xs, n, e) == Upserted(kind, xs, n, f)
    ensures e == f
  {
    if Has(kind, xs, n) {
      var i := At(kind, xs, n);
      assert Upserted(kind, xs, n, e)[i] == e && Upserted(kind, xs, n, f)[i] == f;
    } else {
      assert (xs + [e])[|xs|] == e && (xs + [f])[|xs|] == f;
    }
  }

  lemma {:induction false} At(kind: Kind, xs: seq<Json>, n: string) returns (i: nat)
    requires Has(kind, xs, n)
    ensures i < |xs| && Named(kind, xs[i], n)
  {
    if Named(kind, xs[0], n) {
      i := 0;
    } else {
      var j := At(kind, xs[1..], n);
      i := j + 1;
    }
  }

  // ---- The environment ----

  /** The environment after a projecting pass, in either mode. */
  function BoundEnv(b: Binding, xs: seq<Json>): seq<Json>
  {
    var ys := DropList(EnvVar, xs, Variables(b)) + EnvEntries(b);
    if b.files then WithRoot(ys) else ys
  }

  lemma BoundEnvIs(b: Binding, s: Slots)
    requires Readable(s)
    ensures Listed(BindSlots(b, s).env) == BoundEnv(b, Listed(s.env))
  {
    if b.files {
      BindEnvIs(b, s);
      assert b.env == [] ==> Listed(s.env) + [] == Listed(s.env);
    } else {
      var ys := AddEnvResult(b, s.env);
    }
  }

  lemma BoundEnvCount(b: Binding, xs: seq<Json>, n: string)
    requires AllUnique(xs, Variables(b)) && Distinct(Variables(b)) && Unique(EnvVar, xs, n)
    ensures Unique(EnvVar, BoundEnv(b, xs), n)
    ensures n != BINDING_ROOT_VAR && n !in Variables(b) ==> Count(EnvVar, BoundEnv(b, xs), n) == Count(EnvVar, xs, n)
    ensures n in Variables(b) ==> Count(EnvVar, BoundEnv(b, xs), n) == 1
  {
    var ys := DropList(EnvVar, xs, Variables(b));
    CountDropList(EnvVar, xs, Variables(b), n);
    CountBound(b, ys, n);
  }

  /** What is left of A's environment: every variable of A that B does not
      overwrite is removed by its key, and no key of A names a variable of B
      or one that the container had. The binding root stands apart. */
  predicate Separable(a: Binding, b: Binding, env: seq<Json>)
  {
    && (forall n :: n in Variables(a) && n !in Variables(b) && n != BINDING_ROOT_VAR ==> n in SecretKeys(a))
    && (forall n :: n in SecretKeys(a) && n != BINDING_ROOT_VAR ==> n !in Variables(b) && !Has(EnvVar, env, n))
  }

  /** No mapping of A or B is called like the binding root. */
  predicate RootFree(a: Binding, b: Binding)
  {
    BINDING_ROOT_VAR !in Variables(a) && BINDING_ROOT_VAR !in SecretKeys(a) && BINDING_ROOT_VAR !in Variables(b)
  }

  /** The root that A adds is where B alone would put it, or A adds none. */
  predicate RootStill(a: Binding, b: Binding, env: seq<Json>)
  {
    Has(EnvVar, env, BINDING_ROOT_VAR) || !a.files || (b.files && b.env == [])
  }

  lemma OwnEntries(b: Binding)
    ensures forall e :: e in EnvEntries(b) ==> exists n :: n in Variables(b) && Named(EnvVar, e, n)
  {
    EnvNames(b);
    forall e | e in EnvEntries(b) ensures exists n :: n in Variables(b) && Named(EnvVar, e, n) {
      var i :| 0 <= i < |EnvEntries(b)| && EnvEntries(b)[i] == e;
      assert Named(EnvVar, EnvEntries(b)[i], Variables(b)[i]);
    }
  }

  lemma NonRootEntries(b: Binding) returns (vars: set<string>)
    requires Distinct(Variables(b))
    ensures vars == set n | n in Variables(b) && n != BINDING_ROOT_VAR
    ensures forall e :: e in NonRoot(EnvEntries(b)) ==> exists n :: n in vars && Named(EnvVar, e, n)
    ensures forall n :: Count(EnvVar, NonRoot(EnvEntries(b)), n) == if n in vars then 1 else 0
  {
    vars := set n | n in Variables(b) && n != BINDING_ROOT_VAR;
    var es := EnvEntries(b);
    OwnEntries(b);
    NonRootMembers(es);
    forall n ensures Count(EnvVar, NonRoot(es), n) == if n in vars then 1 else 0 {
      CountVariable(b, n);
      CountNonRoot(es, n);
    }
    forall e | e in NonRoot(es) ensures exists n :: n in vars && Named(EnvVar, e, n) {
      var n :| n in Variables(b) && Named(EnvVar, e, n);
      assert n in vars;
    }
  }

  lemma NonRootBound(b: Binding, xs: seq<Json>)
    ensures NonRoot(BoundEnv(b, xs)) ==
      DropList(EnvVar, NonRoot(xs), NonRootNames(Variables(b))) + NonRoot(EnvEntries(b))
    ensures forall n :: n in NonRootNames(Variables(b)) <==> n in Variables(b) && n != BINDING_ROOT_VAR
  {
    var ys := DropList(EnvVar, xs, Variables(b));
    NonRootDropList(xs, Variables(b));
    NonRootConcat(ys, EnvEntries(b));
    NonRootConcat(ys + EnvEntries(b), [ROOT_ENTRY]);
    assert NonRoot([ROOT_ENTRY]) == [] by { EntryNames(b, "", BINDING_ROOT_VAR); }
    var zs := NonRoot(ys + EnvEntries(b));
    assert zs + [] == zs;
  }

  /** Up to the root, the environment is that of B alone if and only if A is
      separable from B there. */
  lemma EnvSeparates(a: Binding, b: Binding, xs: seq<Json>)
    requires NoneNamed(xs, Variables(a)) && Distinct(Variables(a)) && Distinct(Variables(b))
    requires AllUnique(xs, Variables(b))
    ensures NonRoot(DropList(EnvVar, BoundEnv(b, BoundEnv(a, xs)), SecretKeys(a))) == NonRoot(BoundEnv(b, xs))
      <==> Separable(a, b, xs)
  {
    hide NonRoot, NonRootNames, DropList, EnvEntries, Named, Count, Variables, SecretKeys, BoundEnv;
    var x, ea, eb := NonRoot(xs), NonRoot(EnvEntries(a)), NonRoot(EnvEntries(b));
    var va, vb, ka := NonRootNames(Variables(a)), NonRootNames(Variables(b)), NonRootNames(SecretKeys(a));
    NonRootBound(a, xs);
    NonRootBound(b, xs);
    NonRootBound(b, BoundEnv(a, xs));
    NonRootDropList(BoundEnv(b, BoundEnv(a, xs)), SecretKeys(a));
    var varsA := NonRootEntries(a);
    var varsB := NonRootEntries(b);
    forall n | n != BINDING_ROOT_VAR ensures Has(EnvVar, x, n) <==> Has(EnvVar, xs, n) {
      CountNonRoot(xs, n);
    }
    DropListNone(EnvVar, x, va);
    DropListSplit(x, ea, vb);
    var y, f := DropList(EnvVar, x, vb), DropList(EnvVar, ea, vb);
    var vars := varsA - varsB;
    LeftOver(x, ea, xs, varsA, varsB, vb);
    BetweenExactly(y, f, eb, vars, ka);
    SeparableIs(a, b, xs, y, eb, vars, ka);
  }

  lemma LeftOver(x: seq<Json>, ea: seq<Json>, xs: seq<Json>, varsA: set<string>, varsB: set<string>, vb: seq<string>)
    requires forall n :: n in vb <==> n in varsB
    requires forall e :: e in ea ==> exists n :: n in varsA && Named(EnvVar, e, n)
    requires forall n :: Count(EnvVar, ea, n) == if n in varsA then 1 else 0
    requires forall n :: n in varsA ==> !Has(EnvVar, x, n)
    ensures var f := DropList(EnvVar, ea, vb);
      && (forall e :: e in f ==> exists n :: n in varsA - varsB && Named(EnvVar, e, n))
      && (forall n :: Count(EnvVar, f, n) == if n in varsA - varsB then 1 else 0)
    ensures var y := DropList(EnvVar, x, vb);
      && (forall n :: n in varsA ==> !Has(EnvVar, y, n))
      && (forall n :: n !in varsB ==> (Has(EnvVar, y, n) <==> Has(EnvVar, x, n)))
  {
    var f := DropList(EnvVar, ea, vb);
    DropListMembers(ea, vb);
    forall n ensures Count(EnvVar, f, n) == if n in varsA - varsB then 1 else 0 {
      CountDropList(EnvVar, ea, vb, n);
    }
    forall n
      ensures n in varsA ==> !Has(EnvVar, DropList(EnvVar, x, vb), n)
      ensures n !in varsB ==> (Has(EnvVar, DropList(EnvVar, x, vb), n) <==> Has(EnvVar, x, n))
    {
      CountDropList(EnvVar, x, vb, n);
    }
    forall e | e in f ensures exists n :: n in varsA - varsB && Named(EnvVar, e, n) {
      var n :| n in varsA && Named(EnvVar, e, n);
      Counted(f, e, n);
      assert n in varsA - varsB;
    }
  }

  lemma {:induction false} Counted(xs: seq<Json>, e: Json, n: string)
    requires e in xs && Named(EnvVar, e, n)
    ensures Has(EnvVar, xs, n)
  {
    if xs[0] != e { Counted(xs[1..], e, n); }
  }

  lemma SeparableIs(
    a: Binding, b: Binding, xs: seq<Json>, y: seq<Json>, eb: seq<Json>, vars: set<string>, ka: seq<string>)
    requires vars == set n | n in Variables(a) && n != BINDING_ROOT_VAR && n !in Variables(b)
    requires forall n :: n in ka <==> n in SecretKeys(a) && n != BINDING_ROOT_VAR
    requires forall n :: n != BINDING_ROOT_VAR ==> (Has(EnvVar, eb, n) <==> n in Variables(b))
    requires forall n :: n != BINDING_ROOT_VAR && n !in Variables(b) ==> (Has(EnvVar, y, n) <==> Has(EnvVar, xs, n))
    ensures (forall n :: n in vars ==> n in ka) && NoneNamed(y, ka) && NoneNamed(eb, ka) <==> Separable(a, b, xs)
  {
    hide Variables, SecretKeys, Count;
  }

  /** What A's root and B's root become. */
  lemma HasBound(b: Binding, xs: seq<Json>)
    requires BINDING_ROOT_VAR !in Variables(b)
    ensures var ys := DropList(EnvVar, xs, Variables(b)) + EnvEntries(b);
      && (Has(EnvVar, ys, BINDING_ROOT_VAR) <==> Has(EnvVar, xs, BINDING_ROOT_VAR))
      && BoundEnv(b, xs) == ys + (if b.files && !Has(EnvVar, xs, BINDING_ROOT_VAR) then [ROOT_ENTRY] else [])
  {
    var ys := DropList(EnvVar, xs, Variables(b));
    CountDropList(EnvVar, xs, Variables(b), BINDING_ROOT_VAR);
    CountVariable(b, BINDING_ROOT_VAR);
    CountConcat(EnvVar, ys, EnvEntries(b), BINDING_ROOT_VAR);
    assert ys + EnvEntries(b) + [] == ys + EnvEntries(b);
  }

  /** The root that a pass adds to a list. */
  function Added(b: Binding, xs: seq<Json>): seq<Json>
  {
    if b.files && !Has(EnvVar, xs, BINDING_ROOT_VAR) then [ROOT_ENTRY] else []
  }

  lemma AddedCount(a: Binding, xs: seq<Json>, n: string)
    ensures Count(EnvVar, Added(a, xs), n) == if n == BINDING_ROOT_VAR then |Added(a, xs)| else 0
  {
    EntryNames(a, "", n);
    CountOne(EnvVar, ROOT_ENTRY, n);
  }

  /** The lists that the two passes leave when no mapping is called like the
      root: A's entries stand between what the container had and the rest. */
  lemma EnvParts(a: Binding, b: Binding, xs: seq<Json>)
    requires RootFree(a, b) && NoneNamed(xs, Variables(a))
    ensures var y, f := DropList(EnvVar, xs, Variables(b)), DropList(EnvVar, EnvEntries(a), Variables(b));
      && BoundEnv(b, BoundEnv(a, xs)) ==
           y + f + (Added(a, xs) + EnvEntries(b) + (if Added(a, xs) == [] then Added(b, xs) else []))
      && BoundEnv(b, xs) == y + EnvEntries(b) + Added(b, xs)
  {
    hide DropList, EnvEntries, Named, Count, Variables, SecretKeys, BoundEnv;
    var ea, ra := EnvEntries(a), Added(a, xs);
    HasBound(a, xs);
    HasBound(b, xs);
    DropListNone(EnvVar, xs, Variables(a));
    assert BoundEnv(a, xs) == xs + ea + ra;
    HasBound(b, BoundEnv(a, xs));
    forall n | n in Variables(b) ensures !Has(EnvVar, ra, n) { AddedCount(a, xs, n); }
    DropListBefore(xs + ea, ra, Variables(b));
    forall n | n in Variables(b) ensures !Has(EnvVar, xs, n) || !Has(EnvVar, ea, n) {
      CountVariable(a, n);
    }
    DropListSplit(xs, ea, Variables(b));
    AddedCount(a, xs, BINDING_ROOT_VAR);
    CountVariable(a, BINDING_ROOT_VAR);
    CountConcat(EnvVar, xs + ea, ra, BINDING_ROOT_VAR);
    CountConcat(EnvVar, xs, ea, BINDING_ROOT_VAR);
    var y, f, rb := DropList(EnvVar, xs, Variables(b)), DropList(EnvVar, ea, Variables(b)), Added(b, BoundEnv(a, xs));
    assert y + f + ra + EnvEntries(b) + rb == y + f + (ra + EnvEntries(b) + rb);
  }

  /** The environment is exactly that of B alone if and only if A is separable
      from B and the root does not move. */
  lemma EnvExactly(a: Binding, b: Binding, xs: seq<Json>)
    requires RootFree(a, b) && NoneNamed(xs, Variables(a)) && Distinct(Variables(a)) && Distinct(Variables(b))
    requires AllUnique(xs, Variables(b))
    ensures DropList(EnvVar, BoundEnv(b, BoundEnv(a, xs)), SecretKeys(a)) == BoundEnv(b, xs)
      <==> Separable(a, b, xs) && RootStill(a, b, xs)
  {
    hide DropList, EnvEntries, Named, Count, Variables, SecretKeys, BoundEnv, NonRoot;
    EnvSeparates(a, b, xs);
    if Separable(a, b, xs) {
      var y, f := DropList(EnvVar, xs, Variables(b)), DropList(EnvVar, EnvEntries(a), Variables(b));
      var zs := Added(a, xs) + EnvEntries(b) + (if Added(a, xs) == [] then Added(b, xs) else []);
      EnvParts(a, b, xs);
      TakenOut(a, b, xs, y, f, zs);
      RootPlace(a, b, xs, y);
    }
  }

  lemma TakenOut(a: Binding, b: Binding, xs: seq<Json>, y: seq<Json>, f: seq<Json>, zs: seq<Json>)
    requires RootFree(a, b) && NoneNamed(xs, Variables(a)) && Distinct(Variables(a)) && Separable(a, b, xs)
    requires y == DropList(EnvVar, xs, Variables(b)) && f == DropList(EnvVar, EnvEntries(a), Variables(b))
    requires zs == Added(a, xs) + EnvEntries(b) + (if Added(a, xs) == [] then Added(b, xs) else [])
    ensures DropList(EnvVar, y + f + zs, SecretKeys(a)) == y + zs
  {
    hide DropList, EnvEntries, Named, Count, Variables, SecretKeys;
    var varsA, varsB := set n | n in Variables(a), set n | n in Variables(b);
    OwnEntries(a);
    forall n ensures Count(EnvVar, EnvEntries(a), n) == if n in varsA then 1 else 0 { CountVariable(a, n); }
    LeftOver(xs, EnvEntries(a), xs, varsA, varsB, Variables(b));
    forall n | n != BINDING_ROOT_VAR ensures Has(EnvVar, zs, n) <==> n in varsB {
      RestCount(a, b, xs, zs, n);
    }
    BetweenExactly(y, f, zs, varsA - varsB, SecretKeys(a));
  }

  lemma RestCount(a: Binding, b: Binding, xs: seq<Json>, zs: seq<Json>, n: string)
    requires n != BINDING_ROOT_VAR
    requires zs == Added(a, xs) + EnvEntries(b) + (if Added(a, xs) == [] then Added(b, xs) else [])
    ensures Has(EnvVar, zs, n) <==> n in Variables(b)
  {
    hide Named, EnvEntries, Variables;
    var rb := if Added(a, xs) == [] then Added(b, xs) else [];
    AddedCount(a, xs, n);
    AddedCount(b, xs, n);
    CountVariable(b, n);
    CountConcat(EnvVar, Added(a, xs), EnvEntries(b), n);
    CountConcat(EnvVar, Added(a, xs) + EnvEntries(b), rb, n);
  }

  lemma RootPlace(a: Binding, b: Binding, xs: seq<Json>, y: seq<Json>)
    requires BINDING_ROOT_VAR !in Variables(b)
    ensures
      var zs := Added(a, xs) + EnvEntries(b) + (if Added(a, xs) == [] then Added(b, xs) else []);
      y + zs == y + EnvEntries(b) + Added(b, xs) <==> RootStill(a, b, xs)
  {
    var eb, ra, rb := EnvEntries(b), Added(a, xs), Added(b, xs);
    var zs := ra + eb + (if ra == [] then rb else []);
    assert y + eb + rb == y + (eb + rb);
    if ra == [] {
      assert zs == eb + rb;
    } else if eb == [] {
      assert |y + zs| == |y| + 1 && |y + (eb + rb)| == |y| + |rb|;
      assert b.files ==> zs == eb + rb;
    } else {
      EnvNames(b);
      EntryNames(b, "", BINDING_ROOT_VAR);
      assert Variables(b)[0] in Variables(b);
      assert (y + zs)[|y|] == ROOT_ENTRY && (y + (eb + rb))[|y|] == eb[0];
      assert Named(EnvVar, ROOT_ENTRY, BINDING_ROOT_VAR) && !Named(EnvVar, eb[0], BINDING_ROOT_VAR);
    }
  }

  // ---- The mount path ----

  lemma {:induction false} RootOfNone(xs: seq<Json>)
    requires !Has(EnvVar, xs, BINDING_ROOT_VAR)
    ensures RootOf(xs) == BINDING_ROOT
  {
    if xs != [] { RootOfNone(xs[1..]); }
  }

  lemma {:induction false} RootOfValueless(es: seq<Json>)
    requires forall e :: e in es ==> e.Obj? && StringOf(e.fields, "value") == ""
    ensures Has(EnvVar, es, BINDING_ROOT_VAR) ==> RootOf(es) == ""
  {
    if es != [] {
      assert es[0] in es;
      RootOfValueless(es[1..]);
    }
  }

  lemma {:induction false} RootOfDrop(xs: seq<Json>, n: string)
    requires n != BINDING_ROOT_VAR
    ensures RootOf(DropFirst(EnvVar, xs, n)) == RootOf(xs)
  {
    if xs != [] && !Named(EnvVar, xs[0], n) {
      RootOfDrop(xs[1..], n);
      var rest := DropFirst(EnvVar, xs[1..], n);
      assert ([xs[0]] + rest)[0] == xs[0] && ([xs[0]] + rest)[1..] == rest;
    }
  }

  lemma {:induction false} RootOfDropList(xs: seq<Json>, names: seq<string>)
    requires BINDING_ROOT_VAR !in names
    ensures RootOf(DropList(EnvVar, xs, names)) == RootOf(xs)
    decreases |names|
  {
    if names != [] {
      RootOfDrop(xs, names[0]);
      RootOfDropList(DropFirst(EnvVar, xs, names[0]), names[1..]);
    }
  }

  /** A pass keeps the mount root, unless it maps a variable of that name:
      such a variable has no value of its own. */
  lemma RootBound(b: Binding, xs: seq<Json>)
    requires AllUnique(xs, Variables(b))
    ensures RootOf(BoundEnv(b, xs)) == if BINDING_ROOT_VAR in Variables(b) then "" else RootOf(xs)
  {
    hide DropList, Count, Named;
    var ys, es := DropList(EnvVar, xs, Variables(b)), EnvEntries(b);
    CountDropList(EnvVar, xs, Variables(b), BINDING_ROOT_VAR);
    CountVariable(b, BINDING_ROOT_VAR);
    CountConcat(EnvVar, ys, es, BINDING_ROOT_VAR);
    RootOfConcat(ys, es);
    RootOfConcat(ys + es, [ROOT_ENTRY]);
    if BINDING_ROOT_VAR in Variables(b) {
      RootOfValueless(es);
    } else {
      RootOfDropList(xs, Variables(b));
      if !Has(EnvVar, xs, BINDING_ROOT_VAR) {
        RootOfNone(xs);
        RootOfNone(es);
        EntryNames(b, "", BINDING_ROOT_VAR);
        assert RootOf([ROOT_ENTRY]) == BINDING_ROOT;
      }
    }
  }

  lemma AlsoUnique(a: Binding, b: Binding, xs: seq<Json>)
    requires NoneNamed(xs, Variables(a)) && Distinct(Variables(a)) && AllUnique(xs, Variables(b))
    ensures AllUnique(BoundEnv(a, xs), Variables(b))
  {
    forall n | n in Variables(b) ensures Unique(EnvVar, BoundEnv(a, xs), n) { BoundEnvCount(a, xs, n); }
  }

  /** B's mount path is the one of B alone unless A maps a variable called like
      the root and B does not. */
  lemma PathsAgree(a: Binding, b: Binding, xs: seq<Json>)
    requires NoneNamed(xs, Variables(a)) && Distinct(Variables(a)) && AllUnique(xs, Variables(b))
    ensures JoinPath(RootOf(BoundEnv(b, BoundEnv(a, xs))), b.name) == JoinPath(RootOf(BoundEnv(b, xs)), b.name)
      <==> RootKept(a, b)
  {
    AlsoUnique(a, b, xs);
    RootBound(a, xs);
    RootBound(b, xs);
    RootBound(b, BoundEnv(a, xs));
    if BINDING_ROOT_VAR in Variables(a) {
      RootOfNone(xs);
      assert |JoinPath(BINDING_ROOT, b.name)| > |b.name|;
    }
  }

  predicate RootKept(a: Binding, b: Binding)
  {
    BINDING_ROOT_VAR in Variables(a) ==> BINDING_ROOT_VAR in Variables(b)
  }

  lemma MountsSeparate(a: Binding, b: Binding, s: Slots)
    requires Readable(s) && a.name != b.name && Unused(a, s) && Distinct(Variables(a))
    requires AllUnique(Listed(s.env), Variables(b))
    ensures var two := BindSlots(b, BindSlots(a, s));
      var ms := Run(VolumeMount, Drop(a.name), two.mounts);
      && (Listed(ms) == Listed(BindSlots(b, s).mounts) <==> (b.files ==> RootKept(a, b)))
      && (b.files ==> ms.Present? && BindSlots(b, s).mounts.Present?)
      && Unique(VolumeMount, Listed(two.mounts), a.name)
  {
    hide RootOf, JoinPath, Count, Named, Upserted, DropFirst, Variables, BoundEnv;
    var one, ms := BindSlots(a, s), Listed(s.mounts);
    BoundEnvIs(a, s);
    BoundEnvIs(b, s);
    BoundReadable(a, s);
    BoundReadable(b, one);
    BoundEnvIs(b, one);
    PathsAgree(a, b, Listed(s.env));
    var p := JoinPath(RootOf(Listed(one.env)), a.name);
    var q := JoinPath(RootOf(Listed(BindSlots(b, one).env)), b.name);
    var t := JoinPath(RootOf(Listed(BindSlots(b, s).env)), b.name);
    var ma, mb, mt := MountEntry(a.name, p), MountEntry(b.name, q), MountEntry(b.name, t);
    EntryNames(a, p, a.name);
    EntryNames(b, q, b.name);
    EntryNames(b, t, b.name);
    assert mb == mt <==> q == t by { assert mb.fields["mountPath"] == Str(q) && mt.fields["mountPath"] == Str(t); }
    if Upserted(VolumeMount, ms, b.name, mb) == Upserted(VolumeMount, ms, b.name, mt) {
      UpsertShows(VolumeMount, ms, b.name, mb, mt);
    }
    if a.files { BindEnvIs(a, s); UpsertNew(VolumeMount, ms, a.name, ma); }
    if b.files { BindEnvIs(b, s); BindEnvIs(b, one); }
    DropUpserted(VolumeMount, ms, ma, a.name, b.name, mb);
    UpsertCountOther(VolumeMount, ms, b.name, mb, a.name);
    DropNone(VolumeMount, Upserted(VolumeMount, ms, b.name, mb), a.name);
    DropLast(VolumeMount, ms, ma, a.name);
    RunDropIs(VolumeMount, BindSlots(b, one).mounts, a.name);
  }

  lemma RunDropIs(kind: Kind, s: Slot, n: string)
    requires !s.Bad?
    ensures Listed(Run(kind, Drop(n), s)) == DropFirst(kind, Listed(s), n)
    ensures s.Present? ==> Run(kind, Drop(n), s).Present?
  {
    if !Has(kind, Listed(s), n) { DropNone(kind, Listed(s), n); }
  }

  lemma UpsertNew(kind: Kind, xs: seq<Json>, n: string, e: Json)
    requires !Has(kind, xs, n)
    ensures Upserted(kind, xs, n, e) == xs + [e]
  {
  }

  lemma DropLast(kind: Kind, xs: seq<Json>, e: Json, n: string)
    requires !Has(kind, xs, n) && Named(kind, e, n)
    ensures DropFirst(kind, xs + [e], n) == xs && Count(kind, xs + [e], n) == 1
    ensures DropFirst(kind, xs, n) == xs
  {
    DropAdded(kind, xs, e, [], n);
    DropNone(kind, xs, n);
    assert xs + [e] + [] == xs + [e] && xs + [] == xs;
    CountConcat(kind, xs, [e], n);
    CountOne(kind, e, n);
  }

  // ---- References ----

  /** The reference to B's secret is kept unless A has the same secret. */
  lemma RefsSeparate(a: Binding, b: Binding, s: Slots)
    requires Readable(s) && Unused(a, s) && (a.files || a.secret != "")
    requires b.files || (b.secret != "" && Unique(EnvFrom, Listed(s.envFrom), b.secret))
    ensures var one := BindSlots(a, s);
      var two := BindSlots(b, one);
      var rs := Run(EnvFrom, Drop(a.secret), two.envFrom);
      && (b.files || Unique(EnvFrom, Listed(one.envFrom), b.secret))
      && Unique(EnvFrom, Listed(two.envFrom), a.secret)
      && (Listed(rs) == Listed(BindSlots(b, s).envFrom) <==> b.files || a.secret != b.secret)
      && (a.files && b.files ==> rs == BindSlots(b, s).envFrom)
  {
    hide Count, Named, DropFirst, SecretRefEntry, EnvEntries, Variables;
    var zs, one := Listed(s.envFrom), BindSlots(a, s);
    if a.files { BindEnvIs(a, s); } else { ReferenceAdded(a, s.envFrom); }
    BoundReadable(a, s);
    BoundReadable(b, one);
    RunDropIs(EnvFrom, BindSlots(b, one).envFrom, a.secret);
    if b.files {
      BindEnvIs(b, s);
      BindEnvIs(b, one);
      DropNone(EnvFrom, zs, a.secret);
    } else {
      RefPair(a, b, zs);
      EnvFromAgain(b.secret, s.envFrom);
      EnvFromAgain(b.secret, one.envFrom);
    }
  }

  lemma ReferenceAdded(a: Binding, s: Slot)
    requires !s.Bad? && a.secret != "" && !Has(EnvFrom, Listed(s), a.secret)
    ensures var t := Run(EnvFrom, Append([SecretRefEntry(a.secret)]), Run(EnvFrom, Drop(a.secret), s));
      && t == Present(Listed(s) + [SecretRefEntry(a.secret)])
      && Count(EnvFrom, t.entries, a.secret) == 1
      && DropFirst(EnvFrom, t.entries, a.secret) == Listed(s)
  {
    RefName(a.secret, a.secret);
    DropLast(EnvFrom, Listed(s), SecretRefEntry(a.secret), a.secret);
  }

  lemma RefPair(a: Binding, b: Binding, zs: seq<Json>)
    requires !Has(EnvFrom, zs, a.secret) && (a.files || a.secret != "")
    requires b.secret != "" && Unique(EnvFrom, zs, b.secret)
    ensures var os := if a.files then zs else zs + [SecretRefEntry(a.secret)];
      var rb := SecretRefEntry(b.secret);
      var ts := DropFirst(EnvFrom, os, b.secret) + [rb];
      && Unique(EnvFrom, os, b.secret) && Unique(EnvFrom, ts, a.secret)
      && (DropFirst(EnvFrom, ts, a.secret) == DropFirst(EnvFrom, zs, b.secret) + [rb] <==> a.secret != b.secret)
  {
    var ra, rb := SecretRefEntry(a.secret), SecretRefEntry(b.secret);
    var os := if a.files then zs else zs + [ra];
    var ys := DropFirst(EnvFrom, zs, b.secret);
    RefName(a.secret, a.secret);
    RefName(a.secret, b.secret);
    RefName(b.secret, a.secret);
    RefName(b.secret, b.secret);
    OneName(EnvFrom, b.secret, a.secret);
    CountConcat(EnvFrom, zs, [ra], b.secret);
    CountOne(EnvFrom, ra, b.secret);
    CountDrop(EnvFrom, zs, b.secret, a.secret);
    if a.secret == b.secret {
      DropNone(EnvFrom, zs, b.secret);
      if !a.files { DropLast(EnvFrom, zs, ra, a.secret); }
      DropLast(EnvFrom, zs, rb, a.secret);
      assert |zs + [rb]| == |zs| + 1;
    } else {
      DropBefore(EnvFrom, zs, [ra], b.secret);
      CountConcat(EnvFrom, ys, [rb], a.secret);
      CountOne(EnvFrom, rb, a.secret);
      DropNone(EnvFrom, ys + [rb], a.secret);
      if !a.files {
        DropAdded(EnvFrom, ys, ra, [rb], a.secret);
        CountConcat(EnvFrom, ys, [ra], a.secret);
        CountOne(EnvFrom, ra, a.secret);
        CountConcat(EnvFrom, ys + [ra], [rb], a.secret);
      }
    }
  }

  // ---- One container ----

  /** The lists `r` after binding A, binding B and unbinding A, against the
      lists `t` of B alone. */
  ghost predicate Parted(a: Binding, b: Binding, s: Slots, r: Slots, t: Slots)
  {
    && (NonRoot(Listed(r.env)) == NonRoot(Listed(t.env)) <==> Separable(a, b, Listed(s.env)))
    && (RootFree(a, b) ==>
          (Listed(r.env) == Listed(t.env) <==> Separable(a, b, Listed(s.env)) && RootStill(a, b, Listed(s.env))))
    && (Listed(r.mounts) == Listed(t.mounts) <==> (b.files ==> RootKept(a, b)))
    && (Listed(r.envFrom) == Listed(t.envFrom) <==> b.files || a.secret != b.secret)
  }

  lemma SlotsSeparate(a: Binding, b: Binding, s: Slots)
    requires Readable(s) && a.name != b.name && Unused(a, s) && AllUnique(Listed(s.env), SecretKeys(a))
    requires Distinct(Variables(a)) && Distinct(Variables(b)) && (a.files || a.secret != "") && Clean(AsEnv, b, s)
    ensures var one := BindSlots(a, s);
      var two := BindSlots(b, one);
      var r := SlotStep(Removal, a, two);
      && Clean(AsEnv, a, s) && Clean(AsEnv, b, one) && Clean(Removal, a, two)
      && Parted(a, b, s, r, BindSlots(b, s))
      && (a.files && b.files ==>
            (r == BindSlots(b, s) <==>
              Listed(r.env) == Listed(BindSlots(b, s).env) && Listed(r.mounts) == Listed(BindSlots(b, s).mounts)))
  {
    hide BindSlots, BoundEnv, DropList, DropNames, NonRoot, Variables, SecretKeys, Count, Separable, RootStill,
      RootFree;
    var xs, one := Listed(s.env), BindSlots(a, s);
    var two := BindSlots(b, one);
    BoundEnvIs(a, s);
    BoundEnvIs(b, s);
    BoundReadable(a, s);
    BoundEnvIs(b, one);
    AlsoUnique(a, b, xs);
    forall n | n in SecretKeys(a) ensures Unique(EnvVar, Listed(two.env), n) {
      BoundEnvCount(a, xs, n);
      BoundEnvCount(b, BoundEnv(a, xs), n);
    }
    DropNamesIsList(EnvVar, two.env, SecretKeys(a));
    EnvSeparates(a, b, xs);
    if RootFree(a, b) { EnvExactly(a, b, xs); }
    MountsSeparate(a, b, s);
    RefsSeparate(a, b, s);
    if b.files { EnvPresent(b, s); EnvPresent(b, one); }
  }

  lemma BoundReadable(b: Binding, s: Slots)
    requires Readable(s)
    ensures Readable(BindSlots(b, s))
  {
    BoundEnvIs(b, s);
    if !b.files { var ys := AddEnvResult(b, s.env); } else { BindEnvIs(b, s); }
  }

  lemma EnvPresent(b: Binding, s: Slots)
    requires Readable(s) && b.files
    ensures BindSlots(b, s).env.Present?
  {
    BindEnvIs(b, s);
  }

  // ---- Whole workloads ----

  lemma VolumesSeparate(a: Binding, b: Binding, s: Slot)
    requires !s.Bad? && a.name != b.name && !Has(Volume, Listed(s), a.name)
    ensures var one := if a.files then Run(Volume, Upsert(a.name, VolumeEntry(a)), s) else s;
      var two := if b.files then Run(Volume, Upsert(b.name, VolumeEntry(b)), one) else one;
      var three := Run(Volume, Drop(a.name), two);
      var alone := if b.files then Run(Volume, Upsert(b.name, VolumeEntry(b)), s) else s;
      && Listed(three) == Listed(alone) && (b.files ==> three == alone)
  {
    hide Named, Count, DropFirst, Upserted;
    var xs, va, vb := Listed(s), VolumeEntry(a), VolumeEntry(b);
    EntryNames(a, "", a.name);
    EntryNames(b, "", b.name);
    UpsertNew(Volume, xs, a.name, va);
    DropUpserted(Volume, xs, va, a.name, b.name, vb);
    UpsertCountOther(Volume, xs, b.name, vb, a.name);
    DropNone(Volume, Upserted(Volume, xs, b.name, vb), a.name);
    DropLast(Volume, xs, va, a.name);
  }

  /** A is gone from a container, and the environment is exactly B's. */
  ghost predicate PartedExactly(a: Binding, b: Binding, doc: Json, sel: Selection)
  {
    forall c :: c in SiteOf(doc, sel).cs ==>
      var env := Listed(ContainerSlots(doc, c).env);
      Separable(a, b, env) && RootStill(a, b, env)
  }

  /**
   * Binding A, binding B and unbinding A, against binding B alone. Volumes and
   * everything outside the lists agree; each list of each container agrees
   * exactly under the condition that Parted gives for it. In file mode, with no
   * mapping called like the root, the stored workloads are equal if and only if
   * in every container A's variables are separable and the root does not move.
   */
  lemma Independent(a: Binding, b: Binding, doc: Json, sel: Selection, lenient: bool)
    requires Workable(doc, sel) && a.name != b.name
    requires UnusedIn(a, doc, sel) && KeysUnique(a, doc, sel) && (a.files || a.secret != "")
    requires CleanFor(AsEnv, b, doc, sel) && Distinct(Variables(a)) && Distinct(Variables(b))
    ensures var d := Unbound(a, Bound(b, Bound(a, doc, sel, lenient), sel, lenient), sel);
      var e := Bound(b, doc, sel, lenient);
      && Workable(d, sel) && SiteOf(d, sel) == SiteOf(e, sel) == SiteOf(doc, sel)
      && OthersKept(doc, d, sel) && OthersKept(doc, e, sel)
      && Listed(Volumes(d, sel)) == Listed(Volumes(e, sel))
      && (forall c :: c in SiteOf(doc, sel).cs ==>
            Parted(a, b, ContainerSlots(doc, c), ContainerSlots(d, c), ContainerSlots(e, c)))
      && (a.files && b.files && RootFree(a, b) ==> (d == e <==> PartedExactly(a, b, doc, sel)))
  {
    hide Bound, Unbound, BindSlots, SlotStep, Parted, Clean, Unused, Separable, RootStill, RootFree, Read, Tidy,
      Coherent;
    var site := SiteOf(doc, sel);
    var ts := SiteTargets(site);
    WorkableReady(doc, sel);
    forall c | c in site.cs ensures Unused(a, ContainerSlots(doc, c)) && PartedSlots(a, b, ContainerSlots(doc, c)) {
      SlotsSeparate(a, b, ContainerSlots(doc, c));
    }
    var one := Bound(a, doc, sel, lenient);
    BoundSite(a, doc, sel, lenient);
    var two := Bound(b, one, sel, lenient);
    BoundSite(b, one, sel, lenient);
    var three := Unbound(a, two, sel);
    UnboundSite(a, two, sel);
    var alone := Bound(b, doc, sel, lenient);
    BoundSite(b, doc, sel, lenient);
    VolumesReadable(doc, sel);
    VolumesSeparate(a, b, Volumes(doc, sel));
    FollowsTrans(doc, one, two, ts, {sel});
    FollowsTrans(doc, two, three, ts, {sel});
    if a.files && b.files && RootFree(a, b) {
      FilesExactly(a, b, doc, sel, three, alone);
    }
  }

  lemma VolumesReadable(doc: Json, sel: Selection)
    requires Workable(doc, sel)
    ensures !Volumes(doc, sel).Bad?
  {
    assert VolumeT(sel) in SiteTargets(SiteOf(doc, sel));
  }

  /** What SlotsSeparate says of one container. */
  ghost predicate PartedSlots(a: Binding, b: Binding, s: Slots)
  {
    var one := BindSlots(a, s);
    var two := BindSlots(b, one);
    var r, t := SlotStep(Removal, a, two), BindSlots(b, s);
    && Clean(AsEnv, a, s) && Clean(AsEnv, b, one) && Clean(Removal, a, two) && Parted(a, b, s, r, t)
    && (a.files && b.files ==> (r == t <==> Listed(r.env) == Listed(t.env) && Listed(r.mounts) == Listed(t.mounts)))
  }

  lemma FilesExactly(a: Binding, b: Binding, doc: Json, sel: Selection, d: Json, e: Json)
    requires a.files && b.files && RootFree(a, b) && Plain(d) && Plain(e)
    requires Follows(doc, d, SiteTargets(SiteOf(doc, sel)), {sel})
    requires Follows(doc, e, SiteTargets(SiteOf(doc, sel)), {sel})
    requires Volumes(d, sel) == Volumes(e, sel)
    requires forall c :: c in SiteOf(doc, sel).cs ==>
      && PartedSlots(a, b, ContainerSlots(doc, c))
      && ContainerSlots(d, c) == SlotStep(Removal, a, BindSlots(b, BindSlots(a, ContainerSlots(doc, c))))
      && ContainerSlots(e, c) == BindSlots(b, ContainerSlots(doc, c))
    ensures d == e <==> PartedExactly(a, b, doc, sel)
  {
    hide BindSlots, SlotStep, Clean, Separable, RootStill, Read, Follows, ContainerSlots, SiteOf, Volumes, NonRoot;
    if PartedExactly(a, b, doc, sel) {
      SameStored(doc, d, e, sel, sel);
    }
  }
}
