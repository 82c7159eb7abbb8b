/**
 What a bound workload holds, read from its document field by field: volumes
 show the secret, mounts lie beneath the binding root, variables refer to their
 keys, and everything else in the lists is kept.
 */
module Contents {

  import opened Sequences
  import opened Documents
  import opened Entries
  import opened Pods
  import opened Views
  import opened Projection
  import opened Slots
  import opened Laws
  import opened Stored
  import opened Theorems

  // ---- Entries of a name ----

  /** After an upsert every entry of the name is the new one. */
  lemma UpsertedNamed(kind: Kind, xs: seq<Json>, n: string, e: Json)
    requires kind != EnvFrom && HasName(e, n) && e.Obj?
    ensures exists i :: 0 <= i < |Upserted(kind, xs, n, e)| && HasName(Upserted(kind, xs, n, e)[i], n)
    ensures forall i :: 0 <= i < |Upserted(kind, xs, n, e)| && HasName(Upserted(kind, xs, n, e)[i], n) ==>
      Upserted(kind, xs, n, e)[i] == e
  {
    var ys := Upserted(kind, xs, n, e);
    NamedByName(kind, n);
    if Has(kind, xs, n) {
      var k := FirstNamed(kind, xs, n);
      assert ys[k] == e;
    } else {
      NoneAt(kind, xs, n);
      assert ys[|xs|] == e;
    }
  }

  // ---- The path of a mount ----

  /** The first variable of the environment that sets the binding root has this value. */
  ghost predicate RootShown(env: seq<Json>, root: string)
  {
    exists i :: FirstRoot(env, i) && FieldText(env[i], "value") == root
  }

  predicate FirstRoot(env: seq<Json>, i: int)
  {
    && 0 <= i < |env| && HasName(env[i], "SERVICE_BINDING_ROOT")
    && forall j :: 0 <= j < i ==> !HasName(env[j], "SERVICE_BINDING_ROOT")
  }

  /** The path is the root, one slash, and the name; just the name without a root. */
  predicate Beneath(path: string, root: string, name: string)
  {
    if root == "" then path == name
    else
      && |path| == |root| + 1 + |name| && path[..|root|] == root
      && path[|root|] == '/' && path[|root| + 1..] == name
  }

  lemma JoinedBeneath(root: string, name: string)
    ensures Beneath(JoinPath(root, name), root, name)
  {
  }

  lemma {:induction false} RootIsFirst(env: seq<Json>)
    requires Has(EnvVar, env, BINDING_ROOT_VAR)
    ensures RootShown(env, RootOf(env))
  {
    var k := FirstNamed(EnvVar, env, BINDING_ROOT_VAR);
    NamedIff();
    RootValue(env, k);
    assert FirstRoot(env, k);
  }

  lemma NamedIff()
    ensures forall e, n :: Named(EnvVar, e, n) <==> HasName(e, n)
  {
  }

  lemma {:induction false} RootValue(env: seq<Json>, k: nat)
    requires k < |env| && Named(EnvVar, env[k], BINDING_ROOT_VAR)
    requires forall j :: 0 <= j < k ==> !Named(EnvVar, env[j], BINDING_ROOT_VAR)
    ensures RootOf(env) == FieldText(env[k], "value")
    decreases k
  {
    if k > 0 {
      RootValue(env[1..], k - 1);
    } else {
      assert [Key("value")][1..] == [];
    }
  }

  /** Every mount of the name has a path beneath the root, and there is one. */
  predicate MountsBeneath(ms: seq<Json>, name: string, root: string)
  {
    && (exists i :: 0 <= i < |ms| && HasName(ms[i], name))
    && forall i :: 0 <= i < |ms| && HasName(ms[i], name) ==>
         var p := Walk(ms[i], [Key("mountPath")]);
         p.Found? && p.value.Str? && Beneath(p.value.text, root, name)
  }

  /** The root that the environment had before, or the default one. */
  ghost predicate RootBefore(env: seq<Json>, root: string)
  {
    if exists i :: 0 <= i < |env| && HasName(env[i], "SERVICE_BINDING_ROOT") then RootShown(env, root)
    else root == "/bindings"
  }

  /** A file-mode pass mounts the binding beneath the root that the first
      variable of the environment names then. Unless the binding maps that
      variable itself, this is the root from before, or the default one. */
  lemma MountHolds(b: Binding, s: Slots) returns (root: string)
    requires Readable(s) && b.files
    ensures var t := BindSlots(b, s);
      && RootShown(Listed(t.env), root)
      && MountsBeneath(Listed(t.mounts), b.name, root)
      && ("SERVICE_BINDING_ROOT" !in Variables(b) ==> RootBefore(Listed(s.env), root))
  {
    hide RootShown, RootBefore;
    var t := BindSlots(b, s);
    BindEnvIs(b, s);
    root := RootOf(Listed(t.env));
    var ys := DropList(EnvVar, Listed(s.env), Variables(b)) + EnvEntries(b);
    WithRootHas(ys);
    RootIsFirst(Listed(t.env));
    var m := MountEntry(b.name, JoinPath(root, b.name));
    JoinedBeneath(root, b.name);
    UpsertedNamed(VolumeMount, Listed(s.mounts), b.name, m);
    if "SERVICE_BINDING_ROOT" !in Variables(b) { RootStays(b, s); }
  }

  lemma WithRootHas(xs: seq<Json>)
    ensures Has(EnvVar, WithRoot(xs), BINDING_ROOT_VAR)
  {
    CountConcat(EnvVar, xs, [ROOT_ENTRY], BINDING_ROOT_VAR);
    CountOne(EnvVar, ROOT_ENTRY, BINDING_ROOT_VAR);
  }

  lemma RootStays(b: Binding, s: Slots)
    requires Readable(s) && b.files && BINDING_ROOT_VAR !in Variables(b)
    ensures RootBefore(Listed(s.env), RootOf(Listed(BindSlots(b, s).env)))
  {
    hide RootShown;
    var xs := Listed(s.env);
    var ys := DropList(EnvVar, xs, Variables(b));
    BindEnvIs(b, s);
    CountDropList(EnvVar, xs, Variables(b), BINDING_ROOT_VAR);
    CountVariable(b, BINDING_ROOT_VAR);
    CountConcat(EnvVar, ys, EnvEntries(b), BINDING_ROOT_VAR);
    RootOfConcat(ys, EnvEntries(b));
    RootOfConcat(ys + EnvEntries(b), [ROOT_ENTRY]);
    RootDropped(xs, Variables(b));
    NamedIff();
    if Has(EnvVar, xs, BINDING_ROOT_VAR) {
      RootIsFirst(xs);
      var k := FirstNamed(EnvVar, xs, BINDING_ROOT_VAR);
      assert HasName(xs[k], "SERVICE_BINDING_ROOT");
    } else {
      NoneAt(EnvVar, xs, BINDING_ROOT_VAR);
      assert RootOf([ROOT_ENTRY]) == "/bindings";
    }
  }

  lemma {:induction false} RootDropped(xs: seq<Json>, names: seq<string>)
    requires BINDING_ROOT_VAR !in names
    ensures RootOf(DropList(EnvVar, xs, names)) == RootOf(xs)
    decreases |names|
  {
    if names != [] {
      RootDropOne(xs, names[0]);
      RootDropped(DropFirst(EnvVar, xs, names[0]), names[1..]);
    }
  }

  lemma {:induction false} RootDropOne(xs: seq<Json>, n: string)
    requires n != BINDING_ROOT_VAR
    ensures RootOf(DropFirst(EnvVar, xs, n)) == RootOf(xs)
  {
    if xs != [] && !Named(EnvVar, xs[0], n) {
      RootDropOne(xs[1..], n);
      var rest := DropFirst(EnvVar, xs[1..], n);
      assert ([xs[0]] + rest)[0] == xs[0] && ([xs[0]] + rest)[1..] == rest;
    }
  }

  // ---- The key of a variable ----

  /** The entry shows a key of the secret. */
  predicate ShowsKey(e: Json, secret: string, key: string)
  {
    && Walk(e, [Key("valueFrom"), Key("secretKeyRef"), Key("key")]) == Found(Str(key))
    && Walk(e, [Key("valueFrom"), Key("secretKeyRef"), Key("name")]) ==
         if secret == "" then Missing else Found(Str(secret))
  }

  lemma EntryShowsKey(e: EnvBinding, secret: string)
    ensures HasName(EnvEntry(e, secret), e.variable) && ShowsKey(EnvEntry(e, secret), secret, e.key)
  {
    var entry := EnvEntry(e, secret);
    var source := entry.fields["valueFrom"];
    var ref := source.fields["secretKeyRef"];
    forall k | k in {"key", "name"}
      ensures Walk(entry, [Key("valueFrom"), Key("secretKeyRef"), Key(k)]) == Walk(ref, [Key(k)])
    {
      assert [Key("valueFrom")] + [Key("secretKeyRef"), Key(k)] == [Key("valueFrom"), Key("secretKeyRef"), Key(k)];
      WalkSplit(entry, [Key("valueFrom")], [Key("secretKeyRef"), Key(k)]);
      TwoSteps(source, "secretKeyRef", k);
    }
  }

  /** Each mapped variable is there once, and shows its key of the secret. */
  ghost predicate VariablesShown(env: seq<Json>, b: Binding)
  {
    forall i :: 0 <= i < |b.env| ==> VariableShown(env, b.env[i], b.secret)
  }

  ghost predicate VariableShown(env: seq<Json>, e: EnvBinding, secret: string)
  {
    exists k :: NamedAlone(env, e.variable, k) && ShowsKey(env[k], secret, e.key)
  }

  /** In a list that ends in the variables, and perhaps the root. */
  lemma ListShows(b: Binding, ys: seq<Json>, zs: seq<Json>)
    requires NoneNamed(ys, Variables(b)) && Distinct(Variables(b))
    requires zs == [] || (zs == [ROOT_ENTRY] && BINDING_ROOT_VAR !in Variables(b))
    ensures VariablesShown(ys + EnvEntries(b) + zs, b)
  {
    hide ShowsKey, EnvEntry, Count;
    var es := EnvEntries(b);
    var env := ys + es + zs;
    forall i | 0 <= i < |b.env|
      ensures VariableShown(env, b.env[i], b.secret)
    {
      var n := b.env[i].variable;
      assert Variables(b)[i] == n && n in Variables(b);
      EntryShowsKey(b.env[i], b.secret);
      assert env[|ys| + i] == es[i] == EnvEntry(b.env[i], b.secret);
      NoneAt(EnvVar, ys, n);
      NamedIff();
      forall j | 0 <= j < |env| ensures HasName(env[j], n) <==> j == |ys| + i {
        if j < |ys| {
          assert env[j] == ys[j];
        } else if j < |ys| + |es| {
          EntryShowsKey(b.env[j - |ys|], b.secret);
          assert env[j] == es[j - |ys|] && Variables(b)[j - |ys|] == b.env[j - |ys|].variable;
        } else {
          assert env[j] == ROOT_ENTRY;
        }
      }
      assert NamedAlone(env, n, |ys| + i);
    }
  }

  lemma VariablesHold(b: Binding, s: Slots)
    requires Readable(s) && Clean(AsEnv, b, s) && Distinct(Variables(b))
    ensures VariablesShown(Listed(BindSlots(b, s).env), b)
  {
    hide VariablesShown, EnvEntries;
    if b.env == [] && b.files {
      NoVariables(b, Listed(BindSlots(b, s).env));
    } else {
      var ys := AddEnvResult(b, s.env);
      var es := EnvEntries(b);
      CountVariable(b, BINDING_ROOT_VAR);
      CountConcat(EnvVar, ys, es, BINDING_ROOT_VAR);
      if b.files { BindEnvIs(b, s); }
      ListShows(b, ys, if b.files && !Has(EnvVar, ys + es, BINDING_ROOT_VAR) then [ROOT_ENTRY] else []);
      assert ys + es + [] == ys + es;
    }
  }

  lemma NoVariables(b: Binding, env: seq<Json>)
    requires b.env == []
    ensures VariablesShown(env, b)
  {
  }

  // ---- The reference to the secret ----

  predicate RefersTo(e: Json, secret: string)
  {
    Walk(e, [Key("secretRef"), Key("name")]) == Found(Str(secret))
  }

  /** Exactly one entry refers to the secret. */
  ghost predicate ReferredOnce(es: seq<Json>, secret: string)
  {
    exists i :: ReferredAt(es, secret, i)
  }

  predicate ReferredAt(es: seq<Json>, secret: string, i: int)
  {
    0 <= i < |es| && forall j :: 0 <= j < |es| ==> (RefersTo(es[j], secret) <==> j == i)
  }

  lemma ReferenceHolds(b: Binding, s: Slots)
    requires Readable(s) && Clean(AsEnv, b, s) && !b.files
    ensures ReferredOnce(Listed(BindSlots(b, s).envFrom), b.secret)
  {
    EnvFromAgain(b.secret, s.envFrom);
    RefName(b.secret, b.secret);
    var ys := DropFirst(EnvFrom, Listed(s.envFrom), b.secret);
    NoneAt(EnvFrom, ys, b.secret);
    RefersNamed(b.secret);
    var es := ys + [SecretRefEntry(b.secret)];
    assert ReferredAt(es, b.secret, |ys|);
  }

  lemma RefersNamed(n: string)
    ensures forall e :: RefersTo(e, n) <==> Named(EnvFrom, e, n)
  {
    forall e: Json ensures RefersTo(e, n) ==> e.Obj? { TwoSteps(e, "secretRef", "name"); }
  }

  // ---- What is kept ----

  /** The entries that carry none of the names, in order. */
  function Unnamed(kind: Kind, xs: seq<Json>, names: set<string>): seq<Json>
  {
    if xs == [] then []
    else (if NamedIn(kind, xs[0], names) then [] else [xs[0]]) + Unnamed(kind, xs[1..], names)
  }

  predicate NamedIn(kind: Kind, e: Json, names: set<string>)
  {
    exists n :: n in names && Named(kind, e, n)
  }

  lemma {:induction false} UnnamedConcat(kind: Kind, xs: seq<Json>, ys: seq<Json>, names: set<string>)
    ensures Unnamed(kind, xs + ys, names) == Unnamed(kind, xs, names) + Unnamed(kind, ys, names)
  {
    hide Named;
    if xs == [] {
      assert xs + ys == ys;
    } else {
      assert (xs + ys)[0] == xs[0] && (xs + ys)[1..] == xs[1..] + ys;
      UnnamedConcat(kind, xs[1..], ys, names);
    }
  }

  lemma {:induction false} UnnamedNone(kind: Kind, xs: seq<Json>, names: set<string>)
    requires forall i :: 0 <= i < |xs| ==> NamedIn(kind, xs[i], names)
    ensures Unnamed(kind, xs, names) == []
  {
    hide Named;
    if xs != [] {
      UnnamedNone(kind, xs[1..], names);
    }
  }

  lemma {:induction false} UnnamedDrop(kind: Kind, xs: seq<Json>, n: string, names: set<string>)
    requires n in names
    ensures Unnamed(kind, DropFirst(kind, xs, n), names) == Unnamed(kind, xs, names)
  {
    hide Named;
    if xs != [] {
      if Named(kind, xs[0], n) {
      } else {
        UnnamedDrop(kind, xs[1..], n, names);
        UnnamedConcat(kind, [xs[0]], DropFirst(kind, xs[1..], n), names);
        UnnamedConcat(kind, [xs[0]], xs[1..], names);
        assert [xs[0]] + xs[1..] == xs;
      }
    }
  }

  lemma {:induction false} UnnamedDropList(kind: Kind, xs: seq<Json>, ns: seq<string>, names: set<string>)
    requires forall n :: n in ns ==> n in names
    ensures Unnamed(kind, DropList(kind, xs, ns), names) == Unnamed(kind, xs, names)
    decreases |ns|
  {
    hide Named, DropFirst;
    if ns != [] {
      UnnamedDrop(kind, xs, ns[0], names);
      UnnamedDropList(kind, DropFirst(kind, xs, ns[0]), ns[1..], names);
    }
  }

  /** The names that a binding writes in an environment. */
  function EnvNamesOf(b: Binding): set<string>
  {
    (set n | n in Variables(b)) + (if b.files then {"SERVICE_BINDING_ROOT"} else {})
  }

  lemma EnvKept(b: Binding, s: Slots)
    requires Readable(s)
    ensures Unnamed(EnvVar, Listed(BindSlots(b, s).env), EnvNamesOf(b)) ==
      Unnamed(EnvVar, Listed(s.env), EnvNamesOf(b))
  {
    hide Named, Unnamed, DropList;
    var names, xs, es := EnvNamesOf(b), Listed(s.env), EnvEntries(b);
    var ys := AddEnvResult(b, s.env);
    EnvNames(b);
    forall i | 0 <= i < |es| ensures NamedIn(EnvVar, es[i], names) {
      assert Variables(b)[i] in names;
    }
    UnnamedNone(EnvVar, es, names);
    UnnamedDropList(EnvVar, xs, Variables(b), names);
    UnnamedConcat(EnvVar, ys, es, names);
    if b.files {
      BindEnvIs(b, s);
      EntryNames(b, "", BINDING_ROOT_VAR);
      UnnamedNone(EnvVar, [ROOT_ENTRY], names);
      UnnamedConcat(EnvVar, ys + es, [ROOT_ENTRY], names);
    }
  }

  lemma {:induction false} UnnamedReplace(kind: Kind, xs: seq<Json>, n: string, e: Json)
    requires Named(kind, e, n)
    ensures Unnamed(kind, Replace(kind, xs, n, e), {n}) == Unnamed(kind, xs, {n})
  {
    hide Named;
    if xs != [] {
      assert Replace(kind, xs, n, e)[1..] == Replace(kind, xs[1..], n, e);
      UnnamedReplace(kind, xs[1..], n, e);
    }
  }

  lemma UpsertKeeps(kind: Kind, xs: seq<Json>, n: string, e: Json)
    requires Named(kind, e, n)
    ensures Unnamed(kind, Upserted(kind, xs, n, e), {n}) == Unnamed(kind, xs, {n})
  {
    hide Named;
    if Has(kind, xs, n) {
      UnnamedReplace(kind, xs, n, e);
    } else {
      UnnamedConcat(kind, xs, [e], {n});
      UnnamedNone(kind, [e], {n});
    }
  }

  lemma MountsKept(b: Binding, s: Slots)
    requires Readable(s)
    ensures Unnamed(VolumeMount, Listed(BindSlots(b, s).mounts), {b.name}) ==
      Unnamed(VolumeMount, Listed(s.mounts), {b.name})
    ensures !b.files ==> BindSlots(b, s).mounts == s.mounts
  {
    hide Unnamed;
    if b.files {
      BindEnvIs(b, s);
      var path := JoinPath(RootOf(Listed(BindSlots(b, s).env)), b.name);
      EntryNames(b, path, b.name);
      UpsertKeeps(VolumeMount, Listed(s.mounts), b.name, MountEntry(b.name, path));
    }
  }

  lemma SourcesKept(b: Binding, s: Slots)
    requires Readable(s) && Clean(AsEnv, b, s)
    ensures Unnamed(EnvFrom, Listed(BindSlots(b, s).envFrom), {b.secret}) ==
      Unnamed(EnvFrom, Listed(s.envFrom), {b.secret})
    ensures b.files ==> BindSlots(b, s).envFrom == s.envFrom
  {
    hide Unnamed, Named;
    if b.files {
      BindEnvIs(b, s);
    } else {
      EnvFromAgain(b.secret, s.envFrom);
      RefName(b.secret, b.secret);
      UnnamedDrop(EnvFrom, Listed(s.envFrom), b.secret, {b.secret});
      UnnamedNone(EnvFrom, [SecretRefEntry(b.secret)], {b.secret});
      UnnamedConcat(EnvFrom, DropFirst(EnvFrom, Listed(s.envFrom), b.secret), [SecretRefEntry(b.secret)], {b.secret});
    }
  }

  // ---- One container ----

  /** What a pass leaves in the lists of a container. */
  ghost predicate Carries(b: Binding, s: Slots, t: Slots)
  {
    && VariablesShown(Listed(t.env), b)
    && (if b.files
        then exists root ::
          && RootShown(Listed(t.env), root) && MountsBeneath(Listed(t.mounts), b.name, root)
          && ("SERVICE_BINDING_ROOT" !in Variables(b) ==> RootBefore(Listed(s.env), root))
        else ReferredOnce(Listed(t.envFrom), b.secret))
    && Unnamed(EnvVar, Listed(t.env), EnvNamesOf(b)) == Unnamed(EnvVar, Listed(s.env), EnvNamesOf(b))
    && Unnamed(VolumeMount, Listed(t.mounts), {b.name}) == Unnamed(VolumeMount, Listed(s.mounts), {b.name})
    && Unnamed(EnvFrom, Listed(t.envFrom), {b.secret}) == Unnamed(EnvFrom, Listed(s.envFrom), {b.secret})
    && (if b.files then t.envFrom == s.envFrom else t.mounts == s.mounts)
    && (!b.files && b.env == [] && Listed(s.env) == [] ==> t.env.Gone?)
  }

  lemma SlotsHold(b: Binding, s: Slots)
    requires Readable(s) && Clean(AsEnv, b, s) && Distinct(Variables(b))
    ensures Carries(b, s, BindSlots(b, s))
  {
    hide VariablesShown, RootShown, MountsBeneath, RootBefore, ReferredOnce, Unnamed, Clean, EnvNamesOf;
    VariablesHold(b, s);
    EnvKept(b, s);
    MountsKept(b, s);
    SourcesKept(b, s);
    if b.files {
      var root := MountHolds(b, s);
    } else {
      ReferenceHolds(b, s);
      NothingAppended(b, s);
    }
  }

  lemma NothingAppended(b: Binding, s: Slots)
    requires Readable(s) && !b.files
    ensures b.env == [] && Listed(s.env) == [] ==> BindSlots(b, s).env.Gone?
  {
    var ys := AddEnvResult(b, s.env);
  }

  // ---- The workload ----

  /**
   * A pass that projects a binding leaves in every container each mapped
   * variable once, with its key and secret; in file mode a volume that shows the
   * secret and mounts of it beneath the binding root; in environment mode one
   * reference to the secret. All other entries of the lists keep value and order.
   */
  lemma Delivered(b: Binding, doc: Json, sel: Selection, lenient: bool)
    requires Workable(doc, sel) && CleanFor(AsEnv, b, doc, sel) && Distinct(Variables(b))
    ensures var d := Bound(b, doc, sel, lenient);
      && SiteOf(d, sel) == SiteOf(doc, sel)
      && (forall c :: c in SiteOf(doc, sel).cs ==> Carries(b, ContainerSlots(doc, c), ContainerSlots(d, c)))
      && (if b.files then VolumeShows(Listed(Volumes(d, sel)), b.name, b.secret)
          else Volumes(d, sel) == Volumes(doc, sel))
      && Unnamed(Volume, Listed(Volumes(d, sel)), {b.name}) == Unnamed(Volume, Listed(Volumes(doc, sel)), {b.name})
  {
    hide Workable, Carries, Bound, SiteOf, ContainerSlots, Volumes, Clean, Follows, SiteTargets, Unnamed, BindSlots,
      VolumeShows, Readable, Distinct, ProjectDoc, Upserted;
    BoundSite(b, doc, sel, lenient);
    WorkableReady(doc, sel);
    forall c | c in SiteOf(doc, sel).cs
      ensures Carries(b, ContainerSlots(doc, c), BindSlots(b, ContainerSlots(doc, c)))
    {
      SlotsHold(b, ContainerSlots(doc, c));
    }
    if b.files {
      VolumeReadable(doc, sel);
      VolumeArrives(b, Volumes(doc, sel));
    }
  }

  lemma VolumeArrives(b: Binding, s: Slot)
    requires !s.Bad?
    ensures var t := Run(Volume, Upsert(b.name, VolumeEntry(b)), s);
      && VolumeShows(Listed(t), b.name, b.secret)
      && Unnamed(Volume, Listed(t), {b.name}) == Unnamed(Volume, Listed(s), {b.name})
  {
    hide Unnamed;
    VolumeHolds(b);
    EntryNames(b, "", b.name);
    UpsertedNamed(Volume, Listed(s), b.name, VolumeEntry(b));
    UpsertKeeps(Volume, Listed(s), b.name, VolumeEntry(b));
  }

  lemma VolumeReadable(doc: Json, sel: Selection)
    requires Workable(doc, sel)
    ensures !Volumes(doc, sel).Bad?
  {
    assert VolumeT(sel) in SiteTargets(SiteOf(doc, sel));
  }
}
