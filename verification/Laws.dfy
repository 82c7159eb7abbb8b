/**
 Laws of projection and removal on the lists of one container: both are
 idempotent, projection converges, and removal undoes it.
 */
module Laws {

  import opened Sequences
  import opened Documents
  import opened Entries
  import opened Pods
  import opened Views
  import opened Projection
  import opened Slots

  // ---- Names of the entries the operator creates ----

  lemma EntryNames(b: Binding, path: string, n: string)
    ensures Named(Volume, VolumeEntry(b), n) <==> n == b.name
    ensures Named(VolumeMount, MountEntry(b.name, path), n) <==> n == b.name
    ensures Named(EnvVar, ROOT_ENTRY, n) <==> n == BINDING_ROOT_VAR
  {
  }

  lemma RefName(secret: string, n: string)
    ensures Named(EnvFrom, SecretRefEntry(secret), n) <==> n == secret && secret != ""
  {
    var e := SecretRefEntry(secret);
    assert Walk(e, [Key("secretRef"), Key("name")]) == Walk(e.fields["secretRef"], [Key("name")]) by {
      assert [Key("secretRef"), Key("name")][1..] == [Key("name")];
    }
  }

  lemma EnvNames(b: Binding)
    ensures |EnvEntries(b)| == |Variables(b)|
    ensures forall i, n :: 0 <= i < |EnvEntries(b)| ==> (Named(EnvVar, EnvEntries(b)[i], n) <==> n == Variables(b)[i])
  {
  }

  // ---- Idempotence ----

  lemma {:induction false} ReplaceCount(kind: Kind, xs: seq<Json>, n: string, e: Json)
    requires Named(kind, e, n)
    ensures Count(kind, Replace(kind, xs, n, e), n) == Count(kind, xs, n)
  {
    if xs != [] {
      assert Replace(kind, xs, n, e)[1..] == Replace(kind, xs[1..], n, e);
      ReplaceCount(kind, xs[1..], n, e);
    }
  }

  lemma {:induction false} ReplaceNone(kind: Kind, xs: seq<Json>, n: string, e: Json)
    requires !Has(kind, xs, n)
    ensures Replace(kind, xs, n, e) == xs
  {
    if xs != [] {
      ReplaceNone(kind, xs[1..], n, e);
      assert Replace(kind, xs, n, e) == [xs[0]] + Replace(kind, xs[1..], n, e);
    }
  }

  lemma UpsertUpsert(kind: Kind, xs: seq<Json>, n: string, e: Json, f: Json)
    requires Named(kind, e, n)
    ensures Upserted(kind, Upserted(kind, xs, n, e), n, f) == Upserted(kind, xs, n, f)
  {
    if Has(kind, xs, n) {
      ReplaceCount(kind, xs, n, e);
      assert Replace(kind, Replace(kind, xs, n, e), n, f) == Replace(kind, xs, n, f);
    } else {
      CountConcat(kind, xs, [e], n);
      CountOne(kind, e, n);
      ReplaceNone(kind, xs, n, f);
      assert Replace(kind, xs + [e], n, f) == Replace(kind, xs, n, f) + [f];
    }
  }

  predicate AllUnique(xs: seq<Json>, names: seq<string>)
  {
    forall n :: n in names ==> Unique(EnvVar, xs, n)
  }

  /** The lists hold at most one entry for each name the step removes. */
  predicate Clean(act: Action, b: Binding, s: Slots)
  {
    match act
    case AsEnv =>
      AllUnique(Listed(s.env), Variables(b)) &&
      (b.files || (b.secret != "" && Unique(EnvFrom, Listed(s.envFrom), b.secret)))
    case AsFiles => true
    case Removal =>
      AllUnique(Listed(s.env), SecretKeys(b)) && Unique(EnvFrom, Listed(s.envFrom), b.secret) &&
      Unique(VolumeMount, Listed(s.mounts), b.name)
  }

  /** The environment after AddEnvVars: the variables, at the end, once. */
  lemma AddEnvResult(b: Binding, s: Slot) returns (ys: seq<Json>)
    requires !s.Bad?
    ensures ys == DropList(EnvVar, Listed(s), Variables(b))
    ensures Run(EnvVar, Append(EnvEntries(b)), DropNames(EnvVar, s, Variables(b))) == Appended(ys + EnvEntries(b))
    ensures AllUnique(Listed(s), Variables(b)) ==> forall n :: n in Variables(b) ==> !Has(EnvVar, ys, n)
    ensures forall n :: !Has(EnvVar, Listed(s), n) ==> !Has(EnvVar, ys, n)
  {
    ys := DropList(EnvVar, Listed(s), Variables(b));
    DropNamesIsList(EnvVar, s, Variables(b));
    forall n ensures !Has(EnvVar, Listed(s), n) ==> !Has(EnvVar, ys, n)
             ensures n in Variables(b) && Unique(EnvVar, Listed(s), n) ==> !Has(EnvVar, ys, n) {
      CountDropList(EnvVar, Listed(s), Variables(b), n);
    }
  }

  /** Adding the variables to a list that ends in them changes nothing. */
  lemma AddEnvAgain(b: Binding, s: Slot, ys: seq<Json>, zs: seq<Json>)
    requires !s.Bad? && Listed(s) == ys + EnvEntries(b) + zs
    requires forall n :: n in Variables(b) ==> !Has(EnvVar, ys, n)
    ensures Run(EnvVar, Append(EnvEntries(b)), DropNames(EnvVar, s, Variables(b))) == Appended(ys + zs + EnvEntries(b))
  {
    EnvNames(b);
    DropNamesIsList(EnvVar, s, Variables(b));
    DropOwn(EnvVar, ys, EnvEntries(b), zs, Variables(b));
  }

  lemma EnvFromAgain(secret: string, s: Slot)
    requires !s.Bad? && secret != "" && Unique(EnvFrom, Listed(s), secret)
    ensures var once := Run(EnvFrom, Append([SecretRefEntry(secret)]), Run(EnvFrom, Drop(secret), s));
      && once == Present(DropFirst(EnvFrom, Listed(s), secret) + [SecretRefEntry(secret)])
      && !Has(EnvFrom, DropFirst(EnvFrom, Listed(s), secret), secret)
      && Run(EnvFrom, Append([SecretRefEntry(secret)]), Run(EnvFrom, Drop(secret), once)) == once
  {
    var xs, e := Listed(s), SecretRefEntry(secret);
    var ys := DropFirst(EnvFrom, xs, secret);
    if !Has(EnvFrom, xs, secret) { DropNone(EnvFrom, xs, secret); }
    CountDrop(EnvFrom, xs, secret, secret);
    RefName(secret, secret);
    DropSkips(EnvFrom, ys, [e], secret);
    CountConcat(EnvFrom, ys, [e], secret);
    CountOne(EnvFrom, e, secret);
    assert DropFirst(EnvFrom, [e], secret) == [] && ys + [] == ys;
  }

  predicate Readable(s: Slots)
  {
    !s.env.Bad? && !s.envFrom.Bad? && !s.mounts.Bad?
  }

  /** Doing a step again on the same container changes nothing. */
  lemma StepAgain(act: Action, b: Binding, s: Slots)
    requires Readable(s) && Clean(act, b, s)
    ensures SlotStep(act, b, SlotStep(act, b, s)) == SlotStep(act, b, s)
  {
    match act
    case AsEnv =>
      var ys := AddEnvResult(b, s.env);
      assert ys + EnvEntries(b) + [] == ys + EnvEntries(b);
      AddEnvAgain(b, Appended(ys + EnvEntries(b)), ys, []);
      assert ys + [] + EnvEntries(b) == ys + EnvEntries(b);
      if !b.files { EnvFromAgain(b.secret, s.envFrom); }
    case AsFiles =>
      EnsureAgain(s.env);
      var path := JoinPath(RootOf(Listed(SlotStep(act, b, s).env)), b.name);
      EntryNames(b, path, b.name);
      UpsertUpsert(VolumeMount, Listed(s.mounts), b.name, MountEntry(b.name, path), MountEntry(b.name, path));
    case Removal =>
      DropNamesIsList(EnvVar, s.env, SecretKeys(b));
      DropNamesIsList(EnvVar, DropNames(EnvVar, s.env, SecretKeys(b)), SecretKeys(b));
      var ys := DropList(EnvVar, Listed(s.env), SecretKeys(b));
      forall n | n in SecretKeys(b) ensures !Has(EnvVar, ys, n) {
        CountDropList(EnvVar, Listed(s.env), SecretKeys(b), n);
      }
      DropListNone(EnvVar, ys, SecretKeys(b));
      CountDrop(EnvFrom, Listed(s.envFrom), b.secret, b.secret);
      CountDrop(VolumeMount, Listed(s.mounts), b.name, b.name);
  }

  lemma EnsureAgain(s: Slot)
    ensures Run(EnvVar, Ensure(BINDING_ROOT_VAR, ROOT_ENTRY), Run(EnvVar, Ensure(BINDING_ROOT_VAR, ROOT_ENTRY), s))
         == Run(EnvVar, Ensure(BINDING_ROOT_VAR, ROOT_ENTRY), s)
  {
    CountOne(EnvVar, ROOT_ENTRY, BINDING_ROOT_VAR);
    CountConcat(EnvVar, Listed(s), [ROOT_ENTRY], BINDING_ROOT_VAR);
  }

  lemma {:induction false} RepeatFixed(act: Action, b: Binding, s: Slots, n: nat)
    requires SlotStep(act, b, s) == s
    ensures Repeat(act, b, s, n) == s
    decreases n
  {
    if n > 0 { RepeatFixed(act, b, s, n - 1); }
  }

  lemma RepeatOnce(act: Action, b: Binding, s: Slots, n: nat)
    requires n > 0 && Readable(s) && Clean(act, b, s)
    ensures Repeat(act, b, s, n) == SlotStep(act, b, s)
  {
    StepAgain(act, b, s);
    RepeatFixed(act, b, SlotStep(act, b, s), n - 1);
  }

  // ---- One pass over one container ----

  function BindSlots(b: Binding, s: Slots): Slots
  {
    var t := if b.files && b.env == [] then s else SlotStep(AsEnv, b, s);
    if b.files then SlotStep(AsFiles, b, t) else t
  }

  predicate NoneNamed(xs: seq<Json>, names: seq<string>)
  {
    forall n :: n in names ==> !Has(EnvVar, xs, n)
  }

  /** In file mode the environment becomes `ys`, the variables, and a binding
      root only if there is none yet. */
  function WithRoot(xs: seq<Json>): seq<Json>
  {
    if Has(EnvVar, xs, BINDING_ROOT_VAR) then xs else xs + [ROOT_ENTRY]
  }

  lemma BindEnvIs(b: Binding, s: Slots)
    requires Readable(s) && b.files
    ensures BindSlots(b, s).env ==
      if b.env == [] && Has(EnvVar, Listed(s.env), BINDING_ROOT_VAR) then s.env
      else Present(WithRoot(DropList(EnvVar, Listed(s.env), Variables(b)) + EnvEntries(b)))
    ensures var path := JoinPath(RootOf(Listed(BindSlots(b, s).env)), b.name);
      BindSlots(b, s).mounts == Present(Upserted(VolumeMount, Listed(s.mounts), b.name, MountEntry(b.name, path)))
    ensures BindSlots(b, s).envFrom == s.envFrom
  {
    if b.env == [] {
      assert Listed(s.env) + [] == Listed(s.env);
    } else {
      var ys := AddEnvResult(b, s.env);
    }
  }

  lemma {:induction false} RootOfConcat(xs: seq<Json>, ys: seq<Json>)
    ensures RootOf(xs + ys) == if Has(EnvVar, xs, BINDING_ROOT_VAR) then RootOf(xs) else RootOf(ys)
  {
    if xs == [] {
      assert xs + ys == ys;
    } else {
      assert (xs + ys)[0] == xs[0] && (xs + ys)[1..] == xs[1..] + ys;
      RootOfConcat(xs[1..], ys);
    }
  }

  /** The environment of the second and every later file-mode pass: a root
      added by the first pass now precedes the variables. */
  function SettledEnv(b: Binding, ys: seq<Json>): seq<Json>
  {
    (if Has(EnvVar, ys + EnvEntries(b), BINDING_ROOT_VAR) then ys else ys + [ROOT_ENTRY]) + EnvEntries(b)
  }

  lemma SettledEnvIs(b: Binding, ys: seq<Json>)
    requires NoneNamed(ys, Variables(b))
    ensures multiset(SettledEnv(b, ys)) == multiset(WithRoot(ys + EnvEntries(b)))
    ensures RootOf(SettledEnv(b, ys)) == RootOf(WithRoot(ys + EnvEntries(b)))
    ensures WithRoot(DropList(EnvVar, WithRoot(ys + EnvEntries(b)), Variables(b)) + EnvEntries(b)) == SettledEnv(b, ys)
    ensures WithRoot(DropList(EnvVar, SettledEnv(b, ys), Variables(b)) + EnvEntries(b)) == SettledEnv(b, ys)
    ensures Has(EnvVar, SettledEnv(b, ys), BINDING_ROOT_VAR)
  {
    hide EnvEntries, Named, Count, DropList;
    SettledFrom(b, b, ys);
    SettledAgain(b, ys);
    SettledRoot(b, ys);
  }

  lemma SettledHas(b: Binding, ys: seq<Json>)
    ensures Has(EnvVar, SettledEnv(b, ys), BINDING_ROOT_VAR)
  {
    hide EnvEntries;
    var es, r := EnvEntries(b), [ROOT_ENTRY];
    CountConcat(EnvVar, ys, r, BINDING_ROOT_VAR);
    CountConcat(EnvVar, ys + r, es, BINDING_ROOT_VAR);
    EntryNames(b, "", BINDING_ROOT_VAR);
    CountOne(EnvVar, ROOT_ENTRY, BINDING_ROOT_VAR);
  }

  lemma SettledAgain(b: Binding, ys: seq<Json>)
    requires NoneNamed(ys, Variables(b))
    ensures WithRoot(DropList(EnvVar, SettledEnv(b, ys), Variables(b)) + EnvEntries(b)) == SettledEnv(b, ys)
    ensures Has(EnvVar, SettledEnv(b, ys), BINDING_ROOT_VAR)
  {
    hide DropList;
    var es := EnvEntries(b);
    var zs := if Has(EnvVar, ys + es, BINDING_ROOT_VAR) then ys else ys + [ROOT_ENTRY];
    EnvNames(b);
    SettledHas(b, ys);
    if !Has(EnvVar, ys + es, BINDING_ROOT_VAR) {
      CountConcat(EnvVar, ys, es, BINDING_ROOT_VAR);
      RootNotAmong(b, ys);
    }
    assert zs + es + [] == zs + es && zs + [] == zs;
    DropOwn(EnvVar, zs, es, [], Variables(b));
  }

  lemma SettledRoot(b: Binding, ys: seq<Json>)
    ensures multiset(SettledEnv(b, ys)) == multiset(WithRoot(ys + EnvEntries(b)))
    ensures RootOf(SettledEnv(b, ys)) == RootOf(WithRoot(ys + EnvEntries(b)))
  {
    hide EnvEntries, Count, RootOf;
    var es, r := EnvEntries(b), [ROOT_ENTRY];
    if !Has(EnvVar, ys + es, BINDING_ROOT_VAR) {
      assert multiset(ys + r + es) == multiset(ys) + multiset(r) + multiset(es) == multiset(ys + es + r);
      CountConcat(EnvVar, ys, es, BINDING_ROOT_VAR);
      CountConcat(EnvVar, ys, r, BINDING_ROOT_VAR);
      CountOne(EnvVar, ROOT_ENTRY, BINDING_ROOT_VAR);
      EntryNames(b, "", BINDING_ROOT_VAR);
      RootOfConcat(ys + es, r);
      RootOfConcat(ys, r);
      RootOfConcat(ys + r, es);
    }
  }

  lemma RootNotAmong(b: Binding, ys: seq<Json>)
    requires NoneNamed(ys, Variables(b)) && !Has(EnvVar, EnvEntries(b), BINDING_ROOT_VAR)
    ensures NoneNamed(ys + [ROOT_ENTRY], Variables(b))
  {
    forall n | n in Variables(b) ensures !Has(EnvVar, ys + [ROOT_ENTRY], n) {
      CountVariable(b, n);
      CountConcat(EnvVar, ys, [ROOT_ENTRY], n);
      CountOne(EnvVar, ROOT_ENTRY, n);
    }
  }

  /** The variables of the binding are among its entries. */
  lemma CountVariable(b: Binding, n: string)
    ensures Has(EnvVar, EnvEntries(b), n) <==> n in Variables(b)
    ensures Distinct(Variables(b)) ==> Count(EnvVar, EnvEntries(b), n) == if n in Variables(b) then 1 else 0
  {
    EnvNames(b);
    CountNames(EnvEntries(b), Variables(b), n);
  }

  lemma {:induction false} CountNames(es: seq<Json>, names: seq<string>, n: string)
    requires |es| == |names|
    requires forall i, m :: 0 <= i < |es| ==> (Named(EnvVar, es[i], m) <==> m == names[i])
    ensures Has(EnvVar, es, n) <==> n in names
    ensures Distinct(names) ==> Unique(EnvVar, es, n)
    decreases |es|
  {
    if es != [] { CountNames(es[1..], names[1..], n); }
  }

  // ---- Convergence ----

  lemma SlotsConverge(b: Binding, s: Slots)
    requires Readable(s) && Clean(AsEnv, b, s)
    ensures var one := BindSlots(b, s);
      var two := BindSlots(b, one);
      && BindSlots(b, two) == two
      && (b.env == [] ==> two == one)
      && multiset(Listed(two.env)) == multiset(Listed(one.env))
      && two.mounts == one.mounts && two.envFrom == one.envFrom
  {
    var one := BindSlots(b, s);
    if !b.files {
      StepAgain(AsEnv, b, s);
    } else if b.env == [] {
      StepAgain(AsFiles, b, s);
    } else {
      var two := BindSlots(b, one);
      var ys := AddEnvResult(b, s.env);
      BindEnvIs(b, s);
      BindEnvIs(b, one);
      BindEnvIs(b, two);
      SettledEnvIs(b, ys);
      var m := MountEntry(b.name, JoinPath(RootOf(Listed(one.env)), b.name));
      EntryNames(b, JoinPath(RootOf(Listed(one.env)), b.name), b.name);
      UpsertUpsert(VolumeMount, Listed(s.mounts), b.name, m, m);
    }
  }

  /** Counts in a list followed by the variables and perhaps a root. */
  lemma CountBound(b: Binding, ys: seq<Json>, n: string)
    requires Distinct(Variables(b))
    ensures Count(EnvVar, ys + EnvEntries(b), n) == Count(EnvVar, ys, n) + (if n in Variables(b) then 1 else 0)
    ensures Count(EnvVar, WithRoot(ys + EnvEntries(b)), n) ==
      if n == BINDING_ROOT_VAR && !Has(EnvVar, ys + EnvEntries(b), n) then 1 else Count(EnvVar, ys + EnvEntries(b), n)
  {
    EnvNames(b);
    CountNames(EnvEntries(b), Variables(b), n);
    CountConcat(EnvVar, ys, EnvEntries(b), n);
    CountConcat(EnvVar, ys + EnvEntries(b), [ROOT_ENTRY], n);
    CountOne(EnvVar, ROOT_ENTRY, n);
  }

  /** A pass leaves the lists clean for the next one. */
  lemma CleanKept(b: Binding, s: Slots)
    requires Readable(s) && Clean(AsEnv, b, s) && Distinct(Variables(b))
    ensures Readable(BindSlots(b, s)) && Clean(AsEnv, b, BindSlots(b, s))
  {
    if b.env != [] || !b.files {
      var ys := AddEnvResult(b, s.env);
      if b.files { BindEnvIs(b, s); }
      forall n | n in Variables(b) ensures Unique(EnvVar, Listed(BindSlots(b, s).env), n) {
        CountBound(b, ys, n);
      }
    }
    if !b.files {
      EnvFromAgain(b.secret, s.envFrom);
      RefName(b.secret, b.secret);
      CountConcat(EnvFrom, DropFirst(EnvFrom, Listed(s.envFrom), b.secret), [SecretRefEntry(b.secret)], b.secret);
      CountOne(EnvFrom, SecretRefEntry(b.secret), b.secret);
    }
  }

  // ---- A container without the binding ----

  /** The container neither mounts the binding nor refers to its secret. */
  predicate Fresh(b: Binding, s: Slots)
  {
    !Has(VolumeMount, Listed(s.mounts), b.name) && !Has(EnvFrom, Listed(s.envFrom), b.secret)
  }

  lemma DropAdded(kind: Kind, xs: seq<Json>, e: Json, ys: seq<Json>, n: string)
    requires !Has(kind, xs, n) && Named(kind, e, n)
    ensures DropFirst(kind, xs + [e] + ys, n) == xs + ys && Has(kind, xs + [e] + ys, n)
  {
    CountConcat(kind, xs + [e], ys, n);
    CountConcat(kind, xs, [e], n);
    CountOne(kind, e, n);
    assert xs + [e] + ys == xs + ([e] + ys);
    DropSkips(kind, xs, [e] + ys, n);
    assert ([e] + ys)[1..] == ys && ([e] + ys)[0] == e;
  }

  // ---- A changed secret ----

  /** The entries of another secret are replaced where the own ones would be. */
  lemma SettledFrom(b: Binding, c: Binding, ys: seq<Json>)
    requires Variables(b) == Variables(c) && NoneNamed(ys, Variables(c))
    ensures WithRoot(DropList(EnvVar, WithRoot(ys + EnvEntries(b)), Variables(c)) + EnvEntries(c)) == SettledEnv(c, ys)
  {
    hide DropList, Count;
    var es, fs := EnvEntries(b), EnvEntries(c);
    EnvNames(b);
    CountVariable(b, BINDING_ROOT_VAR);
    CountVariable(c, BINDING_ROOT_VAR);
    CountConcat(EnvVar, ys, es, BINDING_ROOT_VAR);
    CountConcat(EnvVar, ys, fs, BINDING_ROOT_VAR);
    SettledHas(c, ys);
    var r := if Has(EnvVar, ys + es, BINDING_ROOT_VAR) then [] else [ROOT_ENTRY];
    assert WithRoot(ys + es) == ys + es + r && (r == [] ==> ys + r == ys);
    DropOwn(EnvVar, ys, es, r, Variables(c));
    assert ys + r + fs == SettledEnv(c, ys);
  }

  /** In file mode only the latest secret matters, from the second pass on. */
  lemma SlotsForget(b: Binding, c: Binding, s: Slots)
    requires Readable(s) && c.files && b == c.(secret := b.secret) && Clean(AsEnv, c, s)
    ensures BindSlots(c, BindSlots(b, s)) == BindSlots(c, BindSlots(c, s))
  {
    assert Variables(b) == Variables(c);
    if b.env != [] {
      var one, two := BindSlots(b, s), BindSlots(c, s);
      var ys := AddEnvResult(c, s.env);
      BindEnvIs(b, s);
      BindEnvIs(c, s);
      BindEnvIs(c, one);
      BindEnvIs(c, two);
      SettledFrom(b, c, ys);
      SettledFrom(c, c, ys);
      var p, q := JoinPath(RootOf(Listed(one.env)), c.name), JoinPath(RootOf(Listed(two.env)), c.name);
      var m := MountEntry(c.name, JoinPath(RootOf(Listed(BindSlots(c, one).env)), c.name));
      EntryNames(c, p, c.name);
      EntryNames(c, q, c.name);
      UpsertUpsert(VolumeMount, Listed(s.mounts), c.name, MountEntry(c.name, p), m);
      UpsertUpsert(VolumeMount, Listed(s.mounts), c.name, MountEntry(c.name, q), m);
    }
  }

  // ---- Removal undoes projection ----

  /** The environment without its binding root. */
  function NonRoot(xs: seq<Json>): seq<Json>
  {
    if xs == [] then []
    else (if Named(EnvVar, xs[0], BINDING_ROOT_VAR) then [] else [xs[0]]) + NonRoot(xs[1..])
  }

  lemma {:induction false} NonRootConcat(xs: seq<Json>, ys: seq<Json>)
    ensures NonRoot(xs + ys) == NonRoot(xs) + NonRoot(ys)
  {
    if xs == [] {
      assert xs + ys == ys;
    } else {
      assert (xs + ys)[0] == xs[0] && (xs + ys)[1..] == xs[1..] + ys;
      NonRootConcat(xs[1..], ys);
    }
  }

  lemma {:induction false} NonRootMembers(xs: seq<Json>)
    ensures forall e :: e in NonRoot(xs) <==> e in xs && !Named(EnvVar, e, BINDING_ROOT_VAR)
  {
    if xs != [] { NonRootMembers(xs[1..]); }
  }

  lemma {:induction false} CountNonRoot(xs: seq<Json>, n: string)
    ensures Count(EnvVar, NonRoot(xs), n) == if n == BINDING_ROOT_VAR then 0 else Count(EnvVar, xs, n)
  {
    if xs != [] {
      CountNonRoot(xs[1..], n);
      CountConcat(EnvVar, if Named(EnvVar, xs[0], BINDING_ROOT_VAR) then [] else [xs[0]], NonRoot(xs[1..]), n);
      CountOne(EnvVar, xs[0], n);
    }
  }

  lemma {:induction false} NonRootDrop(xs: seq<Json>, n: string)
    ensures NonRoot(DropFirst(EnvVar, xs, n)) ==
      if n == BINDING_ROOT_VAR then NonRoot(xs) else DropFirst(EnvVar, NonRoot(xs), n)
  {
    if xs != [] {
      var rest := NonRoot(xs[1..]);
      assert NonRoot(xs) == if Named(EnvVar, xs[0], BINDING_ROOT_VAR) then rest else [xs[0]] + rest;
      assert ([xs[0]] + rest)[0] == xs[0] && ([xs[0]] + rest)[1..] == rest;
      if Named(EnvVar, xs[0], n) {
      } else {
        NonRootDrop(xs[1..], n);
        NonRootConcat([xs[0]], DropFirst(EnvVar, xs[1..], n));
        assert NonRoot([xs[0]]) == if Named(EnvVar, xs[0], BINDING_ROOT_VAR) then [] else [xs[0]];
      }
    }
  }

  function NonRootNames(names: seq<string>): seq<string>
  {
    if names == [] then []
    else (if names[0] == BINDING_ROOT_VAR then [] else [names[0]]) + NonRootNames(names[1..])
  }

  lemma {:induction false} NonRootDropList(xs: seq<Json>, names: seq<string>)
    ensures NonRoot(DropList(EnvVar, xs, names)) == DropList(EnvVar, NonRoot(xs), NonRootNames(names))
    ensures forall n :: n in NonRootNames(names) <==> n in names && n != BINDING_ROOT_VAR
    decreases |names|
  {
    if names != [] {
      NonRootDrop(xs, names[0]);
      NonRootDropList(DropFirst(EnvVar, xs, names[0]), names[1..]);
      var rest := NonRootNames(names[1..]);
      assert NonRootNames(names) == if names[0] == BINDING_ROOT_VAR then rest else [names[0]] + rest;
      assert ([names[0]] + rest)[1..] == rest;
    }
  }

  lemma {:induction false} DropListMembers(xs: seq<Json>, names: seq<string>)
    ensures forall e :: e in DropList(EnvVar, xs, names) ==> e in xs
    decreases |names|
  {
    if names != [] {
      DropFirstMembers(EnvVar, xs, names[0]);
      DropListMembers(DropFirst(EnvVar, xs, names[0]), names[1..]);
    }
  }

  lemma {:induction false} DropListSkips(xs: seq<Json>, ys: seq<Json>, names: seq<string>)
    requires NoneNamed(xs, names)
    ensures DropList(EnvVar, xs + ys, names) == xs + DropList(EnvVar, ys, names)
    decreases |names|
  {
    if names != [] {
      DropSkips(EnvVar, xs, ys, names[0]);
      DropListSkips(xs, DropFirst(EnvVar, ys, names[0]), names[1..]);
    }
  }

  /** Entries `es` appended under `vars` are gone after removing `keys`, with
      everything before them kept, exactly when every variable is removed by
      name and no key names an entry that was there before. */
  lemma RemovedExactly(xs: seq<Json>, es: seq<Json>, vars: set<string>, keys: seq<string>)
    requires forall e :: e in es ==> exists n :: n in vars && Named(EnvVar, e, n)
    requires forall n :: n in vars ==> Count(EnvVar, es, n) == 1 && !Has(EnvVar, xs, n)
    requires forall n :: n !in vars ==> Count(EnvVar, es, n) == 0
    ensures DropList(EnvVar, xs + es, keys) == xs <==> (forall n :: n in vars ==> n in keys) && NoneNamed(xs, keys)
  {
    var zs := DropList(EnvVar, xs + es, keys);
    if zs == xs {
      forall n | n in vars || n in keys ensures n in keys && !Has(EnvVar, xs, n) {
        CountConcat(EnvVar, xs, es, n);
        CountDropList(EnvVar, xs + es, keys, n);
      }
    }
    if (forall n :: n in vars ==> n in keys) && NoneNamed(xs, keys) {
      DropListSkips(xs, es, keys);
      var rest := DropList(EnvVar, es, keys);
      DropListMembers(es, keys);
      forall n | n in vars ensures !Has(EnvVar, rest, n) {
        CountDropList(EnvVar, es, keys, n);
      }
      if rest != [] {
        var n := HeadNamed(rest, es, vars);
      }
    }
  }

  lemma HeadNamed(rest: seq<Json>, es: seq<Json>, vars: set<string>) returns (n: string)
    requires rest != [] && forall e :: e in rest ==> e in es
    requires forall e :: e in es ==> exists m :: m in vars && Named(EnvVar, e, m)
    ensures n in vars && Has(EnvVar, rest, n)
  {
    assert rest[0] in rest;
    n :| n in vars && Named(EnvVar, rest[0], n);
  }

  /** Removal by secret key catches every variable, and none that the
      container already had. The binding root stands apart. */
  predicate Undoable(b: Binding, env: seq<Json>)
  {
    (forall n :: n in Variables(b) && n != BINDING_ROOT_VAR ==> n in SecretKeys(b)) &&
    (forall n :: n in SecretKeys(b) && n != BINDING_ROOT_VAR ==> !Has(EnvVar, env, n))
  }

  /** Nothing in the container's lists carries the binding's names. */
  predicate Unused(b: Binding, s: Slots)
  {
    Fresh(b, s) && NoneNamed(Listed(s.env), Variables(b))
  }

  lemma EnvUndone(b: Binding, xs: seq<Json>, root: seq<Json>)
    requires NoneNamed(xs, Variables(b)) && Distinct(Variables(b)) && NonRoot(root) == []
    ensures NonRoot(DropList(EnvVar, xs + EnvEntries(b) + root, SecretKeys(b))) == NonRoot(xs) <==> Undoable(b, xs)
  {
    hide NonRoot, NonRootNames, DropList, EnvEntries, Named, Count;
    var es := EnvEntries(b);
    var zs := xs + es + root;
    EnvNames(b);
    NonRootConcat(xs + es, root);
    NonRootConcat(xs, es);
    assert NonRoot(zs) == NonRoot(xs) + NonRoot(es);
    NonRootDropList(zs, SecretKeys(b));
    NonRootMembers(es);
    var vars := set n | n in Variables(b) && n != BINDING_ROOT_VAR;
    forall n ensures Count(EnvVar, NonRoot(es), n) == if n in vars then 1 else 0 {
      CountVariable(b, n);
      CountNonRoot(es, n);
    }
    forall n | n != BINDING_ROOT_VAR ensures Has(EnvVar, NonRoot(xs), n) <==> Has(EnvVar, xs, n) {
      CountNonRoot(xs, n);
    }
    forall e | e in NonRoot(es) ensures exists n :: n in vars && Named(EnvVar, e, n) {
      var i :| 0 <= i < |es| && es[i] == e;
      assert Named(EnvVar, es[i], Variables(b)[i]);
      assert Variables(b)[i] in vars;
    }
    RemovedExactly(NonRoot(xs), NonRoot(es), vars, NonRootNames(SecretKeys(b)));
    var keys := NonRootNames(SecretKeys(b));
    assert Undoable(b, xs) <==> ((forall n :: n in vars ==> n in keys) && NoneNamed(NonRoot(xs), keys));
  }

  /** Removal after projection restores mounts and environment sources, and
      the environment exactly when the binding is undoable. */
  lemma SlotsUndone(b: Binding, s: Slots)
    requires Readable(s) && Unused(b, s) && Distinct(Variables(b)) && (b.files || b.secret != "")
    ensures var r := SlotStep(Removal, b, BindSlots(b, s));
      && Listed(r.mounts) == Listed(s.mounts)
      && Listed(r.envFrom) == Listed(s.envFrom)
      && (NonRoot(Listed(r.env)) == NonRoot(Listed(s.env)) <==> Undoable(b, Listed(s.env)))
      && (b.env == [] ==> Listed(r.env) == (if b.files then WithRoot(Listed(s.env)) else Listed(s.env)))
  {
    var t := BindSlots(b, s);
    var r := SlotStep(Removal, b, t);
    var xs, es := Listed(s.env), EnvEntries(b);
    var ys := AddEnvResult(b, s.env);
    DropListNone(EnvVar, xs, Variables(b));
    assert ys == xs;
    DropNamesIsList(EnvVar, t.env, SecretKeys(b));
    assert Listed(r.env) == DropList(EnvVar, Listed(t.env), SecretKeys(b));
    assert xs + es + [] == xs + es;
    if b.files {
      BindEnvIs(b, s);
      assert b.env == [] ==> xs + es == xs;
      assert NonRoot([ROOT_ENTRY]) == [] by { EntryNames(b, "", BINDING_ROOT_VAR); }
      EnvUndone(b, xs, if Has(EnvVar, xs + es, BINDING_ROOT_VAR) then [] else [ROOT_ENTRY]);
      MountUndone(b, s);
    } else {
      EnvUndone(b, xs, []);
      EnvFromUndone(b, s.envFrom);
      assert b.env == [] ==> xs + es == xs;
    }
  }

  lemma MountUndone(b: Binding, s: Slots)
    requires Readable(s) && b.files && !Has(VolumeMount, Listed(s.mounts), b.name)
    ensures Listed(Run(VolumeMount, Drop(b.name), BindSlots(b, s).mounts)) == Listed(s.mounts)
  {
    BindEnvIs(b, s);
    var m := MountEntry(b.name, JoinPath(RootOf(Listed(BindSlots(b, s).env)), b.name));
    var xs := Listed(s.mounts);
    EntryNames(b, JoinPath(RootOf(Listed(BindSlots(b, s).env)), b.name), b.name);
    DropAdded(VolumeMount, xs, m, [], b.name);
    assert xs + [m] + [] == xs + [m] && xs + [] == xs;
  }

  lemma EnvFromUndone(b: Binding, s: Slot)
    requires !s.Bad? && b.secret != "" && !Has(EnvFrom, Listed(s), b.secret)
    ensures var t := Run(EnvFrom, Append([SecretRefEntry(b.secret)]), Run(EnvFrom, Drop(b.secret), s));
      Listed(Run(EnvFrom, Drop(b.secret), t)) == Listed(s)
  {
    var xs, e := Listed(s), SecretRefEntry(b.secret);
    RefName(b.secret, b.secret);
    DropAdded(EnvFrom, xs, e, [], b.secret);
    assert xs + [e] + [] == xs + [e] && xs + [] == xs;
  }
}
