/**
 The handlers that collect: what each takes from the services of a binding, and
 that what it reports to flow control is one of its possible reports.
 */
module Collecting {

  import opened Pods
  import opened Pipelines
  import opened Collect
  import opened Definitions
  import opened Annotations
  import Secrets

  /** The custom resource definition of a service: unreadable, none, or its annotations. */
  datatype Crd = CrdFails | NoCrd | Crd(annotations: map<string, string>)

  /** `.status.binding.name`: not a text, not there, or a name. */
  datatype StatusName = NotText | NoName | Name(name: string)

  /** A resource that a service owns: its kind, what it has at a path of fields,
      and how values in it decode. */
  datatype Owned = Owned(
    group: string, version: string, kind: string, field: seq<string> -> Option<Value>, decode: Value -> Option<string>)

  /** Where a kind of resource holds data, under which name it is collected, and
      whether it is encoded. */
  datatype PathMapping = PathMapping(input: seq<string>, output: string, encoded: bool)

  /** The kinds of resources that can be bound. */
  function MappingOf(o: Owned): Option<PathMapping>
  {
    if o.group == "" && o.version == "v1" && o.kind == "ConfigMap" then Some(PathMapping(["data"], "", false))
    else if o.group == "" && o.version == "v1" && o.kind == "Secret" then Some(PathMapping(["data"], "", true))
    else if o.group == "" && o.version == "v1" && o.kind == "Service" then
      Some(PathMapping(["spec", "clusterIP"], "clusterIP", false))
    else if o.group == "route.openshift.io" && o.version == "v1" && o.kind == "Route" then
      Some(PathMapping(["spec", "host"], "host", false))
    else None
  }

  predicate EntriesDecode(decode: Value -> Option<string>, entries: map<string, Value>)
  {
    forall k :: k in entries ==> decode(entries[k]).Some?
  }

  /** The data of a bindable resource, if it is there and can be decoded. */
  function DataIn(o: Owned, m: PathMapping): Option<Value>
  {
    match o.field(m.input)
    case None => None
    case Some(v) =>
      if !m.encoded then Some(v)
      else if v.Map? && EntriesDecode(o.decode, v.entries)
      then Some(Value.Map(map k | k in v.entries :: Leaf(o.decode(v.entries[k]).value, true)))
      else None
  }

  /** The transformation of a secret's data, in any order of keys. */
  method DecodeEntries(decode: Value -> Option<string>, v: Value) returns (r: Option<Value>)
    ensures r == if v.Map? && EntriesDecode(decode, v.entries)
      then Some(Value.Map(map k | k in v.entries :: Leaf(decode(v.entries[k]).value, true))) else None
  {
    if !v.Map? { return None; }
    var result: map<string, Value> := map[];
    var keys := v.entries.Keys;
    while keys != {}
      invariant keys <= v.entries.Keys
      invariant forall k :: k in v.entries && k !in keys ==> decode(v.entries[k]).Some?
      invariant result == map k | k in v.entries && k !in keys && decode(v.entries[k]).Some? ::
        Leaf(decode(v.entries[k]).value, true)
      decreases |keys|
    {
      var k :| k in keys;
      keys := keys - {k};
      var text := decode(v.entries[k]);
      if text.None? { return None; }
      result := result[k := Leaf(text.value, true)];
    }
    assert EntriesDecode(decode, v.entries);
    assert result == map k | k in v.entries :: Leaf(decode(v.entries[k]).value, true);
    return Some(Value.Map(result));
  }

  /** Every leaf of the data of an owned resource is an item under its name. */
  ghost predicate OwnedCovered(o: Owned, items: seq<BindingItem>)
  {
    MappingOf(o).Some? && DataIn(o, MappingOf(o).value).Some? ==>
      var v := DataIn(o, MappingOf(o).value).value;
      forall a :: IsLeaf(v, a) ==> ItemAt("", MappingOf(o).value.output, v, a) in items
  }

  /** The same for all owned resources of a service. */
  ghost predicate AllCovered(owned: Option<seq<Owned>>, items: seq<BindingItem>)
  {
    owned.Some? ==> forall o :: o in owned.value ==> OwnedCovered(o, items)
  }

  lemma AllMore(owned: Option<seq<Owned>>, items: seq<BindingItem>, more: seq<BindingItem>)
    requires AllCovered(owned, items) && items <= more
    ensures AllCovered(owned, more)
  {
    hide OwnedCovered;
    if owned.Some? {
      forall o | o in owned.value ensures OwnedCovered(o, more) { OwnedMore(o, items, more); }
    }
  }

  lemma OwnedMore(o: Owned, items: seq<BindingItem>, more: seq<BindingItem>)
    requires OwnedCovered(o, items) && items <= more
    ensures OwnedCovered(o, more)
  {
    hide IsLeaf, ItemAt, DataIn, MappingOf;
  }

  lemma OwnedTrail(o: Owned, m: PathMapping, v: Value, before: seq<BindingItem>, trail: seq<Address>)
    requires MappingOf(o) == Some(m) && DataIn(o, m) == Some(v) && Lists(trail, v) && Complete(trail, v)
    ensures OwnedCovered(o, before + ItemsOf("", m.output, v, trail))
  {
    hide IsLeaf, ItemAt, DataIn, MappingOf;
    var items := before + ItemsOf("", m.output, v, trail);
    forall a | IsLeaf(v, a) ensures ItemAt("", m.output, v, a) in items {
      var i :| 0 <= i < |trail| && trail[i] == a;
      assert items[|before| + i] == ItemAt("", m.output, v, a);
    }
  }

  predicate OfKind(o: Owned, group: string, kind: string)
  {
    o.group == group && o.version == "v1" && o.kind == kind
  }

  /** What is collected from owned resources: the address of a service, the host
      of a route, the decoded data of a secret and the texts of a config map. */
  lemma OwnedItems(o: Owned, items: seq<BindingItem>, v: Value, k: string)
    requires OwnedCovered(o, items)
    ensures OfKind(o, "", "Service") && v.Leaf? && o.field(["spec", "clusterIP"]) == Some(v) ==>
      BindingItem("clusterIP", v) in items
    ensures OfKind(o, "route.openshift.io", "Route") && v.Leaf? && o.field(["spec", "host"]) == Some(v) ==>
      BindingItem("host", v) in items
    ensures OfKind(o, "", "Secret") && o.field(["data"]) == Some(v) && v.Map? && k in v.entries ==>
      (forall n :: n in v.entries ==> o.decode(v.entries[n]).Some?) ==>
        BindingItem(k, Leaf(o.decode(v.entries[k]).value, true)) in items
    ensures OfKind(o, "", "ConfigMap") && o.field(["data"]) == Some(v) && v.Map? && k in v.entries ==>
      v.entries[k].Leaf? ==> BindingItem(k, v.entries[k]) in items
  {
    hide ItemAt;
    if MappingOf(o).Some? && DataIn(o, MappingOf(o).value).Some? {
      var d, out := DataIn(o, MappingOf(o).value).value, MappingOf(o).value.output;
      if d.Leaf? {
        assert IsLeaf(d, Address([], None));
        RootItem(out, d);
      } else if d.Map? && k in d.entries && d.entries[k].Leaf? {
        assert [k][1..] == [] && ValueAt(d.entries[k], []) == Some(d.entries[k]);
        assert IsLeaf(d, Address([k], None));
        if out == "" { EntryItem(d, k); }
      }
    }
  }

  lemma RootItem(out: string, v: Value)
    requires v.Leaf? && IsLeaf(v, Address([], None))
    ensures ItemAt("", out, v, Address([], None)) == BindingItem(out, v)
  {
    assert "" + out == out;
  }

  lemma EntryItem(v: Value, k: string)
    requires IsLeaf(v, Address([k], None)) && v.Map? && k in v.entries && v.entries[k].Leaf?
    ensures ItemAt("", "", v, Address([k], None)) == BindingItem(k, v.entries[k])
  {
    assert [k][0] == k && [k][1..] == [] && "" + k == k && "" + "" + "_" == "_";
    assert PathName("", "", [k]) == PathName("", k, []) == k;
    assert ValueAt(v, [k]) == Some(v.entries[k]);
  }

  class Service {
    const id: Option<string>
    /** A secret of the core group. */
    const secret: bool
    const name: string
    const annotations: map<string, string>
    const crd: Crd
    const statusName: StatusName
    const world: World
    /** The owned resources, unless they cannot be listed. */
    const owned: Option<seq<Owned>>
    var bindingDefs: seq<Definition>

    constructor (id: Option<string>, secret: bool, name: string, annotations: map<string, string>, crd: Crd,
                 statusName: StatusName, world: World, owned: Option<seq<Owned>>)
      ensures bindingDefs == []
    {
      this.id, this.secret, this.name, this.annotations := id, secret, name, annotations;
      this.crd, this.statusName, this.world, this.owned := crd, statusName, world, owned;
      bindingDefs := [];
    }

    /** The annotations of the definition, overridden by those of the service. */
    function AllAnnotations(): map<string, string>
      requires !crd.CrdFails?
    {
      (if crd.Crd? then crd.annotations else map[]) + annotations
    }

    /** The definition says that the service provides a secret, and there is none. */
    predicate Lacking()
    {
      crd.Crd? && PROVISIONED in crd.annotations && crd.annotations[PROVISIONED] == "true"
    }
  }

  // ---- Reports ----

  lemma ErrorReports(h: Handler, s: Situation, before: seq<Call>, after: seq<Call>)
    requires h == BindingDefinitions || h == BindingItems || h == OwnedResources
    requires MoreErrors(before, after)
    ensures Reports(h, s, before, after, false) && Reports(h, s, before, after, true)
    ensures Reports(h, s, before, after + [RetryNow(true)], false)
  {
    GivenUp(before, after);
    assert Issues(h, s, after[|before|..]);
  }

  lemma RetryReports(h: Handler, s: Situation, before: seq<Call>)
    requires h == PreFlight || h == ProvisionedService || h == DirectSecretReference
    ensures Reports(h, s, before, before, false) && Reports(h, s, before, before + [RetryNow(true)], false)
  {
    assert before[|before|..] == [];
    assert (before + [RetryNow(true)])[|before|..] == [RetryNow(true)];
  }

  lemma MappingReports(s: Situation, before: seq<Call>)
    ensures Reports(Mapping, s, before, before, false) && Reports(Mapping, s, before, before + [Stop] + [Fail], false)
  {
    assert before[|before|..] == [];
    assert (before + [Stop] + [Fail])[|before|..] == [Stop, Fail];
  }

  // ---- Definitions of annotations ----

  /** The annotations with these keys can be built, or are not about bindings. */
  predicate AllBuilt(anns: map<string, string>, keys: set<string>)
  {
    forall k :: k in keys && k in anns ==> !BuildOf(k, anns[k]).BuildFails?
  }

  /** One of these annotations defines `d`. */
  ghost predicate Defined(anns: map<string, string>, keys: set<string>, d: Definition)
  {
    exists k :: k in keys && k in anns && BuildOf(k, anns[k]) == Built(d)
  }

  lemma NoneBuilt(anns: map<string, string>)
    ensures AllBuilt(anns, {}) && forall d :: !Defined(anns, {}, d)
  {
  }

  lemma OneMoreBuilt(anns: map<string, string>, keys: set<string>, k: string)
    requires k in anns
    ensures AllBuilt(anns, keys + {k}) <==> AllBuilt(anns, keys) && !BuildOf(k, anns[k]).BuildFails?
    ensures forall d :: Defined(anns, keys + {k}, d) <==> Defined(anns, keys, d) || BuildOf(k, anns[k]) == Built(d)
  {
    hide BuildOf;
    forall d ensures Defined(anns, keys + {k}, d) <==> Defined(anns, keys, d) || BuildOf(k, anns[k]) == Built(d) {
      if Defined(anns, keys, d) {
        var j :| j in keys && j in anns && BuildOf(j, anns[j]) == Built(d);
        assert j in keys + {k};
      }
      assert k in keys + {k};
    }
  }

  // ---- Secrets that services provide or are ----

  /** The service's secret is wanted and cannot be had. */
  predicate Unprovided(service: Service, readable: set<string>)
  {
    match service.statusName
    case NotText => true
    case Name(name) => name != "" && name !in readable
    case NoName => service.crd.CrdFails? || service.Lacking()
  }

  /** A secret is wanted and cannot be had if the name in the status is not a
      text or names no readable secret, or if there is none and the definition
      cannot be read or promises one. */
  lemma UnprovidedIff(service: Service, readable: set<string>)
    ensures Unprovided(service, readable) <==>
      || service.statusName == NotText
      || (exists name :: service.statusName == Name(name) && name != "" && name !in readable)
      || (service.statusName == NoName && service.crd == CrdFails)
      || (service.statusName == NoName &&
          exists anns :: service.crd == Crd(anns) && "servicebinding.io/provisioned-service" in anns &&
            anns["servicebinding.io/provisioned-service"] == "true")
  {
  }

  function Provided(services: seq<Service>): seq<string>
  {
    if services == [] then []
    else
      var last := services[|services| - 1];
      Provided(services[..|services| - 1]) +
      (if last.statusName.Name? && last.statusName.name != "" then [last.statusName.name] else [])
  }

  /** A secret with a binding annotation, which makes the handler return. */
  predicate Annotated(service: Service)
  {
    service.secret && exists k :: k in service.annotations && PREFIX <= k
  }

  /** The secrets that are services themselves, up to the first annotated one. */
  function Direct(services: seq<Service>): seq<string>
  {
    if services == [] || Annotated(services[0]) then []
    else (if services[0].secret then [services[0].name] else []) + Direct(services[1..])
  }

  lemma DirectStep(service: Service, rest: seq<Service>)
    ensures Direct([service] + rest) ==
      if Annotated(service) then [] else (if service.secret then [service.name] else []) + Direct(rest)
    ensures Annotated(service) ==> service.secret
  {
    hide Annotated;
    assert ([service] + rest)[0] == service && ([service] + rest)[1..] == rest;
    assert Annotated(service) ==> service.secret by { AnnotatedSecret(service); }
  }

  lemma AnnotatedSecret(service: Service)
    ensures Annotated(service) ==> service.secret
  {
  }

  lemma NoneDirect()
    ensures Direct([]) == []
  {
  }

  predicate Increasing(at: seq<nat>)
  {
    forall i, j :: 0 <= i < j < |at| ==> at[i] < at[j]
  }

  predicate NamesSecret(service: Service)
  {
    service.statusName.Name? && service.statusName.name != ""
  }

  /** `names` are the secrets that services name, in the order of the services. */
  predicate NamedInOrder(services: seq<Service>, names: seq<string>, at: seq<nat>)
  {
    && |names| == |at| && Increasing(at)
    && (forall i :: 0 <= i < |at| ==>
          at[i] < |services| && NamesSecret(services[at[i]]) && names[i] == services[at[i]].statusName.name)
    && (forall j: nat :: j < |services| && NamesSecret(services[j]) ==> j in at)
  }

  lemma {:induction false} ProvidedInOrder(services: seq<Service>) returns (at: seq<nat>)
    ensures NamedInOrder(services, Provided(services), at)
  {
    if services == [] {
      at := [];
    } else {
      var n := |services| - 1;
      var before := ProvidedInOrder(services[..n]);
      var last := services[n];
      at := if NamesSecret(last) then before + [n] else before;
      NamedOneMore(services, Provided(services[..n]), before, at);
    }
  }

  lemma NamedOneMore(services: seq<Service>, names: seq<string>, before: seq<nat>, at: seq<nat>)
    requires services != [] && NamedInOrder(services[..|services| - 1], names, before)
    requires at == if NamesSecret(services[|services| - 1]) then before + [|services| - 1] else before
    ensures var last := services[|services| - 1];
      NamedInOrder(services, names + (if NamesSecret(last) then [last.statusName.name] else []), at)
  {
    hide NamesSecret;
    var n := |services| - 1;
    forall j: nat | j < |services| && NamesSecret(services[j]) ensures j in at {
      if j < n {
        assert services[..n][j] == services[j] && j in before;
        var i :| 0 <= i < |before| && before[i] == j;
        assert at[i] == j;
      } else {
        assert at[|before|] == n;
      }
    }
  }

  /** The names of the services that are secrets. */
  function SecretNames(services: seq<Service>): seq<string>
  {
    if services == [] then []
    else
      var last := services[|services| - 1];
      SecretNames(services[..|services| - 1]) + (if last.secret then [last.name] else [])
  }

  lemma {:induction false} SecretNamesConcat(xs: seq<Service>, ys: seq<Service>)
    ensures SecretNames(xs + ys) == SecretNames(xs) + SecretNames(ys)
    decreases |ys|
  {
    if ys == [] {
      assert xs + ys == xs;
    } else {
      var n := |ys| - 1;
      SecretNamesConcat(xs, ys[..n]);
      assert (xs + ys)[..|xs| + n] == xs + ys[..n] && (xs + ys)[|xs| + n] == ys[n];
    }
  }

  /** A secret with an annotation for binding. */
  ghost predicate Claimed(service: Service)
  {
    service.secret && exists k :: k in service.annotations && "service.binding" <= k
  }

  lemma ClaimedIs(service: Service)
    ensures Claimed(service) <==> Annotated(service)
  {
  }

  /** The secrets that are added directly are all services that are secrets
      before the first of them with an annotation for binding. */
  lemma {:induction false} DirectUpTo(services: seq<Service>, cut: nat)
    requires cut <= |services| && forall j :: 0 <= j < cut ==> !Claimed(services[j])
    requires cut < |services| ==> Claimed(services[cut])
    ensures Direct(services) == SecretNames(services[..cut])
  {
    hide Claimed, Annotated;
    if services != [] { ClaimedIs(services[0]); }
    if cut > 0 {
      forall j | 0 <= j < cut - 1 ensures !Claimed(services[1..][j]) { assert services[1..][j] == services[j + 1]; }
      DirectUpTo(services[1..], cut - 1);
      assert services[..cut] == [services[0]] + services[1..][..cut - 1];
      SecretNamesConcat([services[0]], services[1..][..cut - 1]);
      assert [services[0]][..0] == [];
    }
  }

  /** The annotations of a service come before those of its definition. */
  lemma OwnAnnotations(service: Service, k: string)
    requires !service.crd.CrdFails?
    ensures k in service.annotations ==>
      k in service.AllAnnotations() && service.AllAnnotations()[k] == service.annotations[k]
    ensures k !in service.annotations ==>
      (k in service.AllAnnotations() <==> service.crd.Crd? && k in service.crd.annotations)
    ensures k !in service.annotations && k in service.AllAnnotations() ==>
      service.AllAnnotations()[k] == service.crd.annotations[k]
  {
  }

  class Collection {
    const flow: FlowCtrl
    const collector: Collector
    /** The services, unless they cannot be read. */
    const services: Option<seq<Service>>
    /** The secrets that can be read. */
    const readable: set<string>
    /** The secrets added as sources of bindings. */
    var sources: seq<string>

    constructor (flow: FlowCtrl, services: Option<seq<Service>>, readable: set<string>)
      ensures this.flow == flow && this.services == services && this.readable == readable && sources == []
      ensures collector.flow == flow && collector.items == [] && fresh(collector)
    {
      this.flow, this.services, this.readable := flow, services, readable;
      collector := new Collector(flow);
      sources := [];
    }

    function All(): seq<Service>
    {
      if services.Some? then services.value else []
    }

    /** PreFlight: services that cannot be read are a retry. */
    method PreFlight(ghost s: Situation)
      requires flow.Valid()
      modifies flow
      ensures flow.Valid() && Reports(Handler.PreFlight, s, old(flow.trace), flow.trace, false)
      ensures flow.trace == old(flow.trace) <==> services.Some?
    {
      hide Reports;
      RetryReports(Handler.PreFlight, s, flow.trace);
      if services.None? { flow.RetryProcessing(true); }
    }

    /** ProvisionedService: the secrets that services name are added in turn, up
        to the first that is wanted and cannot be had. */
    method ProvisionedService(ghost s: Situation)
      requires flow.Valid()
      modifies flow, this`sources
      ensures flow.Valid() && Reports(Handler.ProvisionedService, s, old(flow.trace), flow.trace, false)
      ensures flow.trace == old(flow.trace) <==> forall i :: 0 <= i < |All()| ==> !Unprovided(All()[i], readable)
      ensures flow.trace == old(flow.trace) ==> sources == old(sources) + Provided(All())
    {
      hide Reports, Performed;
      RetryReports(Handler.ProvisionedService, s, flow.trace);
      var all := All();
      var i := 0;
      while i < |all|
        invariant 0 <= i <= |all| && flow.Valid() && flow.trace == old(flow.trace)
        invariant forall j :: 0 <= j < i ==> !Unprovided(all[j], readable)
        invariant sources == old(sources) + Provided(all[..i])
      {
        var service := all[i];
        assert all[..i + 1][..i] == all[..i];
        match service.statusName {
          case NotText =>
            flow.RetryProcessing(true);
            return;
          case Name(name) =>
            if name != "" {
              if name !in readable {
                flow.RetryProcessing(true);
                return;
              }
              sources := sources + [name];
            }
          case NoName =>
            if service.crd.CrdFails? || service.Lacking() {
              flow.RetryProcessing(true);
              return;
            }
        }
        i := i + 1;
      }
      assert all[..i] == all;
    }

    /** DirectSecretReference: secrets that are services themselves are added;
        an annotated one ends the handler, and the secrets after it are passed
        over. */
    method DirectSecretReference(ghost s: Situation)
      requires flow.Valid()
      modifies flow, this`sources
      ensures flow.Valid() && Reports(Handler.DirectSecretReference, s, old(flow.trace), flow.trace, false)
      ensures flow.trace == old(flow.trace) <==> forall n :: n in Direct(All()) ==> n in readable
      ensures flow.trace == old(flow.trace) ==> sources == old(sources) + Direct(All())
    {
      hide Reports, Performed, Direct, Annotated;
      RetryReports(Handler.DirectSecretReference, s, flow.trace);
      var all := All();
      ghost var done: seq<string> := [];
      var i := 0;
      assert all[0..] == all;
      while i < |all|
        invariant 0 <= i <= |all| && flow.Valid() && flow.trace == old(flow.trace)
        invariant Direct(all) == done + Direct(all[i..]) && sources == old(sources) + done
        invariant forall n :: n in done ==> n in readable
      {
        var service := all[i];
        assert all[i..] == [service] + all[i + 1..];
        DirectStep(service, all[i + 1..]);
        if service.secret {
          if Annotated(service) { return; }
          if service.name !in readable {
            assert service.name in Direct(all[i..]);
            flow.RetryProcessing(true);
            return;
          }
          sources := sources + [service.name];
          done := done + [service.name];
        }
        i := i + 1;
      }
      NoneDirect();
    }

    /** One service of BindingDefinitions: every binding annotation, in any
        order, becomes a definition, and one that cannot be built is an error. */
    method AddDefinitions(service: Service)
      requires flow.Valid() && !service.crd.CrdFails?
      modifies flow, service
      ensures flow.Valid() && MoreErrors(old(flow.trace), flow.trace)
      ensures flow.trace == old(flow.trace) <==> AllBuilt(service.AllAnnotations(), service.AllAnnotations().Keys)
      ensures old(service.bindingDefs) <= service.bindingDefs
      ensures forall d :: d in service.bindingDefs <==>
        d in old(service.bindingDefs) || Defined(service.AllAnnotations(), service.AllAnnotations().Keys, d)
    {
      hide BuildOf, Performed, AllBuilt, Defined, Errors;
      var anns := map[];
      if service.crd.Crd? { anns := Secrets.MergeMaps(anns, service.crd.annotations); }
      anns := Secrets.MergeMaps(anns, service.annotations);
      assert anns == service.AllAnnotations();
      BuildAll(service, anns);
    }

    method BuildAll(service: Service, anns: map<string, string>)
      requires flow.Valid()
      modifies flow, service
      ensures flow.Valid() && MoreErrors(old(flow.trace), flow.trace)
      ensures flow.trace == old(flow.trace) <==> AllBuilt(anns, anns.Keys)
      ensures old(service.bindingDefs) <= service.bindingDefs
      ensures forall d :: d in service.bindingDefs <==> d in old(service.bindingDefs) || Defined(anns, anns.Keys, d)
    {
      hide BuildOf, Performed, AllBuilt, Defined, MoreErrors, FlowCtrl.Valid, Raw, Split, Balanced, OutputName,
        IsServiceBindingAnnotation;
      var keys := anns.Keys;
      ghost var done: set<string> := {};
      ghost var start := flow.trace;
      NoMore(start);
      NoneBuilt(anns);
      while keys != {}
        invariant keys <= anns.Keys && done == anns.Keys - keys && flow.Valid() && MoreErrors(start, flow.trace)
        invariant flow.trace == start <==> AllBuilt(anns, done)
        invariant old(service.bindingDefs) <= service.bindingDefs
        invariant forall d :: d in service.bindingDefs <==> d in old(service.bindingDefs) || Defined(anns, done, d)
        decreases |keys|
      {
        var k :| k in keys;
        keys := keys - {k};
        var built := Build(k, anns[k]);
        OneMoreBuilt(anns, done, k);
        done := done + {k};
        if built.BuildFails? {
          ReportFailure(start);
        } else if built.Built? {
          service.bindingDefs := service.bindingDefs + [built.definition];
        }
      }
      assert done == anns.Keys;
    }

    method ReportFailure(ghost start: seq<Call>)
      requires flow.Valid() && MoreErrors(start, flow.trace)
      modifies flow
      ensures flow.Valid() && MoreErrors(start, flow.trace) && flow.trace != start
    {
      hide Performed, Errors;
      ghost var before := flow.trace;
      NoMore(before);
      flow.Error();
      flow.StopProcessing();
      MoreAndMore(start, before, flow.trace);
    }

    /** BindingDefinitions: a definition that cannot be read is a retry; an
        annotation that cannot be built is an error, and the others still count. */
    method BindingDefinitions(ghost s: Situation)
      requires flow.Valid()
      modifies flow, All()
      ensures flow.Valid() && Reports(Handler.BindingDefinitions, s, old(flow.trace), flow.trace, false)
      ensures flow.trace == old(flow.trace) <==> forall i :: 0 <= i < |All()| ==> WellAnnotated(All()[i])
    {
      hide BuildOf, Performed, Reports, Errors;
      NoMore(flow.trace);
      ErrorReports(Handler.BindingDefinitions, s, flow.trace, flow.trace);
      var all := All();
      var i := 0;
      while i < |all|
        invariant 0 <= i <= |all| && flow.Valid() && MoreErrors(old(flow.trace), flow.trace)
        invariant Reports(Handler.BindingDefinitions, s, old(flow.trace), flow.trace, false)
        invariant flow.trace == old(flow.trace) <==> forall j :: 0 <= j < i ==> WellAnnotated(all[j])
      {
        ghost var before := flow.trace;
        ErrorReports(Handler.BindingDefinitions, s, old(flow.trace), before);
        if all[i].crd.CrdFails? {
          flow.RetryProcessing(true);
          return;
        }
        AddDefinitions(all[i]);
        MoreAndMore(old(flow.trace), before, flow.trace);
        ErrorReports(Handler.BindingDefinitions, s, old(flow.trace), flow.trace);
        i := i + 1;
      }
    }

    // ---- Items ----

    /** The definitions of one service in turn. */
    method CollectService(service: Service) returns (panics: bool, givenUp: bool)
      requires flow.Valid() && collector.flow == flow
      modifies flow, collector
      ensures flow.Valid() && old(collector.items) <= collector.items
      ensures givenUp ==> !panics && flow.trace != [] && flow.trace[|flow.trace| - 1] == RetryNow(true)
      ensures MoreErrors(old(flow.trace), if givenUp then flow.trace[..|flow.trace| - 1] else flow.trace)
      ensures !panics && flow.trace == old(flow.trace) <==> SmoothService(service)
      ensures SmoothService(service) ==>
        forall d :: d in service.bindingDefs ==> Covered(d, service.world, collector.items)
    {
      hide Smooth, Covered, Performed, ApplyOf, NothingThere, Errors;
      panics, givenUp := false, false;
      var defs := service.bindingDefs;
      var i := 0;
      NoMore(flow.trace);
      while i < |defs|
        invariant 0 <= i <= |defs| && flow.Valid() && MoreErrors(old(flow.trace), flow.trace)
        invariant old(collector.items) <= collector.items && !panics && !givenUp
        invariant flow.trace == old(flow.trace) <==> forall j :: 0 <= j < i ==> Smooth(defs[j], service.world)
        invariant flow.trace == old(flow.trace) ==>
          forall j :: 0 <= j < i ==> Covered(defs[j], service.world, collector.items)
      {
        ghost var before, items := flow.trace, collector.items;
        ghost var trail;
        panics, givenUp, trail := CollectDefinition(collector, defs[i], service.world);
        if givenUp {
          assert flow.trace[..|flow.trace| - 1] == before;
          return;
        }
        MoreAndMore(old(flow.trace), before, flow.trace);
        if panics { return; }
        forall j | 0 <= j < i && Covered(defs[j], service.world, items)
          ensures Covered(defs[j], service.world, collector.items)
        {
          CoveredMore(defs[j], service.world, items, collector.items);
        }
        i := i + 1;
      }
    }

    /** BindingItems: without a report every definition of every service was
        applied and no leaf is missed; a definition that fails is a retry, nil
        below a root key an error, and nil at a root key a panic. */
    method BindingItems(ghost s: Situation) returns (panics: bool)
      requires flow.Valid() && collector.flow == flow
      modifies flow, collector
      ensures flow.Valid() && old(collector.items) <= collector.items
      ensures Reports(Handler.BindingItems, s, old(flow.trace), flow.trace, panics)
      ensures !panics && flow.trace == old(flow.trace) <==> forall i :: 0 <= i < |All()| ==> SmoothService(All()[i])
      ensures !panics && flow.trace == old(flow.trace) ==>
        forall i, d :: 0 <= i < |All()| && d in All()[i].bindingDefs ==> Covered(d, All()[i].world, collector.items)
    {
      hide Smooth, Covered, Performed, Reports, Errors;
      NoMore(flow.trace);
      ErrorReports(Handler.BindingItems, s, flow.trace, flow.trace);
      panics := false;
      var all := All();
      var i := 0;
      while i < |all|
        invariant 0 <= i <= |all| && flow.Valid() && MoreErrors(old(flow.trace), flow.trace) && !panics
        invariant Reports(Handler.BindingItems, s, old(flow.trace), flow.trace, false)
        invariant old(collector.items) <= collector.items
        invariant flow.trace == old(flow.trace) <==> forall j :: 0 <= j < i ==> SmoothService(all[j])
        invariant flow.trace == old(flow.trace) ==> forall j, d :: 0 <= j < i && d in all[j].bindingDefs ==>
          Covered(d, all[j].world, collector.items)
      {
        ghost var before, items := flow.trace, collector.items;
        var givenUp;
        panics, givenUp := CollectService(all[i]);
        if givenUp {
          ghost var rest := flow.trace[..|flow.trace| - 1];
          MoreAndMore(old(flow.trace), before, rest);
          ErrorReports(Handler.BindingItems, s, old(flow.trace), rest);
          assert rest + [RetryNow(true)] == flow.trace;
          assert |rest| >= |old(flow.trace)|;
          return;
        }
        MoreAndMore(old(flow.trace), before, flow.trace);
        ErrorReports(Handler.BindingItems, s, old(flow.trace), flow.trace);
        if panics { return; }
        forall j, d | 0 <= j < i && d in all[j].bindingDefs && Covered(d, all[j].world, items)
          ensures Covered(d, all[j].world, collector.items)
        {
          CoveredMore(d, all[j].world, items, collector.items);
        }
        i := i + 1;
      }
    }

    /** The owned resources of one service in turn. */
    method CollectOwned(owned: Option<seq<Owned>>) returns (panics: bool, givenUp: bool)
      requires flow.Valid() && collector.flow == flow
      modifies flow, collector
      ensures flow.Valid() && old(collector.items) <= collector.items
      ensures givenUp ==> !panics && flow.trace != [] && flow.trace[|flow.trace| - 1] == RetryNow(true)
      ensures MoreErrors(old(flow.trace), if givenUp then flow.trace[..|flow.trace| - 1] else flow.trace)
      ensures !panics && flow.trace == old(flow.trace) <==> AllUsable(owned)
      ensures AllUsable(owned) ==> AllCovered(owned, collector.items)
    {
      hide Performed, Errors, Usable, OwnedCovered;
      panics, givenUp := false, false;
      NoMore(flow.trace);
      if owned.None? {
        flow.RetryProcessing(true);
        assert flow.trace[..|flow.trace| - 1] == old(flow.trace);
        givenUp := true;
        return;
      }
      var all := owned.value;
      var i := 0;
      while i < |all|
        invariant 0 <= i <= |all| && flow.Valid() && MoreErrors(old(flow.trace), flow.trace)
        invariant old(collector.items) <= collector.items && !panics && !givenUp
        invariant flow.trace == old(flow.trace) <==> forall j :: 0 <= j < i ==> Usable(all[j])
        invariant flow.trace == old(flow.trace) ==> forall j :: 0 <= j < i ==> OwnedCovered(all[j], collector.items)
      {
        ghost var before, items := flow.trace, collector.items;
        panics, givenUp := CollectResource(all[i]);
        if givenUp {
          assert flow.trace[..|flow.trace| - 1] == before;
          return;
        }
        MoreAndMore(old(flow.trace), before, flow.trace);
        if panics { return; }
        forall j | 0 <= j < i && OwnedCovered(all[j], items) ensures OwnedCovered(all[j], collector.items) {
          OwnedMore(all[j], items, collector.items);
        }
        i := i + 1;
      }
    }

    /** One owned resource: its data is read, decoded and flattened. */
    method CollectResource(o: Owned) returns (panics: bool, givenUp: bool)
      requires flow.Valid() && collector.flow == flow
      modifies flow, collector
      ensures flow.Valid() && old(collector.items) <= collector.items
      ensures givenUp ==> !panics && flow.trace == old(flow.trace) + [RetryNow(true)]
      ensures !givenUp ==> MoreErrors(old(flow.trace), flow.trace)
      ensures !panics && flow.trace == old(flow.trace) <==> Usable(o)
      ensures Usable(o) ==> OwnedCovered(o, collector.items)
    {
      hide Performed, Errors, HoldsNil, IsLeaf, ItemsOf, Lists, Complete, ItemAt;
      panics, givenUp := false, false;
      NoMore(flow.trace);
      var m := MappingOf(o);
      if m.None? { return; }
      var val := o.field(m.value.input);
      if val.Some? && m.value.encoded { val := DecodeEntries(o.decode, val.value); }
      if val.None? {
        flow.RetryProcessing(true);
        givenUp := true;
        return;
      }
      assert DataIn(o, m.value) == val;
      ghost var items := collector.items;
      ghost var trail;
      panics, trail := collector.CollectItems("", m.value.output, val.value);
      if !HoldsNil(val.value) { OwnedTrail(o, m.value, val.value, items, trail); }
    }

    /** OwnedResources: data that is missing or cannot be decoded is a retry. */
    method OwnedResources(ghost s: Situation) returns (panics: bool)
      requires flow.Valid() && collector.flow == flow
      modifies flow, collector
      ensures flow.Valid() && old(collector.items) <= collector.items
      ensures Reports(Handler.OwnedResources, s, old(flow.trace), flow.trace, panics)
      ensures !panics && flow.trace == old(flow.trace) <==>
        services.Some? && forall i :: 0 <= i < |All()| ==> AllUsable(All()[i].owned)
      ensures !panics && flow.trace == old(flow.trace) ==>
        forall i :: 0 <= i < |All()| ==> AllCovered(All()[i].owned, collector.items)
    {
      hide Performed, Reports, Errors, AllUsable, AllCovered;
      NoMore(flow.trace);
      ErrorReports(Handler.OwnedResources, s, flow.trace, flow.trace);
      panics := false;
      if services.None? {
        flow.RetryProcessing(true);
        return;
      }
      var all := All();
      var i := 0;
      while i < |all|
        invariant 0 <= i <= |all| && flow.Valid() && MoreErrors(old(flow.trace), flow.trace) && !panics
        invariant Reports(Handler.OwnedResources, s, old(flow.trace), flow.trace, false)
        invariant old(collector.items) <= collector.items
        invariant flow.trace == old(flow.trace) <==> forall j :: 0 <= j < i ==> AllUsable(all[j].owned)
        invariant flow.trace == old(flow.trace) ==> forall j :: 0 <= j < i ==> AllCovered(all[j].owned, collector.items)
      {
        ghost var before, items := flow.trace, collector.items;
        var givenUp;
        panics, givenUp := CollectOwned(all[i].owned);
        if givenUp {
          ghost var rest := flow.trace[..|flow.trace| - 1];
          MoreAndMore(old(flow.trace), before, rest);
          ErrorReports(Handler.OwnedResources, s, old(flow.trace), rest);
          assert rest + [RetryNow(true)] == flow.trace;
          assert |rest| >= |old(flow.trace)|;
          return;
        }
        MoreAndMore(old(flow.trace), before, flow.trace);
        ErrorReports(Handler.OwnedResources, s, old(flow.trace), flow.trace);
        if panics { return; }
        forall j | 0 <= j < i && AllCovered(all[j].owned, items) ensures AllCovered(all[j].owned, collector.items) {
          AllMore(all[j].owned, items, collector.items);
        }
        i := i + 1;
      }
    }

    /** The mapping handler: in any order, each mapping is evaluated and added;
        the first that fails stops the run with an error. */
    method Mapping(mappings: map<string, string>, evaluate: string -> Option<string>, ghost s: Situation)
      requires flow.Valid()
      modifies flow, collector
      ensures flow.Valid() && Reports(Handler.Mapping, s, old(flow.trace), flow.trace, false)
      ensures flow.trace == old(flow.trace) <==> forall n :: n in mappings ==> evaluate(mappings[n]).Some?
      ensures flow.trace == old(flow.trace) ==>
        && |collector.items| == |old(collector.items)| + |mappings| && old(collector.items) <= collector.items
        && forall n :: n in mappings ==>
             BindingItem(n, Definitions.Text(evaluate(mappings[n]).value)) in collector.items
    {
      hide Performed, Reports;
      MappingReports(s, flow.trace);
      var names := mappings.Keys;
      while names != {}
        invariant names <= mappings.Keys && flow.Valid() && flow.trace == old(flow.trace)
        invariant old(collector.items) <= collector.items
        invariant |collector.items| == |old(collector.items)| + |mappings.Keys| - |names|
        invariant forall n :: n in mappings && n !in names ==>
          && evaluate(mappings[n]).Some?
          && BindingItem(n, Definitions.Text(evaluate(mappings[n]).value)) in collector.items
        decreases |names|
      {
        var n :| n in names;
        names := names - {n};
        var result := evaluate(mappings[n]);
        if result.None? {
          flow.StopProcessing();
          flow.Error();
          return;
        }
        collector.AddBindingItem(BindingItem(n, Definitions.Text(result.value)));
      }
    }
  }

  /** The annotations of a service can be read and built. */
  predicate WellAnnotated(service: Service)
  {
    !service.crd.CrdFails? &&
    AllBuilt(service.AllAnnotations(), service.AllAnnotations().Keys)
  }

  /** Every definition of a service applies to it and yields no nil. */
  predicate SmoothService(service: Service)
    reads service
  {
    forall i :: 0 <= i < |service.bindingDefs| ==> Smooth(service.bindingDefs[i], service.world)
  }

  /** An owned resource is of no interest, or has data without nil. */
  predicate Usable(o: Owned)
  {
    MappingOf(o).Some? ==>
      var v := DataIn(o, MappingOf(o).value);
      v.Some? && !v.value.Nil? && !HoldsNil(v.value)
  }

  predicate AllUsable(owned: Option<seq<Owned>>)
  {
    owned.Some? && forall i :: 0 <= i < |owned.value| ==> Usable(owned.value[i])
  }
}
