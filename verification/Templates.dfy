/**
 ClusterWorkloadResourceMapping: the webhook's validation, the choice of a
 template for a workload, and its conversion into the paths that projection
 uses. A JSONPath expression comes with its parsed syntax tree.
 */
module Templates {

  import opened Pods

  /** A JSONPath syntax tree; only fields and lists of nodes are restricted. */
  datatype Node = FieldNode(value: string) | ListNode(nodes: seq<Node>) | OtherNode(kind: string)

  /** A restricted JSONPath: its text ("" when unset) and its tree, if it parses. */
  datatype Restricted = Restricted(text: string, tree: Option<Node>)

  datatype ContainerTemplate = ContainerTemplate(
    text: string, path: Option<seq<PathNode>>, name: Restricted, env: Restricted, volumeMounts: Restricted)

  datatype Template = Template(
    version: string, annotations: Restricted, volumes: Restricted, containers: seq<ContainerTemplate>)

  datatype ResourceMapping = ResourceMapping(name: string, versions: seq<Template>)

  datatype GroupVersionResource = GroupVersionResource(group: string, version: string, resource: string)

  // ---- Restricted JSONPath ----

  /** How many nodes of a tree are neither fields nor lists. */
  function Strange(node: Node): nat
  {
    match node
    case FieldNode(_) => 0
    case ListNode(nodes) => StrangeAll(nodes)
    case OtherNode(_) => 1
  }

  function StrangeAll(nodes: seq<Node>): nat
  {
    if nodes == [] then 0 else StrangeAll(nodes[..|nodes| - 1]) + Strange(nodes[|nodes| - 1])
  }

  /** The field nodes of a tree from left to right. */
  function InOrder(node: Node): seq<string>
  {
    match node
    case FieldNode(value) => [value]
    case ListNode(nodes) => InOrderAll(nodes)
    case OtherNode(_) => []
  }

  function InOrderAll(nodes: seq<Node>): seq<string>
  {
    if nodes == [] then [] else InOrderAll(nodes[..|nodes| - 1]) + InOrder(nodes[|nodes| - 1])
  }

  lemma {:induction false} StrangePrefix(nodes: seq<Node>, k: nat)
    requires k <= |nodes|
    ensures StrangeAll(nodes[..k]) <= StrangeAll(nodes)
    decreases |nodes|
  {
    if k < |nodes| {
      assert nodes[..|nodes| - 1][..k] == nodes[..k];
      StrangePrefix(nodes[..|nodes| - 1], k);
    } else {
      assert nodes[..k] == nodes;
    }
  }

  /** verifyJsonPath of the pipeline: it converts a tree exactly when it is
      made of fields and lists, into its fields from left to right. */
  method FieldPath(node: Node) returns (r: Option<seq<string>>)
    ensures r == if Strange(node) == 0 then Some(InOrder(node)) else None
    decreases node
  {
    match node
    case FieldNode(value) => return Some([value]);
    case OtherNode(_) => return None;
    case ListNode(nodes) =>
      var paths := [];
      var i := 0;
      while i < |nodes|
        invariant 0 <= i <= |nodes|
        invariant StrangeAll(nodes[..i]) == 0 && paths == InOrderAll(nodes[..i])
      {
        assert nodes[..i + 1][..i] == nodes[..i];
        StrangePrefix(nodes, i + 1);
        var nested := FieldPath(nodes[i]);
        if nested.None? { return None; }
        paths := paths + nested.value;
        i := i + 1;
      }
      assert nodes[..i] == nodes;
      return Some(paths);
  }

  /** verifyJsonPath of the webhook: one error per node that is not allowed. */
  method PathErrors(node: Node) returns (errs: nat)
    ensures errs == Strange(node)
    decreases node
  {
    match node
    case FieldNode(_) => return 0;
    case OtherNode(_) => return 1;
    case ListNode(nodes) =>
      errs := 0;
      var i := 0;
      while i < |nodes|
        invariant 0 <= i <= |nodes| && errs == StrangeAll(nodes[..i])
      {
        assert nodes[..i + 1][..i] == nodes[..i];
        var more := PathErrors(nodes[i]);
        errs := errs + more;
        i := i + 1;
      }
      assert nodes[..i] == nodes;
  }

  /** The node of a tree that is reached by going down to the given children. */
  function NodeAt(node: Node, path: seq<nat>): Option<Node>
    decreases |path|
  {
    if path == [] then Some(node)
    else if node.ListNode? && path[0] < |node.nodes| then NodeAt(node.nodes[path[0]], path[1..])
    else None
  }

  /** There is nothing but fields and lists in the tree. */
  ghost predicate PureTree(node: Node)
  {
    forall path :: NodeAt(node, path).Some? ==> !NodeAt(node, path).value.OtherNode?
  }

  lemma {:induction false} NoneStrange(nodes: seq<Node>)
    ensures StrangeAll(nodes) == 0 <==> forall i :: 0 <= i < |nodes| ==> Strange(nodes[i]) == 0
  {
    if nodes != [] { NoneStrange(nodes[..|nodes| - 1]); }
  }

  lemma {:induction false} PureIff(node: Node)
    ensures Strange(node) == 0 <==> PureTree(node)
  {
    match node
    case FieldNode(_) =>
    case OtherNode(_) => assert NodeAt(node, []) == Some(node);
    case ListNode(nodes) =>
      NoneStrange(nodes);
      forall i | 0 <= i < |nodes| ensures Strange(nodes[i]) == 0 <==> PureTree(nodes[i]) { PureIff(nodes[i]); }
      PureList(nodes);
  }

  lemma PureList(nodes: seq<Node>)
    ensures PureTree(ListNode(nodes)) <==> forall i :: 0 <= i < |nodes| ==> PureTree(nodes[i])
  {
    var node := ListNode(nodes);
    if PureTree(node) {
      forall i, path | 0 <= i < |nodes| && NodeAt(nodes[i], path).Some?
        ensures !NodeAt(nodes[i], path).value.OtherNode?
      {
        assert ([i as nat] + path)[1..] == path;
        assert NodeAt(node, [i as nat] + path) == NodeAt(nodes[i], path);
      }
    }
    if forall i :: 0 <= i < |nodes| ==> PureTree(nodes[i]) {
      forall path | NodeAt(node, path).Some? ensures !NodeAt(node, path).value.OtherNode? {
        if path != [] { assert NodeAt(node, path) == NodeAt(nodes[path[0]], path[1..]) && PureTree(nodes[path[0]]); }
      }
    }
  }

  /** The fields of a list are those of its nodes, one after the other. */
  lemma {:induction false} FieldsConcat(xs: seq<Node>, ys: seq<Node>)
    ensures InOrder(ListNode(xs + ys)) == InOrder(ListNode(xs)) + InOrder(ListNode(ys))
    decreases |ys|
  {
    if ys == [] {
      assert xs + ys == xs;
    } else {
      var n := |ys| - 1;
      FieldsConcat(xs, ys[..n]);
      assert (xs + ys)[..|xs| + n] == xs + ys[..n] && (xs + ys)[|xs| + n] == ys[n];
    }
  }

  // ---- Validation ----

  /** White space as `strings.TrimSpace` sees it. */
  predicate Space(c: char)
  {
    var n := c as int;
    9 <= n <= 13 || n in {32, 0x85, 0xA0, 0x1680, 0x2028, 0x2029, 0x202F, 0x205F, 0x3000} || 0x2000 <= n <= 0x200A
  }

  predicate Blank(s: string)
  {
    forall i :: 0 <= i < |s| ==> Space(s[i])
  }

  predicate RestrictedOk(p: Restricted)
  {
    p.text == "" || (p.tree.Some? && Strange(p.tree.value) == 0)
  }

  predicate ContainerOk(c: ContainerTemplate)
  {
    RestrictedOk(c.name) && RestrictedOk(c.env) && RestrictedOk(c.volumeMounts) && c.text != "" && c.path.Some?
  }

  predicate TemplateOk(t: Template)
  {
    RestrictedOk(t.volumes) && RestrictedOk(t.annotations) &&
    forall i :: 0 <= i < |t.containers| ==> ContainerOk(t.containers[i])
  }

  /** What the webhook demands of a mapping. */
  predicate Valid(m: ResourceMapping)
  {
    (forall i :: 0 <= i < |m.versions| ==> !Blank(m.versions[i].version) && TemplateOk(m.versions[i])) &&
    (forall i, j :: 0 <= i < j < |m.versions| ==> m.versions[i].version != m.versions[j].version)
  }

  /** The path is not set, or parses to nothing but fields. */
  ghost predicate FieldsOnly(p: Restricted)
  {
    p.text == "" || (p.tree.Some? && PureTree(p.tree.value))
  }

  lemma FieldsOnlyIs(p: Restricted)
    ensures RestrictedOk(p) <==> FieldsOnly(p)
  {
    if p.tree.Some? { PureIff(p.tree.value); }
  }

  ghost predicate ContainerSound(c: ContainerTemplate)
  {
    FieldsOnly(c.name) && FieldsOnly(c.env) && FieldsOnly(c.volumeMounts) && c.text != "" && c.path.Some?
  }

  /** A mapping is valid exactly if its versions are distinct and each has a
      character that is no white space, every restricted path has nothing but
      fields, and every container has a path that parses. */
  lemma ValidIff(m: ResourceMapping)
    ensures Valid(m) <==>
      && DistinctVersions(m.versions)
      && (forall t :: t in m.versions ==> exists i :: 0 <= i < |t.version| && !Space(t.version[i]))
      && (forall t :: t in m.versions ==> FieldsOnly(t.volumes) && FieldsOnly(t.annotations))
      && forall t, c :: t in m.versions && c in t.containers ==> ContainerSound(c)
  {
    hide TemplateOk, FieldsOnly, ContainerSound, Space;
    var good := (forall t :: t in m.versions ==> !Blank(t.version) && TemplateOk(t));
    assert Valid(m) <==> good && DistinctVersions(m.versions);
    forall t | t in m.versions
      ensures TemplateOk(t) <==>
        FieldsOnly(t.volumes) && FieldsOnly(t.annotations) && forall c :: c in t.containers ==> ContainerSound(c)
    {
      TemplateSoundIs(t);
    }
  }

  lemma ContainerSoundIs(c: ContainerTemplate)
    ensures ContainerOk(c) <==> ContainerSound(c)
  {
    hide RestrictedOk, FieldsOnly;
    FieldsOnlyIs(c.name);
    FieldsOnlyIs(c.env);
    FieldsOnlyIs(c.volumeMounts);
  }

  lemma TemplateSoundIs(t: Template)
    ensures TemplateOk(t) <==>
      FieldsOnly(t.volumes) && FieldsOnly(t.annotations) && forall c :: c in t.containers ==> ContainerSound(c)
  {
    hide RestrictedOk, FieldsOnly, ContainerOk, ContainerSound;
    FieldsOnlyIs(t.volumes);
    FieldsOnlyIs(t.annotations);
    forall i | 0 <= i < |t.containers| ensures ContainerOk(t.containers[i]) <==> ContainerSound(t.containers[i]) {
      ContainerSoundIs(t.containers[i]);
    }
  }

  method RestrictedErrors(p: Restricted) returns (errs: nat)
    ensures errs == 0 <==> RestrictedOk(p)
  {
    if p.text == "" { return 0; }
    if p.tree.None? { return 1; }
    var strange := PathErrors(p.tree.value);
    return if strange != 0 then 1 else 0;
  }

  method TemplateErrors(t: Template) returns (errs: nat)
    ensures errs == 0 <==> TemplateOk(t)
  {
    errs := 0;
    var i := 0;
    while i < |t.containers|
      invariant 0 <= i <= |t.containers|
      invariant errs == 0 <==> forall k :: 0 <= k < i ==> ContainerOk(t.containers[k])
    {
      var c := t.containers[i];
      var a := RestrictedErrors(c.name);
      var b := RestrictedErrors(c.env);
      var d := RestrictedErrors(c.volumeMounts);
      errs := errs + a + b + d + (if c.text == "" || c.path.None? then 1 else 0);
      i := i + 1;
    }
    var v := RestrictedErrors(t.volumes);
    var n := RestrictedErrors(t.annotations);
    errs := errs + v + n;
  }

  /** validate: no error is reported exactly for valid mappings. */
  method Validate(m: ResourceMapping) returns (errs: nat)
    ensures errs == 0 <==> Valid(m)
  {
    errs := 0;
    var versions: set<string> := {};
    var i := 0;
    while i < |m.versions|
      invariant 0 <= i <= |m.versions|
      invariant versions == set k | 0 <= k < i :: m.versions[k].version
      invariant errs == 0 <==> Valid(ResourceMapping(m.name, m.versions[..i]))
    {
      var t := m.versions[i];
      ghost var before := ResourceMapping(m.name, m.versions[..i]);
      ghost var after := ResourceMapping(m.name, m.versions[..i + 1]);
      assert forall k :: 0 <= k < i ==> after.versions[k] == before.versions[k] == m.versions[k];
      assert after.versions[i] == t;
      if t.version == "" || Blank(t.version) || t.version in versions {
        errs := errs + 1;
      }
      versions := versions + {t.version};
      var more := TemplateErrors(t);
      errs := errs + more;
      i := i + 1;
    }
    assert m.versions[..i] == m.versions;
  }

  // ---- Conversion ----

  function RestrictedPath(p: Restricted, default: seq<string>): Option<seq<string>>
  {
    if p.text == "" then Some(default)
    else if p.tree.Some? && Strange(p.tree.value) == 0 then Some(InOrder(p.tree.value))
    else None
  }

  const DEFAULT_VOLUMES := ["spec", "template", "spec", "volumes"]

  function ConvertContainer(c: ContainerTemplate): Option<WorkloadContainer>
  {
    var name := RestrictedPath(c.name, ["name"]);
    var env := RestrictedPath(c.env, ["env"]);
    var mounts := RestrictedPath(c.volumeMounts, ["volumeMounts"]);
    if name.None? || env.None? || mounts.None? || c.path.None? then None
    else Some(WorkloadContainer(c.path.value, name.value, env.value, ["envFrom"], mounts.value))
  }

  function ConvertContainers(cs: seq<ContainerTemplate>): Option<seq<WorkloadContainer>>
  {
    if cs == [] then Some([])
    else
      var rest := ConvertContainers(cs[..|cs| - 1]);
      var last := ConvertContainer(cs[|cs| - 1]);
      if rest.None? || last.None? then None else Some(rest.value + [last.value])
  }

  /** FromWorkloadResourceMappingTemplate. */
  function Convert(t: Template): Option<WorkloadMapping>
  {
    var cs := ConvertContainers(t.containers);
    var volume := RestrictedPath(t.volumes, DEFAULT_VOLUMES);
    if cs.None? || volume.None? then None else Some(WorkloadMapping(cs.value, volume.value))
  }

  lemma {:induction false} ConvertPrefix(cs: seq<ContainerTemplate>, k: nat)
    requires k <= |cs| && ConvertContainers(cs[..k]).None?
    ensures ConvertContainers(cs).None?
    decreases |cs|
  {
    if k < |cs| {
      assert cs[..|cs| - 1][..k] == cs[..k];
      ConvertPrefix(cs[..|cs| - 1], k);
    } else {
      assert cs[..k] == cs;
    }
  }

  method ConvertPath(p: Restricted, default: seq<string>) returns (r: Option<seq<string>>)
    ensures r == RestrictedPath(p, default)
  {
    if p.text == "" { return Some(default); }
    if p.tree.None? { return None; }
    r := FieldPath(p.tree.value);
  }

  method FromTemplate(t: Template) returns (r: Option<WorkloadMapping>)
    ensures r == Convert(t)
  {
    var containers := [];
    var i := 0;
    while i < |t.containers|
      invariant 0 <= i <= |t.containers| && ConvertContainers(t.containers[..i]) == Some(containers)
    {
      var c := t.containers[i];
      assert t.containers[..i + 1][..i] == t.containers[..i];
      var name := ConvertPath(c.name, ["name"]);
      var env := ConvertPath(c.env, ["env"]);
      var mounts := ConvertPath(c.volumeMounts, ["volumeMounts"]);
      if name.None? || env.None? || mounts.None? || c.path.None? {
        ConvertPrefix(t.containers, i + 1);
        return None;
      }
      containers := containers + [WorkloadContainer(c.path.value, name.value, env.value, ["envFrom"], mounts.value)];
      i := i + 1;
    }
    assert t.containers[..i] == t.containers;
    var volume := ConvertPath(t.volumes, DEFAULT_VOLUMES);
    if volume.None? { return None; }
    return Some(WorkloadMapping(containers, volume.value));
  }

  /** The field path that a restricted path gives, or the default one. */
  predicate Gives(p: Restricted, default: seq<string>, path: seq<string>)
  {
    if p.text == "" then path == default else p.tree.Some? && path == InOrder(p.tree.value)
  }

  /** Each container keeps its place, its path, and its own field paths. */
  lemma {:induction false} ConvertedAt(cs: seq<ContainerTemplate>, i: nat)
    requires ConvertContainers(cs).Some? && i < |cs|
    ensures |ConvertContainers(cs).value| == |cs|
    ensures var c, wc := cs[i], ConvertContainers(cs).value[i];
      && c.path == Some(wc.path) && Gives(c.name, ["name"], wc.name) && Gives(c.env, ["env"], wc.env)
      && Gives(c.volumeMounts, ["volumeMounts"], wc.volumeMounts) && wc.envFrom == ["envFrom"]
  {
    hide Strange, InOrder;
    var n := |cs| - 1;
    if n > 0 { ConvertedAt(cs[..n], if i < n then i else 0); }
  }

  /** What a converted template says about volumes and containers. */
  lemma Converted(t: Template)
    ensures var r := Convert(t);
      r.Some? ==>
        && Gives(t.volumes, ["spec", "template", "spec", "volumes"], r.value.volume)
        && |r.value.containers| == |t.containers|
        && forall i :: 0 <= i < |t.containers| ==>
             var c, wc := t.containers[i], r.value.containers[i];
             && c.path == Some(wc.path) && Gives(c.name, ["name"], wc.name) && Gives(c.env, ["env"], wc.env)
             && Gives(c.volumeMounts, ["volumeMounts"], wc.volumeMounts) && wc.envFrom == ["envFrom"]
  {
    hide Strange, InOrder, ConvertContainers, Gives;
    if Convert(t).Some? {
      GivesIs(t.volumes, DEFAULT_VOLUMES);
      if t.containers == [] { NothingConverted(); } else { ConvertedAt(t.containers, 0); }
      forall i | 0 <= i < |t.containers|
        ensures var c, wc := t.containers[i], ConvertContainers(t.containers).value[i];
          && c.path == Some(wc.path) && Gives(c.name, ["name"], wc.name) && Gives(c.env, ["env"], wc.env)
          && Gives(c.volumeMounts, ["volumeMounts"], wc.volumeMounts) && wc.envFrom == ["envFrom"]
      {
        ConvertedAt(t.containers, i);
      }
    }
  }

  lemma NothingConverted()
    ensures ConvertContainers([]) == Some([])
  {
  }

  lemma GivesIs(p: Restricted, default: seq<string>)
    ensures RestrictedPath(p, default).Some? ==> Gives(p, default, RestrictedPath(p, default).value)
  {
  }

  lemma {:induction false} ContainersConvert(cs: seq<ContainerTemplate>)
    requires forall i :: 0 <= i < |cs| ==> ContainerOk(cs[i])
    ensures ConvertContainers(cs).Some?
  {
    if cs != [] { ContainersConvert(cs[..|cs| - 1]); }
  }

  /** Every template that the webhook accepts is converted without error. */
  lemma AcceptedConverts(t: Template)
    requires TemplateOk(t)
    ensures Convert(t).Some?
  {
    ContainersConvert(t.containers);
  }

  // ---- Choosing a template ----

  const UNSET: Restricted := Restricted("", None)

  /** The tree of a dotted path such as `.spec.template`. */
  function Dotted(names: seq<string>): Node
  {
    ListNode([ListNode(seq(|names|, i requires 0 <= i < |names| => FieldNode(names[i])))])
  }

  function PodTemplateContainers(list: string): ContainerTemplate
  {
    ContainerTemplate(".spec.template.spec." + list + "[*]",
      Some([Field("spec"), Field("template"), Field("spec"), Field(list), AllItems]),
      Restricted(".name", Some(Dotted(["name"]))),
      Restricted(".env", Some(Dotted(["env"]))),
      Restricted(".volumeMounts", Some(Dotted(["volumeMounts"]))))
  }

  const DEFAULT_TEMPLATE: Template := Template("*",
    Restricted(".spec.template.spec.annotations", Some(Dotted(["spec", "template", "spec", "annotations"]))),
    Restricted(".spec.template.spec.volumes", Some(Dotted(DEFAULT_VOLUMES))),
    [PodTemplateContainers("containers"), PodTemplateContainers("initContainers")])

  /** The template for a version: an exact match, else the wildcard, else `fallback`. */
  function Select(versions: seq<Template>, v: string, fallback: Template): Template
  {
    if versions == [] then fallback
    else if versions[0].version == v then versions[0]
    else Select(versions[1..], v, if versions[0].version == "*" then versions[0] else fallback)
  }

  predicate Offers(versions: seq<Template>, v: string)
  {
    exists i :: 0 <= i < |versions| && versions[i].version == v
  }

  /** The place of the template that is chosen. */
  lemma {:induction false} SelectIs(versions: seq<Template>, v: string, fallback: Template) returns (i: nat)
    ensures Offers(versions, v) ==>
      i < |versions| && Select(versions, v, fallback) == versions[i] && versions[i].version == v &&
      forall j :: 0 <= j < i ==> versions[j].version != v
    ensures !Offers(versions, v) && Offers(versions, "*") ==>
      i < |versions| && Select(versions, v, fallback) == versions[i] && versions[i].version == "*" &&
      forall j :: i < j < |versions| ==> versions[j].version != "*"
    ensures !Offers(versions, v) && !Offers(versions, "*") ==> Select(versions, v, fallback) == fallback
  {
    if versions == [] {
      i := 0;
    } else if versions[0].version == v {
      i := 0;
    } else {
      var rest := versions[1..];
      var k := SelectIs(rest, v, if versions[0].version == "*" then versions[0] else fallback);
      assert forall j :: 0 < j < |versions| ==> versions[j] == rest[j - 1];
      assert Offers(versions, v) <==> Offers(rest, v) by {
        if Offers(rest, v) { var j :| 0 <= j < |rest| && rest[j].version == v; assert versions[j + 1].version == v; }
      }
      assert Offers(rest, "*") ==> Offers(versions, "*") by {
        if Offers(rest, "*") {
          var j :| 0 <= j < |rest| && rest[j].version == "*";
          assert versions[j + 1].version == "*";
        }
      }
      i := if Offers(rest, v) || Offers(rest, "*") then k + 1 else 0;
    }
  }

  predicate DistinctVersions(versions: seq<Template>)
  {
    forall i, j :: 0 <= i < j < |versions| ==> versions[i].version != versions[j].version
  }

  lemma SameChoice(one: seq<Template>, two: seq<Template>, v: string, fallback: Template)
    requires DistinctVersions(one) && DistinctVersions(two)
    requires forall t :: t in one <==> t in two
    ensures Select(one, v, fallback) == Select(two, v, fallback)
  {
    var i := SelectIs(one, v, fallback);
    var j := SelectIs(two, v, fallback);
    SameOffers(one, two, v);
    SameOffers(one, two, "*");
    if Offers(one, v) || Offers(one, "*") {
      assert one[i] in two && two[j] in one;
      var k :| 0 <= k < |two| && two[k] == one[i];
      assert two[k].version == two[j].version;
    }
  }

  lemma SameOffers(one: seq<Template>, two: seq<Template>, v: string)
    requires forall t :: t in one <==> t in two
    ensures Offers(one, v) <==> Offers(two, v)
  {
    if Offers(one, v) {
      var i :| 0 <= i < |one| && one[i].version == v;
      assert one[i] in two;
    }
    if Offers(two, v) {
      var i :| 0 <= i < |two| && two[i].version == v;
      assert two[i] in one;
    }
  }

  // ---- The webhook's view ----

  /** `GroupResource.String`: the name under which a mapping is looked up. */
  function MappingName(gvr: GroupVersionResource): string
  {
    if gvr.group == "" then gvr.resource else gvr.resource + "." + gvr.group
  }

  /** AcceptsGVR. */
  method AcceptsGVR(m: ResourceMapping, gvr: GroupVersionResource) returns (r: bool)
    ensures r == Accepts(m, gvr)
  {
    if m.name != gvr.resource + "." + gvr.group { return false; }
    var i := 0;
    while i < |m.versions|
      invariant 0 <= i <= |m.versions|
      invariant forall j :: 0 <= j < i ==> m.versions[j].version != gvr.version && m.versions[j].version != "*"
    {
      if m.versions[i].version == gvr.version || m.versions[i].version == "*" { return true; }
      i := i + 1;
    }
    return false;
  }

  predicate Accepts(m: ResourceMapping, gvr: GroupVersionResource)
  {
    m.name == gvr.resource + "." + gvr.group && (Offers(m.versions, gvr.version) || Offers(m.versions, "*"))
  }

  /** For a mapping named for the workload's resource the webhook accepts the
      resource exactly when the choice of a template does not depend on the
      fallback, that is, when it comes from the mapping, provided that the
      group is not the core group. */
  lemma AcceptsIffChosen(m: ResourceMapping, gvr: GroupVersionResource)
    requires m.name == MappingName(gvr)
    ensures Accepts(m, gvr) <==>
      gvr.group != "" && forall s, t :: Select(m.versions, gvr.version, s) == Select(m.versions, gvr.version, t)
  {
    if gvr.group == "" {
      assert |gvr.resource + "." + gvr.group| == |gvr.resource| + 1;
    }
    forall s, t ensures Offers(m.versions, gvr.version) || Offers(m.versions, "*") ==>
        Select(m.versions, gvr.version, s) == Select(m.versions, gvr.version, t) {
      var i := SelectIs(m.versions, gvr.version, s);
      var j := SelectIs(m.versions, gvr.version, t);
    }
    if !Offers(m.versions, gvr.version) && !Offers(m.versions, "*") {
      var s, t := DEFAULT_TEMPLATE, DEFAULT_TEMPLATE.(version := "");
      var i := SelectIs(m.versions, gvr.version, s);
      var j := SelectIs(m.versions, gvr.version, t);
      assert Select(m.versions, gvr.version, s) != Select(m.versions, gvr.version, t);
    }
  }

  // ---- The mapping of a workload ----

  function Chosen(m: Option<ResourceMapping>, v: string): Template
  {
    if m.None? then DEFAULT_TEMPLATE else Select(m.value.versions, v, DEFAULT_TEMPLATE)
  }

  /** For valid mappings the choice does not depend on the order of versions. */
  lemma OrderFree(one: ResourceMapping, two: ResourceMapping, v: string, extra: Option<ContainersPath>)
    requires Valid(one) && Valid(two) && forall t :: t in one.versions <==> t in two.versions
    ensures ResourceTemplate(Some(one), v, extra) == ResourceTemplate(Some(two), v, extra)
  {
    hide Convert;
    ValidIff(one);
    ValidIff(two);
    SameChoice(one.versions, two.versions, v, DEFAULT_TEMPLATE);
  }

  function Completed(t: Template): Template
  {
    if t.containers == [] then t.(containers := DEFAULT_TEMPLATE.containers) else t
  }

  /** A binding's own containers path, `.<path>[*]`. */
  datatype ContainersPath = ContainersPath(text: string, path: seq<PathNode>)

  /** The extra path is appended unless every container has exactly that path. */
  function Extended(t: Template, extra: Option<ContainersPath>): Template
  {
    if extra.Some? && exists i :: 0 <= i < |t.containers| && t.containers[i].text != extra.value.text
    then
      var own := ContainerTemplate(extra.value.text, Some(extra.value.path), UNSET, UNSET, UNSET);
      t.(containers := t.containers + [own])
    else t
  }

  function ResourceTemplate(
    m: Option<ResourceMapping>, v: string, extra: Option<ContainersPath>): Option<WorkloadMapping>
  {
    Convert(Extended(Completed(Chosen(m, v)), extra))
  }

  /** The containers path of a binding is one more container, with the default
      field paths, exactly if some container of the template has another path. */
  lemma OwnPath(m: Option<ResourceMapping>, v: string, extra: ContainersPath)
    requires ResourceTemplate(m, v, None).Some?
    ensures var r, cs := ResourceTemplate(m, v, Some(extra)), Completed(Chosen(m, v)).containers;
      r == Some(ResourceTemplate(m, v, None).value.(containers :=
        ResourceTemplate(m, v, None).value.containers +
        if exists c :: c in cs && c.text != extra.text
        then [WorkloadContainer(extra.path, ["name"], ["env"], ["envFrom"], ["volumeMounts"])] else []))
  {
    hide Strange, InOrder, ConvertContainer, Select;
    var t := Completed(Chosen(m, v));
    var own := ContainerTemplate(extra.text, Some(extra.path), UNSET, UNSET, UNSET);
    OwnConverts(extra);
    if c :| c in t.containers && c.text != extra.text {
      var i :| 0 <= i < |t.containers| && t.containers[i] == c;
      var cs := t.containers + [own];
      assert cs[..|cs| - 1] == t.containers && cs[|cs| - 1] == own;
    } else {
      assert forall i :: 0 <= i < |t.containers| ==> t.containers[i] in t.containers;
      var cs := ResourceTemplate(m, v, None).value.containers;
      assert cs + [] == cs;
    }
  }

  lemma OwnConverts(extra: ContainersPath)
    ensures ConvertContainer(ContainerTemplate(extra.text, Some(extra.path), UNSET, UNSET, UNSET)) ==
      Some(WorkloadContainer(extra.path, ["name"], ["env"], ["envFrom"], ["volumeMounts"]))
  {
  }

  /** WorkloadResourceTemplate, after the mapping was fetched or read from the annotation. */
  method WorkloadResourceTemplate(m: Option<ResourceMapping>, v: string, extra: Option<ContainersPath>)
    returns (r: Option<WorkloadMapping>)
    ensures r == ResourceTemplate(m, v, extra)
  {
    var versions := if m.None? then [] else m.value.versions;
    var template: Option<Template> := if m.None? then Some(DEFAULT_TEMPLATE) else None;
    var wildcard := DEFAULT_TEMPLATE;
    var i := 0;
    assert versions[0..] == versions;
    while i < |versions|
      invariant 0 <= i <= |versions|
      invariant m.Some? && template.None?  ==> Select(versions[i..], v, wildcard) == Chosen(m, v)
      invariant m.None? ==> versions == [] && template == Some(DEFAULT_TEMPLATE)
      invariant m.Some? ==> template.None?
    {
      assert versions[i..][0] == versions[i] && versions[i..][1..] == versions[i + 1..];
      if versions[i].version == v {
        template := Some(versions[i]);
        break;
      } else if versions[i].version == "*" {
        wildcard := versions[i];
      }
      i := i + 1;
    }
    var t := if template.None? then wildcard else template.value;
    assert t == Chosen(m, v);
    if t.containers == [] {
      t := t.(containers := DEFAULT_TEMPLATE.containers);
    }
    if extra.Some? {
      var found, k := false, 0;
      while k < |t.containers| && !found
        invariant 0 <= k <= |t.containers|
        invariant found <==> exists j :: 0 <= j < k && t.containers[j].text != extra.value.text
      {
        found := t.containers[k].text != extra.value.text;
        k := k + 1;
      }
      if found {
        var own := ContainerTemplate(extra.value.text, Some(extra.value.path), UNSET, UNSET, UNSET);
        t := t.(containers := t.containers + [own]);
      }
    }
    r := FromTemplate(t);
  }

  lemma DefaultOk()
    ensures TemplateOk(DEFAULT_TEMPLATE)
  {
    DottedOk(["name"]);
    DottedOk(["env"]);
    DottedOk(["volumeMounts"]);
    DottedOk(["spec", "template", "spec", "annotations"]);
    DottedOk(DEFAULT_VOLUMES);
  }

  lemma {:induction false} FieldList(names: seq<string>)
    ensures var nodes := seq(|names|, i requires 0 <= i < |names| => FieldNode(names[i]));
      StrangeAll(nodes) == 0 && InOrderAll(nodes) == names
  {
    if names != [] {
      var n := |names| - 1;
      FieldList(names[..n]);
      var nodes := seq(|names|, i requires 0 <= i < |names| => FieldNode(names[i]));
      assert nodes[..n] == seq(n, i requires 0 <= i < n => FieldNode(names[..n][i]));
      assert names == names[..n] + [names[n]];
    }
  }

  lemma DottedOk(names: seq<string>)
    ensures Strange(Dotted(names)) == 0 && InOrder(Dotted(names)) == names
  {
    FieldList(names);
    var nodes := seq(|names|, i requires 0 <= i < |names| => FieldNode(names[i]));
    var inner := ListNode(nodes);
    assert [inner][..0] == [] && [] + names == names;
    assert StrangeAll([inner]) == Strange(inner) == StrangeAll(nodes);
    assert InOrderAll([inner]) == InOrder(inner) == InOrderAll(nodes);
  }

  /** A mapping that the webhook accepted always yields a workload mapping. */
  lemma ValidResolves(m: Option<ResourceMapping>, v: string, extra: Option<ContainersPath>)
    requires m.Some? ==> Valid(m.value)
    requires extra.Some? ==> extra.value.text != ""
    ensures ResourceTemplate(m, v, extra).Some?
  {
    DefaultOk();
    if m.Some? { var i := SelectIs(m.value.versions, v, DEFAULT_TEMPLATE); }
    assert TemplateOk(Chosen(m, v));
    AcceptedConverts(Extended(Completed(Chosen(m, v)), extra));
  }
}
