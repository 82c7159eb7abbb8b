/**
 A binding that is projected as environment variables leaves references to its
 secret. A secret that is replaced leaves its references behind for good.
 */
module References {

  import opened Documents
  import opened Entries
  import opened Pods
  import opened Views
  import opened Projection
  import opened Templates
  import opened Stored
  import opened Signs
  import opened Protocol
  import opened Rebinding

  /** The run concerns some other secret. */
  predicate OtherSecret(c: Collection, secret: string)
  {
    match c
    case Halted(_, _, recorded) => recorded != Some(secret)
    case Collected(s, _) => s != secret
  }

  /** All mappings of the cluster are charted, and the secret is not the one on record. */
  ghost predicate Replaced(cfg: Config, s: Cluster, realms: seq<Realm>, secret: string)
  {
    && secret != "" && Housed(s, realms)
    && Charted(cfg, s.mapping, realms)
    && (s.binding.Some? ==> s.binding.value.secret != secret && Charted(cfg, Current(s, s.binding.value), realms))
  }

  ghost predicate Elsewise(cfg: Config, step: Event, realms: seq<Realm>, secret: string)
  {
    match step
    case Reconcile(f) => OtherSecret(f.collection, secret)
    case CreateMapping(m) => Charted(cfg, Some(m), realms)
    case UpdateMapping(m, _) => Charted(cfg, Some(m), realms)
    case DeleteMapping => Charted(cfg, None, realms)
    case _ => true
  }

  lemma MovedStale(cfg: Config, s: Cluster, f: Fate, r: Realm, d: Json, e: Json, t: Target, secret: string)
    requires s.binding.Some? && AtHome(d, r) && secret != "" && OtherSecret(f.collection, secret)
    requires s.binding.value.secret != secret
    requires var m := Current(s, s.binding.value); SelectionFor(cfg, m).Some? && SelectionFor(cfg, m).value in r.sites
    requires Moved(cfg, s, s.binding.value, f, d, e)
    ensures AtHome(e, r)
    ensures t in r.ts && t.kind.EnvFrom? ==> SignCount(e, t, Referenced(secret)) == SignCount(d, t, Referenced(secret))
  {
    hide AtHome, SelectionFor, Bound, Unbound, SignCount;
    var b := s.binding.value;
    var sel := SelectionFor(cfg, Current(s, b)).value;
    if e != d {
      if UnbindRequested(b) {
        UnboundHome(BindingFor(cfg, b.secret), d, r, sel);
        if t in r.ts && t.kind.EnvFrom? { UnboundPlaced(BindingFor(cfg, b.secret), d, r, sel, t, Referenced(secret)); }
      } else {
        var c := BindingFor(cfg, f.collection.secret);
        BoundHome(c, d, r, sel, cfg.lenient);
        if t in r.ts && t.kind.EnvFrom? { BoundPlaced(c, d, r, sel, cfg.lenient, t, Referenced(secret)); }
      }
    }
  }

  lemma ReconcileStale(cfg: Config, s: Cluster, f: Fate, realms: seq<Realm>, secret: string, k: nat, t: Target)
    requires Replaced(cfg, s, realms, secret) && OtherSecret(f.collection, secret)
    requires k < |realms| && t in realms[k].ts && t.kind.EnvFrom?
    ensures var s' := Reconciled(cfg, s, f);
      && Replaced(cfg, s', realms, secret)
      && SignCount(s'.apps[k], t, Referenced(secret)) == SignCount(s.apps[k], t, Referenced(secret))
  {
    hide AtHome, SelectionFor, SignCount, Moved, Plain;
    if s.binding.Some? {
      hide Reconciled;
      var s' := Reconciled(cfg, s, f);
      ReconcileMapping(cfg, s, f);
      forall j | 0 <= j < |realms|
        ensures AtHome(s'.apps[j], realms[j])
        ensures t in realms[j].ts ==>
          SignCount(s'.apps[j], t, Referenced(secret)) == SignCount(s.apps[j], t, Referenced(secret))
      {
        HomePlain(s.apps[j], realms[j]);
        ReconcileApps(cfg, s, f, j);
        MovedStale(cfg, s, f, realms[j], s.apps[j], s'.apps[j], t, secret);
      }
      if s'.binding.Some? {
        AnnotationAfter(cfg, s, f);
        SecretAfter(cfg, s, f);
      }
    } else {
      assert Reconciled(cfg, s, f) == s;
    }
  }

  ghost predicate ElsewiseRun(cfg: Config, steps: seq<Event>, realms: seq<Realm>, secret: string)
  {
    forall i :: 0 <= i < |steps| ==> Elsewise(cfg, steps[i], realms, secret)
  }

  lemma StepStale(cfg: Config, s: Cluster, step: Event, realms: seq<Realm>, secret: string, k: nat, t: Target)
    requires Replaced(cfg, s, realms, secret) && Elsewise(cfg, step, realms, secret)
    requires k < |realms| && t in realms[k].ts && t.kind.EnvFrom?
    ensures var s' := Next(cfg, s, step);
      && Replaced(cfg, s', realms, secret)
      && SignCount(s'.apps[k], t, Referenced(secret)) == SignCount(s.apps[k], t, Referenced(secret))
  {
    hide AtHome, SelectionFor, SignCount, Reconciled, Accepts, Valid;
    if step.Reconcile? { ReconcileStale(cfg, s, step.f, realms, secret, k, t); }
  }

  /** Once the status names another secret, references to the replaced one stay
      exactly as they are over every run, whatever else happens, even when the
      binding is removed. */
  lemma {:induction false} StaleStays(
    cfg: Config, s: Cluster, steps: seq<Event>, realms: seq<Realm>, secret: string, k: nat, t: Target)
    requires Replaced(cfg, s, realms, secret) && ElsewiseRun(cfg, steps, realms, secret)
    requires k < |realms| && t in realms[k].ts && t.kind.EnvFrom?
    ensures Replaced(cfg, After(cfg, s, steps), realms, secret)
    ensures SignCount(After(cfg, s, steps).apps[k], t, Referenced(secret)) ==
      SignCount(s.apps[k], t, Referenced(secret))
    decreases |steps|
  {
    hide Replaced, Elsewise, Next, SignCount;
    if steps != [] {
      assert Elsewise(cfg, steps[0], realms, secret);
      StepStale(cfg, s, steps[0], realms, secret, k, t);
      StaleStays(cfg, Next(cfg, s, steps[0]), steps[1..], realms, secret, k, t);
    }
  }
}
