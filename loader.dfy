/**
 * Loading the cluster snapshot: the stores to list (the fixed registry that
 * is present, then any other store whose API names a kind not yet listed),
 * fetching each with retry and exponential backoff, converting the items to
 * resources, and reading the cluster id from the renderer's host name.
 */
module Loader {
  import opened Optional
  import opened Text
  import opened Resources

  /** The API object's entry under `key`, if it has one (keys are unique there). */
  function Lookup(api: seq<Store>, key: string): (st: Option<Store>)
    ensures st.Some? ==> st.value in api && st.value.key == key
    ensures st.None? ==> forall s :: s in api ==> s.key != key
  {
    if api == [] then None
    else if api[0].key == key then Some(api[0])
    else Lookup(api[1..], key)
  }

  /** A store to list, with the kind its resources get. */
  datatype Planned = Planned(store: Store, kind: string)

  /** The registry of well-known store keys and their kinds, in listing order. */
  const Registry: seq<(string, string)> := [
    ("podsStore", "Pod"), ("deploymentStore", "Deployment"), ("statefulSetStore", "StatefulSet"),
    ("daemonSetStore", "DaemonSet"), ("replicaSetStore", "ReplicaSet"), ("jobStore", "Job"),
    ("cronJobStore", "CronJob"), ("serviceStore", "Service"), ("ingressStore", "Ingress"),
    ("networkPolicyStore", "NetworkPolicy"), ("configMapStore", "ConfigMap"), ("secretsStore", "Secret"),
    ("persistentVolumeStore", "PersistentVolume"), ("pvcStore", "PersistentVolumeClaim"),
    ("storageClassStore", "StorageClass"), ("serviceAccountsStore", "ServiceAccount"), ("roleStore", "Role"),
    ("roleBindingStore", "RoleBinding"), ("clusterRoleStore", "ClusterRole"),
    ("clusterRoleBindingStore", "ClusterRoleBinding"), ("namespaceStore", "Namespace"), ("nodesStore", "Node"),
    ("limitRangeStore", "LimitRange"), ("resourceQuotaStore", "ResourceQuota")
  ]

  /** The registry entries whose store exists and exposes an API, in registry order. */
  function Registered(api: seq<Store>, entries: seq<(string, string)>): (plan: seq<Planned>)
    ensures |plan| <= |entries|
    ensures forall p :: p in plan ==> p.store in api && p.store.hasApi
    ensures forall p :: p in plan ==> exists e :: e in entries && p.store.key == e.0 && p.kind == e.1
  {
    if entries == [] then []
    else
      var st := Lookup(api, entries[0].0);
      var rest := Registered(api, entries[1..]);
      if st.Some? && st.value.hasApi then [Planned(st.value, entries[0].1)] + rest else rest
  }

  lemma {:induction false} RegisteredComplete(api: seq<Store>, entries: seq<(string, string)>, k: nat)
    requires k < |entries|
    requires Lookup(api, entries[k].0).Some? && Lookup(api, entries[k].0).value.hasApi
    ensures Planned(Lookup(api, entries[k].0).value, entries[k].1) in Registered(api, entries)
  {
    if k > 0 {
      RegisteredComplete(api, entries[1..], k - 1);
    }
  }

  predicate HasKind(plan: seq<Planned>, kind: string) {
    exists p :: p in plan && p.kind == kind
  }

  /** One step of discovery: add a kind-serving store unless its kind is already listed. */
  function Discover(plan: seq<Planned>, st: Store): seq<Planned> {
    if IsKindStore(st) && !HasKind(plan, st.kind) then plan + [Planned(st, st.kind)] else plan
  }

  /** Discovery over the stores of `api`, in order. */
  function Merge(plan: seq<Planned>, stores: seq<Store>): (r: seq<Planned>)
    ensures |plan| <= |r| && r[..|plan|] == plan
  {
    if stores == [] then plan else Discover(Merge(plan, stores[..|stores| - 1]), stores[|stores| - 1])
  }

  /** The stores `loadResources` lists. */
  function Plan(api: seq<Store>): seq<Planned> {
    Merge(Registered(api, Registry), api)
  }

  /** Builds the listing plan: the registry filter, then discovery as a loop over the API's stores. */
  method PlanStores(api: seq<Store>) returns (plan: seq<Planned>)
    ensures plan == Plan(api)
  {
    plan := Registered(api, Registry);
    var i := 0;
    while i < |api|
      invariant 0 <= i <= |api|
      invariant plan == Merge(Registered(api, Registry), api[..i])
    {
      assert api[..i + 1][..i] == api[..i];
      var st := api[i];
      if IsKindStore(st) && !HasKind(plan, st.kind) {
        plan := plan + [Planned(st, st.kind)];
      }
      i := i + 1;
    }
    assert api[..i] == api;
  }

  /** Every store whose API names a kind has that kind listed after discovery. */
  lemma {:induction false} MergeCovers(plan: seq<Planned>, stores: seq<Store>, st: Store)
    requires st in stores && IsKindStore(st)
    ensures HasKind(Merge(plan, stores), st.kind)
    decreases |stores|
  {
    var init := stores[..|stores| - 1];
    var m := Merge(plan, init);
    if st == stores[|stores| - 1] {
      if !HasKind(m, st.kind) {
        assert Planned(st, st.kind) in Discover(m, st);
      }
    } else {
      assert st in init;
      MergeCovers(plan, init, st);
      var p :| p in m && p.kind == st.kind;
      assert p in Discover(m, stores[|stores| - 1]);
    }
  }

  predicate DistinctKinds(plan: seq<Planned>) {
    forall i, j :: 0 <= i < j < |plan| ==> plan[i].kind != plan[j].kind
  }

  /** Discovery never lists a kind twice. */
  lemma {:induction false} MergeKeepsDistinct(plan: seq<Planned>, stores: seq<Store>)
    requires DistinctKinds(plan)
    ensures DistinctKinds(Merge(plan, stores))
    decreases |stores|
  {
    if stores != [] {
      var m := Merge(plan, stores[..|stores| - 1]);
      MergeKeepsDistinct(plan, stores[..|stores| - 1]);
      var st := stores[|stores| - 1];
      if IsKindStore(st) && !HasKind(m, st.kind) {
        var r := m + [Planned(st, st.kind)];
        forall i, j | 0 <= i < j < |r|
          ensures r[i].kind != r[j].kind
        {
          if j == |m| {
            assert r[i] in m;
          }
        }
      }
    }
  }

  /** What discovery adds are stores of the API whose API names a kind. */
  lemma {:induction false} MergeAdds(plan: seq<Planned>, stores: seq<Store>, k: nat)
    requires |plan| <= k < |Merge(plan, stores)|
    ensures var p := Merge(plan, stores)[k]; p.store in stores && IsKindStore(p.store) && p.kind == p.store.kind
    decreases |stores|
  {
    var init := stores[..|stores| - 1];
    var m := Merge(plan, init);
    if k < |m| {
      MergeAdds(plan, init, k);
    }
  }

  /** Every listed store exists in the API object and exposes an API. */
  lemma PlanStoresExist(api: seq<Store>, k: nat)
    requires k < |Plan(api)|
    ensures Plan(api)[k].store in api && Plan(api)[k].store.hasApi
  {
    var reg := Registered(api, Registry);
    if k < |reg| {
      assert Plan(api)[k] == reg[k];
      assert reg[k] in reg;
    } else {
      MergeAdds(reg, api, k);
    }
  }

  /** Every store of the API that names a kind has that kind listed. */
  lemma PlanCoversKindStores(api: seq<Store>, st: Store)
    requires st in api && IsKindStore(st)
    ensures HasKind(Plan(api), st.kind)
  {
    MergeCovers(Registered(api, Registry), api, st);
  }

  /** `Math.pow(2, k)`. */
  function Pow2(k: nat): (p: nat)
    ensures p >= 1
  {
    if k == 0 then 1 else 2 * Pow2(k - 1)
  }

  /** What the `k`-th call gives: the scripted response, or a throw past the script. */
  function Outcome<T>(outcomes: seq<Option<T>>, k: nat): Option<T> {
    if k < |outcomes| then outcomes[k] else None
  }

  /** The value `fetchWithRetry` resolves to when attempts `k..maxRetries` remain. */
  function FetchResult<T>(outcomes: seq<Option<T>>, maxRetries: nat, k: nat): Option<T>
    decreases maxRetries - k
  {
    if k > maxRetries then None
    else if Outcome(outcomes, k).Some? then Outcome(outcomes, k)
    else FetchResult(outcomes, maxRetries, k + 1)
  }

  /** The waits between attempts, from attempt `k` on. */
  function Delays<T>(outcomes: seq<Option<T>>, maxRetries: nat, initialDelayMs: nat, k: nat): seq<nat>
    decreases maxRetries - k
  {
    if k >= maxRetries || Outcome(outcomes, k).Some? then []
    else [initialDelayMs * Pow2(k)] + Delays(outcomes, maxRetries, initialDelayMs, k + 1)
  }

  /**
   * `fetchWithRetry`: call at most `maxRetries + 1` times; the first call that
   * does not throw gives the result; after a throw, wait `initialDelayMs * 2^attempt`
   * unless that was the last attempt, which gives `None`.
   */
  method FetchWithRetry<T>(outcomes: seq<Option<T>>, maxRetries: nat, initialDelayMs: nat)
    returns (result: Option<T>, delays: seq<nat>)
    ensures result == FetchResult(outcomes, maxRetries, 0)
    ensures delays == Delays(outcomes, maxRetries, initialDelayMs, 0)
  {
    var attempt := 0;
    var finished := false;
    result := None;
    delays := [];
    while !finished
      invariant 0 <= attempt <= maxRetries
      invariant finished ==> result == FetchResult(outcomes, maxRetries, 0) && delays == Delays(outcomes, maxRetries, initialDelayMs, 0)
      invariant !finished ==> result.None? && FetchResult(outcomes, maxRetries, attempt) == FetchResult(outcomes, maxRetries, 0)
      invariant !finished ==> delays + Delays(outcomes, maxRetries, initialDelayMs, attempt) == Delays(outcomes, maxRetries, initialDelayMs, 0)
      decreases (if finished then 0 else 1) + maxRetries - attempt
    {
      var outcome := Outcome(outcomes, attempt);
      if outcome.Some? {
        assert FetchResult(outcomes, maxRetries, attempt) == outcome;
        assert Delays(outcomes, maxRetries, initialDelayMs, attempt) == [];
        assert delays + [] == delays;
        result := outcome;
        finished := true;
      } else if attempt == maxRetries {
        assert FetchResult(outcomes, maxRetries, attempt) == FetchResult(outcomes, maxRetries, attempt + 1) == None;
        assert Delays(outcomes, maxRetries, initialDelayMs, attempt) == [];
        assert delays + [] == delays;
        finished := true;
      } else {
        delays := delays + [initialDelayMs * Pow2(attempt)];
        attempt := attempt + 1;
      }
    }
  }

  /** The fetch gives nothing exactly when every one of the `maxRetries + 1` attempts throws. */
  lemma {:induction false} FetchFailsIffAllThrow<T>(outcomes: seq<Option<T>>, maxRetries: nat, k: nat)
    requires k <= maxRetries + 1
    ensures FetchResult(outcomes, maxRetries, k).None? <==> forall j :: k <= j <= maxRetries ==> Outcome(outcomes, j).None?
    decreases maxRetries + 1 - k
  {
    if k <= maxRetries {
      FetchFailsIffAllThrow(outcomes, maxRetries, k + 1);
    }
  }

  /** A successful fetch gives the first call that did not throw. */
  lemma {:induction false} FetchGivesFirstSuccess<T>(outcomes: seq<Option<T>>, maxRetries: nat, k: nat)
    requires FetchResult(outcomes, maxRetries, k).Some?
    ensures exists j :: (k <= j <= maxRetries && Outcome(outcomes, j) == FetchResult(outcomes, maxRetries, k) &&
      (forall i :: k <= i < j ==> Outcome(outcomes, i).None?))
    decreases maxRetries - k
  {
    if Outcome(outcomes, k).None? {
      FetchGivesFirstSuccess(outcomes, maxRetries, k + 1);
    }
  }

  /** The waits double each time, start at `initialDelayMs` and number fewer than the attempts. */
  lemma {:induction false} DelaysDouble<T>(outcomes: seq<Option<T>>, maxRetries: nat, initialDelayMs: nat, k: nat)
    requires k <= maxRetries
    ensures var d := Delays(outcomes, maxRetries, initialDelayMs, k);
      |d| <= maxRetries - k && forall j :: 0 <= j < |d| ==> d[j] == initialDelayMs * Pow2(k + j)
    decreases maxRetries - k
  {
    if !(k >= maxRetries || Outcome(outcomes, k).Some?) {
      DelaysDouble(outcomes, maxRetries, initialDelayMs, k + 1);
    }
  }

  /** A store that always throws is tried four times, waiting 500, 1000 and 2000 ms between tries. */
  lemma AlwaysThrowingStoreBackoff()
    ensures Delays<seq<RawItem>>([], 3, 500, 0) == [500, 1000, 2000]
    ensures FetchResult<seq<RawItem>>([], 3, 0) == None
  {
    assert Pow2(2) == 4;
  }

  /** `maxRetries` and `initialDelayMs` of every store fetch. */
  const MaxRetries: nat := 3
  const InitialDelayMs: nat := 500

  /** What the fetch function gives: it throws on every call when the store has no API. */
  function Calls(st: Store): seq<Option<seq<RawItem>>> {
    if st.hasApi then st.responses else []
  }

  /** `a || b || fallback` on strings. */
  function FirstSet(a: string, b: string, fallback: string): string {
    if a != "" then a else if b != "" then b else fallback
  }

  /** The resource record built from one listed item. */
  function ToResource(kind: string, item: RawItem): (r: Resource)
    ensures r.kind == kind && r.name != ""
    ensures r.namespace.Some? <==> HasNamespace(r)
    ensures r.name in {item.metaName, item.getName, "unknown"}
    ensures r.namespace.Some? ==> r.namespace.value in {item.metaNamespace, item.getNs}
    ensures r.uid in {item.metaUid, item.getId, ""} && r.apiVersion == item.apiVersion
    // The metadata field wins; the accessor is the fallback; then the default.
    ensures item.metaName != "" ==> r.name == item.metaName
    ensures item.metaName == "" && item.getName != "" ==> r.name == item.getName
    ensures item.metaName == "" && item.getName == "" ==> r.name == "unknown"
    ensures item.metaNamespace != "" ==> r.namespace == Some(item.metaNamespace)
    ensures item.metaNamespace == "" && item.getNs != "" ==> r.namespace == Some(item.getNs)
    ensures item.metaNamespace == "" && item.getNs == "" ==> r.namespace.None?
    ensures item.metaUid != "" ==> r.uid == item.metaUid
    ensures item.metaUid == "" && item.getId != "" ==> r.uid == item.getId
    ensures item.metaUid == "" && item.getId == "" ==> r.uid == ""
  {
    var ns := FirstSet(item.metaNamespace, item.getNs, "");
    Resource(kind, FirstSet(item.metaName, item.getName, "unknown"), if ns == "" then None else Some(ns),
             FirstSet(item.metaUid, item.getId, ""), item.apiVersion)
  }

  /** The resources one listed store contributes: none when the fetch failed or was empty. */
  function StoreResources(p: Planned): (rs: seq<Resource>)
    ensures |rs| == 0 <==> FetchResult(Calls(p.store), MaxRetries, 0).None? || FetchResult(Calls(p.store), MaxRetries, 0).value == []
  {
    var items := FetchResult(Calls(p.store), MaxRetries, 0);
    if items.Some? && |items.value| > 0 then seq(|items.value|, i requires 0 <= i < |items.value| => ToResource(p.kind, items.value[i]))
    else []
  }

  /** The flattened results of all stores, in listing order. */
  function Snapshot(plan: seq<Planned>): seq<Resource> {
    if plan == [] then [] else StoreResources(plan[0]) + Snapshot(plan[1..])
  }

  /** A store contributes only resources of its own kind, each with a name. */
  lemma StoreResourcesOfKind(p: Planned)
    ensures forall r :: r in StoreResources(p) ==> r.kind == p.kind && r.name != ""
  {
    forall r | r in StoreResources(p) ensures r.kind == p.kind && r.name != "" {
      var items := FetchResult(Calls(p.store), MaxRetries, 0).value;
      var i :| 0 <= i < |items| && r == ToResource(p.kind, items[i]);
    }
  }

  /** Every loaded resource has a name. */
  lemma {:induction false} SnapshotNamed(plan: seq<Planned>)
    ensures forall r :: r in Snapshot(plan) ==> r.name != ""
  {
    if plan != [] {
      StoreResourcesOfKind(plan[0]);
      SnapshotNamed(plan[1..]);
    }
  }

  lemma {:induction false} SnapshotAppend(a: seq<Planned>, b: seq<Planned>)
    ensures Snapshot(a + b) == Snapshot(a) + Snapshot(b)
  {
    if a == [] {
      assert a + b == b;
    } else {
      assert a + b == [a[0]] + (a[1..] + b);
      SnapshotCons(a[0], a[1..] + b);
      SnapshotAppend(a[1..], b);
    }
  }

  /** The snapshot of a plan is its first store's resources, then the rest's. */
  lemma SnapshotCons(p: Planned, rest: seq<Planned>)
    ensures Snapshot([p] + rest) == StoreResources(p) + Snapshot(rest)
  {
    assert ([p] + rest)[1..] == rest;
  }

  /** Every loaded resource has the kind of a listed store. */
  lemma {:induction false} SnapshotKinds(plan: seq<Planned>, r: Resource)
    requires r in Snapshot(plan)
    ensures HasKind(plan, r.kind)
  {
    if r in StoreResources(plan[0]) {
      StoreResourcesOfKind(plan[0]);
      assert plan[0] in plan;
    } else {
      SnapshotKinds(plan[1..], r);
      var p :| p in plan[1..] && p.kind == r.kind;
      assert p in plan;
    }
  }

  /** A store whose every attempt throws leaves the snapshot as if it were not listed. */
  lemma FailingStoreContributesNothing(a: seq<Planned>, p: Planned, b: seq<Planned>)
    requires forall j :: 0 <= j <= MaxRetries ==> Outcome(Calls(p.store), j).None?
    ensures Snapshot(a + [p] + b) == Snapshot(a + b)
  {
    FetchFailsIffAllThrow(Calls(p.store), MaxRetries, 0);
    SnapshotAppend(a + [p], b);
    SnapshotAppend(a, [p]);
    SnapshotAppend(a, b);
  }

  /** Lists every planned store in turn (the source awaits them together and flattens in order). */
  method FetchAll(plan: seq<Planned>) returns (loaded: seq<Resource>)
    ensures loaded == Snapshot(plan)
  {
    loaded := [];
    var i := 0;
    while i < |plan|
      invariant 0 <= i <= |plan|
      invariant loaded == Snapshot(plan[..i])
    {
      var part := FetchStore(plan[i]);
      SnapshotPrefix(plan, i);
      loaded := loaded + part;
      i := i + 1;
    }
    assert plan[..i] == plan;
  }

  /** Lists one store with retries and maps its items to resources of the store's kind. */
  method FetchStore(p: Planned) returns (part: seq<Resource>)
    ensures part == StoreResources(p)
  {
    var items, _ := FetchWithRetry(Calls(p.store), MaxRetries, InitialDelayMs);
    part := [];
    if items.Some? && |items.value| > 0 {
      part := seq(|items.value|, j requires 0 <= j < |items.value| => ToResource(p.kind, items.value[j]));
    }
  }

  /** The snapshot of one more store of the plan extends the snapshot of the stores before it. */
  lemma SnapshotPrefix(plan: seq<Planned>, i: nat)
    requires i < |plan|
    ensures Snapshot(plan[..i + 1]) == Snapshot(plan[..i]) + StoreResources(plan[i])
  {
    SnapshotAppend(plan[..i], [plan[i]]);
    assert plan[..i + 1] == plan[..i] + [plan[i]];
    assert Snapshot([plan[i]]) == StoreResources(plan[i]) + Snapshot([]);
  }

  const HostSuffix := ".renderer.freelens.app"

  predicate IsLowerHex(c: char) {
    ('a' <= c <= 'f') || ('0' <= c <= '9')
  }

  predicate AllLowerHex(s: string) {
    forall i :: 0 <= i < |s| ==> IsLowerHex(s[i])
  }

  /** The cluster id in a host name `<lower-case hex>.renderer.freelens.app`, if it has that form. */
  function ClusterIdFromHostname(host: string): (id: Option<string>)
    ensures id.Some? ==> id.value != "" && AllLowerHex(id.value) && host == id.value + HostSuffix
  {
    var n := |host| - |HostSuffix|;
    if EndsWith(host, HostSuffix) && n > 0 && AllLowerHex(host[..n]) then Some(host[..n]) else None
  }

  /** Every non-empty lower-case hex id is read back from its renderer host name. */
  lemma ClusterIdRoundTrip(id: string)
    requires id != "" && AllLowerHex(id)
    ensures ClusterIdFromHostname(id + HostSuffix) == Some(id)
  {
    var host := id + HostSuffix;
    assert host[|host| - |HostSuffix|..] == HostSuffix;
    assert host[..|id|] == id;
  }

  /** A host name of any other shape has no cluster id. */
  lemma LocalhostHasNoClusterId()
    ensures ClusterIdFromHostname("localhost") == None
  {
  }
}
