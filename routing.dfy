/**
 * Where a Kubernetes object lives: the API self link built from its kind,
 * namespace and name, and the flat list-page path of its kind.
 */
module Routing {
  import opened Optional
  import opened Text
  import opened Resources
  import opened Effects

  /** API group prefix, plural resource name and whether the kind is namespaced. */
  datatype Route = Route(apiBase: string, plural: string, namespaced: bool)

  const CoreV1 := "/api/v1"
  const AppsV1 := "/apis/apps/v1"
  const BatchV1 := "/apis/batch/v1"
  const NetworkingV1 := "/apis/networking.k8s.io/v1"
  const RbacV1 := "/apis/rbac.authorization.k8s.io/v1"
  const StorageV1 := "/apis/storage.k8s.io/v1"

  /** The kinds `constructSelfLink` has a case for. */
  const RoutedKinds: set<string> := {
    "Pod", "Service", "ConfigMap", "Secret", "Namespace", "Node", "ServiceAccount",
    "PersistentVolume", "PersistentVolumeClaim", "Deployment", "StatefulSet", "DaemonSet",
    "ReplicaSet", "Job", "CronJob", "Ingress", "Role", "RoleBinding", "ClusterRole",
    "ClusterRoleBinding", "StorageClass"}

  /** The `switch` of `constructSelfLink`: the kinds it knows, and nothing for any other. */
  function RouteOf(kind: string): (route: Option<Route>)
    ensures route.Some? <==> kind in RoutedKinds
    ensures route.Some? ==> route.value.apiBase in {CoreV1, AppsV1, BatchV1, NetworkingV1, RbacV1, StorageV1}
    ensures route.Some? ==> |route.value.apiBase| > 1 && route.value.apiBase[0] == '/'
  {
    match kind
    case "Pod" => Some(Route(CoreV1, "pods", true))
    case "Service" => Some(Route(CoreV1, "services", true))
    case "ConfigMap" => Some(Route(CoreV1, "configmaps", true))
    case "Secret" => Some(Route(CoreV1, "secrets", true))
    case "Namespace" => Some(Route(CoreV1, "namespaces", false))
    case "Node" => Some(Route(CoreV1, "nodes", false))
    case "ServiceAccount" => Some(Route(CoreV1, "serviceaccounts", true))
    case "PersistentVolume" => Some(Route(CoreV1, "persistentvolumes", false))
    case "PersistentVolumeClaim" => Some(Route(CoreV1, "persistentvolumeclaims", true))
    case "Deployment" => Some(Route(AppsV1, "deployments", true))
    case "StatefulSet" => Some(Route(AppsV1, "statefulsets", true))
    case "DaemonSet" => Some(Route(AppsV1, "daemonsets", true))
    case "ReplicaSet" => Some(Route(AppsV1, "replicasets", true))
    case "Job" => Some(Route(BatchV1, "jobs", true))
    case "CronJob" => Some(Route(BatchV1, "cronjobs", true))
    case "Ingress" => Some(Route(NetworkingV1, "ingresses", true))
    case "Role" => Some(Route(RbacV1, "roles", true))
    case "RoleBinding" => Some(Route(RbacV1, "rolebindings", true))
    case "ClusterRole" => Some(Route(RbacV1, "clusterroles", false))
    case "ClusterRoleBinding" => Some(Route(RbacV1, "clusterrolebindings", false))
    case "StorageClass" => Some(Route(StorageV1, "storageclasses", false))
    case _ => None
  }

  /** A kind outside the switch, or a case variant of a known one, has no route. */
  lemma UnknownKindsUnrouted()
    ensures RouteOf("Foo").None? && RouteOf("pod").None? && RouteOf("Pods").None?
    ensures RouteOf("HorizontalPodAutoscaler").None? && RouteOf("").None?
  {
  }

  /**
   * `constructSelfLink`: empty for an unknown kind; otherwise the namespaced
   * form when the kind is namespaced and the object has a (non-empty) namespace,
   * the cluster-wide form otherwise.
   */
  function SelfLink(r: Resource): (link: string)
    ensures link == "" <==> RouteOf(r.kind).None?
    ensures RouteOf(r.kind).Some? ==> link == LinkFor(RouteOf(r.kind).value, r)
  {
    if RouteOf(r.kind).None? then "" else LinkFor(RouteOf(r.kind).value, r)
  }

  /** The link of `r` under a known route. */
  function LinkFor(route: Route, r: Resource): (link: string)
    requires route.apiBase != ""
    ensures StartsWith(link, route.apiBase + "/") && EndsWith(link, "/" + route.plural + "/" + r.name)
  {
    var tail := "/" + route.plural + "/" + r.name;
    var link := if route.namespaced && HasNamespace(r)
      then route.apiBase + "/namespaces/" + r.namespace.value + tail
      else route.apiBase + tail;
    assert link[..|route.apiBase + "/"|] == route.apiBase + "/";
    assert link[|link| - |tail|..] == tail;
    link
  }

  /** The kinds `getListPath` has a case for. */
  const ListedKinds: set<string> := {
    "Pod", "Deployment", "StatefulSet", "DaemonSet", "ReplicaSet", "Job", "CronJob",
    "Service", "Endpoint", "Ingress", "IngressClass", "NetworkPolicy", "ConfigMap", "Secret",
    "ResourceQuota", "LimitRange", "HorizontalPodAutoscaler", "PodDisruptionBudget",
    "PriorityClass", "RuntimeClass", "Lease", "PersistentVolume", "PersistentVolumeClaim",
    "StorageClass", "VolumeAttachment", "Namespace", "Node", "Event", "ServiceAccount",
    "Role", "RoleBinding", "ClusterRole", "ClusterRoleBinding", "PodSecurityPolicy",
    "MutatingWebhookConfiguration", "ValidatingWebhookConfiguration",
    "CustomResourceDefinition", "PodMetrics", "NodeMetrics"}

  /** `getListPath`: the list page of the kind, or empty for an unknown kind. */
  function ListPath(kind: string): (path: string)
    ensures path != "" <==> kind in ListedKinds
    ensures path != "" ==> |path| > 1 && path[0] == '/'
  {
    match kind
    case "Pod" => "/pods"
    case "Deployment" => "/deployments"
    case "StatefulSet" => "/statefulsets"
    case "DaemonSet" => "/daemonsets"
    case "ReplicaSet" => "/replicasets"
    case "Job" => "/jobs"
    case "CronJob" => "/cronjobs"
    case "Service" => "/services"
    case "Endpoint" => "/endpoints"
    case "Ingress" => "/ingresses"
    case "IngressClass" => "/ingress-classes"
    case "NetworkPolicy" => "/network-policies"
    case "ConfigMap" => "/configmaps"
    case "Secret" => "/secrets"
    case "ResourceQuota" => "/resourcequotas"
    case "LimitRange" => "/limitranges"
    case "HorizontalPodAutoscaler" => "/hpa"
    case "PodDisruptionBudget" => "/poddisruptionbudgets"
    case "PriorityClass" => "/priorityclasses"
    case "RuntimeClass" => "/runtimeclasses"
    case "Lease" => "/leases"
    case "PersistentVolume" => "/persistentvolumes"
    case "PersistentVolumeClaim" => "/persistentvolumeclaims"
    case "StorageClass" => "/storageclasses"
    case "VolumeAttachment" => "/volumeattachments"
    case "Namespace" => "/namespaces"
    case "Node" => "/nodes"
    case "Event" => "/events"
    case "ServiceAccount" => "/serviceaccounts"
    case "Role" => "/roles"
    case "RoleBinding" => "/rolebindings"
    case "ClusterRole" => "/clusterroles"
    case "ClusterRoleBinding" => "/clusterrolebindings"
    case "PodSecurityPolicy" => "/podsecuritypolicies"
    case "MutatingWebhookConfiguration" => "/mutatingwebhookconfigurations"
    case "ValidatingWebhookConfiguration" => "/validatingwebhookconfigurations"
    case "CustomResourceDefinition" => "/crd"
    case "PodMetrics" => "/pods"
    case "NodeMetrics" => "/nodes"
    case _ => ""
  }

  /** A namespaced kind with a namespace gets the `/namespaces/<ns>/` segment, right after the API base. */
  lemma SelfLinkNamespaced(r: Resource)
    requires RouteOf(r.kind).Some? && RouteOf(r.kind).value.namespaced && HasNamespace(r)
    ensures StartsWith(SelfLink(r), RouteOf(r.kind).value.apiBase + "/namespaces/" + r.namespace.value + "/")
  {
    var route := RouteOf(r.kind).value;
    LinkForNamespaced(route, r);
  }

  lemma LinkForNamespaced(route: Route, r: Resource)
    requires route.apiBase != "" && route.namespaced && HasNamespace(r)
    ensures StartsWith(LinkFor(route, r), route.apiBase + "/namespaces/" + r.namespace.value + "/")
  {
    var prefix := route.apiBase + "/namespaces/" + r.namespace.value + "/";
    assert LinkFor(route, r) == prefix + (route.plural + "/" + r.name);
    assert LinkFor(route, r)[..|prefix|] == prefix;
  }

  /** Cluster-scoped kinds, and objects without a namespace, get the same link whatever their namespace. */
  lemma SelfLinkIgnoresNamespace(r: Resource, ns: Option<string>)
    requires RouteOf(r.kind).Some?
    requires !RouteOf(r.kind).value.namespaced || (!HasNamespace(r) && !HasNamespace(r.(namespace := ns)))
    ensures SelfLink(r) == SelfLink(r.(namespace := ns))
  {
  }

  /** Kinds the palette loads and lists but cannot open, because they have no self link. */
  lemma UnroutedListedKinds()
    ensures RouteOf("NetworkPolicy").None? && RouteOf("LimitRange").None? && RouteOf("ResourceQuota").None?
    ensures ListPath("NetworkPolicy") != "" && ListPath("LimitRange") != "" && ListPath("ResourceQuota") != ""
  {
  }

  /**
   * `navigateToResource`: nothing without a self link; otherwise the list page
   * (when the kind has one) and then the details drawer for the self link.
   */
  function NavigationEffects(r: Resource): (e: seq<Effect>)
    ensures e == [] <==> RouteOf(r.kind).None?
    ensures e != [] ==> e[|e| - 1] == DetailsShown(SelfLink(r))
    ensures (exists p :: Navigated(p) in e) <==> RouteOf(r.kind).Some? && ListPath(r.kind) != ""
    ensures |e| <= 2
  {
    var link := SelfLink(r);
    if link == "" then []
    else
      var path := ListPath(r.kind);
      (if path != "" then [Navigated(path)] else []) + [DetailsShown(link)]
  }

  /** Selecting a pod opens the pod list, then the pod's namespaced API path. */
  lemma PodNavigation()
    ensures NavigationEffects(Resource("Pod", "web-1", Some("default"), "u1", "v1")) ==
      [Navigated("/pods"), DetailsShown("/api/v1/namespaces/default/pods/web-1")]
  {
    PodSelfLink();
    PodListPath();
  }

  /** Kinds outside the `switch` of `getListPath`, including near misses in case and number, have no list page. */
  lemma UnknownKindsUnlisted(kind: string)
    requires kind in {"Foo", "pod", "Pods", ""}
    ensures ListPath(kind) == ""
  {
  }

  lemma PodListPath()
    ensures ListPath("Pod") == "/pods"
  {
  }

  lemma PodSelfLink()
    ensures SelfLink(Resource("Pod", "web-1", Some("default"), "u1", "v1")) == "/api/v1/namespaces/default/pods/web-1"
  {
    var r := Resource("Pod", "web-1", Some("default"), "u1", "v1");
    assert RouteOf("Pod") == Some(Route(CoreV1, "pods", true));
    assert HasNamespace(r);
    assert LinkFor(Route(CoreV1, "pods", true), r) == "/api/v1" + "/namespaces/" + "default" + ("/" + "pods" + "/" + "web-1");
    PodLinkText();
  }

  lemma PodLinkText()
    ensures "/api/v1" + "/namespaces/" + "default" + ("/" + "pods" + "/" + "web-1") == "/api/v1/namespaces/default/pods/web-1"
  {
    assert "/" + "pods" + "/" + "web-1" == "/pods/web-1";
    assert "/api/v1" + "/namespaces/" == "/api/v1/namespaces/";
    assert "/api/v1/namespaces/" + "default" == "/api/v1/namespaces/default";
    assert "/api/v1/namespaces/default" + "/pods/web-1" == "/api/v1/namespaces/default/pods/web-1";
  }

  /** A cluster role is cluster-scoped: a namespace recorded on it does not enter the link. */
  lemma ClusterRoleNavigation()
    ensures NavigationEffects(Resource("ClusterRole", "admin", Some("default"), "u2", "rbac.authorization.k8s.io/v1")) ==
      [Navigated("/clusterroles"), DetailsShown("/apis/rbac.authorization.k8s.io/v1/clusterroles/admin")]
  {
    ClusterRoleSelfLink();
    ClusterRoleListPath();
  }

  lemma ClusterRoleListPath()
    ensures ListPath("ClusterRole") == "/clusterroles"
  {
  }

  lemma ClusterRoleSelfLink()
    ensures SelfLink(Resource("ClusterRole", "admin", Some("default"), "u2", "rbac.authorization.k8s.io/v1")) ==
      "/apis/rbac.authorization.k8s.io/v1/clusterroles/admin"
  {
    var r := Resource("ClusterRole", "admin", Some("default"), "u2", "rbac.authorization.k8s.io/v1");
    assert RouteOf("ClusterRole") == Some(Route(RbacV1, "clusterroles", false));
    assert LinkFor(Route(RbacV1, "clusterroles", false), r) == RbacV1 + ("/" + "clusterroles" + "/" + "admin");
    ClusterRoleLinkText();
  }

  lemma ClusterRoleLinkText()
    ensures RbacV1 + ("/" + "clusterroles" + "/" + "admin") == "/apis/rbac.authorization.k8s.io/v1/clusterroles/admin"
  {
    assert "/" + "clusterroles" + "/" + "admin" == "/clusterroles/admin";
    assert RbacV1 + "/clusterroles/admin" == "/apis/rbac.authorization.k8s.io/v1/clusterroles/admin";
  }
}
