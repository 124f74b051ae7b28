/**
 * The resource record, its display text, and the filter set (`kind:`,
 * `namespace:`, `node:`) that narrows the snapshot before ranking and before
 * command-scoped resource selection.
 */
module Resources {
  import opened Optional
  import opened Text
  import opened Order

  /** One object of the cluster snapshot; `namespace` is absent for cluster-scoped objects. */
  datatype Resource = Resource(kind: string, name: string, namespace: Option<string>, uid: string, apiVersion: string)

  /** JavaScript truthiness of the optional namespace: present and non-empty. */
  predicate HasNamespace(r: Resource) {
    r.namespace.Some? && r.namespace.value != ""
  }

  /** `kind/namespace/name` for namespaced objects, `kind/name` otherwise. */
  function DisplayText(r: Resource): (d: string)
    ensures StartsWith(d, r.kind + "/") && EndsWith(d, "/" + r.name)
    ensures |d| == |r.kind| + 1 + |r.name| + if HasNamespace(r) then |r.namespace.value| + 1 else 0
  {
    if HasNamespace(r) then r.kind + "/" + r.namespace.value + "/" + r.name
    else r.kind + "/" + r.name
  }

  /**
   * Splitting the display text on `/` gives back the kind, the namespace (when
   * there is one) and the name, provided none of them holds a `/`.
   */
  lemma DisplayTextSplits(r: Resource)
    requires '/' !in r.kind && '/' !in r.name
    requires HasNamespace(r) ==> '/' !in r.namespace.value
    ensures HasNamespace(r) ==> Split(DisplayText(r), '/') == [r.kind, r.namespace.value, r.name]
    ensures !HasNamespace(r) ==> Split(DisplayText(r), '/') == [r.kind, r.name]
  {
    SplitNoSeparator(r.name, '/');
    if HasNamespace(r) {
      var ns := r.namespace.value;
      assert DisplayText(r) == r.kind + ['/'] + (ns + ['/'] + r.name);
      SplitAtFirst(ns, '/', r.name);
      SplitAtFirst(r.kind, '/', ns + ['/'] + r.name);
    } else {
      assert DisplayText(r) == r.kind + ['/'] + r.name;
      SplitAtFirst(r.kind, '/', r.name);
    }
  }

  /** The lower-cased display text is built from the lower-cased kind, namespace and name. */
  lemma LowerDisplayText(r: Resource)
    ensures HasNamespace(r) ==>
      Lower(DisplayText(r)) == Lower(r.kind) + "/" + Lower(r.namespace.value) + "/" + Lower(r.name)
    ensures !HasNamespace(r) ==> Lower(DisplayText(r)) == Lower(r.kind) + "/" + Lower(r.name)
  {
    assert Lower("/") == "/";
    if HasNamespace(r) {
      LowerConcat(r.kind + "/" + r.namespace.value + "/", r.name);
      LowerConcat(r.kind + "/" + r.namespace.value, "/");
      LowerConcat(r.kind + "/", r.namespace.value);
      LowerConcat(r.kind, "/");
    } else {
      LowerConcat(r.kind + "/", r.name);
      LowerConcat(r.kind, "/");
    }
  }

  /** A term found in the kind, the namespace or the name is found in the display text. */
  lemma DisplayTextContainsParts(r: Resource, t: string)
    ensures Contains(Lower(r.name), t) ==> Contains(Lower(DisplayText(r)), t)
    ensures Contains(Lower(r.kind), t) ==> Contains(Lower(DisplayText(r)), t)
    ensures HasNamespace(r) && Contains(Lower(r.namespace.value), t) ==> Contains(Lower(DisplayText(r)), t)
  {
    if Contains(Lower(r.name), t) { NameInDisplayText(r, t); }
    if Contains(Lower(r.kind), t) { KindInDisplayText(r, t); }
    if HasNamespace(r) && Contains(Lower(r.namespace.value), t) { NamespaceInDisplayText(r, t); }
  }

  lemma NameInDisplayText(r: Resource, t: string)
    requires Contains(Lower(r.name), t)
    ensures Contains(Lower(DisplayText(r)), t)
  {
    LowerDisplayText(r);
    var front := if HasNamespace(r) then Lower(r.kind) + "/" + Lower(r.namespace.value) + "/" else Lower(r.kind) + "/";
    assert Lower(DisplayText(r)) == front + Lower(r.name);
    ContainsInRight(front, Lower(r.name), t);
  }

  lemma KindInDisplayText(r: Resource, t: string)
    requires Contains(Lower(r.kind), t)
    ensures Contains(Lower(DisplayText(r)), t)
  {
    var d := DisplayText(r);
    var back := d[|r.kind|..];
    assert d == r.kind + back by {
      assert d[..|r.kind| + 1] == r.kind + "/";
      assert d[..|r.kind|] == r.kind;
    }
    LowerConcat(r.kind, back);
    ContainsInLeft(Lower(r.kind), Lower(back), t);
  }

  lemma NamespaceInDisplayText(r: Resource, t: string)
    requires HasNamespace(r) && Contains(Lower(r.namespace.value), t)
    ensures Contains(Lower(DisplayText(r)), t)
  {
    LowerDisplayText(r);
    assert Lower(DisplayText(r)) == Lower(r.kind) + "/" + Lower(r.namespace.value) + ("/" + Lower(r.name));
    ContainsInPart(Lower(r.kind) + "/", Lower(r.namespace.value), "/" + Lower(r.name), t);
  }

  /**
   * One item a store's `list()` call returns. Each field is the value the
   * item offers for it, "" when absent: `metadata.name`, `getName()`,
   * `metadata.namespace`, `getNs()`, `metadata.uid`, `getId()`, `apiVersion`.
   */
  datatype RawItem = RawItem(metaName: string, getName: string, metaNamespace: string, getNs: string,
                             metaUid: string, getId: string, apiVersion: string)

  /**
   * One entry of the Kubernetes API object: its key (stores end in `Store`),
   * whether it exposes an API, the kind that API serves ("" when it names
   * none), and what successive `list()` calls give: the items, or `None`
   * when the call throws. Calls beyond the end of `responses` throw.
   */
  datatype Store = Store(key: string, hasApi: bool, kind: string, responses: seq<Option<seq<RawItem>>>)

  /** A key ending in `Store` whose API names a kind. */
  predicate IsKindStore(st: Store) {
    EndsWith(st.key, "Store") && st.hasApi && st.kind != ""
  }

  datatype FilterType = KindFilter | NamespaceFilter | NodeFilter

  /** The attribute name as typed before the colon. */
  function FilterName(t: FilterType): string {
    match t
    case KindFilter => "kind"
    case NamespaceFilter => "namespace"
    case NodeFilter => "node"
  }

  datatype Filter = Filter(ftype: FilterType, value: string)

  /**
   * Whether `r` survives one filter: kind and namespace compare case-insensitively,
   * an absent namespace never matches, and `node` only keeps `Node` objects of that name.
   */
  predicate Matches(r: Resource, f: Filter) {
    match f.ftype
    case KindFilter => Lower(r.kind) == Lower(f.value)
    case NamespaceFilter => r.namespace.Some? && Lower(r.namespace.value) == Lower(f.value)
    case NodeFilter => r.kind == "Node" && Lower(r.name) == Lower(f.value)
  }

  predicate PassesAll(r: Resource, fs: seq<Filter>) {
    forall f :: f in fs ==> Matches(r, f)
  }

  /** One `filteredResources.filter(...)` step. */
  function NarrowBy(s: seq<Resource>, f: Filter): (r: seq<Resource>)
  {
    if s == [] then []
    else (if Matches(s[0], f) then [s[0]] else []) + NarrowBy(s[1..], f)
  }

  /** The snapshot elements, in order, that satisfy every filter of `fs`. */
  function KeepPassing(s: seq<Resource>, fs: seq<Filter>): (r: seq<Resource>)
    ensures |r| <= |s|
  {
    if s == [] then []
    else (if PassesAll(s[0], fs) then [s[0]] else []) + KeepPassing(s[1..], fs)
  }

  /** An object survives the filters exactly when it is in the snapshot and satisfies every filter. */
  lemma {:induction false} KeepPassingMembers(s: seq<Resource>, fs: seq<Filter>, x: Resource)
    ensures x in KeepPassing(s, fs) <==> x in s && PassesAll(x, fs)
  {
    if s != [] {
      KeepPassingMembers(s[1..], fs, x);
      assert s == [s[0]] + s[1..];
    }
  }

  lemma {:induction false} NarrowStep(s: seq<Resource>, fs: seq<Filter>, f: Filter)
    ensures NarrowBy(KeepPassing(s, fs), f) == KeepPassing(s, fs + [f])
  {
    if s != [] {
      NarrowStep(s[1..], fs, f);
      assert PassesAll(s[0], fs + [f]) <==> PassesAll(s[0], fs) && Matches(s[0], f);
      var rest := KeepPassing(s[1..], fs);
      if PassesAll(s[0], fs) {
        assert KeepPassing(s, fs) == [s[0]] + rest;
        assert ([s[0]] + rest)[1..] == rest;
      } else {
        assert KeepPassing(s, fs) == rest;
      }
    }
  }

  /** Narrowing by the next filter extends the filtered prefix by one. */
  lemma NarrowPrefix(s: seq<Resource>, fs: seq<Filter>, k: nat)
    requires k < |fs|
    ensures NarrowBy(KeepPassing(s, fs[..k]), fs[k]) == KeepPassing(s, fs[..k + 1])
  {
    NarrowStep(s, fs[..k], fs[k]);
    assert fs[..k + 1] == fs[..k] + [fs[k]];
  }

  /**
   * The `activeFilters.forEach` loop of the search and of the command resource
   * list: narrow the snapshot one filter at a time.
   */
  method NarrowByFilters(snapshot: seq<Resource>, filters: seq<Filter>) returns (r: seq<Resource>)
    ensures r == KeepPassing(snapshot, filters)
  {
    r := snapshot;
    KeepPassingNone(snapshot);
    assert filters[..0] == [];
    var k := 0;
    while k < |filters|
      invariant 0 <= k <= |filters|
      invariant r == KeepPassing(snapshot, filters[..k])
    {
      NarrowPrefix(snapshot, filters, k);
      r := NarrowBy(r, filters[k]);
      k := k + 1;
    }
    assert filters[..k] == filters;
  }

  lemma {:induction false} KeepPassingNone(s: seq<Resource>)
    ensures KeepPassing(s, []) == s
  {
    if s != [] {
      KeepPassingNone(s[1..]);
      assert s == [s[0]] + s[1..];
    }
  }

  /** The narrowed snapshot keeps the snapshot's order. */
  lemma {:induction false} KeepPassingInOrder(s: seq<Resource>, fs: seq<Filter>)
    ensures IsSubsequence(KeepPassing(s, fs), s)
  {
    if s != [] {
      KeepPassingInOrder(s[1..], fs);
      var rest := KeepPassing(s[1..], fs);
      if PassesAll(s[0], fs) {
        assert KeepPassing(s, fs) == [s[0]] + rest;
        assert ([s[0]] + rest)[1..] == rest;
      } else {
        assert KeepPassing(s, fs) == rest;
        SubsequenceOfTail(rest, s);
      }
    }
  }

  lemma {:induction false} SubsequenceOfTail<T>(q: seq<T>, s: seq<T>)
    requires s != [] && IsSubsequence(q, s[1..])
    ensures IsSubsequence(q, s)
  {
  }

  /** Filter evaluation does not depend on the order or repetition of the filters. */
  lemma {:induction false} KeepPassingOrderIndependent(s: seq<Resource>, fs: seq<Filter>, gs: seq<Filter>)
    requires forall f :: f in fs <==> f in gs
    ensures KeepPassing(s, fs) == KeepPassing(s, gs)
  {
    if s != [] {
      KeepPassingOrderIndependent(s[1..], fs, gs);
      assert PassesAll(s[0], fs) == PassesAll(s[0], gs);
    }
  }

  function PassTest(fs: seq<Filter>): Resource -> bool {
    r => PassesAll(r, fs)
  }

  /** The narrowed snapshot is the snapshot filtered by `PassesAll`. */
  lemma {:induction false} KeepPassingIsWhere(s: seq<Resource>, fs: seq<Filter>)
    ensures KeepPassing(s, fs) == Where(s, PassTest(fs))
  {
    if s != [] {
      KeepPassingIsWhere(s[1..], fs);
    }
  }

  /** `addFilter` on the list: a pair already present leaves it unchanged, otherwise it is appended. */
  function WithFilter(fs: seq<Filter>, f: Filter): (r: seq<Filter>)
    ensures f in r
    ensures forall g :: g in r <==> g in fs || g == f
    ensures NoDuplicates(fs) ==> NoDuplicates(r)
    ensures f in fs ==> r == fs
    ensures f !in fs ==> r == fs + [f]
  {
    if f in fs then fs else fs + [f]
  }

  /** `removeFilter`: every entry equal to `f` goes, the others stay in order. */
  function WithoutFilter(fs: seq<Filter>, f: Filter): (r: seq<Filter>)
    ensures forall g :: g in r <==> g in fs && g != f
    ensures |r| <= |fs|
  {
    if fs == [] then []
    else (if fs[0] != f then [fs[0]] else []) + WithoutFilter(fs[1..], f)
  }

  lemma {:induction false} WithoutFilterInOrder(fs: seq<Filter>, f: Filter)
    ensures IsSubsequence(WithoutFilter(fs, f), fs)
    ensures NoDuplicates(fs) ==> NoDuplicates(WithoutFilter(fs, f))
  {
    if fs != [] {
      WithoutFilterInOrder(fs[1..], f);
      var rest := WithoutFilter(fs[1..], f);
      if fs[0] != f {
        assert WithoutFilter(fs, f) == [fs[0]] + rest;
        assert ([fs[0]] + rest)[1..] == rest;
        if NoDuplicates(fs) {
          assert fs[0] !in fs[1..];
          assert fs[0] !in rest;
          assert NoDuplicates(fs[1..]);
        }
      } else {
        assert WithoutFilter(fs, f) == rest;
        SubsequenceOfTail(rest, fs);
        if NoDuplicates(fs) {
          assert NoDuplicates(fs[1..]);
        }
      }
    }
  }

  /** Adding twice is adding once. */
  lemma WithFilterIdempotent(fs: seq<Filter>, f: Filter)
    ensures WithFilter(WithFilter(fs, f), f) == WithFilter(fs, f)
  {
  }

  /** Removing a freshly added pair restores the previous list. */
  lemma {:induction false} RemoveUndoesAdd(fs: seq<Filter>, f: Filter)
    requires f !in fs
    ensures WithoutFilter(WithFilter(fs, f), f) == fs
  {
    WithoutAbsent(fs, f);
    WithoutAppend(fs, f);
  }

  lemma {:induction false} WithoutAbsent(fs: seq<Filter>, f: Filter)
    requires f !in fs
    ensures WithoutFilter(fs, f) == fs
  {
    if fs != [] {
      WithoutAbsent(fs[1..], f);
      assert fs == [fs[0]] + fs[1..];
    }
  }

  lemma {:induction false} WithoutAppend(fs: seq<Filter>, f: Filter)
    ensures WithoutFilter(fs + [f], f) == WithoutFilter(fs, f)
  {
    if fs == [] {
      assert WithoutFilter([f], f) == [] + WithoutFilter([], f);
    } else {
      assert (fs + [f])[1..] == fs[1..] + [f];
      WithoutAppend(fs[1..], f);
    }
  }
}
