/**
 * Prototype stores and instances as records, and the pure queries over them:
 * property lookup along the delegation chain, `isPrototypeOf`, `hasFeature`,
 * and `Compose`, the store that `extend` builds.
 *
 * Stores live in a sequence and are named by their index. A store's parent and
 * its mixin sources always have smaller indices than the store itself, so every
 * walk up the chain terminates.
 */
module Stores {
  import opened Wrappers
  import opened Values

  /** A frozen prototype store: one delegation parent, own properties, the mixin sources it was built from, and its ancestry set. */
  datatype Store = Store(parent: Option<nat>, props: map<string, Value>, sources: seq<nat>, ancestry: set<nat>)

  /** A mutable instance: the store it delegates to and its own properties. */
  datatype Instance = Instance(proto: nat, own: map<string, Value>)

  /** A reference to a store or to an instance, as a JavaScript variable holds one. */
  datatype Obj = StoreRef(id: nat) | InstanceRef(id: nat)

  /** `Base`, the root store: no parent, no own properties, its own only feature. */
  const BaseId: nat := 0
  const BaseStore: Store := Store(None, map[], [], {BaseId})

  /** Parents and sources are created before the stores built from them. */
  predicate Linked(stores: seq<Store>) {
    forall s | 0 <= s < |stores| ::
      (stores[s].parent.Some? ==> stores[s].parent.value < s)
      && (forall j | 0 <= j < |stores[s].sources| :: stores[s].sources[j] < s)
  }

  predicate SourcesExist(stores: seq<Store>, srcs: seq<nat>) {
    forall j | 0 <= j < |srcs| :: srcs[j] < |stores|
  }

  /** The union of the ancestry sets of the given stores. */
  function UnionAncestry(stores: seq<Store>, srcs: seq<nat>): set<nat>
    requires SourcesExist(stores, srcs)
  {
    if srcs == [] then {}
    else UnionAncestry(stores, srcs[..|srcs| - 1]) + stores[srcs[|srcs| - 1]].ancestry
  }

  /** The ancestry `extend` records: the store itself, its parent's ancestry and every source's ancestry. */
  function ExpectedAncestry(stores: seq<Store>, s: nat): set<nat>
    requires Linked(stores) && s < |stores|
  {
    var inherited := match stores[s].parent case None => {} case Some(p) => stores[p].ancestry;
    {s} + inherited + UnionAncestry(stores, stores[s].sources)
  }

  /** The registry invariant on stores: linked, rooted at `Base`, every ancestry set as `extend` records it. */
  predicate WellFormed(stores: seq<Store>) {
    && Linked(stores)
    && |stores| > 0
    && stores[BaseId].parent == None
    && (forall s | 0 < s < |stores| :: stores[s].parent.Some?)
    && (forall s | 0 <= s < |stores| :: stores[s].ancestry == ExpectedAncestry(stores, s))
  }

  // ---------------------------------------------------------------------------
  // Property lookup

  /** Property lookup on a store: its own definition, else the parent's answer. An unknown store reads as having nothing. */
  function StoreLookup(stores: seq<Store>, s: nat, key: string): Option<Value>
    requires Linked(stores)
    decreases s
  {
    if s >= |stores| then None
    else if key in stores[s].props then Some(stores[s].props[key])
    else match stores[s].parent
      case None => None
      case Some(p) => StoreLookup(stores, p, key)
  }

  /** Every property visible through a store, the nearer definition overriding: the reference for `StoreLookup`. */
  function View(stores: seq<Store>, s: nat): map<string, Value>
    requires Linked(stores) && s < |stores|
    decreases s
  {
    var inherited := match stores[s].parent case None => map[] case Some(p) => View(stores, p);
    inherited + stores[s].props
  }

  /** Property lookup on a store or an instance; an instance's own property wins over its store's. */
  function Lookup(stores: seq<Store>, instances: seq<Instance>, x: Obj, key: string): Option<Value>
    requires Linked(stores)
  {
    match x
    case StoreRef(s) => StoreLookup(stores, s, key)
    case InstanceRef(i) =>
      if i >= |instances| then None
      else if key in instances[i].own then Some(instances[i].own[key])
      else StoreLookup(stores, instances[i].proto, key)
  }

  /** `x` names a store or an instance that exists. */
  predicate Exists(stores: seq<Store>, instances: seq<Instance>, x: Obj) {
    match x
    case StoreRef(s) => s < |stores|
    case InstanceRef(i) => i < |instances|
  }

  /** The resolved views of the mixin sources merged in argument order: a later source overrides an earlier one. */
  function MergeViews(stores: seq<Store>, srcs: seq<nat>): map<string, Value>
    requires Linked(stores) && SourcesExist(stores, srcs)
  {
    if srcs == [] then map[]
    else MergeViews(stores, srcs[..|srcs| - 1]) + View(stores, srcs[|srcs| - 1])
  }

  /**
   * The store `base.extend(srcs..., own)` creates: its parent is `base`, its
   * own properties are the sources' merged views overridden by the own
   * bag, its ancestry is itself, `base`'s ancestry and every source's.
   */
  function Compose(stores: seq<Store>, base: nat, srcs: seq<nat>, own: map<string, Value>): Store
    requires Linked(stores) && base < |stores| && SourcesExist(stores, srcs)
  {
    Store(Some(base), MergeViews(stores, srcs) + own, srcs, {|stores|} + stores[base].ancestry + UnionAncestry(stores, srcs))
  }

  // ---------------------------------------------------------------------------
  // isPrototypeOf and hasFeature

  /** Store `a` is `s` or lies on the delegation chain above `s`. */
  predicate OnChain(stores: seq<Store>, a: nat, s: nat)
    requires Linked(stores)
    decreases s
  {
    s < |stores| && (a == s || (stores[s].parent.Some? && OnChain(stores, a, stores[s].parent.value)))
  }

  /** `x.isPrototypeOf(y)`: `x` is a store strictly above `y` on `y`'s delegation chain. Instances are nobody's prototype. */
  predicate IsPrototypeOf(stores: seq<Store>, instances: seq<Instance>, x: Obj, y: Obj)
    requires Linked(stores)
  {
    match x
    case InstanceRef(_) => false
    case StoreRef(a) =>
      match y
      case StoreRef(t) => t < |stores| && stores[t].parent.Some? && OnChain(stores, a, stores[t].parent.value)
      case InstanceRef(i) => i < |instances| && OnChain(stores, a, instances[i].proto)
  }

  /** The ancestry set of a store, or of the store an instance delegates to. */
  function AncestryOf(stores: seq<Store>, instances: seq<Instance>, x: Obj): set<nat> {
    match x
    case StoreRef(s) => if s < |stores| then stores[s].ancestry else {}
    case InstanceRef(i) =>
      if i < |instances| && instances[i].proto < |stores| then stores[instances[i].proto].ancestry else {}
  }

  /** `x.hasFeature(c)`: the store `c` is in `x`'s ancestry set. */
  predicate HasFeature(stores: seq<Store>, instances: seq<Instance>, x: Obj, c: Obj) {
    c.StoreRef? && c.id in AncestryOf(stores, instances, x)
  }

  /** `c` contributed to store `s`: reachable from `s` through parent and source links. The reference for the ancestry sets. */
  ghost predicate Contributed(stores: seq<Store>, s: nat, c: nat)
    requires Linked(stores)
    decreases s
  {
    s < |stores| &&
    (c == s
     || (stores[s].parent.Some? && Contributed(stores, stores[s].parent.value, c))
     || exists j | 0 <= j < |stores[s].sources| :: Contributed(stores, stores[s].sources[j], c))
  }

  // ---------------------------------------------------------------------------
  // Lemmas: lookup

  /** Walking the chain finds exactly what the resolved view holds. */
  lemma {:induction false} LookupIsView(stores: seq<Store>, s: nat, key: string)
    requires Linked(stores) && s < |stores|
    ensures StoreLookup(stores, s, key) == if key in View(stores, s) then Some(View(stores, s)[key]) else None
    decreases s
  {
    if key !in stores[s].props && stores[s].parent.Some? {
      LookupIsView(stores, stores[s].parent.value, key);
    }
  }

  /** A key is in the merged views exactly when some source shows it. */
  lemma {:induction false} MergeViewsHas(stores: seq<Store>, srcs: seq<nat>, key: string)
    requires Linked(stores) && SourcesExist(stores, srcs)
    ensures key in MergeViews(stores, srcs) <==> exists j | 0 <= j < |srcs| :: key in View(stores, srcs[j])
  {
    if srcs != [] {
      var init := srcs[..|srcs| - 1];
      MergeViewsHas(stores, init, key);
      assert forall j | 0 <= j < |init| :: init[j] == srcs[j];
      if key in View(stores, srcs[|srcs| - 1]) {
        assert key in View(stores, srcs[|srcs| - 1]);
      }
    }
  }

  /** The last source that shows a key supplies its merged value. */
  lemma {:induction false} MergeViewsLastWins(stores: seq<Store>, srcs: seq<nat>, key: string, j: nat)
    requires Linked(stores) && SourcesExist(stores, srcs)
    requires j < |srcs| && key in View(stores, srcs[j])
    requires forall k | j < k < |srcs| :: key !in View(stores, srcs[k])
    ensures key in MergeViews(stores, srcs) && MergeViews(stores, srcs)[key] == View(stores, srcs[j])[key]
    decreases |srcs|
  {
    var init := srcs[..|srcs| - 1];
    if j < |srcs| - 1 {
      assert init[j] == srcs[j];
      forall k | j < k < |init|
        ensures key !in View(stores, init[k])
      {
        assert init[k] == srcs[k];
      }
      MergeViewsLastWins(stores, init, key, j);
    }
  }

  /** Appending a store changes no lookup on the stores already there. */
  lemma {:induction false} AppendKeepsLookup(stores: seq<Store>, extra: Store, s: nat, key: string)
    requires Linked(stores) && Linked(stores + [extra]) && s < |stores|
    ensures StoreLookup(stores + [extra], s, key) == StoreLookup(stores, s, key)
    ensures View(stores + [extra], s) == View(stores, s)
    decreases s
  {
    var grown := stores + [extra];
    assert grown[s] == stores[s];
    if stores[s].parent.Some? {
      AppendKeepsLookup(stores, extra, stores[s].parent.value, key);
    }
  }

  lemma {:induction false} AppendKeepsMerge(stores: seq<Store>, extra: Store, srcs: seq<nat>)
    requires Linked(stores) && Linked(stores + [extra]) && SourcesExist(stores, srcs)
    ensures SourcesExist(stores + [extra], srcs)
    ensures MergeViews(stores + [extra], srcs) == MergeViews(stores, srcs)
    ensures UnionAncestry(stores + [extra], srcs) == UnionAncestry(stores, srcs)
  {
    if srcs != [] {
      AppendKeepsMerge(stores, extra, srcs[..|srcs| - 1]);
      AppendKeepsLookup(stores, extra, srcs[|srcs| - 1], "");
      assert (stores + [extra])[srcs[|srcs| - 1]] == stores[srcs[|srcs| - 1]];
    }
  }

  lemma {:induction false} ComposeKeepsLinked(stores: seq<Store>, base: nat, srcs: seq<nat>, own: map<string, Value>)
    requires Linked(stores) && base < |stores| && SourcesExist(stores, srcs)
    ensures Linked(stores + [Compose(stores, base, srcs, own)])
  {
    var grown := stores + [Compose(stores, base, srcs, own)];
    forall s | 0 <= s < |grown|
      ensures grown[s].parent.Some? ==> grown[s].parent.value < s
      ensures forall j | 0 <= j < |grown[s].sources| :: grown[s].sources[j] < s
    {
      if s < |stores| {
        assert grown[s] == stores[s];
      }
    }
  }

  /**
   * Lookup on the store `extend` creates: the own bag first, then the last
   * mixin source that shows the key, then the chain above `base`.
   */
  lemma {:induction false} ComposeLookup(stores: seq<Store>, base: nat, srcs: seq<nat>, own: map<string, Value>, key: string)
    requires Linked(stores) && base < |stores| && SourcesExist(stores, srcs)
    ensures Linked(stores + [Compose(stores, base, srcs, own)])
    ensures StoreLookup(stores + [Compose(stores, base, srcs, own)], |stores|, key) ==
              if key in own then Some(own[key])
              else if key in MergeViews(stores, srcs) then Some(MergeViews(stores, srcs)[key])
              else StoreLookup(stores, base, key)
  {
    ComposeKeepsLinked(stores, base, srcs, own);
    AppendKeepsLookup(stores, Compose(stores, base, srcs, own), base, key);
  }

  /** A plain `base.extend(own)` resolves a key from `own`, else exactly as `base` already did. */
  lemma {:induction false} PlainChildInherits(stores: seq<Store>, base: nat, own: map<string, Value>, key: string)
    requires Linked(stores) && base < |stores|
    ensures Linked(stores + [Compose(stores, base, [], own)])
    ensures StoreLookup(stores + [Compose(stores, base, [], own)], |stores|, key) ==
              if key in own then Some(own[key]) else StoreLookup(stores, base, key)
  {
    ComposeLookup(stores, base, [], own, key);
    AppendKeepsLookup(stores, Compose(stores, base, [], own), base, key);
  }

  // ---------------------------------------------------------------------------
  // Lemmas: isPrototypeOf

  /** The chain above a store only holds older stores. */
  lemma {:induction false} ChainBelow(stores: seq<Store>, a: nat, s: nat)
    requires Linked(stores) && OnChain(stores, a, s)
    ensures a <= s
    decreases s
  {
    if a != s {
      ChainBelow(stores, a, stores[s].parent.value);
    }
  }

  lemma {:induction false} ChainTransitive(stores: seq<Store>, a: nat, b: nat, s: nat)
    requires Linked(stores) && OnChain(stores, a, b) && OnChain(stores, b, s)
    ensures OnChain(stores, a, s)
    decreases s
  {
    if b != s {
      ChainTransitive(stores, a, b, stores[s].parent.value);
    }
  }

  /** A store is a prototype only of stores built after it and of instances of itself or of later stores. */
  lemma {:induction false} PrototypeOnlyOfLater(stores: seq<Store>, instances: seq<Instance>, a: nat, y: Obj)
    requires Linked(stores) && IsPrototypeOf(stores, instances, StoreRef(a), y)
    ensures y.StoreRef? ==> a < y.id
    ensures y.InstanceRef? ==> a <= instances[y.id].proto
  {
    match y
    case StoreRef(t) =>
      ChainBelow(stores, a, stores[t].parent.value);
    case InstanceRef(i) =>
      ChainBelow(stores, a, instances[i].proto);
  }

  /** `isPrototypeOf` is never reflexive. */
  lemma {:induction false} PrototypeIrreflexive(stores: seq<Store>, instances: seq<Instance>, x: Obj)
    requires Linked(stores)
    ensures !IsPrototypeOf(stores, instances, x, x)
  {
    if IsPrototypeOf(stores, instances, x, x) {
      PrototypeOnlyOfLater(stores, instances, x.id, x);
    }
  }

  /** `isPrototypeOf` is transitive: `Base` is a prototype of `Bar.new()` through `Foo`. */
  lemma {:induction false} PrototypeTransitive(stores: seq<Store>, instances: seq<Instance>, x: Obj, y: Obj, z: Obj)
    requires Linked(stores)
    requires IsPrototypeOf(stores, instances, x, y) && IsPrototypeOf(stores, instances, y, z)
    ensures IsPrototypeOf(stores, instances, x, z)
  {
    var p := stores[y.id].parent.value;
    assert OnChain(stores, y.id, y.id);
    ChainTransitive(stores, p, y.id, if z.StoreRef? then stores[z.id].parent.value else instances[z.id].proto);
    ChainTransitive(stores, x.id, p, if z.StoreRef? then stores[z.id].parent.value else instances[z.id].proto);
  }

  /** After `base.extend(...)`, a store is a prototype of the new store iff it is `base` or a prototype of `base`. */
  lemma {:induction false} ComposePrototypes(stores: seq<Store>, instances: seq<Instance>, base: nat, srcs: seq<nat>, own: map<string, Value>, a: nat)
    requires Linked(stores) && base < |stores| && SourcesExist(stores, srcs)
    ensures Linked(stores + [Compose(stores, base, srcs, own)])
    ensures IsPrototypeOf(stores + [Compose(stores, base, srcs, own)], instances, StoreRef(a), StoreRef(|stores|))
            <==> a == base || IsPrototypeOf(stores, instances, StoreRef(a), StoreRef(base))
  {
    var grown := stores + [Compose(stores, base, srcs, own)];
    ComposeKeepsLinked(stores, base, srcs, own);
    AppendKeepsChain(stores, Compose(stores, base, srcs, own), a, base);
    if stores[base].parent.Some? {
      AppendKeepsChain(stores, Compose(stores, base, srcs, own), a, stores[base].parent.value);
    }
  }

  lemma {:induction false} AppendKeepsChain(stores: seq<Store>, extra: Store, a: nat, s: nat)
    requires Linked(stores) && Linked(stores + [extra]) && s < |stores|
    ensures OnChain(stores + [extra], a, s) == OnChain(stores, a, s)
    decreases s
  {
    assert (stores + [extra])[s] == stores[s];
    if stores[s].parent.Some? {
      AppendKeepsChain(stores, extra, a, stores[s].parent.value);
    }
  }

  /** Two different extensions of the same store are not prototypes of each other. */
  lemma {:induction false} SiblingsUnrelated(stores: seq<Store>, instances: seq<Instance>, c1: nat, c2: nat)
    requires Linked(stores) && c1 < |stores| && c2 < |stores| && c1 != c2
    requires stores[c1].parent.Some? && stores[c1].parent == stores[c2].parent
    ensures !IsPrototypeOf(stores, instances, StoreRef(c1), StoreRef(c2))
  {
    if OnChain(stores, c1, stores[c2].parent.value) {
      ChainBelow(stores, c1, stores[c2].parent.value);
    }
  }

  /** An extension of a store is not a prototype of that store's instances. */
  lemma {:induction false} ChildNotPrototypeOfParentInstances(stores: seq<Store>, instances: seq<Instance>, c: nat, i: nat)
    requires Linked(stores) && c < |stores| && i < |instances|
    requires stores[c].parent == Some(instances[i].proto)
    ensures !IsPrototypeOf(stores, instances, StoreRef(c), InstanceRef(i))
  {
    if OnChain(stores, c, instances[i].proto) {
      ChainBelow(stores, c, instances[i].proto);
    }
  }

  /** `Base` is a prototype of every other store and of every instance. */
  lemma {:induction false} BaseIsUniversal(stores: seq<Store>, s: nat)
    requires WellFormed(stores) && s < |stores|
    ensures OnChain(stores, BaseId, s)
    decreases s
  {
    if s != BaseId {
      BaseIsUniversal(stores, stores[s].parent.value);
    }
  }

  // ---------------------------------------------------------------------------
  // Lemmas: hasFeature

  lemma {:induction false} UnionAncestryMembership(stores: seq<Store>, srcs: seq<nat>, c: nat)
    requires SourcesExist(stores, srcs)
    ensures c in UnionAncestry(stores, srcs) <==> exists j | 0 <= j < |srcs| :: c in stores[srcs[j]].ancestry
  {
    if srcs != [] {
      var init := srcs[..|srcs| - 1];
      UnionAncestryMembership(stores, init, c);
      assert forall j | 0 <= j < |init| :: init[j] == srcs[j];
    }
  }

  /** The recorded ancestry sets are exactly the stores that contributed, through parents and sources. */
  lemma {:induction false} AncestryIsContribution(stores: seq<Store>, s: nat, c: nat)
    requires WellFormed(stores) && s < |stores|
    ensures c in stores[s].ancestry <==> Contributed(stores, s, c)
    decreases s
  {
    var st := stores[s];
    UnionAncestryMembership(stores, st.sources, c);
    if st.parent.Some? {
      AncestryIsContribution(stores, st.parent.value, c);
    }
    forall j | 0 <= j < |st.sources|
      ensures c in stores[st.sources[j]].ancestry <==> Contributed(stores, st.sources[j], c)
    {
      AncestryIsContribution(stores, st.sources[j], c);
    }
  }

  /** A store's features are itself and older stores: a descendant is never a feature of its ancestor. */
  lemma {:induction false} AncestryBelow(stores: seq<Store>, s: nat, c: nat)
    requires WellFormed(stores) && s < |stores| && c in stores[s].ancestry
    ensures c <= s
    decreases s
  {
    var st := stores[s];
    UnionAncestryMembership(stores, st.sources, c);
    if c != s {
      if st.parent.Some? && c in stores[st.parent.value].ancestry {
        AncestryBelow(stores, st.parent.value, c);
      } else {
        var j :| 0 <= j < |st.sources| && c in stores[st.sources[j]].ancestry;
        AncestryBelow(stores, st.sources[j], c);
      }
    }
  }

  /** Every store on the delegation chain is a feature: `isPrototypeOf` implies `hasFeature`. */
  lemma {:induction false} PrototypeImpliesFeature(stores: seq<Store>, instances: seq<Instance>, x: Obj, y: Obj)
    requires WellFormed(stores) && (forall i | 0 <= i < |instances| :: instances[i].proto < |stores|)
    requires IsPrototypeOf(stores, instances, x, y)
    ensures HasFeature(stores, instances, y, x)
  {
    match y
    case StoreRef(t) =>
      ChainInAncestry(stores, x.id, stores[t].parent.value);
    case InstanceRef(i) =>
      ChainInAncestry(stores, x.id, instances[i].proto);
  }

  lemma {:induction false} ChainInAncestry(stores: seq<Store>, a: nat, s: nat)
    requires WellFormed(stores) && OnChain(stores, a, s)
    ensures a in stores[s].ancestry
    decreases s
  {
    if a != s {
      ChainInAncestry(stores, a, stores[s].parent.value);
    }
  }

  /** The features of the store `extend` creates: itself, `base`'s features and every source's features. */
  lemma {:induction false} ComposeFeatures(stores: seq<Store>, base: nat, srcs: seq<nat>, own: map<string, Value>, c: nat)
    requires Linked(stores) && base < |stores| && SourcesExist(stores, srcs)
    ensures c in Compose(stores, base, srcs, own).ancestry <==>
              c == |stores| || c in stores[base].ancestry || exists j | 0 <= j < |srcs| :: c in stores[srcs[j]].ancestry
  {
    UnionAncestryMembership(stores, srcs, c);
  }

  /** `extend` keeps the store invariant. */
  lemma {:induction false} ComposeKeepsWellFormed(stores: seq<Store>, base: nat, srcs: seq<nat>, own: map<string, Value>)
    requires WellFormed(stores) && base < |stores| && SourcesExist(stores, srcs)
    ensures WellFormed(stores + [Compose(stores, base, srcs, own)])
  {
    var extra := Compose(stores, base, srcs, own);
    var grown := stores + [extra];
    ComposeKeepsLinked(stores, base, srcs, own);
    forall s | 0 < s < |grown|
      ensures grown[s].parent.Some?
    {
      if s < |stores| {
        assert grown[s] == stores[s];
      }
    }
    forall s | 0 <= s < |grown|
      ensures grown[s].ancestry == ExpectedAncestry(grown, s)
    {
      GrownAncestryExpected(stores, base, srcs, own, s);
    }
    assert grown[BaseId] == stores[BaseId];
  }

  /** One store of the grown registry at a time: older stores keep their sets, the new one gets the set `extend` records. */
  lemma {:induction false} GrownAncestryExpected(stores: seq<Store>, base: nat, srcs: seq<nat>, own: map<string, Value>, s: nat)
    requires WellFormed(stores) && base < |stores| && SourcesExist(stores, srcs) && s <= |stores|
    requires Linked(stores + [Compose(stores, base, srcs, own)])
    ensures (stores + [Compose(stores, base, srcs, own)])[s].ancestry == ExpectedAncestry(stores + [Compose(stores, base, srcs, own)], s)
  {
    var extra := Compose(stores, base, srcs, own);
    if s < |stores| {
      AppendKeepsExpected(stores, extra, s);
    } else {
      assert (stores + [extra])[s] == extra;
      ComposedAncestryExpected(stores, base, srcs, own);
    }
  }

  lemma {:induction false} ComposedAncestryExpected(stores: seq<Store>, base: nat, srcs: seq<nat>, own: map<string, Value>)
    requires Linked(stores) && base < |stores| && SourcesExist(stores, srcs)
    requires Linked(stores + [Compose(stores, base, srcs, own)])
    ensures Compose(stores, base, srcs, own).ancestry == ExpectedAncestry(stores + [Compose(stores, base, srcs, own)], |stores|)
  {
    var extra := Compose(stores, base, srcs, own);
    var grown := stores + [extra];
    AppendKeepsMerge(stores, extra, srcs);
    assert grown[|stores|] == extra && grown[base] == stores[base];
  }

  lemma {:induction false} AppendKeepsExpected(stores: seq<Store>, extra: Store, s: nat)
    requires WellFormed(stores) && Linked(stores + [extra]) && s < |stores|
    ensures (stores + [extra])[s].ancestry == ExpectedAncestry(stores + [extra], s)
    ensures (stores + [extra])[s] == stores[s]
  {
    var grown := stores + [extra];
    assert grown[s] == stores[s];
    AppendKeepsMerge(stores, extra, stores[s].sources);
    if stores[s].parent.Some? {
      assert grown[stores[s].parent.value] == stores[stores[s].parent.value];
    }
  }
}
