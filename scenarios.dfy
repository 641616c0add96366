/**
 * The test suite's scenarios, each run on a fresh registry. Every output is
 * the value an assertion of the suite inspects, and the postconditions are
 * those assertions.
 */
module Scenarios {
  import opened Wrappers
  import opened Values
  import opened Stores
  import opened Interp
  import opened Engine

  /** Reads `x.key`, undefined when nothing on the chain defines it. */
  function Read(reg: Registry, x: Obj, key: string): Value
    reads reg
    requires Linked(reg.stores)
  {
    match Lookup(reg.stores, reg.instances, x, key)
    case Some(v) => v
    case None => Undefined
  }

  /** `.isPrototypeOf` between `Base`, its extensions and its instances. */
  method IsPrototypeOfScenario() returns (baseOfNew: bool, baseOfExtend: bool, baseOfExtendNew: bool,
                                         extendOfExtend: bool, extendOfNew: bool, newOfExtend: bool, newOfNew: bool)
    ensures baseOfNew && baseOfExtend && baseOfExtendNew
    ensures !extendOfExtend && !extendOfNew && !newOfExtend && !newOfNew
  {
    var reg := new Registry();
    var base := StoreRef(BaseId);
    ConstructWithoutInitialize(reg.stores, BaseId, []);
    var n1 := reg.New(BaseId, []);
    var n2 := reg.New(BaseId, []);
    var s0 := reg.stores;
    var e1 := reg.Extend(BaseId, [], map[]);
    PlainChildInherits(s0, BaseId, map[], "initialize");
    ConstructWithoutInitialize(reg.stores, e1, []);
    var n3 := reg.New(e1, []);
    var e2 := reg.Extend(BaseId, [], map[]);
    var stores, instances := reg.stores, reg.instances;
    var i1, i2, i3 := InstanceRef(n1.value), InstanceRef(n2.value), InstanceRef(n3.value);

    baseOfNew := IsPrototypeOf(stores, instances, base, i1);
    baseOfExtend := IsPrototypeOf(stores, instances, base, StoreRef(e1));
    baseOfExtendNew := IsPrototypeOf(stores, instances, base, i3);
    extendOfExtend := IsPrototypeOf(stores, instances, StoreRef(e1), StoreRef(e2));
    extendOfNew := IsPrototypeOf(stores, instances, StoreRef(e1), i1);
    newOfExtend := IsPrototypeOf(stores, instances, i1, StoreRef(e1));
    newOfNew := IsPrototypeOf(stores, instances, i1, i2);

    SiblingsUnrelated(stores, instances, e1, e2);
    ChildNotPrototypeOfParentInstances(stores, instances, e1, n1.value);
  }

  /** The literal `Parent` is built from in lines 23-28 of the suite. */
  const ParentOwn: map<string, Value> := map["name" := Str("parent"), "method" := Fn(Greet)]

  /** The literal `Child` is built from in lines 36-38 of the suite. */
  const ChildOwn: map<string, Value> := map["name" := Str("child")]

  /** A fresh registry holding `Parent = Base.extend({name: "parent", method})`, with what the inheritance scenarios read from it. */
  method NewParent() returns (reg: Registry, parent: nat)
    ensures fresh(reg) && reg.Valid() && reg.instances == [] && parent < |reg.stores|
    ensures StoreLookup(reg.stores, parent, "name") == Some(Str("parent"))
    ensures StoreLookup(reg.stores, parent, "method") == Some(Fn(Greet))
    ensures StoreLookup(reg.stores, parent, "initialize") == None
  {
    reg := new Registry();
    var s0 := reg.stores;
    parent := reg.Extend(BaseId, [], ParentOwn);
    PlainChildInherits(s0, BaseId, ParentOwn, "name");
    PlainChildInherits(s0, BaseId, ParentOwn, "method");
    PlainChildInherits(s0, BaseId, ParentOwn, "initialize");
  }

  /** Lines 30-34 of the suite: the parent, its instances and a plain descendant resolve the same name and method. */
  method InheritanceFromParent() returns (parentName: Value, parentGreeting: Result<Value, Error>,
                                          instanceName: Value, instanceGreeting: Result<Value, Error>, heirName: Value)
    ensures parentName == Str("parent") && parentGreeting == Ok(Str("hello parent"))
    ensures instanceName == parentName && instanceGreeting == parentGreeting
    ensures heirName == parentName
  {
    assert "hello " + "parent" == "hello parent";
    var reg, parent := NewParent();
    var P := StoreRef(parent);
    parentName := Read(reg, P, "name");
    GreetingUsesReceiverName(reg.stores, reg.instances, P, "method", [], "parent");
    parentGreeting := reg.Call(P, "method", []);

    ConstructWithoutInitialize(reg.stores, parent, []);
    var p1 := reg.New(parent, []);
    var I := InstanceRef(p1.value);
    instanceName := Read(reg, I, "name");
    GreetingUsesReceiverName(reg.stores, reg.instances, I, "method", [], "parent");
    instanceGreeting := reg.Call(I, "method", []);

    var s1 := reg.stores;
    var heir := reg.Extend(parent, [], map[]);
    PlainChildInherits(s1, parent, map[], "name");
    heirName := Read(reg, StoreRef(heir), "name");
  }

  /** Lines 36-45 of the suite: `Child` overrides `name` and inherits `method`; its instances and descendants see both. */
  method ChildOverridesName() returns (parentName: Value, childName: Value, childInstanceName: Value, childHeirName: Value,
                                       parentMethod: Value, childMethod: Value, childHeirMethod: Value, childInstanceMethod: Value)
    ensures childName == Str("child") && childName != parentName
    ensures childInstanceName == childName && childHeirName == childName
    ensures parentMethod == Fn(Greet)
    ensures childMethod == parentMethod && childHeirMethod == parentMethod && childInstanceMethod == parentMethod
  {
    var reg, parent, child := ParentAndChild();
    parentName := Read(reg, StoreRef(parent), "name");
    parentMethod := Read(reg, StoreRef(parent), "method");
    childName := Read(reg, StoreRef(child), "name");
    childMethod := Read(reg, StoreRef(child), "method");

    ConstructWithoutInitialize(reg.stores, child, []);
    var c1 := reg.New(child, []);
    childInstanceName := Read(reg, InstanceRef(c1.value), "name");
    childInstanceMethod := Read(reg, InstanceRef(c1.value), "method");

    var s2 := reg.stores;
    var heir := reg.Extend(child, [], map[]);
    PlainChildInherits(s2, child, map[], "name");
    PlainChildInherits(s2, child, map[], "method");
    childHeirName := Read(reg, StoreRef(heir), "name");
    childHeirMethod := Read(reg, StoreRef(heir), "method");
  }

  /** A fresh registry holding `Parent` and `Child = Parent.extend({name: "child"})`, with what the later scenarios read from them. */
  method ParentAndChild() returns (reg: Registry, parent: nat, child: nat)
    ensures fresh(reg) && reg.Valid() && reg.instances == []
    ensures parent < child < |reg.stores|
    ensures StoreLookup(reg.stores, parent, "name") == Some(Str("parent"))
    ensures StoreLookup(reg.stores, parent, "method") == Some(Fn(Greet))
    ensures StoreLookup(reg.stores, child, "method") == Some(Fn(Greet))
    ensures StoreLookup(reg.stores, child, "name") == Some(Str("child"))
    ensures StoreLookup(reg.stores, child, "initialize") == None
  {
    reg, parent := NewParent();
    var s1 := reg.stores;
    child := reg.Extend(parent, [], ChildOwn);
    AppendKeepsLookup(s1, reg.stores[child], parent, "name");
    AppendKeepsLookup(s1, reg.stores[child], parent, "method");
    PlainChildInherits(s1, parent, ChildOwn, "name");
    PlainChildInherits(s1, parent, ChildOwn, "method");
    PlainChildInherits(s1, parent, ChildOwn, "initialize");
  }

  /** Line 47 of the suite: the inherited method reads `name` on `Child`, the receiver it is called on. */
  method ChildGreeting() returns (greeting: Result<Value, Error>)
    ensures greeting == Ok(Str("hello child"))
  {
    assert "hello " + "child" == "hello child";
    var reg, parent, child := ParentAndChild();
    GreetingUsesReceiverName(reg.stores, reg.instances, StoreRef(child), "method", [], "child");
    greeting := reg.Call(StoreRef(child), "method", []);
  }

  /** Lines 48-50 of the suite: an instance of a descendant that overrides `name` greets with the overriding name. */
  method DescendentGreeting() returns (greeting: Result<Value, Error>)
    ensures greeting == Ok(Str("hello descendent"))
  {
    assert "hello " + "descendent" == "hello descendent";
    var reg, parent, child := ParentAndChild();
    var s2 := reg.stores;
    var own := map["name" := Str("descendent")];
    var desc := reg.Extend(child, [], own);
    PlainChildInherits(s2, child, own, "method");
    PlainChildInherits(s2, child, own, "name");
    PlainChildInherits(s2, child, own, "initialize");
    ConstructWithoutInitialize(reg.stores, desc, []);
    var d := reg.New(desc, []);
    var D := InstanceRef(d.value);
    GreetingUsesReceiverName(reg.stores, reg.instances, D, "method", [], "descendent");
    greeting := reg.Call(D, "method", []);
  }

  /** Lines 54-62 of the suite: replacing, adding or deleting a property of `Base` throws. */
  method BaseIsFrozen() returns (replaceExtend: Result<Value, Error>, addFoo: Result<Value, Error>, deleteNew: Result<bool, Error>)
    ensures replaceExtend == Err(FrozenMutation) && addFoo == Err(FrozenMutation) && deleteNew == Err(FrozenMutation)
  {
    var reg := new Registry();
    replaceExtend := reg.Set(StoreRef(BaseId), "extend", Fn(Body([])));
    addFoo := reg.Set(StoreRef(BaseId), "foo", Str("bar"));
    deleteNew := reg.Delete(StoreRef(BaseId), "new");
  }

  /** The `rename` method of lines 66-68 of the suite: assigns its first argument to `this.name`. */
  const Rename: Method := Body([Assign("name", Arg(0))])

  /** The literal `Foo` is built from in lines 64-69 of the suite. */
  const FooOwn: map<string, Value> := map["name" := Str("hello"), "rename" := Fn(Rename)]

  /** `Bar`'s literal in lines 84-88 of the suite: a `rename` that only reads `this.name`. */
  const BarOwn: map<string, Value> := map["rename" := Fn(GetField("name"))]

  /** A fresh registry holding `Foo = Base.extend({name: "hello", rename})`. */
  method NewFoo() returns (reg: Registry, foo: nat)
    ensures fresh(reg) && reg.Valid() && reg.instances == [] && foo < |reg.stores|
    ensures StoreLookup(reg.stores, foo, "name") == Some(Str("hello"))
    ensures StoreLookup(reg.stores, foo, "rename") == Some(Fn(Rename))
  {
    reg := new Registry();
    var s0 := reg.stores;
    foo := reg.Extend(BaseId, [], FooOwn);
    PlainChildInherits(s0, BaseId, FooOwn, "name");
    PlainChildInherits(s0, BaseId, FooOwn, "rename");
  }

  /** Lines 64-81 of the suite: an extension is just as frozen as `Base`, even from inside its own methods. */
  method ExtensionIsFrozen() returns (replaceExtend: Result<Value, Error>, addFoo: Result<Value, Error>, deleteName: Result<bool, Error>,
                                      renameFoo: Result<Value, Error>, fooName: Value)
    ensures replaceExtend == Err(FrozenMutation) && addFoo == Err(FrozenMutation) && deleteName == Err(FrozenMutation)
    ensures renameFoo == Err(FrozenMutation)
    ensures fooName == Str("hello")
  {
    var reg, foo := NewFoo();
    var F := StoreRef(foo);
    replaceExtend := reg.Set(F, "extend", Fn(Body([])));
    addFoo := reg.Set(F, "foo", Str("bar"));
    deleteName := reg.Delete(F, "name");

    assert Rename == Body([Assign("name", Arg(0))] + []);
    MethodCannotMutateStore(reg.stores, reg.instances, foo, "rename", "name", Arg(0), [], [Str("new name")]);
    renameFoo := reg.Call(F, "rename", [Str("new name")]);
    fooName := Read(reg, F, "name");
  }

  /** Lines 84-90 of the suite: a descendant of the frozen `Foo` may still override `rename`, and its `this.name` is `Foo`'s. */
  method DescendantMayOverride() returns (fooName: Value, renameBar: Result<Value, Error>)
    ensures fooName == Str("hello") && renameBar == Ok(fooName)
  {
    var reg, foo := NewFoo();
    fooName := Read(reg, StoreRef(foo), "name");
    var s1 := reg.stores;
    var bar := reg.Extend(foo, [], BarOwn);
    PlainChildInherits(s1, foo, BarOwn, "name");
    PlainChildInherits(s1, foo, BarOwn, "rename");
    GetterReadsReceiver(reg.stores, reg.instances, StoreRef(bar), "rename", "name", []);
    renameBar := reg.Call(StoreRef(bar), "rename", []);
  }

  /** `Foo.init` of lines 96-98 of the suite: stores its argument as `number`. */
  const InitNumber: Method := Body([Assign("number", Arg(0))])

  /** A fresh registry holding `Foo = Base.extend({name: "foo", init})` of lines 94-99 of the suite and one instance of it. */
  method NewFooInstance() returns (reg: Registry, foo: nat, i: nat)
    ensures fresh(reg) && reg.Valid() && foo < |reg.stores| && i < |reg.instances|
    ensures reg.instances[i] == Instance(foo, map[])
    ensures StoreLookup(reg.stores, foo, "alias") == None
    ensures StoreLookup(reg.stores, foo, "init") == Some(Fn(InitNumber))
  {
    reg := new Registry();
    var s0 := reg.stores;
    var own := map["name" := Str("foo"), "init" := Fn(InitNumber)];
    foo := reg.Extend(BaseId, [], own);
    PlainChildInherits(s0, BaseId, own, "initialize");
    PlainChildInherits(s0, BaseId, own, "alias");
    PlainChildInherits(s0, BaseId, own, "init");
    ConstructWithoutInitialize(reg.stores, foo, []);
    var r := reg.New(foo, []);
    i := r.value;
  }

  /** Lines 94-111 of the suite: an instance takes, loses and has its methods write its own properties. */
  method InstanceIsMutable() returns (alias: Value, aliasInAfterDelete: bool, number: Value)
    ensures alias == Str("f1")
    ensures !aliasInAfterDelete
    ensures number == Num(1)
  {
    var reg, foo, i := NewFooInstance();
    var I := InstanceRef(i);
    var _ := reg.Set(I, "alias", Str("f1"));
    alias := Read(reg, I, "alias");
    var _ := reg.Delete(I, "alias");
    assert map["alias" := Str("f1")] - {"alias"} == map[];
    assert reg.instances[i] == Instance(foo, map[]);
    aliasInAfterDelete := Lookup(reg.stores, reg.instances, I, "alias").Some?;

    InstanceReceiverAcceptsWrite(reg.stores, foo, map[], "number", Arg(0), [Num(1)], MaxCallDepth);
    var _ := reg.Call(I, "init", [Num(1)]);
    number := Read(reg, I, "number");
  }

  /** `Foo`'s initializer in lines 115-119 of the suite: copies `options.name` onto the new instance. */
  const FooInit: seq<Stmt> := [Assign("name", ArgKey(0, "name"))]

  /** `Bar`'s initializer in lines 121-126 of the suite: runs `Foo`'s initializer on the same instance, then sets `type`. */
  function BarInit(foo: nat): seq<Stmt> {
    [CallSuper(foo, "initialize", [Arg(0)]), Assign("type", Lit(Str("bar")))]
  }

  /** What `Bar.new({name: "test"})` runs: the super call fills `name`, then `Bar`'s own statement fills `type`. */
  lemma BarInitRuns(stores: seq<Store>, foo: nat, opts: Value)
    requires Linked(stores) && StoreLookup(stores, foo, "initialize") == Some(Fn(Body(FooInit)))
    requires opts == Bag(map["name" := Str("test")])
    ensures Invoke(stores, OnInstance(foo + 1, map[]), Body(BarInit(foo)), [opts], MaxCallDepth)
            == Outcome(Ok(Undefined), OnInstance(foo + 1, map["name" := Str("test"), "type" := Str("bar")]))
  {
    var d := MaxCallDepth - 1;
    var r0 := OnInstance(foo + 1, map[]);
    var r1 := OnInstance(foo + 1, map["name" := Str("test")]);
    SuperCallRunsAncestorFirst(stores, r0, foo, "initialize", [Arg(0)], FooInit, [Assign("type", Lit(Str("bar")))], [opts], d);
    EvalSingle(Arg(0), [opts]);
    assert Exec(stores, r0, FooInit, [opts], d - 1) == Outcome(Ok(Undefined), r1) by {
      assert FooInit[1..] == [];
    }
    assert Exec(stores, r1, [Assign("type", Lit(Str("bar")))], [opts], d)
        == Outcome(Ok(Undefined), OnInstance(foo + 1, map["name" := Str("test"), "type" := Str("bar")])) by {
      assert [Assign("type", Lit(Str("bar")))][1..] == [];
    }
    assert [CallSuper(foo, "initialize", [Arg(0)])] + [Assign("type", Lit(Str("bar")))] == BarInit(foo);
  }

  /** A fresh registry holding `Foo` with `FooInit` and `Bar = Foo.extend` with `BarInit`, as lines 114-126 of the suite build them. */
  method NewFooBar() returns (reg: Registry, foo: nat, bar: nat)
    ensures fresh(reg) && reg.Valid() && reg.instances == []
    ensures bar == foo + 1 && bar < |reg.stores| && OnChain(reg.stores, foo, bar)
    ensures StoreLookup(reg.stores, foo, "initialize") == Some(Fn(Body(FooInit)))
    ensures StoreLookup(reg.stores, bar, "initialize") == Some(Fn(Body(BarInit(foo))))
  {
    reg := new Registry();
    var s0 := reg.stores;
    var fooOwn := map["initialize" := Fn(Body(FooInit))];
    foo := reg.Extend(BaseId, [], fooOwn);
    PlainChildInherits(s0, BaseId, fooOwn, "initialize");
    var s1 := reg.stores;
    var barOwn := map["initialize" := Fn(Body(BarInit(foo)))];
    bar := reg.Extend(foo, [], barOwn);
    PlainChildInherits(s1, foo, barOwn, "initialize");
    AppendKeepsLookup(s1, reg.stores[bar], foo, "initialize");
    assert reg.stores[bar].parent == Some(foo);
  }

  /** Lines 128-136 of the suite: `Bar.new` runs both initializers, and the instance descends from `Bar`, `Foo` and `Base`. */
  method SuperScenario() returns (barOf: bool, fooOf: bool, baseOf: bool, barType: Value, barName: Value)
    ensures barOf && fooOf && baseOf
    ensures barType == Str("bar") && barName == Str("test")
  {
    var reg, foo, bar := NewFooBar();
    var opts := Bag(map["name" := Str("test")]);
    BarInitRuns(reg.stores, foo, opts);
    ConstructRunsInitialize(reg.stores, bar, Body(BarInit(foo)), [opts]);
    var b := reg.New(bar, [opts]);
    var B := InstanceRef(b.value);
    assert reg.instances[B.id] == Instance(bar, map["name" := Str("test"), "type" := Str("bar")]);
    barType := Read(reg, B, "type");
    barName := Read(reg, B, "name");

    BaseIsUniversal(reg.stores, bar);
    barOf := IsPrototypeOf(reg.stores, reg.instances, StoreRef(bar), B);
    fooOf := IsPrototypeOf(reg.stores, reg.instances, StoreRef(foo), B);
    baseOf := IsPrototypeOf(reg.stores, reg.instances, StoreRef(BaseId), B);
  }

  // ---------------------------------------------------------------------------
  // The inheritance chain of lines 139-223 of the suite

  const HexId: nat := 1
  const RgbId: nat := 2
  const CmykId: nat := 3
  const ColorId: nat := 4
  const PixelId: nat := 5

  /** The properties `RGB` defines, and so the ones every store mixing it in resolves. */
  const RgbProps: map<string, Value> := map["red" := Fn(Red), "green" := Fn(Green), "blue" := Fn(Blue)]

  /** `Color`'s initializer: stores its argument as `color`. */
  const ColorInit: seq<Stmt> := [Assign("color", Arg(0))]

  /** `Pixel`'s initializer: runs `Color`'s on its third argument, then stores `x` and `y`. */
  const PixelInit: seq<Stmt> := [CallSuper(ColorId, "initialize", [Arg(2)]), Assign("x", Arg(0)), Assign("y", Arg(1))]

  /** What a direct child of `Base` resolves is exactly its own properties. */
  lemma {:induction false} BaseChildView(stores: seq<Store>, s: nat)
    requires Linked(stores) && 0 < s < |stores| && stores[BaseId] == BaseStore && stores[s].parent == Some(BaseId)
    ensures View(stores, s) == stores[s].props
  {
    assert View(stores, BaseId) == map[] + map[];
  }

  /** A fresh registry holding `HEX = Base.extend({hex})` and `RGB = Base.extend({red, green, blue})`. */
  method MakeHexRgb() returns (reg: Registry)
    ensures fresh(reg) && reg.Valid() && reg.instances == [] && |reg.stores| == 3 && reg.stores[BaseId] == BaseStore
    ensures View(reg.stores, HexId) == map["hex" := Fn(Hex)] && View(reg.stores, RgbId) == RgbProps
    ensures reg.stores[HexId].ancestry == {0, 1} && reg.stores[RgbId].ancestry == {0, 2}
  {
    reg := new Registry();
    var hexOwn := map["hex" := Fn(Hex)];
    var hex := reg.Extend(BaseId, [], hexOwn);
    assert reg.stores[HexId].props == map[] + hexOwn;
    var rgb := reg.Extend(BaseId, [], RgbProps);
    assert reg.stores[RgbId].props == map[] + RgbProps;
    BaseChildView(reg.stores, HexId);
    BaseChildView(reg.stores, RgbId);
  }

  /** The mixins of lines 139-175 of the suite: `HEX`, `RGB` and `CMYK = Base.extend(RGB, {})`. */
  method MakeMixins() returns (reg: Registry)
    ensures fresh(reg) && reg.Valid() && reg.instances == [] && |reg.stores| == 4
    ensures View(reg.stores, HexId) == map["hex" := Fn(Hex)]
    ensures View(reg.stores, RgbId) == RgbProps && View(reg.stores, CmykId) == RgbProps
    ensures reg.stores[HexId].ancestry == {0, 1} && reg.stores[RgbId].ancestry == {0, 2} && reg.stores[CmykId].ancestry == {0, 2, 3}
  {
    reg := MakeHexRgb();
    var s2 := reg.stores;
    MergeOne(s2, RgbId);
    var cmyk := reg.Extend(BaseId, [RgbId], map[]);
    assert reg.stores[CmykId].props == RgbProps + map[];
    AppendKeepsLookup(s2, reg.stores[CmykId], HexId, "");
    AppendKeepsLookup(s2, reg.stores[CmykId], RgbId, "");
    BaseChildView(reg.stores, CmykId);
  }

  /** Merging a single source takes its view and its ancestry. */
  lemma {:induction false} MergeOne(stores: seq<Store>, a: nat)
    requires Linked(stores) && a < |stores|
    ensures SourcesExist(stores, [a])
    ensures MergeViews(stores, [a]) == View(stores, a) && UnionAncestry(stores, [a]) == stores[a].ancestry
  {
    assert [a][..0] == [];
    assert MergeViews(stores, [a]) == map[] + View(stores, a);
  }

  /** Merging three sources is overriding the first view with the second, then with the third. */
  lemma {:induction false} MergeThree(stores: seq<Store>, a: nat, b: nat, c: nat)
    requires Linked(stores) && a < |stores| && b < |stores| && c < |stores|
    ensures SourcesExist(stores, [a, b, c])
    ensures MergeViews(stores, [a, b, c]) == View(stores, a) + View(stores, b) + View(stores, c)
  {
    assert [a, b, c][..2] == [a, b] && [a, b][..1] == [a];
    MergeOne(stores, a);
  }

  /** What `Color` takes from its three mixins: `hex` and the RGB channels. */
  lemma ColorMerge(stores: seq<Store>)
    requires Linked(stores) && |stores| == 4
    requires View(stores, HexId) == map["hex" := Fn(Hex)]
    requires View(stores, RgbId) == RgbProps && View(stores, CmykId) == RgbProps
    ensures SourcesExist(stores, [HexId, RgbId, CmykId])
    ensures MergeViews(stores, [HexId, RgbId, CmykId]) == RgbProps["hex" := Fn(Hex)]
  {
    MergeThree(stores, HexId, RgbId, CmykId);
    HexOverRgb();
  }

  lemma HexOverRgb()
    ensures map["hex" := Fn(Hex)] + RgbProps + RgbProps == RgbProps["hex" := Fn(Hex)]
  {
  }

  /** The features `Color` takes from its three mixins. */
  lemma ColorAncestry(stores: seq<Store>)
    requires |stores| == 4
    requires stores[HexId].ancestry == {0, 1} && stores[RgbId].ancestry == {0, 2} && stores[CmykId].ancestry == {0, 2, 3}
    ensures SourcesExist(stores, [HexId, RgbId, CmykId])
    ensures UnionAncestry(stores, [HexId, RgbId, CmykId]) == {0, 1, 2, 3}
  {
    var srcs := [HexId, RgbId, CmykId];
    assert srcs[..2] == [HexId, RgbId] && [HexId, RgbId][..1] == [HexId] && [HexId][..0] == [];
    var u1 := UnionAncestry(stores, [HexId]);
    assert u1 == UnionAncestry(stores, []) + {0, 1};
    var u2 := UnionAncestry(stores, [HexId, RgbId]);
    assert u2 == u1 + {0, 2};
    assert UnionAncestry(stores, srcs) == u2 + {0, 2, 3};
  }

  /** `Color = Base.extend(HEX, RGB, CMYK, {initialize})` on top of the mixins. */
  method MakeColor() returns (reg: Registry)
    ensures fresh(reg) && reg.Valid() && reg.instances == [] && |reg.stores| == 5
    ensures reg.stores[ColorId].parent == Some(BaseId)
    ensures reg.stores[ColorId].props == RgbProps["hex" := Fn(Hex)] + map["initialize" := Fn(Body(ColorInit))]
    ensures reg.stores[ColorId].ancestry == {0, 1, 2, 3, 4}
  {
    reg := MakeMixins();
    ColorMerge(reg.stores);
    ColorAncestry(reg.stores);
    var color := reg.Extend(BaseId, [HexId, RgbId, CmykId], map["initialize" := Fn(Body(ColorInit))]);
  }

  /** `Pixel = Color.extend({initialize, toString})` on top of `Color`. */
  method MakePixel() returns (reg: Registry)
    ensures fresh(reg) && reg.Valid() && reg.instances == [] && |reg.stores| == 6
    ensures reg.stores[ColorId].parent == Some(BaseId) && reg.stores[PixelId].parent == Some(ColorId)
    ensures reg.stores[ColorId].props == RgbProps["hex" := Fn(Hex)] + map["initialize" := Fn(Body(ColorInit))]
    ensures reg.stores[PixelId].props == map["initialize" := Fn(Body(PixelInit)), "toString" := Fn(Describe)]
    ensures reg.stores[ColorId].ancestry == {0, 1, 2, 3, 4} && reg.stores[PixelId].ancestry == {0, 1, 2, 3, 4, 5}
  {
    reg := MakeColor();
    var s4 := reg.stores;
    var own := map["initialize" := Fn(Body(PixelInit)), "toString" := Fn(Describe)];
    var pixel := reg.Extend(ColorId, [], own);
    assert reg.stores[ColorId] == s4[ColorId];
    assert reg.stores[PixelId] == Compose(s4, ColorId, [], own);
    assert reg.stores[PixelId].props == own by {
      assert MergeViews(s4, []) == map[];
      assert map[] + own == own;
    }
    assert reg.stores[PixelId].ancestry == {0, 1, 2, 3, 4, 5} by {
      assert UnionAncestry(s4, []) == {};
    }
  }

  /** The arguments of `Pixel.new(11, 23, "CC3399")`. */
  const PixelArgs: seq<Value> := [Num(11), Num(23), Str("CC3399")]

  /** The own properties that call leaves on the new pixel. */
  const PixelOwn: map<string, Value> := map["color" := Str("CC3399"), "x" := Num(11), "y" := Num(23)]

  /** `Pixel`'s initializer first runs `Color`'s on the same instance, then stores the coordinates. */
  lemma PixelInitRuns(stores: seq<Store>)
    requires Linked(stores) && StoreLookup(stores, ColorId, "initialize") == Some(Fn(Body(ColorInit)))
    ensures Invoke(stores, OnInstance(PixelId, map[]), Body(PixelInit), PixelArgs, MaxCallDepth)
            == Outcome(Ok(Undefined), OnInstance(PixelId, PixelOwn))
  {
    var d := MaxCallDepth - 1;
    var r0 := OnInstance(PixelId, map[]);
    var r1 := OnInstance(PixelId, map["color" := Str("CC3399")]);
    var r2 := OnInstance(PixelId, map["color" := Str("CC3399"), "x" := Num(11)]);
    var rest := [Assign("x", Arg(0)), Assign("y", Arg(1))];
    SuperCallRunsAncestorFirst(stores, r0, ColorId, "initialize", [Arg(2)], ColorInit, rest, PixelArgs, d);
    EvalSingle(Arg(2), PixelArgs);
    assert Exec(stores, r0, ColorInit, [Str("CC3399")], d - 1) == Outcome(Ok(Undefined), r1) by {
      assert ColorInit[1..] == [];
    }
    assert Exec(stores, r1, rest, PixelArgs, d) == Exec(stores, r2, rest[1..], PixelArgs, d);
    assert Exec(stores, r2, rest[1..], PixelArgs, d) == Outcome(Ok(Undefined), OnInstance(PixelId, PixelOwn)) by {
      assert rest[1..] == [Assign("y", Arg(1))] && rest[1..][1..] == [];
    }
    assert [CallSuper(ColorId, "initialize", [Arg(2)])] + rest == PixelInit;
  }

  /** `Pixel.new(11, 23, "CC3399")` on a fresh chain: the new pixel holds the colour and its coordinates. */
  method NewPixel() returns (reg: Registry, p: nat)
    ensures fresh(reg) && reg.Valid() && |reg.stores| == 6 && p < |reg.instances|
    ensures reg.instances[p] == Instance(PixelId, PixelOwn)
    ensures reg.stores[ColorId].parent == Some(BaseId) && reg.stores[PixelId].parent == Some(ColorId)
    ensures reg.stores[ColorId].props == RgbProps["hex" := Fn(Hex)] + map["initialize" := Fn(Body(ColorInit))]
    ensures reg.stores[PixelId].props == map["initialize" := Fn(Body(PixelInit)), "toString" := Fn(Describe)]
    ensures reg.stores[ColorId].ancestry == {0, 1, 2, 3, 4} && reg.stores[PixelId].ancestry == {0, 1, 2, 3, 4, 5}
  {
    reg := MakePixel();
    assert StoreLookup(reg.stores, ColorId, "initialize") == Some(Fn(Body(ColorInit)));
    assert StoreLookup(reg.stores, PixelId, "initialize") == Some(Fn(Body(PixelInit)));
    PixelInitRuns(reg.stores);
    var r := reg.New(PixelId, PixelArgs);
    p := r.value;
  }

  /** What a pixel built by `NewPixel` resolves: its own colour and coordinates, `toString` from `Pixel`, `hex` and the channels from `Color`. */
  lemma PixelResolves(stores: seq<Store>)
    requires Linked(stores) && |stores| == 6
    requires stores[ColorId].parent == Some(BaseId) && stores[PixelId].parent == Some(ColorId)
    requires stores[ColorId].props == RgbProps["hex" := Fn(Hex)] + map["initialize" := Fn(Body(ColorInit))]
    requires stores[PixelId].props == map["initialize" := Fn(Body(PixelInit)), "toString" := Fn(Describe)]
    ensures var recv := OnInstance(PixelId, PixelOwn);
            && RecvLookup(stores, recv, "toString") == Some(Fn(Describe))
            && RecvLookup(stores, recv, "hex") == Some(Fn(Hex))
            && RecvLookup(stores, recv, "red") == Some(Fn(Red))
            && RecvLookup(stores, recv, "green") == Some(Fn(Green))
            && RecvLookup(stores, recv, "blue") == Some(Fn(Blue))
            && Get(stores, recv, "color") == Str("CC3399")
            && Get(stores, recv, "x") == Num(11) && Get(stores, recv, "y") == Num(23)
  {
  }

  /** The pixel's coordinates as `toString` writes them. */
  lemma PixelCoordinatesRender()
    ensures Render(Num(11)) == "11" && Render(Num(23)) == "23"
  {
    assert NatToDecimal(1) == "1" && NatToDecimal(2) == "2";
  }

  /** `toString` on the pixel: its coordinates, then `#` and its colour, from `hex` run on the same receiver. */
  lemma PixelDescribes(stores: seq<Store>)
    requires Linked(stores)
    requires var recv := OnInstance(PixelId, PixelOwn);
             && RecvLookup(stores, recv, "hex") == Some(Fn(Hex))
             && Get(stores, recv, "color") == Str("CC3399")
             && Get(stores, recv, "x") == Num(11) && Get(stores, recv, "y") == Num(23)
    ensures Invoke(stores, OnInstance(PixelId, PixelOwn), Describe, [], MaxCallDepth).ret == Ok(Str("11:23@#CC3399"))
  {
    assert "11" + ":" + "23" + "@" + ("#" + "CC3399") == "11:23@#CC3399";
    var recv := OnInstance(PixelId, PixelOwn);
    PixelCoordinatesRender();
    HexPrefixesColor(stores, recv, "CC3399", MaxCallDepth - 1);
    DescribeJoins(stores, recv, Hex, Str("#" + "CC3399"), recv, MaxCallDepth);
  }

  /** The three channel methods applied to the test's colour value. */
  lemma TestColourChannels()
    ensures Channel(Str("CC3399"), Red) == Ok(Num(204))
    ensures Channel(Str("CC3399"), Green) == Ok(Num(51))
    ensures Channel(Str("CC3399"), Blue) == Ok(Num(153))
  {
    HexColor.TestColourDecodes();
    ChannelDecodes("CC3399", Red, 204);
    ChannelDecodes("CC3399", Green, 51);
    ChannelDecodes("CC3399", Blue, 153);
  }

  /** The channel methods on the pixel decode the two-digit pairs of its colour. */
  lemma PixelChannelsDecode(stores: seq<Store>)
    requires Linked(stores)
    requires Get(stores, OnInstance(PixelId, PixelOwn), "color") == Str("CC3399")
    ensures Invoke(stores, OnInstance(PixelId, PixelOwn), Red, [], MaxCallDepth) == Outcome(Ok(Num(204)), OnInstance(PixelId, PixelOwn))
    ensures Invoke(stores, OnInstance(PixelId, PixelOwn), Green, [], MaxCallDepth) == Outcome(Ok(Num(51)), OnInstance(PixelId, PixelOwn))
    ensures Invoke(stores, OnInstance(PixelId, PixelOwn), Blue, [], MaxCallDepth) == Outcome(Ok(Num(153)), OnInstance(PixelId, PixelOwn))
  {
    var recv := OnInstance(PixelId, PixelOwn);
    TestColourChannels();
    ChannelReadsColor(stores, recv, Red, [], MaxCallDepth);
    ChannelReadsColor(stores, recv, Green, [], MaxCallDepth);
    ChannelReadsColor(stores, recv, Blue, [], MaxCallDepth);
  }

  /** Lines 199-200 of the suite: `toString` on a pixel reads its coordinates and calls `hex`, which `Color` took from `HEX`. */
  method PixelToString() returns (text: Result<Value, Error>)
    ensures text == Ok(Str("11:23@#CC3399"))
  {
    var reg, p := NewPixel();
    var X := InstanceRef(p);
    PixelResolves(reg.stores);
    PixelDescribes(reg.stores);
    ReceiverLookup(reg.stores, reg.instances, X, "toString");
    text := reg.Call(X, "toString", []);
  }

  /** One channel call on the pixel: it returns what the channel method gives on the pixel's receiver and leaves the pixel as it was. */
  method CallChannel(reg: Registry, p: nat, key: string, m: Method, n: int) returns (v: Result<Value, Error>)
    requires reg.Valid() && p < |reg.instances| && reg.instances[p] == Instance(PixelId, PixelOwn)
    requires Lookup(reg.stores, reg.instances, InstanceRef(p), key) == Some(Fn(m))
    requires Invoke(reg.stores, OnInstance(PixelId, PixelOwn), m, [], MaxCallDepth) == Outcome(Ok(Num(n)), OnInstance(PixelId, PixelOwn))
    modifies reg
    ensures reg.Valid() && reg.stores == old(reg.stores) && reg.instances == old(reg.instances)
    ensures v == Ok(Num(n))
  {
    v := reg.Call(InstanceRef(p), key, []);
    assert reg.instances[p] == old(reg.instances[p]);
  }

  /** Lines 202-204 of the suite: the pixel's channels, read through the methods `Color` took from `RGB`. */
  method PixelChannels() returns (red: Result<Value, Error>, green: Result<Value, Error>, blue: Result<Value, Error>)
    ensures red == Ok(Num(204)) && green == Ok(Num(51)) && blue == Ok(Num(153))
  {
    var reg, p := NewPixel();
    var X := InstanceRef(p);
    PixelResolves(reg.stores);
    PixelChannelsDecode(reg.stores);
    ReceiverLookup(reg.stores, reg.instances, X, "red");
    ReceiverLookup(reg.stores, reg.instances, X, "green");
    ReceiverLookup(reg.stores, reg.instances, X, "blue");
    red := CallChannel(reg, p, "red", Red, 204);
    green := CallChannel(reg, p, "green", Green, 51);
    blue := CallChannel(reg, p, "blue", Blue, 153);
  }

  /** `Color.new("CC3399")` on a fresh chain: an instance of `Color`, whose ancestry is the three mixins and `Color`. */
  method NewColor() returns (reg: Registry, c: nat)
    ensures fresh(reg) && reg.Valid() && |reg.stores| == 6 && c < |reg.instances|
    ensures reg.instances[c].proto == ColorId
    ensures reg.stores[ColorId].ancestry == {0, 1, 2, 3, 4}
  {
    reg := MakePixel();
    assert StoreLookup(reg.stores, ColorId, "initialize") == Some(Fn(Body(ColorInit)));
    InstanceReceiverAcceptsWrite(reg.stores, ColorId, map[], "color", Arg(0), [Str("CC3399")], MaxCallDepth);
    ConstructRunsInitialize(reg.stores, ColorId, Body(ColorInit), [Str("CC3399")]);
    var r := reg.New(ColorId, [Str("CC3399")]);
    c := r.value;
  }

  /** Lines 211-216 of the suite: a `Color` instance has every mixin and `Color` as features, but not `Pixel`. */
  method ColorFeatures() returns (hex: bool, rgb: bool, cmyk: bool, color: bool, pixel: bool)
    ensures hex && rgb && cmyk && color && !pixel
  {
    var reg, c := NewColor();
    var X := InstanceRef(c);
    hex := HasFeature(reg.stores, reg.instances, X, StoreRef(HexId));
    rgb := HasFeature(reg.stores, reg.instances, X, StoreRef(RgbId));
    cmyk := HasFeature(reg.stores, reg.instances, X, StoreRef(CmykId));
    color := HasFeature(reg.stores, reg.instances, X, StoreRef(ColorId));
    pixel := HasFeature(reg.stores, reg.instances, X, StoreRef(PixelId));
  }

  /** Lines 219-223 of the suite: a `Pixel` instance has every mixin and `Color` as features. */
  method PixelFeatures() returns (hex: bool, rgb: bool, cmyk: bool, color: bool)
    ensures hex && rgb && cmyk && color
  {
    var reg, p := NewPixel();
    var X := InstanceRef(p);
    hex := HasFeature(reg.stores, reg.instances, X, StoreRef(HexId));
    rgb := HasFeature(reg.stores, reg.instances, X, StoreRef(RgbId));
    cmyk := HasFeature(reg.stores, reg.instances, X, StoreRef(CmykId));
    color := HasFeature(reg.stores, reg.instances, X, StoreRef(ColorId));
  }
}
