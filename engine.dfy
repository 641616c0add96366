/**
 * The engine's state: every prototype store built so far and every live
 * instance. `extend` and `new` append to it; writes and deletes change an
 * instance's own properties and are refused on stores, which are frozen.
 */
module Engine {
  import opened Wrappers
  import opened Values
  import opened Stores
  import opened Interp

  /** Every instance delegates to a store that exists. */
  predicate InstancesLinked(stores: seq<Store>, instances: seq<Instance>) {
    forall i | 0 <= i < |instances| :: instances[i].proto < |stores|
  }

  class Registry {
    var stores: seq<Store>
    var instances: seq<Instance>

    ghost predicate Valid()
      reads this
    {
      WellFormed(stores) && InstancesLinked(stores, instances)
    }

    /** A registry holding only `Base`. */
    constructor ()
      ensures Valid() && stores == [BaseStore] && instances == []
    {
      stores := [BaseStore];
      instances := [];
    }

    /**
     * `base.extend(sources..., own)`: merges the sources' resolved views in
     * argument order, lets `own` override them, unions the ancestry sets and
     * appends the frozen result. Nothing that existed changes.
     */
    method Extend(base: nat, sources: seq<nat>, own: map<string, Value>) returns (child: nat)
      requires Valid() && base < |stores| && SourcesExist(stores, sources)
      modifies this
      ensures Valid()
      ensures child == old(|stores|)
      ensures stores == old(stores) + [Compose(old(stores), base, sources, own)]
      ensures instances == old(instances)
    {
      var merged: map<string, Value> := map[];
      var ancestry: set<nat> := {|stores|} + stores[base].ancestry;
      var i := 0;
      while i < |sources|
        invariant 0 <= i <= |sources|
        invariant merged == MergeViews(stores, sources[..i])
        invariant ancestry == {|stores|} + stores[base].ancestry + UnionAncestry(stores, sources[..i])
      {
        assert sources[..i + 1][..i] == sources[..i];
        merged := merged + View(stores, sources[i]);
        ancestry := ancestry + stores[sources[i]].ancestry;
        i := i + 1;
      }
      assert sources[..i] == sources;
      ComposeKeepsWellFormed(stores, base, sources, own);
      child := |stores|;
      stores := stores + [Store(Some(base), merged + own, sources, ancestry)];
    }

    /**
     * `proto.new(args...)`: a fresh instance of `proto` with the resolved
     * `initialize` run on it. When `initialize` throws, no instance is
     * handed back.
     */
    method New(proto: nat, args: seq<Value>) returns (r: Result<nat, Error>)
      requires Valid() && proto < |stores|
      modifies this
      ensures Valid() && stores == old(stores)
      ensures var o := Construct(stores, proto, args);
              if o.ret.Ok? then r == Ok(old(|instances|)) && instances == old(instances) + [Instance(proto, o.after.own)]
              else r == Err(o.ret.error) && instances == old(instances)
    {
      var o := Construct(stores, proto, args);
      if o.ret.Ok? {
        r := Ok(|instances|);
        instances := instances + [Instance(proto, o.after.own)];
      } else {
        r := Err(o.ret.error);
      }
    }

    /** `x.key = v`: refused on any store; on an instance, sets its own property. */
    method Set(x: Obj, key: string, v: Value) returns (r: Result<Value, Error>)
      requires Valid() && Exists(stores, instances, x)
      modifies this
      ensures Valid() && stores == old(stores)
      ensures x.StoreRef? ==> r == Err(FrozenMutation) && instances == old(instances)
      ensures x.InstanceRef? ==> r == Ok(v)
      ensures x.InstanceRef? ==>
                instances == old(instances)[x.id := Instance(old(instances[x.id].proto), old(instances[x.id].own)[key := v])]
    {
      if x.StoreRef? {
        r := Err(FrozenMutation);
      } else {
        var inst := instances[x.id];
        instances := instances[x.id := Instance(inst.proto, inst.own[key := v])];
        r := Ok(v);
      }
    }

    /** `delete x.key`: refused on any store; on an instance, removes its own property. */
    method Delete(x: Obj, key: string) returns (r: Result<bool, Error>)
      requires Valid() && Exists(stores, instances, x)
      modifies this
      ensures Valid() && stores == old(stores)
      ensures x.StoreRef? ==> r == Err(FrozenMutation) && instances == old(instances)
      ensures x.InstanceRef? ==> r == Ok(true)
      ensures x.InstanceRef? ==>
                instances == old(instances)[x.id := Instance(old(instances[x.id].proto), old(instances[x.id].own) - {key})]
    {
      if x.StoreRef? {
        r := Err(FrozenMutation);
      } else {
        var inst := instances[x.id];
        instances := instances[x.id := Instance(inst.proto, inst.own - {key})];
        r := Ok(true);
      }
    }

    /** `x.key(args...)`: runs the resolved method with `this` bound to `x`; only an instance receiver can change. */
    method Call(x: Obj, key: string, args: seq<Value>) returns (r: Result<Value, Error>)
      requires Valid() && Exists(stores, instances, x)
      modifies this
      ensures Valid() && stores == old(stores)
      ensures r == CallMethod(stores, old(instances), x, key, args).ret
      ensures x.StoreRef? ==> instances == old(instances)
      ensures x.InstanceRef? ==>
                instances == old(instances)[x.id := Instance(old(instances[x.id].proto), CallMethod(stores, old(instances), x, key, args).after.own)]
    {
      var o := CallMethod(stores, instances, x, key, args);
      if x.InstanceRef? {
        instances := instances[x.id := Instance(instances[x.id].proto, o.after.own)];
      }
      r := o.ret;
    }
  }

  // ---------------------------------------------------------------------------
  // What a write or a delete on an instance does to later reads

  /** After `x.key = v` on instance `i`, `i.key` reads `v`; every other object and key reads as before. */
  lemma {:induction false} SetReadsBack(stores: seq<Store>, instances: seq<Instance>, i: nat, key: string, v: Value, y: Obj, k: string)
    requires Linked(stores) && i < |instances|
    ensures var after := instances[i := Instance(instances[i].proto, instances[i].own[key := v])];
            Lookup(stores, after, y, k) == if y == InstanceRef(i) && k == key then Some(v) else Lookup(stores, instances, y, k)
  {
  }

  /** After `delete x.key` on instance `i`, `i.key` falls back to what its store resolves; everything else reads as before. */
  lemma {:induction false} DeleteFallsBackToStore(stores: seq<Store>, instances: seq<Instance>, i: nat, key: string, y: Obj, k: string)
    requires Linked(stores) && i < |instances|
    ensures var after := instances[i := Instance(instances[i].proto, instances[i].own - {key})];
            Lookup(stores, after, y, k) == if y == InstanceRef(i) && k == key then StoreLookup(stores, instances[i].proto, key)
                                           else Lookup(stores, instances, y, k)
  {
  }

  /** Changing an instance's own properties never changes what it is an instance of, nor its features. */
  lemma {:induction false} OwnChangesKeepRelations(stores: seq<Store>, instances: seq<Instance>, i: nat, own: map<string, Value>, x: Obj, y: Obj)
    requires Linked(stores) && i < |instances|
    ensures var after := instances[i := Instance(instances[i].proto, own)];
            IsPrototypeOf(stores, after, x, y) == IsPrototypeOf(stores, instances, x, y) &&
            HasFeature(stores, after, y, x) == HasFeature(stores, instances, y, x)
  {
  }
}
