/**
 * Calling a method: the body is looked up on the object and run with that
 * object as `this`. Every read of `this` resolves at call time, so a method
 * inherited from a parent sees the receiver's own overrides. A write to a
 * store receiver fails; a write to an instance receiver changes its own
 * properties and nothing else.
 */
module Interp {
  import opened Wrappers
  import opened Values
  import opened Stores
  import HexColor

  /** The call-stack depth after which a call fails with a RangeError, as a JavaScript engine's stack overflow does. */
  const MaxCallDepth: nat := 10000

  /** `this` during a call: a store, or an instance's current state. */
  datatype Recv = OnStore(store: nat) | OnInstance(proto: nat, own: map<string, Value>)

  /** What a call returns or throws, and the receiver after it: writes done before a throw persist. */
  datatype Outcome = Outcome(ret: Result<Value, Error>, after: Recv)

  function RecvLookup(stores: seq<Store>, recv: Recv, key: string): Option<Value>
    requires Linked(stores)
  {
    match recv
    case OnStore(s) => StoreLookup(stores, s, key)
    case OnInstance(p, own) => if key in own then Some(own[key]) else StoreLookup(stores, p, key)
  }

  /** `this.key`: the resolved value, or undefined. */
  function Get(stores: seq<Store>, recv: Recv, key: string): Value
    requires Linked(stores)
  {
    match RecvLookup(stores, recv, key)
    case Some(v) => v
    case None => Undefined
  }

  /** The receiver a call on `x` runs with. */
  function ReceiverOf(instances: seq<Instance>, x: Obj): Recv
    requires x.InstanceRef? ==> x.id < |instances|
  {
    match x
    case StoreRef(s) => OnStore(s)
    case InstanceRef(i) => OnInstance(instances[i].proto, instances[i].own)
  }

  function Eval(e: Expr, args: seq<Value>): Result<Value, Error> {
    match e
    case Lit(v) => Ok(v)
    case Arg(i) => Ok(if i < |args| then args[i] else Undefined)
    case ArgKey(i, key) =>
      var a := if i < |args| then args[i] else Undefined;
      match a
      case Undefined => Err(TypeError)
      case Bag(fields) => Ok(if key in fields then fields[key] else Undefined)
      case _ => Ok(Undefined)
  }

  function EvalAll(es: seq<Expr>, args: seq<Value>): (r: Result<seq<Value>, Error>)
    ensures r.Ok? ==> |r.value| == |es|
  {
    if es == [] then Ok([])
    else match Eval(es[0], args)
      case Err(e) => Err(e)
      case Ok(v) =>
        match EvalAll(es[1..], args)
        case Err(e) => Err(e)
        case Ok(vs) => Ok([v] + vs)
  }

  /** `parseInt(c.substr(start, 2), 16)`; only a string has `substr`. */
  function Channel(c: Value, which: Method): Result<Value, Error>
    requires which.Red? || which.Green? || which.Blue?
  {
    match c
    case Str(s) =>
      var parsed := match which
        case Red => HexColor.Red(s)
        case Green => HexColor.Green(s)
        case Blue => HexColor.Blue(s);
      Ok(match parsed case Some(n) => Num(n) case None => NaN)
    case _ => Err(TypeError)
  }

  /** Runs method `m` with `this` bound to `recv`. */
  function Invoke(stores: seq<Store>, recv: Recv, m: Method, args: seq<Value>, depth: nat): (o: Outcome)
    requires Linked(stores)
    ensures recv.OnStore? ==> o.after == recv
    ensures recv.OnInstance? ==> o.after.OnInstance? && o.after.proto == recv.proto && recv.own.Keys <= o.after.own.Keys
    decreases depth, 0
  {
    if depth == 0 then Outcome(Err(RangeError), recv)
    else match m
      case Body(ss) => Exec(stores, recv, ss, args, depth - 1)
      case Greet => Outcome(Ok(Str("hello " + Render(Get(stores, recv, "name")))), recv)
      case GetField(f) => Outcome(Ok(Get(stores, recv, f)), recv)
      case Hex => Outcome(Ok(Str("#" + Render(Get(stores, recv, "color")))), recv)
      case Red => Outcome(Channel(Get(stores, recv, "color"), m), recv)
      case Green => Outcome(Channel(Get(stores, recv, "color"), m), recv)
      case Blue => Outcome(Channel(Get(stores, recv, "color"), m), recv)
      case Describe =>
        var x, y := Get(stores, recv, "x"), Get(stores, recv, "y");
        match RecvLookup(stores, recv, "hex")
        case Some(Fn(h)) =>
          var o := Invoke(stores, recv, h, [], depth - 1);
          if o.ret.Err? then o
          else Outcome(Ok(Str(Render(x) + ":" + Render(y) + "@" + Render(o.ret.value))), o.after)
        case _ => Outcome(Err(TypeError), recv)
  }

  /** Runs statements in order on `this`, stopping at the first that throws. */
  function Exec(stores: seq<Store>, recv: Recv, ss: seq<Stmt>, args: seq<Value>, depth: nat): (o: Outcome)
    requires Linked(stores)
    ensures recv.OnStore? ==> o.after == recv
    ensures recv.OnInstance? ==> o.after.OnInstance? && o.after.proto == recv.proto && recv.own.Keys <= o.after.own.Keys
    ensures o.ret.Ok? ==> o.ret.value == Undefined
    decreases depth, |ss|
  {
    if ss == [] then Outcome(Ok(Undefined), recv)
    else match ss[0]
      case Assign(f, e) =>
        (match Eval(e, args)
         case Err(err) => Outcome(Err(err), recv)
         case Ok(v) =>
           match recv
           case OnStore(_) => Outcome(Err(FrozenMutation), recv)
           case OnInstance(p, own) => Exec(stores, OnInstance(p, own[f := v]), ss[1..], args, depth))
      case CallSuper(t, key, es) =>
        match EvalAll(es, args)
        case Err(err) => Outcome(Err(err), recv)
        case Ok(vs) =>
          match StoreLookup(stores, t, key)
          case Some(Fn(m)) =>
            var o := Invoke(stores, recv, m, vs, depth);
            if o.ret.Err? then Outcome(o.ret, o.after)
            else Exec(stores, o.after, ss[1..], args, depth)
          case _ => Outcome(Err(TypeError), recv)
  }

  /** `x.key(args...)`: resolve `key` on `x` and run it with `this` bound to `x`; a missing or non-function value throws. */
  function CallMethod(stores: seq<Store>, instances: seq<Instance>, x: Obj, key: string, args: seq<Value>): (o: Outcome)
    requires Linked(stores) && (x.InstanceRef? ==> x.id < |instances|)
    ensures x.StoreRef? ==> o.after == OnStore(x.id)
    ensures x.InstanceRef? ==> o.after.OnInstance? && o.after.proto == instances[x.id].proto
  {
    match Lookup(stores, instances, x, key)
    case Some(Fn(m)) => Invoke(stores, ReceiverOf(instances, x), m, args, MaxCallDepth)
    case _ => Outcome(Err(TypeError), ReceiverOf(instances, x))
  }

  /** The fresh instance `P.new(args...)` builds: empty own properties, then the resolved `initialize`, when it is a function, run on it. */
  function Construct(stores: seq<Store>, proto: nat, args: seq<Value>): (o: Outcome)
    requires Linked(stores)
    ensures o.after.OnInstance? && o.after.proto == proto
  {
    match StoreLookup(stores, proto, "initialize")
    case Some(Fn(m)) => Invoke(stores, OnInstance(proto, map[]), m, args, MaxCallDepth)
    case _ => Outcome(Ok(Undefined), OnInstance(proto, map[]))
  }

  // ---------------------------------------------------------------------------
  // Lemmas

  /** A store whose resolved `initialize` is a function builds its instances by running it on an empty one. */
  lemma {:induction false} ConstructRunsInitialize(stores: seq<Store>, proto: nat, m: Method, args: seq<Value>)
    requires Linked(stores) && StoreLookup(stores, proto, "initialize") == Some(Fn(m))
    ensures Construct(stores, proto, args) == Invoke(stores, OnInstance(proto, map[]), m, args, MaxCallDepth)
  {
  }

  /** Evaluating a one-element argument list evaluates its element. */
  lemma EvalSingle(e: Expr, args: seq<Value>)
    requires Eval(e, args).Ok?
    ensures EvalAll([e], args) == Ok([Eval(e, args).value])
  {
    assert [e][1..] == [];
    assert [Eval(e, args).value] + [] == [Eval(e, args).value];
  }

  /** `new` on a store that resolves no `initialize` function gives an empty instance without running anything. */
  lemma {:induction false} ConstructWithoutInitialize(stores: seq<Store>, proto: nat, args: seq<Value>)
    requires Linked(stores)
    requires match StoreLookup(stores, proto, "initialize") case Some(Fn(_)) => false case _ => true
    ensures Construct(stores, proto, args) == Outcome(Ok(Undefined), OnInstance(proto, map[]))
  {
  }

  /** Calling the receiver's lookup on an instance receiver is the object lookup on that instance. */
  lemma {:induction false} ReceiverLookup(stores: seq<Store>, instances: seq<Instance>, x: Obj, key: string)
    requires Linked(stores) && (x.InstanceRef? ==> x.id < |instances|)
    ensures RecvLookup(stores, ReceiverOf(instances, x), key) == Lookup(stores, instances, x, key)
  {
  }

  /** A method that writes a field fails when `this` is a store: "methods can't mutate prototypes". */
  lemma {:induction false} StoreReceiverRejectsWrite(stores: seq<Store>, s: nat, f: string, e: Expr, rest: seq<Stmt>, args: seq<Value>, depth: nat)
    requires Linked(stores) && depth > 0 && Eval(e, args).Ok?
    ensures Invoke(stores, OnStore(s), Body([Assign(f, e)] + rest), args, depth) == Outcome(Err(FrozenMutation), OnStore(s))
  {
    assert ([Assign(f, e)] + rest)[0] == Assign(f, e);
  }

  /** Calling such a method on a store throws and leaves the store as it was. */
  lemma {:induction false} MethodCannotMutateStore(stores: seq<Store>, instances: seq<Instance>, s: nat, key: string,
                                                   f: string, e: Expr, rest: seq<Stmt>, args: seq<Value>)
    requires Linked(stores) && Eval(e, args).Ok?
    requires Lookup(stores, instances, StoreRef(s), key) == Some(Fn(Body([Assign(f, e)] + rest)))
    ensures CallMethod(stores, instances, StoreRef(s), key, args) == Outcome(Err(FrozenMutation), OnStore(s))
  {
    StoreReceiverRejectsWrite(stores, s, f, e, rest, args, MaxCallDepth);
  }

  /** The same write on an instance receiver succeeds and the field reads back. */
  lemma {:induction false} InstanceReceiverAcceptsWrite(stores: seq<Store>, p: nat, own: map<string, Value>, f: string, e: Expr, args: seq<Value>, depth: nat)
    requires Linked(stores) && depth > 0 && Eval(e, args).Ok?
    ensures var o := Invoke(stores, OnInstance(p, own), Body([Assign(f, e)]), args, depth);
            o.ret == Ok(Undefined) && RecvLookup(stores, o.after, f) == Some(Eval(e, args).value)
  {
    var v := Eval(e, args).value;
    assert [Assign(f, e)][1..] == [];
    assert Exec(stores, OnInstance(p, own), [Assign(f, e)], args, depth - 1)
        == Exec(stores, OnInstance(p, own[f := v]), [], args, depth - 1);
  }

  /** Greetings are late-bound: two receivers get the same greeting exactly when their resolved names render the same. */
  lemma {:induction false} GreetingFollowsReceiver(stores: seq<Store>, r1: Recv, r2: Recv, args: seq<Value>, depth: nat)
    requires Linked(stores) && depth > 0
    ensures Invoke(stores, r1, Greet, args, depth).ret.Ok?
    ensures Invoke(stores, r1, Greet, args, depth).ret == Invoke(stores, r2, Greet, args, depth).ret
            <==> Render(Get(stores, r1, "name")) == Render(Get(stores, r2, "name"))
  {
    var a, b := Render(Get(stores, r1, "name")), Render(Get(stores, r2, "name"));
    if "hello " + a == "hello " + b {
      assert a == ("hello " + a)[6..];
      assert b == ("hello " + b)[6..];
    }
  }

  /** A channel method on a colour string yields the number its digit pair parses to. */
  lemma {:induction false} ChannelDecodes(c: string, which: Method, n: int)
    requires (which.Red? && HexColor.Red(c) == Some(n)) || (which.Green? && HexColor.Green(c) == Some(n))
             || (which.Blue? && HexColor.Blue(c) == Some(n))
    ensures Channel(Str(c), which) == Ok(Num(n))
  {
  }

  /** The RGB channel methods decode whatever `this.color` resolves to, and change nothing. */
  lemma {:induction false} ChannelReadsColor(stores: seq<Store>, recv: Recv, m: Method, args: seq<Value>, depth: nat)
    requires Linked(stores) && depth > 0 && (m.Red? || m.Green? || m.Blue?)
    ensures Invoke(stores, recv, m, args, depth) == Outcome(Channel(Get(stores, recv, "color"), m), recv)
  {
  }

  /** Calling a greeting stored under `key` on `x` greets with the `name` that `x` itself resolves, wherever the greeting was defined. */
  lemma {:induction false} GreetingUsesReceiverName(stores: seq<Store>, instances: seq<Instance>, x: Obj, key: string, args: seq<Value>, name: string)
    requires Linked(stores) && (x.InstanceRef? ==> x.id < |instances|)
    requires Lookup(stores, instances, x, key) == Some(Fn(Greet))
    requires Lookup(stores, instances, x, "name") == Some(Str(name))
    ensures CallMethod(stores, instances, x, key, args).ret == Ok(Str("hello " + name))
  {
    ReceiverLookup(stores, instances, x, "name");
  }

  /** Calling a getter of field `f` stored under `key` on `x` returns what `x` itself resolves for `f`, or undefined. */
  lemma {:induction false} GetterReadsReceiver(stores: seq<Store>, instances: seq<Instance>, x: Obj, key: string, f: string, args: seq<Value>)
    requires Linked(stores) && (x.InstanceRef? ==> x.id < |instances|)
    requires Lookup(stores, instances, x, key) == Some(Fn(GetField(f)))
    ensures CallMethod(stores, instances, x, key, args).ret
            == Ok(match Lookup(stores, instances, x, f) case Some(v) => v case None => Undefined)
  {
    ReceiverLookup(stores, instances, x, f);
  }

  /** `hex` prefixes `#` to the receiver's `color`, and changes nothing. */
  lemma {:induction false} HexPrefixesColor(stores: seq<Store>, recv: Recv, c: string, depth: nat)
    requires Linked(stores) && depth > 0 && Get(stores, recv, "color") == Str(c)
    ensures Invoke(stores, recv, Hex, [], depth) == Outcome(Ok(Str("#" + c)), recv)
  {
  }

  /**
   * `toString` joins the receiver's coordinates and what the `hex` it resolves
   * returns on the same receiver; the receiver afterwards is the one `hex` leaves.
   */
  lemma {:induction false} DescribeJoins(stores: seq<Store>, recv: Recv, h: Method, v: Value, after: Recv, depth: nat)
    requires Linked(stores) && depth > 0
    requires RecvLookup(stores, recv, "hex") == Some(Fn(h))
    requires Invoke(stores, recv, h, [], depth - 1) == Outcome(Ok(v), after)
    ensures Invoke(stores, recv, Describe, [], depth)
            == Outcome(Ok(Str(Render(Get(stores, recv, "x")) + ":" + Render(Get(stores, recv, "y")) + "@" + Render(v))), after)
  {
  }

  /** Running two statement lists one after the other is running their concatenation. */
  lemma {:induction false} ExecSequence(stores: seq<Store>, recv: Recv, ss1: seq<Stmt>, ss2: seq<Stmt>, args: seq<Value>, depth: nat)
    requires Linked(stores)
    ensures var o := Exec(stores, recv, ss1, args, depth);
            Exec(stores, recv, ss1 + ss2, args, depth) == if o.ret.Err? then o else Exec(stores, o.after, ss2, args, depth)
    decreases |ss1|
  {
    if ss1 == [] {
      assert ss1 + ss2 == ss2;
    } else {
      assert (ss1 + ss2)[0] == ss1[0];
      assert (ss1 + ss2)[1..] == ss1[1..] + ss2;
      match ss1[0]
      case Assign(f, e) =>
        if Eval(e, args).Ok? && recv.OnInstance? {
          ExecSequence(stores, OnInstance(recv.proto, recv.own[f := Eval(e, args).value]), ss1[1..], ss2, args, depth);
        }
      case CallSuper(t, key, es) =>
        if EvalAll(es, args).Ok? {
          match StoreLookup(stores, t, key)
          case Some(Fn(m)) =>
            var o := Invoke(stores, recv, m, EvalAll(es, args).value, depth);
            if o.ret.Ok? {
              ExecSequence(stores, o.after, ss1[1..], ss2, args, depth);
            }
          case _ =>
        }
    }
  }

  /**
   * `Ancestor.key.call(this, args)` followed by more statements: the ancestor's
   * body runs on the same receiver first, and the rest sees its writes.
   */
  lemma {:induction false} SuperCallRunsAncestorFirst(stores: seq<Store>, recv: Recv, t: nat, key: string, es: seq<Expr>, inner: seq<Stmt>, rest: seq<Stmt>, args: seq<Value>, depth: nat)
    requires Linked(stores) && depth > 0
    requires StoreLookup(stores, t, key) == Some(Fn(Body(inner))) && EvalAll(es, args).Ok?
    ensures var o := Exec(stores, recv, inner, EvalAll(es, args).value, depth - 1);
            Exec(stores, recv, [CallSuper(t, key, es)] + rest, args, depth)
              == if o.ret.Err? then o else Exec(stores, o.after, rest, args, depth)
  {
    assert ([CallSuper(t, key, es)] + rest)[0] == CallSuper(t, key, es);
    assert ([CallSuper(t, key, es)] + rest)[1..] == rest;
  }
}
