# mikebase `Base` in Dafny

A model of the object-composition engine behind mikebase's `Base`. The engine's behaviour is what its test suite, `tests/test.js`, pins down:

- **Stores.** Every call of `extend` creates a new frozen prototype store. A store has one delegation parent, an own property map made of its mixin sources' resolved properties overridden by the literal it was given, and an ancestry set.
- **Instances.** `new` creates a mutable instance of a store and runs the `initialize` that the store resolves.
- **Lookup.** Property lookup walks the delegation chain, and the nearest definition wins.
- **`isPrototypeOf`.** It holds when one store is a strict ancestor on another object's delegation chain.
- **`hasFeature`.** It holds when a store is in an object's ancestry set. That set is the union of the object's own store, its parent's set and every mixin source's set.
- **Freeze rule.** Writing, adding or deleting a property of a store throws, including from inside a method whose `this` is the store.
- **Instance writes.** An instance's own properties can be set, deleted and written by its methods.

The suite's colour fixture, built from the `HEX`, `RGB` and `CMYK` mixins, is modelled too. Its `red`, `green` and `blue` apply `parseInt(…, 16)` to two-character slices of a hex colour.

Layout:

- `wrappers.dfy`: `Option` and `Result`.
- `values.dfy`: JavaScript values, plus the closed set of method bodies the suite defines. Also how `"" + v` renders a value, and decimal numerals.
- `hex_color.dfy`: `parseInt(s, 16)`, `substr`, the three channels and a byte-to-hex encoder, with both round trips.
- `stores.dfy`: the store and instance records, and the pure queries over them: lookup and its reference `View`, `isPrototypeOf`, and `hasFeature` with its reachability reference `Contributed`. Also `Compose`, the store `extend` builds.
- `interp.dfy`: running a method with `this` bound to an explicit receiver, so that late binding can be stated.
- `engine.dfy`: the `Registry` class. `Extend`, `New`, `Set`, `Delete` and `Call` change its sequences of stores and instances.
- `scenarios.dfy`: each test function of the suite as methods on a fresh registry. The postconditions are the suite's assertions.

Object identity is an index. Store `i` is the `i`-th store created, and `Base` is store 0. A store's parent and sources are always older than the store itself.

## Model

| member | source | states |
|---|---|---|
| Engine.Registry.constructor | tests/test.js:10 | A fresh engine holds only `Base`, which has no parent, no properties and only itself as a feature. |
| Engine.Registry.Extend | tests/test.js:180-184 | `extend` appends exactly the store `Compose` describes. It merges the sources in argument order, then the own literal, and unions the ancestry sets. The registry invariant still holds; every older store and every instance is unchanged. |
| Engine.Registry.New | tests/test.js:128-130 | `new` hands back a fresh instance of the store, carrying what its resolved `initialize` wrote. If `initialize` throws, the error is returned and no instance is added. Stores never change. |
| Engine.Registry.Set | tests/test.js:54-59 | Assigning to any store fails with the freeze error and changes nothing. Assigning to an instance sets exactly that own property. |
| Engine.Registry.Delete | tests/test.js:60-62 | Deleting from any store fails with the freeze error and changes nothing. Deleting from an instance removes exactly that own property. |
| Engine.Registry.Call | tests/test.js:87-89 | A method call returns what the resolved method computes with `this` bound to the receiver. No store ever changes. Only an instance receiver's own properties can change. |
| Engine.SetReadsBack | tests/test.js:106-107 | After an instance write, that property reads back the written value. Every other object and key reads as before. |
| Engine.DeleteFallsBackToStore | tests/test.js:108-109 | After an instance delete, that key reads whatever the instance's store resolves, so a key no store defines is absent. Everything else reads as before. |
| Engine.OwnChangesKeepRelations | tests/test.js:106-111 | Changing an instance's own properties changes neither `isPrototypeOf` nor `hasFeature` for any pair of objects. |
| Stores.LookupIsView | tests/test.js:30-34 | Walking the chain finds exactly the nearest definition, as given by the resolved view that folds every ancestor's properties under the nearer ones. |
| Stores.MergeViewsHas | tests/test.js:180-184 | A key is in the merged sources exactly when some source resolves it. |
| Stores.MergeViewsLastWins | tests/test.js:180-184 | A key's merged value comes from the last source that resolves it. |
| Stores.AppendKeepsLookup | tests/test.js:39-45 | Creating a store changes neither the answers nor the resolved views of the stores that already exist. |
| Stores.ComposeLookup | tests/test.js:36-45 | A new store answers from its own literal first, then from its merged sources, then from its parent. |
| Stores.PlainChildInherits | tests/test.js:34-39 | A descendant built without mixins resolves a key from its own literal, and otherwise exactly as its parent already did. |
| Stores.ChainBelow | tests/test.js:16-19 | Every store on a store's delegation chain is older than or equal to it. |
| Stores.ChainTransitive | tests/test.js:132-134 | The delegation chain composes: an ancestor of an ancestor is an ancestor. |
| Stores.PrototypeOnlyOfLater | tests/test.js:16-19 | A store is a prototype only of strictly younger stores and of instances of itself or a younger store. |
| Stores.PrototypeIrreflexive | tests/test.js:16-19 | Nothing is its own prototype. |
| Stores.PrototypeTransitive | tests/test.js:132-134 | `isPrototypeOf` is transitive. |
| Stores.ComposePrototypes | tests/test.js:13-15 | The prototypes of a new store are exactly its base and the base's prototypes. |
| Stores.AppendKeepsChain | tests/test.js:16-19 | Creating a store changes no existing delegation chain. |
| Stores.SiblingsUnrelated | tests/test.js:16 | Two different extensions of the same store are not prototypes of one another. |
| Stores.ChildNotPrototypeOfParentInstances | tests/test.js:17 | An extension is not a prototype of an instance of its parent. |
| Stores.BaseIsUniversal | tests/test.js:134 | `Base` is on every store's chain. |
| Stores.UnionAncestryMembership | tests/test.js:180 | A store is in the union of the sources' features exactly when it is a feature of one of them. |
| Stores.AncestryIsContribution | tests/test.js:211-216 | The recorded features of a store are exactly the stores reachable from it through parents and mixin sources. |
| Stores.AncestryBelow | tests/test.js:216 | A store's features are itself and older stores, so a descendant is never a feature of its ancestor. |
| Stores.PrototypeImpliesFeature | tests/test.js:219-223 | Every prototype of an object is also one of its features. |
| Stores.ChainInAncestry | tests/test.js:215 | Every store on the delegation chain is a feature. |
| Stores.ComposeFeatures | tests/test.js:180-184 | A new store's features are exactly itself, its base's features and every source's features. |
| Stores.ComposeKeepsWellFormed | tests/test.js:180-192 | `extend` preserves the store invariant: linked and rooted at `Base`, with every ancestry set as `extend` records it. |
| Interp.Invoke | tests/test.js:25-27 | Running a method leaves a store receiver unchanged. An instance receiver keeps its store and loses none of its own keys. |
| Interp.Exec | tests/test.js:121-126 | Running statements has the same frame guarantees, and statements that complete return `undefined`. |
| Interp.CallMethod | tests/test.js:31 | A call on a store leaves that store as the receiver. A call on an instance keeps the instance's store. |
| Interp.Construct | tests/test.js:128-130 | `new` produces an instance of the requested store. |
| Interp.ReceiverLookup | tests/test.js:25-27 | `this.key` inside a method resolves exactly like `x.key` on the object the method was called on. |
| Interp.StoreReceiverRejectsWrite | tests/test.js:87-89 | A method whose first statement writes `this.f` throws the freeze error when `this` is a store, and the store is unchanged. |
| Interp.MethodCannotMutateStore | tests/test.js:80-82 | Calling, on a store, a method whose first statement writes `this.f` throws the freeze error and leaves the store as the receiver. |
| Interp.InstanceReceiverAcceptsWrite | tests/test.js:110-111 | The same write on an instance succeeds, and the field reads back the written value. |
| Interp.GreetingFollowsReceiver | tests/test.js:33 | The greeting method always succeeds. Two receivers get the same greeting exactly when they render the same `name`. |
| Interp.GreetingUsesReceiverName | tests/test.js:47-50 | The inherited greeting, called on an object, greets with that object's own resolved `name`, wherever the greeting was defined. |
| Interp.GetterReadsReceiver | tests/test.js:84-90 | A method that returns `this.f` returns what the object it is called on resolves for `f`, or `undefined`. |
| Interp.HexPrefixesColor | tests/test.js:143-147 | `hex` returns `#` followed by the receiver's `color` and changes nothing. |
| Interp.DescribeJoins | tests/test.js:194-196 | `toString` joins the receiver's `x`, `y` and what the `hex` it resolves returns on the same receiver. |
| Interp.ChannelReadsColor | tests/test.js:150-158 | `red`, `green` and `blue` decode the receiver's own resolved `color` and leave the receiver unchanged. |
| Interp.ChannelDecodes | tests/test.js:150-158 | A channel applied to a string returns the number that string's digit pair decodes to. |
| Interp.ConstructWithoutInitialize | tests/test.js:13 | `new` on a store that resolves no `initialize` function yields a bare instance with no own properties. |
| Interp.ConstructRunsInitialize | tests/test.js:128-130 | `new` on a store that resolves an `initialize` function runs it on a fresh, empty instance. |
| Interp.ExecSequence | tests/test.js:121-126 | Running two statement lists in a row is running the first, then the second on the receiver the first left behind, unless the first threw. |
| Interp.SuperCallRunsAncestorFirst | tests/test.js:121-124 | `Ancestor.initialize.call(this, …)` runs the ancestor's body on the same receiver before the rest of the caller's body. |
| HexColor.DigitValue | tests/test.js:151 | A digit's value is below 16, and a decimal digit has its decimal value. |
| HexColor.UpperDigit | tests/test.js:199 | The upper-case digit written for a value is a hexadecimal digit with that value. |
| HexColor.Substr | tests/test.js:151 | `substr` yields at most the requested number of characters, each copied from its position in the source string. |
| HexColor.HexRunIsMaximal | tests/test.js:151 | `parseInt` takes every leading hexadecimal digit and stops at the first other character. |
| HexColor.ParseHexDigits | tests/test.js:151 | A non-empty run of hexadecimal digits parses to the number it denotes. |
| HexColor.HexPairValue | tests/test.js:150-158 | A two-digit pair denotes 16 times the high digit plus the low digit, always less than 256. |
| HexColor.ByteToHex | tests/test.js:199 | A byte is written as two hexadecimal digits. |
| HexColor.EncodeRgb | tests/test.js:199 | Three bytes are written as a six-digit colour. |
| HexColor.ByteRoundTrip | tests/test.js:150-158 | Parsing a byte's two digits gives the byte back. |
| HexColor.ChannelsOfHexColor | tests/test.js:150-158 | For any six-digit colour, `red`, `green` and `blue` are the bytes of its first, second and third digit pairs. |
| HexColor.RedOfColor | tests/test.js:150-152 | `red` of a six-digit colour is the byte of its first digit pair. |
| HexColor.GreenOfColor | tests/test.js:153-155 | `green` of a six-digit colour is the byte of its second digit pair. |
| HexColor.BlueOfColor | tests/test.js:156-158 | `blue` of a six-digit colour is the byte of its third digit pair. |
| HexColor.ReencodeDigits | tests/test.js:199 | Writing out the three digit-pair values of an upper-case colour gives the colour back. |
| HexColor.RgbRoundTrip | tests/test.js:150-158 | Decoding an encoded colour gives back the three bytes. |
| HexColor.HexColorRoundTrip | tests/test.js:150-158 | Re-encoding the decoded bytes of an upper-case six-digit colour gives back the colour. |
| HexColor.TestColourDecodes | tests/test.js:202-204 | `CC3399` decodes to 204, 51 and 153. |
| Values.NatToDecimal | tests/test.js:195 | A rendered number is a non-empty string of decimal digits. |
| Values.DecimalRoundTrip | tests/test.js:195 | Reading a rendered number back gives the number, and only zero renders with a leading `0`. |
| Values.IntToStringInjective | tests/test.js:195 | Distinct integers render as distinct strings. |
| Values.SignOf | tests/test.js:195 | A rendered integer starts with `-` exactly when it is negative. |
| Scenarios.IsPrototypeOfScenario | tests/test.js:12-20 | `Base` is a prototype of `Base.new()`, of `Base.extend()` and of `Base.extend().new()`. No fresh extension or instance is a prototype of another fresh extension or instance. |
| Scenarios.InheritanceFromParent | tests/test.js:30-34 | `Parent.name` is `"parent"` and `Parent.method()` is `"hello parent"`. Instances and a plain descendant read and greet the same. |
| Scenarios.ChildOverridesName | tests/test.js:36-45 | `Child` overrides `name`. Its instances and descendants see the override, and all of them share `Parent`'s method value itself. |
| Scenarios.ChildGreeting | tests/test.js:47 | `Child.method()` is `"hello child"`. |
| Scenarios.DescendentGreeting | tests/test.js:48-50 | An instance of a descendant that overrides `name` greets `"hello descendent"`. |
| Scenarios.BaseIsFrozen | tests/test.js:54-62 | Replacing `Base.extend`, adding `Base.foo` and deleting `Base.new` all throw. |
| Scenarios.ExtensionIsFrozen | tests/test.js:64-82 | The same three mutations throw on an extension, and so does its own `rename` method writing `this.name`; `Foo.name` stays `"hello"`. |
| Scenarios.DescendantMayOverride | tests/test.js:84-90 | A descendant of the frozen `Foo` may still override `rename`, and its version returns `Foo.name`, `"hello"`. |
| Scenarios.InstanceIsMutable | tests/test.js:94-111 | An added `alias` reads back, is gone after `delete`, and a method writes `number` onto the instance. |
| Scenarios.BarInitRuns | tests/test.js:121-126 | `Bar`'s initializer, given `{name: "test"}`, leaves `name` set by `Foo`'s initializer and `type` set to `"bar"`. |
| Scenarios.SuperScenario | tests/test.js:128-136 | `Bar.new({name: "test"})` descends from `Bar`, `Foo` and `Base`, and has `type` `"bar"` and `name` `"test"`. |
| Scenarios.ColorMerge | tests/test.js:180-184 | `Color` takes `hex` from `HEX` and the three channels from `RGB` and `CMYK`. |
| Scenarios.ColorAncestry | tests/test.js:180-184 | The features `Color` takes from its mixins are `Base`, `HEX`, `RGB` and `CMYK`. |
| Scenarios.PixelInitRuns | tests/test.js:189-192 | `Pixel`'s initializer runs `Color`'s on its third argument, then stores `x` and `y`. |
| Scenarios.PixelDescribes | tests/test.js:194-196 | `toString` on the pixel is `"11:23@#CC3399"`, using the `hex` resolved on the same receiver. |
| Scenarios.PixelChannelsDecode | tests/test.js:150-158 | The pixel's channel methods return 204, 51 and 153 and leave the pixel unchanged. |
| Scenarios.PixelToString | tests/test.js:199-200 | `Pixel.new(11, 23, "CC3399").toString()` is `"11:23@#CC3399"`. |
| Scenarios.PixelChannels | tests/test.js:202-204 | The pixel's `red()`, `green()` and `blue()` are 204, 51 and 153. |
| Scenarios.ColorFeatures | tests/test.js:211-216 | A `Color` instance has features `HEX`, `RGB`, `CMYK` and `Color`, but not `Pixel`. |
| Scenarios.PixelFeatures | tests/test.js:219-223 | A `Pixel` instance has features `HEX`, `RGB`, `CMYK` and `Color`. |

## Left out

- The engine's implementation, `../index` (tests/test.js:10), is not part of this model. The model states only the behaviour the suite's assertions pin down, with no property descriptors, `Object.freeze` or `Object.create`.
- The conflict rule between mixin sources is the model's choice: the last source wins and the own literal wins over all of them. The suite never defines one key in two sources.
- The CMYK methods `black`, `cyan`, `magenta` and `yellow` (tests/test.js:162-177, 206-208) are left out: they depend on floating-point division and `toFixed` rounding. `CMYK` is modelled as `Base.extend(RGB, {})`, which keeps its features and channels.
- An instance write to a property its store defines (tests/test.js:101-105) is left out: that test is commented out and the behaviour depends on the engine. The model lets the instance shadow the store's value.
- The module-loader wrapper and the `require("test").run` harness (tests/test.js:6, 226-227) are I/O plumbing.
- A failed mutation is a `FrozenMutation` error result rather than a JavaScript exception object. The exception types behind `assert.throws` are not modelled.
- Engine.Registry.Delete: deleting from a store fails for absent keys as well. A strict-mode JavaScript `delete` of a missing property would succeed.
- Values.Render: a function renders as `function`, not as its source text. A number renders as an integer in decimal, because the suite only ever renders integers.
- Function values are compared as values of the closed `Method` datatype, not by reference identity. `Child.method == Parent.method` therefore holds because the same value is inherited unchanged.
- Method bodies are limited to the suite's own: field assignment, a call of an ancestor's method on `this`, the greeting, a field read, `hex`, the three channels and `toString`. Arbitrary JavaScript bodies are not modelled.
- Interp.Invoke: the call-stack limit is a fixed depth of 10000 nested calls, which then fails with a range error. A real engine's limit depends on the host.
- Mixin sources are stores. Passing an instance or a plain object as a source of `extend` is not modelled.
- `extend`, `new`, `isPrototypeOf` and `hasFeature` are engine operations, not properties stored on `Base`. Replacing or deleting them is modelled only as the write or delete that the freeze rule rejects.
- Property access on a primitive string (for example `"abc".name`) reads `undefined`. Strings are sequences of characters: UTF-16 code units and Unicode case rules are not modelled.
