# hygge: a fluent builder for KDL nodes, in Dafny

hygge assembles KDL document nodes through chained method calls. A node has a
name, an ordered list of positional values, a key-to-value property map and an
ordered list of child nodes. The builder gathers these and `build`s them into
the `kdl` crate's `KdlNode`. The repository holds two variants of the same
builder, and both are modelled:

- `src/lib.rs` passes the builder by value (`mut self` in, `Self` out). Every
  call hands ownership back to the caller, so the model uses datatypes with
  member functions that return the updated builder (`owned_builder.dfy`,
  module `OwnedBuilder`). The loops of this file (the copy in `set`, the
  collect-and-apply loops of `properties`, the draining of the children in
  `build`) are methods with loop invariants proved against the functional
  update they implement.
- `src/main.rs` passes `&mut self` and adds bulk value operations, child
  editing, `extend` and recursive resets. Its three builders are classes with
  mutable fields (`mut_builder.dfy`, module `MutBuilder`). The node builder
  owns its value and property builders (`const` fields) and holds its children
  as `NodeState` values, a recursive datatype that mirrors a builder's
  contents. Each method states its whole new state as a function of the old
  one, and the lemmas about `NodeState` give the properties of `reset` and
  `build`.

Shared pieces:

- `kdl.dfy` (module `Kdl`): the shapes of `KdlValue` and `KdlNode`.
- `value_builder.dfy` (module `ValueBuilder`): the stateless value
  constructors `str`/`s`, `int`/`i`, `flt`/`f`, `bool`/`b`, `y`, `n` and
  `nul`/`nil`. Both files declare them with the same bodies.
- `maps.dfy` (module `Maps`): restricting a map to a key set. This is the
  invariant vocabulary for the loops that merge maps entry by entry.

`HashMap` iteration order is never fixed: each loop over a map picks an
arbitrary remaining key (`:|`), so every proof holds for any order.

Behaviours of the code worth noting:

- `reset()` in `src/main.rs` clears the node's own values and properties and
  also calls `reset_children`, which clears every descendant (resets
  recursively). The children themselves are kept.
- `set_child(i, c)` in `src/main.rs` removes index `i` and then inserts `c` at
  `i`. This replaces the child in place rather than inserting a new one.
- `value(i, v)` in both files removes index `i` and then appends `v` at the
  end. The value does not stay at position `i` (see
  `OwnedBuilder.ValueIsPositionalOnlyAtEnd`).
- `props` and `properties` both merge in `src/lib.rs`. In `src/main.rs`,
  `props` merges and `properties` replaces the map.
- `set` on the value builder of `src/main.rs` takes a whole list and no index.

## Model

| member | source | states |
|---|---|---|
| ValueBuilder.Str | src/lib.rs:91-93 | yields a String value carrying exactly the given text |
| ValueBuilder.S | src/lib.rs:94-96 | shorthand of `str`: a String value carrying exactly the given text |
| ValueBuilder.Int | src/lib.rs:98-100 | yields an Int value carrying exactly the given i64 |
| ValueBuilder.I | src/lib.rs:101-103 | shorthand of `int`: an Int value carrying exactly the given i64 |
| ValueBuilder.Flt | src/lib.rs:105-107 | yields a Float value carrying exactly the given f64 bits |
| ValueBuilder.F | src/lib.rs:108-110 | shorthand of `flt`: a Float value carrying exactly the given f64 bits |
| ValueBuilder.Bool | src/lib.rs:112-114 | yields a Boolean value carrying exactly the given flag |
| ValueBuilder.B | src/lib.rs:115-117 | shorthand of `bool`: a Boolean value carrying exactly the given flag |
| ValueBuilder.Y | src/lib.rs:118-120 | `y()` is the boolean true |
| ValueBuilder.N | src/lib.rs:121-123 | `n()` is the boolean false |
| ValueBuilder.Nul | src/lib.rs:125-127 | `nul()` is Null |
| ValueBuilder.Nil | src/lib.rs:128-130 | `nil()` is Null |
| ValueBuilder.ShorthandsAgree | src/main.rs:8-49 | the constructors of the second builder variant agree: s/i/f/b equal str/int/flt/bool, y and n are bool(true) and bool(false), nil is nul |
| OwnedBuilder.ValuesBuilder.New | src/lib.rs:169-174 | a new value builder holds no values |
| OwnedBuilder.ValuesBuilder.Build | src/lib.rs:175-178 | the output has the same length as the builder and the same value at every index |
| OwnedBuilder.ValuesBuilder.Reset | src/lib.rs:179-182 | the value list is empty afterwards |
| OwnedBuilder.ValuesBuilder.Add | src/lib.rs:184-187 | the list grows by one, every old value keeps its index and the new value is last |
| OwnedBuilder.ValuesBuilder.Rem | src/lib.rs:188-191 | needs an index in range (Vec::remove panics otherwise); the list shrinks by one, values before the index stay, values after it move down by one, and the multiset loses exactly the removed value |
| OwnedBuilder.ValuesBuilder.Clear | src/lib.rs:192-195 | the value list is empty afterwards |
| OwnedBuilder.ValuesBuilder.Str | src/lib.rs:211-215 | appends a String of the text to the old values, nothing else |
| OwnedBuilder.ValuesBuilder.Int | src/lib.rs:221-224 | appends an Int of the integer to the old values, nothing else |
| OwnedBuilder.ValuesBuilder.I | src/lib.rs:225-228 | appends an Int of the integer to the old values, nothing else |
| OwnedBuilder.ValuesBuilder.Flt | src/lib.rs:230-233 | appends a Float of the bits to the old values, nothing else |
| OwnedBuilder.ValuesBuilder.F | src/lib.rs:234-237 | appends a Float of the bits to the old values, nothing else |
| OwnedBuilder.ValuesBuilder.Nul | src/lib.rs:239-242 | appends Null to the old values, nothing else |
| OwnedBuilder.ValuesBuilder.Nil | src/lib.rs:243-246 | appends Null to the old values, nothing else |
| OwnedBuilder.ValuesBuilder.Bool | src/lib.rs:248-251 | appends a Boolean of the flag to the old values, nothing else |
| OwnedBuilder.ValuesBuilder.B | src/lib.rs:252-255 | appends a Boolean of the flag to the old values, nothing else |
| OwnedBuilder.ValuesBuilder.Y | src/lib.rs:256-259 | appends Boolean true to the old values, nothing else |
| OwnedBuilder.ValuesBuilder.N | src/lib.rs:260-263 | appends Boolean false to the old values, nothing else |
| OwnedBuilder.AddThenRemIsIdentity | src/lib.rs:184-191 | removing the value just appended restores the builder: `rem` undoes `add` |
| OwnedBuilder.ResetIdempotent | src/lib.rs:179-195 | `reset` and `clear` coincide, and resetting twice equals resetting once |
| OwnedBuilder.CopyEntries | src/lib.rs:312-315 | inserting every entry of the map one by one, in any iteration order, yields exactly that map (the copy loop of `set` and of `build`) |
| OwnedBuilder.PropertiesBuilder.New | src/lib.rs:278-283 | a new property builder holds no properties |
| OwnedBuilder.PropertiesBuilder.Default | src/lib.rs:393-400 | `Default::default` is the same builder as `new` |
| OwnedBuilder.PropertiesBuilder.Build | src/lib.rs:284-291 | the map handed out equals the builder's properties |
| OwnedBuilder.PropertiesBuilder.Reset | src/lib.rs:293-296 | the property map is empty afterwards |
| OwnedBuilder.PropertiesBuilder.Add | src/lib.rs:298-301 | the key maps to the new value whatever it held before; every other key keeps its presence and value |
| OwnedBuilder.PropertiesBuilder.Rem | src/lib.rs:302-305 | the key is absent afterwards, every other key is untouched, and removing an absent key changes nothing |
| OwnedBuilder.PropertiesBuilder.Set | src/lib.rs:306-319 | the properties become exactly the given map, the old entries gone |
| OwnedBuilder.PropertiesBuilder.Str | src/lib.rs:332-335 | the key maps to a String of the text, other keys unchanged |
| OwnedBuilder.PropertiesBuilder.S | src/lib.rs:336-339 | the key maps to a String of the text, other keys unchanged |
| OwnedBuilder.PropertiesBuilder.Int | src/lib.rs:341-344 | the key maps to an Int, other keys unchanged |
| OwnedBuilder.PropertiesBuilder.I | src/lib.rs:345-348 | the key maps to an Int, other keys unchanged |
| OwnedBuilder.PropertiesBuilder.Flt | src/lib.rs:350-353 | the key maps to a Float, other keys unchanged |
| OwnedBuilder.PropertiesBuilder.F | src/lib.rs:354-357 | the key maps to a Float, other keys unchanged |
| OwnedBuilder.PropertiesBuilder.Bool | src/lib.rs:359-362 | the key maps to a Boolean, other keys unchanged |
| OwnedBuilder.PropertiesBuilder.B | src/lib.rs:363-366 | the key maps to a Boolean, other keys unchanged |
| OwnedBuilder.PropertiesBuilder.Y | src/lib.rs:367-370 | the key maps to Boolean true, other keys unchanged |
| OwnedBuilder.PropertiesBuilder.N | src/lib.rs:371-374 | the key maps to Boolean false, other keys unchanged |
| OwnedBuilder.PropertiesBuilder.Nul | src/lib.rs:376-379 | the key maps to Null, other keys unchanged |
| OwnedBuilder.PropertiesBuilder.Nil | src/lib.rs:380-383 | the key maps to Null, other keys unchanged |
| OwnedBuilder.AddOverwrites | src/lib.rs:298-301 | last write wins: two inserts under one key equal the second insert alone |
| OwnedBuilder.RemUndoesAdd | src/lib.rs:298-305 | removing a key after inserting it equals removing it from the original builder |
| OwnedBuilder.RemThenAdd | src/lib.rs:540-544 | removing a key and inserting it again is a plain insert |
| OwnedBuilder.CollectEntries | src/lib.rs:552-560 | collects keys and values of equal length, each value the map's value for its key, and every key of the map among the keys |
| OwnedBuilder.Zip | src/lib.rs:561-565 | the i-th pair is the i-th key with the i-th value, for every i |
| OwnedBuilder.Children.New | src/lib.rs:42-44 | no children |
| OwnedBuilder.Children.Output | src/lib.rs:49-51 | one node per child builder, in order: node j is child builder j built |
| OwnedBuilder.Children.Build | src/lib.rs:49-51 | draining the children front to back yields their built nodes in the same order |
| OwnedBuilder.NodeBuilder.New | src/lib.rs:420-427 | the given name, no values, no properties, no children |
| OwnedBuilder.NodeBuilder.Output | src/lib.rs:428-435 | the node `build` yields: the builder's name, values and properties, and one built child per child builder |
| OwnedBuilder.NodeBuilder.Build | src/lib.rs:428-435 | the node produced is the builder's output (see BuildKeepsContents) |
| OwnedBuilder.NodeBuilder.Name | src/lib.rs:451-454 | the name is replaced; values, properties and children are unchanged |
| OwnedBuilder.NodeBuilder.ResetValues | src/lib.rs:455-458 | the values are empty; name, properties and children are unchanged |
| OwnedBuilder.NodeBuilder.ResetProperties | src/lib.rs:459-462 | the properties are empty; name, values and children are unchanged |
| OwnedBuilder.NodeBuilder.Add | src/lib.rs:495-498 | appends one value; name, properties and children unchanged |
| OwnedBuilder.NodeBuilder.Val | src/lib.rs:499-502 | same effect as `add` |
| OwnedBuilder.NodeBuilder.Rem | src/lib.rs:503-506 | needs an index in range; the values are those of the value builder's `rem`, everything else unchanged |
| OwnedBuilder.NodeBuilder.Value | src/lib.rs:515-519 | needs an index in range; the length is unchanged, the new value is last, values before the index stay and values after it move down by one |
| OwnedBuilder.NodeBuilder.Put | src/lib.rs:529-532 | the properties are those of the property builder's insert; everything else unchanged |
| OwnedBuilder.NodeBuilder.Prop | src/lib.rs:533-536 | same effect as `put` |
| OwnedBuilder.NodeBuilder.Property | src/lib.rs:540-544 | remove-then-insert has the same effect as `put` |
| OwnedBuilder.NodeBuilder.Properties | src/lib.rs:550-574 | the properties become old merged with the incoming map: incoming values win, other keys keep theirs; everything else unchanged |
| OwnedBuilder.NodeBuilder.Props | src/lib.rs:537-539 | forwards to `properties`: the same merge |
| OwnedBuilder.NodeBuilder.Str | src/lib.rs:601-604 | appends a String to the values; name, properties and children unchanged |
| OwnedBuilder.NodeBuilder.Int | src/lib.rs:610-613 | appends an Int to the values; name, properties and children unchanged |
| OwnedBuilder.NodeBuilder.I | src/lib.rs:614-617 | appends an Int to the values; name, properties and children unchanged |
| OwnedBuilder.NodeBuilder.Flt | src/lib.rs:619-622 | appends a Float to the values; name, properties and children unchanged |
| OwnedBuilder.NodeBuilder.F | src/lib.rs:623-626 | appends a Float to the values; name, properties and children unchanged |
| OwnedBuilder.NodeBuilder.Bool | src/lib.rs:628-631 | appends a Boolean to the values; name, properties and children unchanged |
| OwnedBuilder.NodeBuilder.B | src/lib.rs:632-635 | appends a Boolean to the values; name, properties and children unchanged |
| OwnedBuilder.NodeBuilder.Y | src/lib.rs:636-639 | appends Boolean true to the values; name, properties and children unchanged |
| OwnedBuilder.NodeBuilder.N | src/lib.rs:640-643 | appends Boolean false to the values; name, properties and children unchanged |
| OwnedBuilder.NodeBuilder.Null | src/lib.rs:645-648 | appends Null to the values; name, properties and children unchanged |
| OwnedBuilder.NodeBuilder.Nul | src/lib.rs:649-652 | appends Null to the values; name, properties and children unchanged |
| OwnedBuilder.NodeBuilder.Nil | src/lib.rs:653-656 | appends Null to the values; name, properties and children unchanged |
| OwnedBuilder.BuildKeepsContents | src/lib.rs:428-435 | the built node has the builder's name, values and properties, as many children as the builder, and child j is child builder j built |
| OwnedBuilder.NodeResetsIdempotent | src/lib.rs:455-462 | each reset is idempotent and the two resets commute (each touches only its own field) |
| OwnedBuilder.ValueIsPositionalOnlyAtEnd | src/lib.rs:515-519 | `value(i, x)` equals replacing index i only when i is the last index; elsewhere, unless the next value already is x, it differs |
| OwnedBuilder.HyggeScenario | src/lib.rs:419-435 | a node "hygge" given null, null, true, false and property asd builds into exactly those values and that one property, with no children |
| MutBuilder.NodeState.Reset | src/main.rs:263-268 | what `reset` does to a subtree: the name stays, values and properties are emptied, the child count stays and child j becomes child j reset (the recursion `reset_children` performs, src/main.rs:312-318) |
| MutBuilder.NodeState.Build | src/main.rs:255-262 | what `build` produces: the name, values and properties as held, as many children, and child j is child j built |
| MutBuilder.NodeState.ResetValues | src/main.rs:284-287 | a child's `reset_values` empties its values and leaves its name, properties and children as they were |
| MutBuilder.NodeState.ResetProperties | src/main.rs:288-291 | a child's `reset_properties` empties its properties and leaves its name, values and children as they were |
| MutBuilder.ResetClearsSubtree | src/main.rs:263-268 | `reset` leaves no value and no property anywhere in the subtree and keeps every name and every child in place |
| MutBuilder.ResetFixesExactlyCleared | src/main.rs:263-268 | `reset` changes a subtree if and only if some node of it holds a value or a property |
| MutBuilder.ResetIdempotent | src/main.rs:263-268 | resetting twice equals resetting once |
| MutBuilder.BuildKeepsContents | src/main.rs:255-262 | the built node has the name, values and properties, as many children, and child j is child j built |
| MutBuilder.BuildIsInjective | src/main.rs:255-262 | `build` loses nothing: two builders that build the same node are equal |
| MutBuilder.ValuesBuilder.constructor | src/main.rs:57-62 | a new value builder holds no values |
| MutBuilder.ValuesBuilder.Build | src/main.rs:63-65 | hands out exactly the values held |
| MutBuilder.ValuesBuilder.Reset | src/main.rs:66-69 | the values are empty afterwards |
| MutBuilder.ValuesBuilder.Add | src/main.rs:71-73 | the values are the old ones followed by the new one |
| MutBuilder.ValuesBuilder.Rem | src/main.rs:74-76 | needs an index in range; the values are the old ones without that element |
| MutBuilder.ValuesBuilder.Set | src/main.rs:77-80 | the values are exactly the given list |
| MutBuilder.ValuesBuilder.Join | src/main.rs:82-85 | the values are the old ones followed by the given list, in order |
| MutBuilder.ValuesBuilder.Extend | src/main.rs:86-89 | the values are the old ones followed by the other builder's |
| MutBuilder.ValuesBuilder.Str | src/main.rs:91-94 | appends a String to the old values |
| MutBuilder.ValuesBuilder.S | src/main.rs:95-98 | appends a String to the old values |
| MutBuilder.ValuesBuilder.Int | src/main.rs:100-103 | appends an Int to the old values |
| MutBuilder.ValuesBuilder.I | src/main.rs:104-107 | appends an Int to the old values |
| MutBuilder.ValuesBuilder.Flt | src/main.rs:109-112 | appends a Float to the old values |
| MutBuilder.ValuesBuilder.F | src/main.rs:113-116 | appends a Float to the old values |
| MutBuilder.ValuesBuilder.Nul | src/main.rs:118-121 | appends Null to the old values |
| MutBuilder.ValuesBuilder.Nil | src/main.rs:122-125 | appends Null to the old values |
| MutBuilder.ValuesBuilder.Bool | src/main.rs:127-130 | appends a Boolean to the old values |
| MutBuilder.ValuesBuilder.B | src/main.rs:131-134 | appends a Boolean to the old values |
| MutBuilder.ValuesBuilder.Y | src/main.rs:135-138 | appends Boolean true to the old values |
| MutBuilder.ValuesBuilder.N | src/main.rs:139-142 | appends Boolean false to the old values |
| MutBuilder.PropertiesBuilder.constructor | src/main.rs:151-156 | a new property builder holds no properties |
| MutBuilder.PropertiesBuilder.Build | src/main.rs:157-159 | hands out exactly the map held |
| MutBuilder.PropertiesBuilder.Reset | src/main.rs:160-163 | the map is empty afterwards |
| MutBuilder.PropertiesBuilder.Add | src/main.rs:165-167 | the key maps to the new value, overwriting; other keys unchanged |
| MutBuilder.PropertiesBuilder.Rem | src/main.rs:168-170 | the map loses the key and nothing else; an absent key is a no-op |
| MutBuilder.PropertiesBuilder.Set | src/main.rs:171-174 | the map is exactly the given one |
| MutBuilder.PropertiesBuilder.Join | src/main.rs:176-179 | the old map merged with the given one, the given entries winning |
| MutBuilder.PropertiesBuilder.Extend | src/main.rs:180-183 | the old map merged with the other builder's, the other's entries winning |
| MutBuilder.PropertiesBuilder.Str | src/main.rs:185-188 | the key maps to a String, other keys unchanged |
| MutBuilder.PropertiesBuilder.S | src/main.rs:189-192 | the key maps to a String, other keys unchanged |
| MutBuilder.PropertiesBuilder.Int | src/main.rs:194-197 | the key maps to an Int, other keys unchanged |
| MutBuilder.PropertiesBuilder.I | src/main.rs:198-201 | the key maps to an Int, other keys unchanged |
| MutBuilder.PropertiesBuilder.Flt | src/main.rs:203-206 | the key maps to a Float, other keys unchanged |
| MutBuilder.PropertiesBuilder.F | src/main.rs:207-210 | the key maps to a Float, other keys unchanged |
| MutBuilder.PropertiesBuilder.Bool | src/main.rs:212-215 | the key maps to a Boolean, other keys unchanged |
| MutBuilder.PropertiesBuilder.B | src/main.rs:216-219 | the key maps to a Boolean, other keys unchanged |
| MutBuilder.PropertiesBuilder.Y | src/main.rs:220-223 | the key maps to Boolean true, other keys unchanged |
| MutBuilder.PropertiesBuilder.N | src/main.rs:224-227 | the key maps to Boolean false, other keys unchanged |
| MutBuilder.PropertiesBuilder.Nul | src/main.rs:229-232 | the key maps to Null, other keys unchanged |
| MutBuilder.PropertiesBuilder.Nil | src/main.rs:233-236 | the key maps to Null, other keys unchanged |
| MutBuilder.NodeBuilder.constructor | src/main.rs:247-254 | the given name, no values, no properties, no children, and value and property builders of its own |
| MutBuilder.NodeBuilder.Build | src/main.rs:255-262 | the node produced is the builder's state built (see BuildKeepsContents) |
| MutBuilder.NodeBuilder.Reset | src/main.rs:263-268 | the new state is the old state reset: own values and properties cleared and every descendant reset (see ResetClearsSubtree) |
| MutBuilder.NodeBuilder.Extend | src/main.rs:269-274 | values become own + other's, properties own overridden by other's, children own + other's; the name is unchanged |
| MutBuilder.NodeBuilder.ExtendChildren | src/main.rs:275-278 | only the children change, to own + other's |
| MutBuilder.NodeBuilder.Name | src/main.rs:280-283 | only the name changes |
| MutBuilder.NodeBuilder.ResetValues | src/main.rs:284-287 | only the own values change, to empty |
| MutBuilder.NodeBuilder.ResetProperties | src/main.rs:288-291 | only the own properties change, to empty |
| MutBuilder.NodeBuilder.ResetChildValues | src/main.rs:293-299 | every direct child loses its values and nothing else; the node's own fields and the grandchildren are untouched |
| MutBuilder.NodeBuilder.ResetChildProperties | src/main.rs:300-306 | every direct child loses its properties and nothing else; the node's own fields and the grandchildren are untouched |
| MutBuilder.NodeBuilder.ResetChild | src/main.rs:308-311 | needs an index in range; only child i changes, to itself reset |
| MutBuilder.NodeBuilder.ResetChildren | src/main.rs:312-318 | every child becomes itself reset; the count and the node's own fields are unchanged |
| MutBuilder.NodeBuilder.Add | src/main.rs:320-323 | only the values change: one appended |
| MutBuilder.NodeBuilder.Val | src/main.rs:324-327 | same effect as `add` |
| MutBuilder.NodeBuilder.Rem | src/main.rs:328-331 | needs an index in range; only the values change: that element removed |
| MutBuilder.NodeBuilder.Join | src/main.rs:332-335 | only the values change: the list appended in order |
| MutBuilder.NodeBuilder.Vals | src/main.rs:336-341 | appending one at a time has the same effect as `join` |
| MutBuilder.NodeBuilder.Value | src/main.rs:342-346 | needs an index in range; the element at i is removed and the new value appended at the end, not put back at i |
| MutBuilder.NodeBuilder.Set | src/main.rs:347-350 | only the values change: replaced by the list |
| MutBuilder.NodeBuilder.Values | src/main.rs:351-354 | same effect as `set` |
| MutBuilder.NodeBuilder.Put | src/main.rs:356-359 | only the properties change: the key inserted with overwrite |
| MutBuilder.NodeBuilder.Prop | src/main.rs:360-363 | same effect as `put` |
| MutBuilder.NodeBuilder.Props | src/main.rs:364-369 | only the properties change: merged with the given map, its values winning |
| MutBuilder.NodeBuilder.Property | src/main.rs:370-374 | remove-then-insert has the same effect as `prop` |
| MutBuilder.NodeBuilder.Properties | src/main.rs:375-378 | only the properties change: replaced wholesale by the given map |
| MutBuilder.NodeBuilder.Child | src/main.rs:380-383 | only the children change: the given builder appended last |
| MutBuilder.NodeBuilder.Children | src/main.rs:384-387 | only the children change: the given ones appended in order |
| MutBuilder.NodeBuilder.SetChild | src/main.rs:388-392 | needs an index in range; remove-then-insert puts the child at i with the length and every other child unchanged |
| MutBuilder.NodeBuilder.SetChildren | src/main.rs:393-396 | only the children change: replaced by the given list |
| MutBuilder.NodeBuilder.RemoveChild | src/main.rs:397-400 | needs an index in range; only that child is removed, later ones move down |
| MutBuilder.NodeBuilder.RemoveChildren | src/main.rs:401-404 | only the children change: to none |
| MutBuilder.NodeBuilder.Str | src/main.rs:405-408 | only the values change: a String appended |
| MutBuilder.NodeBuilder.S | src/main.rs:409-412 | only the values change: a String appended |
| MutBuilder.NodeBuilder.Int | src/main.rs:414-417 | only the values change: an Int appended |
| MutBuilder.NodeBuilder.I | src/main.rs:418-421 | only the values change: an Int appended |
| MutBuilder.NodeBuilder.Flt | src/main.rs:423-426 | only the values change: a Float appended |
| MutBuilder.NodeBuilder.F | src/main.rs:427-430 | only the values change: a Float appended |
| MutBuilder.NodeBuilder.Bool | src/main.rs:432-435 | only the values change: a Boolean appended |
| MutBuilder.NodeBuilder.B | src/main.rs:436-439 | only the values change: a Boolean appended |
| MutBuilder.NodeBuilder.Y | src/main.rs:440-443 | only the values change: Boolean true appended |
| MutBuilder.NodeBuilder.N | src/main.rs:444-447 | only the values change: Boolean false appended |
| MutBuilder.NodeBuilder.Null | src/main.rs:449-452 | only the values change: Null appended |
| MutBuilder.NodeBuilder.Nul | src/main.rs:453-456 | only the values change: Null appended |
| MutBuilder.NodeBuilder.Nil | src/main.rs:457-460 | only the values change: Null appended |
| MutBuilder.DemoTreeBuilds | src/main.rs:463-476 | the demonstration tree builds into values [Null, Null, true, false, "hello"], no properties, and children "child" (true, uuid="123") and an empty "child2" |
| MutBuilder.DemoChild | src/main.rs:466-469 | the builder "child" given true and uuid="123" holds exactly those |
| MutBuilder.DemoChain | src/main.rs:463-476 | the demonstration chain builds into values [Null, Null, true, false, "hello"] and two children, "child" and an empty "child2" |

## Left out

- `main()` and its `println!` of the built node (src/main.rs:463-478): console I/O, and the text comes from the `kdl` crate's `Display`. The demonstration chain it builds is modelled (`MutBuilder.DemoChain`), but the printing is not.
- The `kdl` crate itself, i.e. the definitions of `KdlValue`/`KdlNode`, parsing and serialisation: the crate is not part of this model; only the shapes of its two types are.
- `f64` semantics: a `Float` carries the 64 bits of the number as `bv64` and nothing computes with them. Equality of models is structural, so NaN payloads compare equal here, whereas IEEE comparison would make them unequal.
- The helper traits of src/lib.rs:59-81, `KdlValueBuilder::new` and `KdlValueBuilder::clone` (src/lib.rs:84-89): they only forward to constructors or return the stateless builder.
- All commented-out code, e.g. the child-editing and `extend` stubs in src/lib.rs. No live method of src/lib.rs adds children, so `OwnedBuilder.Children` is only ever empty or built.
- The derived `Clone`, `Debug`, `PartialEq` and `Hash` implementations.
- The `KdlValuesProxy` and `KdlPropertiesProxy` newtype wrappers (src/lib.rs:14, 23, 272-276) are flattened: their list is the `vals` field and their map the `props` field itself. The stateless `v: KdlValueBuilder` fields of the builders are dropped, because they carry no data.
- The `&mut Self` return values used for chaining in src/main.rs: the methods return nothing and callers chain by calling again on the same object.
- Panics on an out-of-range index (`Vec::remove`, `Vec::insert`, indexing) are preconditions (`requires i < |…|`), not runtime events. Allocation failure is not modelled.
- The order in which `HashMap` yields entries: each loop over a map takes its keys in an arbitrary order, which covers every order the real map could produce.
- `MutBuilder.NodeBuilder.Child`, `Children`, `SetChild`, `SetChildren`, `Extend` and `ExtendChildren`: the children passed in are moved into the parent in Rust, so a child is recorded as the value of its state (`NodeState`) at the moment of the call. The model therefore does not capture sharing between a child builder object and its parent, which Rust's ownership rules exclude anyway.
