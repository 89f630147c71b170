/**
 The builder of `src/lib.rs`, which passes every builder by value: each method
 takes `mut self`, changes its own `Vec` or `HashMap` and hands `self` back.
 Because ownership moves through every call, each builder is a datatype and
 each chaining method a function from the old builder to the new one. The
 source's loops (the map copies of `set` and `build`, the pairing loops of
 `properties`, the drain of the children) are methods proved against the
 function or the exact result they compute.
 */
module OwnedBuilder {
  import opened Kdl
  import ValueBuilder
  import opened Maps

  /**
   `KdlValuesBuilder`: the ordered positional values of one node. The
   `KdlValuesProxy` wrapper is flattened into `vals`; the stateless
   `KdlValueBuilder` field carries no state and is left out.
   */
  datatype ValuesBuilder = ValuesBuilder(vals: seq<Value>) {

    static function New(): (r: ValuesBuilder)
      ensures r.vals == []
    {
      ValuesBuilder([])
    }

    /** A copy of the values, element by element and in order. */
    function Build(): (r: seq<Value>)
      ensures |r| == |vals|
      ensures forall j :: 0 <= j < |vals| ==> r[j] == vals[j]
    {
      vals
    }

    function Reset(): (r: ValuesBuilder)
      ensures r.vals == []
    {
      ValuesBuilder([])
    }

    /** Appends `x`: every old value keeps its index and `x` comes last. */
    function Add(x: Value): (r: ValuesBuilder)
      ensures |r.vals| == |vals| + 1 && r.vals[|vals|] == x
      ensures forall j :: 0 <= j < |vals| ==> r.vals[j] == vals[j]
    {
      ValuesBuilder(vals + [x])
    }

    /**
     `Vec::remove`: the element at `i` goes, the ones before it stay, the ones
     after it move down by one. An index past the end panics in the source.
     */
    function Rem(i: nat): (r: ValuesBuilder)
      requires i < |vals|
      ensures |r.vals| == |vals| - 1
      ensures forall j :: 0 <= j < i ==> r.vals[j] == vals[j]
      ensures forall j :: i <= j < |r.vals| ==> r.vals[j] == vals[j + 1]
      ensures multiset(r.vals) + multiset{vals[i]} == multiset(vals)
    {
      assert vals == vals[..i] + [vals[i]] + vals[i + 1..];
      ValuesBuilder(vals[..i] + vals[i + 1..])
    }

    function Clear(): (r: ValuesBuilder)
      ensures r.vals == []
    {
      ValuesBuilder([])
    }

    function Str(text: string): (r: ValuesBuilder)
      ensures r.vals == vals + [Value.String(text)]
    {
      Add(ValueBuilder.Str(text))
    }

    function Int(n: I64): (r: ValuesBuilder)
      ensures r.vals == vals + [Value.Int(n)]
    {
      Add(ValueBuilder.Int(n))
    }

    function I(n: I64): (r: ValuesBuilder)
      ensures r.vals == vals + [Value.Int(n)]
    {
      Add(ValueBuilder.I(n))
    }

    function Flt(bits: F64): (r: ValuesBuilder)
      ensures r.vals == vals + [Value.Float(bits)]
    {
      Add(ValueBuilder.Flt(bits))
    }

    function F(bits: F64): (r: ValuesBuilder)
      ensures r.vals == vals + [Value.Float(bits)]
    {
      Add(ValueBuilder.F(bits))
    }

    function Nul(): (r: ValuesBuilder)
      ensures r.vals == vals + [Value.Null]
    {
      Add(ValueBuilder.Nul())
    }

    function Nil(): (r: ValuesBuilder)
      ensures r.vals == vals + [Value.Null]
    {
      Add(ValueBuilder.Nil())
    }

    function Bool(b: bool): (r: ValuesBuilder)
      ensures r.vals == vals + [Value.Boolean(b)]
    {
      Add(ValueBuilder.Bool(b))
    }

    function B(b: bool): (r: ValuesBuilder)
      ensures r.vals == vals + [Value.Boolean(b)]
    {
      Add(ValueBuilder.B(b))
    }

    function Y(): (r: ValuesBuilder)
      ensures r.vals == vals + [Value.Boolean(true)]
    {
      Add(ValueBuilder.Y())
    }

    function N(): (r: ValuesBuilder)
      ensures r.vals == vals + [Value.Boolean(false)]
    {
      Add(ValueBuilder.N())
    }
  }

  /** Removing the value just appended gives back the builder it was appended to. */
  lemma AddThenRemIsIdentity(b: ValuesBuilder, x: Value)
    ensures b.Add(x).Rem(|b.vals|) == b
  {
    assert b.Add(x).Rem(|b.vals|).vals == b.vals;
  }

  /** `reset` and `clear` are the same operation, and applying it twice is applying it once. */
  lemma ResetIdempotent(b: ValuesBuilder)
    ensures b.Reset().Reset() == b.Reset() == b.Clear()
  {
  }

  /**
   Inserts every entry of `m`, one at a time and in the map's iteration
   order, into an empty map: the loop of `set` and of `build`.
   */
  method CopyEntries(m: map<string, Value>) returns (out: map<string, Value>)
    ensures out == m
  {
    out := map[];
    var rest := m.Keys;
    while rest != {}
      invariant rest <= m.Keys
      invariant out.Keys == m.Keys - rest
      invariant forall k :: k in out ==> out[k] == m[k]
      decreases rest
    {
      var k :| k in rest;
      out := out[k := m[k]];
      rest := rest - {k};
    }
  }

  /**
   `KdlPropertiesBuilder`: the key to value properties of one node. The
   `KdlPropertiesProxy` wrapper is flattened into `props`.
   */
  datatype PropertiesBuilder = PropertiesBuilder(props: map<string, Value>) {

    static function New(): (r: PropertiesBuilder)
      ensures r.props == map[]
    {
      PropertiesBuilder(map[])
    }

    /** `impl Default`: the same empty builder as `new`. */
    static function Default(): (r: PropertiesBuilder)
      ensures r == New()
    {
      PropertiesBuilder(map[])
    }

    /** A copy of the properties, built entry by entry. */
    method Build() returns (out: map<string, Value>)
      ensures out == props
    {
      out := CopyEntries(props);
    }

    function Reset(): (r: PropertiesBuilder)
      ensures r.props == map[]
    {
      PropertiesBuilder(map[])
    }

    /** `HashMap::insert`: `key` now maps to `x`, whatever it held before; no other key changes. */
    function Add(key: string, x: Value): (r: PropertiesBuilder)
      ensures key in r.props && r.props[key] == x
      ensures forall k :: k != key ==> (k in r.props <==> k in props)
      ensures forall k :: k != key && k in props ==> r.props[k] == props[k]
    {
      PropertiesBuilder(props[key := x])
    }

    /** `HashMap::remove`: `key` is gone, no other key changes, and an absent key is a no-op. */
    function Rem(key: string): (r: PropertiesBuilder)
      ensures key !in r.props
      ensures forall k :: k != key ==> (k in r.props <==> k in props)
      ensures forall k :: k != key && k in props ==> r.props[k] == props[k]
      ensures key !in props ==> r == this
    {
      PropertiesBuilder(props - {key})
    }

    /** Copies `incoming` entry by entry, clears the map and extends it with the copy. */
    method Set(incoming: map<string, Value>) returns (r: PropertiesBuilder)
      ensures r.props == incoming
    {
      var copy := CopyEntries(incoming);
      r := PropertiesBuilder(map[] + copy);
    }

    function Str(key: string, text: string): (r: PropertiesBuilder)
      ensures r.props == props[key := Value.String(text)]
    {
      Add(key, ValueBuilder.Str(text))
    }

    function S(key: string, text: string): (r: PropertiesBuilder)
      ensures r.props == props[key := Value.String(text)]
    {
      Add(key, ValueBuilder.S(text))
    }

    function Int(key: string, n: I64): (r: PropertiesBuilder)
      ensures r.props == props[key := Value.Int(n)]
    {
      Add(key, ValueBuilder.Int(n))
    }

    function I(key: string, n: I64): (r: PropertiesBuilder)
      ensures r.props == props[key := Value.Int(n)]
    {
      Add(key, ValueBuilder.I(n))
    }

    function Flt(key: string, bits: F64): (r: PropertiesBuilder)
      ensures r.props == props[key := Value.Float(bits)]
    {
      Add(key, ValueBuilder.Flt(bits))
    }

    function F(key: string, bits: F64): (r: PropertiesBuilder)
      ensures r.props == props[key := Value.Float(bits)]
    {
      Add(key, ValueBuilder.F(bits))
    }

    function Bool(key: string, b: bool): (r: PropertiesBuilder)
      ensures r.props == props[key := Value.Boolean(b)]
    {
      Add(key, ValueBuilder.Bool(b))
    }

    function B(key: string, b: bool): (r: PropertiesBuilder)
      ensures r.props == props[key := Value.Boolean(b)]
    {
      Add(key, ValueBuilder.B(b))
    }

    function Y(key: string): (r: PropertiesBuilder)
      ensures r.props == props[key := Value.Boolean(true)]
    {
      Add(key, ValueBuilder.Y())
    }

    function N(key: string): (r: PropertiesBuilder)
      ensures r.props == props[key := Value.Boolean(false)]
    {
      Add(key, ValueBuilder.N())
    }

    function Nul(key: string): (r: PropertiesBuilder)
      ensures r.props == props[key := Value.Null]
    {
      Add(key, ValueBuilder.Nul())
    }

    function Nil(key: string): (r: PropertiesBuilder)
      ensures r.props == props[key := Value.Null]
    {
      Add(key, ValueBuilder.Nil())
    }
  }

  /** Last write wins: of two inserts under one key only the second is visible. */
  lemma AddOverwrites(b: PropertiesBuilder, key: string, x: Value, y: Value)
    ensures b.Add(key, x).Add(key, y) == b.Add(key, y)
  {
    assert b.Add(key, x).Add(key, y).props == b.Add(key, y).props;
  }

  /** Removing a key undoes inserting it, whether or not the key was there before. */
  lemma RemUndoesAdd(b: PropertiesBuilder, key: string, x: Value)
    ensures b.Add(key, x).Rem(key) == b.Rem(key)
  {
    assert b.Add(key, x).Rem(key).props == b.Rem(key).props;
  }

  /** Removing a key and inserting it again is a plain insert. */
  lemma RemThenAdd(b: PropertiesBuilder, key: string, x: Value)
    ensures b.Rem(key).Add(key, x).props == b.props[key := x]
  {
  }

  /**
   The first loop of `properties`: walks the map in its iteration order and
   collects the keys into one list and the values into another.
   */
  method CollectEntries(m: map<string, Value>) returns (keys: seq<string>, vals: seq<Value>)
    ensures |keys| == |vals| == |m|
    ensures forall j :: 0 <= j < |keys| ==> keys[j] in m && vals[j] == m[keys[j]]
    ensures forall k :: k in m ==> k in keys
  {
    keys, vals := [], [];
    var rest := m.Keys;
    while rest != {}
      invariant rest <= m.Keys
      invariant |keys| == |vals|
      invariant forall j :: 0 <= j < |keys| ==> keys[j] in m && vals[j] == m[keys[j]]
      invariant forall k :: k in m && k !in rest ==> k in keys
      invariant |keys| + |rest| == |m.Keys|
      invariant forall j :: 0 <= j < |keys| ==> keys[j] !in rest
      decreases rest
    {
      var k :| k in rest;
      keys := keys + [k];
      vals := vals + [m[k]];
      rest := rest - {k};
    }
  }

  /** The second loop of `properties`: pairs the i-th key with the i-th value. */
  method Zip(keys: seq<string>, vals: seq<Value>) returns (pairs: seq<(string, Value)>)
    requires |keys| == |vals|
    ensures |pairs| == |keys|
    ensures forall j :: 0 <= j < |pairs| ==> pairs[j] == (keys[j], vals[j])
  {
    pairs := [];
    var i := 0;
    while i < |keys|
      invariant 0 <= i <= |keys|
      invariant |pairs| == i
      invariant forall j :: 0 <= j < i ==> pairs[j] == (keys[j], vals[j])
    {
      pairs := pairs + [(keys[i], vals[i])];
      i := i + 1;
    }
  }

  /** `KdlChildren`: the ordered child builders of a node. */
  datatype Children = Children(nodes: seq<NodeBuilder>) {

    static function New(): (r: Children)
      ensures r.nodes == []
    {
      Children([])
    }

    /** The nodes `build` produces: one per child, in the children's order. */
    function Output(): (r: seq<Node>)
      ensures |r| == |nodes|
      ensures forall j :: 0 <= j < |nodes| ==> r[j] == nodes[j].Output()
      decreases this, 0
    {
      seq(|nodes|, j requires 0 <= j < |nodes| => nodes[j].Output())
    }

    /** Drains the children front to back, building each one. */
    method Build() returns (out: seq<Node>)
      ensures out == Output()
      decreases this, 0
    {
      out := [];
      var j := 0;
      while j < |nodes|
        invariant 0 <= j <= |nodes|
        invariant out == Output()[..j]
      {
        var node := nodes[j].Build();
        out := out + [node];
        j := j + 1;
      }
    }
  }

  /**
   `KdlNodeBuilder`: a name, the value and property builders, and the
   children. No live method of this builder adds a child; the children only
   matter to `build`.
   */
  datatype NodeBuilder = NodeBuilder(n: string, v: ValuesBuilder, p: PropertiesBuilder, c: Children) {

    static function New(name: string): (r: NodeBuilder)
      ensures r.n == name && r.v.vals == [] && r.p.props == map[] && r.c.nodes == []
    {
      NodeBuilder(name, ValuesBuilder.New(), PropertiesBuilder.New(), Children.New())
    }

    /** The `KdlNode` that `build` produces from this builder. */
    function Output(): (r: Node)
      ensures r.name == n && r.values == v.vals && r.properties == p.props
      ensures |r.children| == |c.nodes|
      decreases this, 1
    {
      Node(n, v.vals, p.props, c.Output())
    }

    /** Consumes the builder: name, values and properties are copied, the children built in order. */
    method Build() returns (node: Node)
      ensures node == Output()
      decreases this, 1
    {
      var values := v.Build();
      var properties := p.Build();
      var children := c.Build();
      node := Node(n, values, properties, children);
    }

    /** Everything but the values is as in `old_`. */
    predicate OnlyValuesChangedFrom(old_: NodeBuilder)
    {
      n == old_.n && p == old_.p && c == old_.c
    }

    /** Everything but the properties is as in `old_`. */
    predicate OnlyPropertiesChangedFrom(old_: NodeBuilder)
    {
      n == old_.n && v == old_.v && c == old_.c
    }

    function Name(name: string): (r: NodeBuilder)
      ensures r.n == name && r.v == v && r.p == p && r.c == c
    {
      NodeBuilder(name, v, p, c)
    }

    function ResetValues(): (r: NodeBuilder)
      ensures r.v.vals == [] && r.OnlyValuesChangedFrom(this)
    {
      NodeBuilder(n, v.Reset(), p, c)
    }

    function ResetProperties(): (r: NodeBuilder)
      ensures r.p.props == map[] && r.OnlyPropertiesChangedFrom(this)
    {
      NodeBuilder(n, v, p.Reset(), c)
    }

    function Add(x: Kdl.Value): (r: NodeBuilder)
      ensures r.v.vals == v.vals + [x] && r.OnlyValuesChangedFrom(this)
    {
      NodeBuilder(n, v.Add(x), p, c)
    }

    function Val(x: Kdl.Value): (r: NodeBuilder)
      ensures r.v.vals == v.vals + [x] && r.OnlyValuesChangedFrom(this)
    {
      NodeBuilder(n, v.Add(x), p, c)
    }

    /** Forwards to the value builder's `rem`; panics in the source when `i` is out of range. */
    function Rem(i: nat): (r: NodeBuilder)
      requires i < |v.vals|
      ensures r.v == v.Rem(i) && r.OnlyValuesChangedFrom(this)
    {
      NodeBuilder(n, v.Rem(i), p, c)
    }

    /**
     Removes the value at `i` and appends `x`: the length is unchanged, `x`
     is last, and the values after `i` move down by one. `x` does not take
     the place of the removed value.
     */
    function Value(i: nat, x: Kdl.Value): (r: NodeBuilder)
      requires i < |v.vals|
      ensures |r.v.vals| == |v.vals| && r.v.vals[|v.vals| - 1] == x
      ensures forall j :: 0 <= j < i ==> r.v.vals[j] == v.vals[j]
      ensures forall j :: i <= j < |v.vals| - 1 ==> r.v.vals[j] == v.vals[j + 1]
      ensures r.OnlyValuesChangedFrom(this)
    {
      NodeBuilder(n, v.Rem(i).Add(x), p, c)
    }

    function Put(key: string, x: Kdl.Value): (r: NodeBuilder)
      ensures r.p == p.Add(key, x) && r.OnlyPropertiesChangedFrom(this)
    {
      NodeBuilder(n, v, p.Add(key, x), c)
    }

    function Prop(key: string, x: Kdl.Value): (r: NodeBuilder)
      ensures r.p == p.Add(key, x) && r.OnlyPropertiesChangedFrom(this)
    {
      NodeBuilder(n, v, p.Add(key, x), c)
    }

    /** Removes `key` and then inserts it: the same effect as `put`. */
    function Property(key: string, x: Kdl.Value): (r: NodeBuilder)
      ensures r == Put(key, x)
    {
      assert p.Rem(key).Add(key, x).props == p.Add(key, x).props;
      NodeBuilder(n, v, p.Rem(key).Add(key, x), c)
    }

    /**
     Merges `incoming` into the properties: the entries are collected into a
     key list and a value list in the map's iteration order, zipped into
     pairs, and each pair is applied as a remove followed by an insert.
     Incoming values win; keys absent from `incoming` keep their values.
     */
    method Properties(incoming: map<string, Kdl.Value>) returns (r: NodeBuilder)
      ensures r.p.props == p.props + incoming && r.OnlyPropertiesChangedFrom(this)
    {
      var keys, vals := CollectEntries(incoming);
      var pairs := Zip(keys, vals);
      r := this;
      ghost var applied: set<string> := {};
      var i := 0;
      while i < |pairs|
        invariant 0 <= i <= |pairs|
        invariant applied <= incoming.Keys
        invariant forall j :: 0 <= j < i ==> pairs[j].0 in applied
        invariant r.p.props == p.props + Restrict(incoming, applied)
        invariant r.OnlyPropertiesChangedFrom(this)
      {
        var (key, x) := pairs[i];
        assert key in incoming && x == incoming[key] by { assert pairs[i] == (keys[i], vals[i]); }
        MergeOneMore(p.props, incoming, applied, key);
        RemThenAdd(r.p, key, x);
        r := NodeBuilder(r.n, r.v, r.p.Rem(key).Add(key, x), r.c);
        applied := applied + {key};
        i := i + 1;
      }
      assert applied == incoming.Keys by {
        forall k | k in incoming ensures k in applied {
          var j :| 0 <= j < |keys| && keys[j] == k;
          assert pairs[j].0 == k;
        }
      }
      RestrictAll(incoming);
    }

    /** Forwards to `properties`: a merge. */
    method Props(incoming: map<string, Kdl.Value>) returns (r: NodeBuilder)
      ensures r.p.props == p.props + incoming && r.OnlyPropertiesChangedFrom(this)
    {
      r := Properties(incoming);
    }

    function Str(text: string): (r: NodeBuilder)
      ensures r.v.vals == v.vals + [Kdl.Value.String(text)] && r.OnlyValuesChangedFrom(this)
    {
      NodeBuilder(n, v.Str(text), p, c)
    }

    function Int(x: I64): (r: NodeBuilder)
      ensures r.v.vals == v.vals + [Kdl.Value.Int(x)] && r.OnlyValuesChangedFrom(this)
    {
      NodeBuilder(n, v.Int(x), p, c)
    }

    function I(x: I64): (r: NodeBuilder)
      ensures r.v.vals == v.vals + [Kdl.Value.Int(x)] && r.OnlyValuesChangedFrom(this)
    {
      NodeBuilder(n, v.I(x), p, c)
    }

    function Flt(bits: F64): (r: NodeBuilder)
      ensures r.v.vals == v.vals + [Kdl.Value.Float(bits)] && r.OnlyValuesChangedFrom(this)
    {
      NodeBuilder(n, v.Flt(bits), p, c)
    }

    function F(bits: F64): (r: NodeBuilder)
      ensures r.v.vals == v.vals + [Kdl.Value.Float(bits)] && r.OnlyValuesChangedFrom(this)
    {
      NodeBuilder(n, v.F(bits), p, c)
    }

    function Bool(b: bool): (r: NodeBuilder)
      ensures r.v.vals == v.vals + [Kdl.Value.Boolean(b)] && r.OnlyValuesChangedFrom(this)
    {
      NodeBuilder(n, v.Bool(b), p, c)
    }

    function B(b: bool): (r: NodeBuilder)
      ensures r.v.vals == v.vals + [Kdl.Value.Boolean(b)] && r.OnlyValuesChangedFrom(this)
    {
      NodeBuilder(n, v.B(b), p, c)
    }

    function Y(): (r: NodeBuilder)
      ensures r.v.vals == v.vals + [Kdl.Value.Boolean(true)] && r.OnlyValuesChangedFrom(this)
    {
      NodeBuilder(n, v.Y(), p, c)
    }

    function N(): (r: NodeBuilder)
      ensures r.v.vals == v.vals + [Kdl.Value.Boolean(false)] && r.OnlyValuesChangedFrom(this)
    {
      NodeBuilder(n, v.N(), p, c)
    }

    function Null(): (r: NodeBuilder)
      ensures r.v.vals == v.vals + [Kdl.Value.Null] && r.OnlyValuesChangedFrom(this)
    {
      NodeBuilder(n, v.Nul(), p, c)
    }

    function Nul(): (r: NodeBuilder)
      ensures r.v.vals == v.vals + [Kdl.Value.Null] && r.OnlyValuesChangedFrom(this)
    {
      NodeBuilder(n, v.Nul(), p, c)
    }

    function Nil(): (r: NodeBuilder)
      ensures r.v.vals == v.vals + [Kdl.Value.Null] && r.OnlyValuesChangedFrom(this)
    {
      NodeBuilder(n, v.Nil(), p, c)
    }
  }

  /**
   `build` keeps the name, the values and the properties exactly, and turns
   the i-th child builder into the i-th child node.
   */
  lemma BuildKeepsContents(b: NodeBuilder)
    ensures b.Output().name == b.n
    ensures b.Output().values == b.v.vals
    ensures b.Output().properties == b.p.props
    ensures |b.Output().children| == |b.c.nodes|
    ensures forall j :: 0 <= j < |b.c.nodes| ==> b.Output().children[j] == b.c.nodes[j].Output()
  {
  }

  /** Each reset clears its own field only, and resetting twice is resetting once. */
  lemma NodeResetsIdempotent(b: NodeBuilder)
    ensures b.ResetValues().ResetValues() == b.ResetValues()
    ensures b.ResetProperties().ResetProperties() == b.ResetProperties()
    ensures b.ResetValues().ResetProperties() == b.ResetProperties().ResetValues()
  {
  }

  /**
   `value(i, x)` acts as a replacement at index `i` exactly when `i` is the
   last index; elsewhere, unless the next value already equals `x`, it does not.
   */
  lemma {:induction false} ValueIsPositionalOnlyAtEnd(b: NodeBuilder, i: nat, x: Value)
    requires i < |b.v.vals|
    ensures i == |b.v.vals| - 1 ==> b.Value(i, x).v.vals == b.v.vals[i := x]
    ensures i < |b.v.vals| - 1 && b.v.vals[i + 1] != x ==> b.Value(i, x).v.vals != b.v.vals[i := x]
  {
    var r := b.Value(i, x).v.vals;
    if i == |b.v.vals| - 1 {
      assert r == b.v.vals[i := x];
    } else if b.v.vals[i + 1] != x {
      assert r[i] == b.v.vals[i + 1];
    }
  }

  /**
   A node named "hygge" with the values null, null, true, false and the
   property asd set to a float builds into exactly that node, with no children.
   */
  lemma HyggeScenario(bits: F64)
    ensures NodeBuilder.New("hygge").Nil().Nil().Y().N().Prop("asd", ValueBuilder.Flt(bits)).Output()
         == Node("hygge", [Null, Null, Boolean(true), Boolean(false)], map["asd" := Float(bits)], [])
  {
  }
}
