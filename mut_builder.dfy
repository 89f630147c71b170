/**
 The builder of `src/main.rs`, whose methods take `&mut self` and change the
 builder in place. `KdlValuesBuilder`, `KdlPropertiesBuilder` and
 `KdlNodeBuilder` are classes whose methods modify their fields.

 A node builder owns its child builders outright: they are moved in, never
 shared, and reached only through their parent. A child is therefore held as
 its value, a `NodeState`, and what the source does to a child through
 `&mut` (reset it, build it) is a function on that value.
 */
module MutBuilder {
  import opened Kdl
  import ValueBuilder
  import opened Maps

  /** The whole content of a node builder: name, values, properties, children. */
  datatype NodeState = NodeState(n: string, vals: seq<Value>, props: map<string, Value>, c: seq<NodeState>) {

    /** `reset_values` on a child: only its own values are cleared. */
    function ResetValues(): (r: NodeState)
      ensures r.vals == [] && r.n == n && r.props == props && r.c == c
    {
      NodeState(n, [], props, c)
    }

    /** `reset_properties` on a child: only its own properties are cleared. */
    function ResetProperties(): (r: NodeState)
      ensures r.props == map[] && r.n == n && r.vals == vals && r.c == c
    {
      NodeState(n, vals, map[], c)
    }

    /** `reset`: clears the values and the properties, then resets every child the same way. */
    function Reset(): (r: NodeState)
      ensures r.n == n && r.vals == [] && r.props == map[] && |r.c| == |c|
      ensures forall j :: 0 <= j < |c| ==> r.c[j] == c[j].Reset()
      decreases this
    {
      NodeState(n, [], map[], seq(|c|, j requires 0 <= j < |c| => c[j].Reset()))
    }

    /** `build`: the node with this name, values and properties, and the children built in order. */
    function Build(): (r: Node)
      ensures r.name == n && r.values == vals && r.properties == props && |r.children| == |c|
      ensures forall j :: 0 <= j < |c| ==> r.children[j] == c[j].Build()
      decreases this
    {
      Node(n, vals, props, seq(|c|, j requires 0 <= j < |c| => c[j].Build()))
    }
  }

  /** No node of the tree holds a value or a property. */
  ghost predicate Cleared(s: NodeState)
    decreases s
  {
    s.vals == [] && s.props == map[] && forall j :: 0 <= j < |s.c| ==> Cleared(s.c[j])
  }

  /** The two trees have the same names at the same positions. */
  ghost predicate SameShape(a: NodeState, b: NodeState)
    decreases a
  {
    a.n == b.n && |a.c| == |b.c| && forall j :: 0 <= j < |a.c| ==> SameShape(a.c[j], b.c[j])
  }

  /** `reset` empties every node of the subtree and keeps every name and every child. */
  lemma {:induction false} ResetClearsSubtree(s: NodeState)
    ensures Cleared(s.Reset()) && SameShape(s, s.Reset())
    decreases s
  {
    var r := s.Reset();
    forall j | 0 <= j < |s.c|
      ensures Cleared(r.c[j]) && SameShape(s.c[j], r.c[j])
    {
      ResetClearsSubtree(s.c[j]);
    }
  }

  /** `reset` changes nothing exactly when the subtree is already empty. */
  lemma {:induction false} ResetFixesExactlyCleared(s: NodeState)
    ensures s.Reset() == s <==> Cleared(s)
    decreases s
  {
    if Cleared(s) {
      forall j | 0 <= j < |s.c|
        ensures s.c[j].Reset() == s.c[j]
      {
        ResetFixesExactlyCleared(s.c[j]);
      }
      assert s.Reset().c == s.c;
    } else {
      ResetClearsSubtree(s);
    }
  }

  /** Resetting twice is resetting once. */
  lemma ResetIdempotent(s: NodeState)
    ensures s.Reset().Reset() == s.Reset()
  {
    ResetClearsSubtree(s);
    ResetFixesExactlyCleared(s.Reset());
  }

  /**
   `build` keeps the name, the values and the properties, and turns the
   j-th child into the j-th child node.
   */
  lemma BuildKeepsContents(s: NodeState)
    ensures s.Build().name == s.n && s.Build().values == s.vals && s.Build().properties == s.props
    ensures |s.Build().children| == |s.c|
    ensures forall j :: 0 <= j < |s.c| ==> s.Build().children[j] == s.c[j].Build()
  {
  }

  /** `build` loses nothing: two builders that build the same node hold the same content. */
  lemma {:induction false} BuildIsInjective(a: NodeState, b: NodeState)
    ensures a.Build() == b.Build() ==> a == b
    decreases a
  {
    if a.Build() == b.Build() {
      assert |a.c| == |b.c|;
      forall j | 0 <= j < |a.c|
        ensures a.c[j] == b.c[j]
      {
        assert a.c[j].Build() == a.Build().children[j];
        BuildIsInjective(a.c[j], b.c[j]);
      }
      assert a.c == b.c;
    }
  }

  /** `KdlValuesBuilder`: one node's ordered values (the stateless `KdlValueBuilder` field is left out). */
  class ValuesBuilder {
    var vals: seq<Value>

    constructor ()
      ensures vals == []
    {
      vals := [];
    }

    /** Consumes the builder and hands out its values, unchanged and in order. */
    method Build() returns (r: seq<Value>)
      ensures r == vals
    {
      r := vals;
    }

    method Reset()
      modifies this
      ensures vals == []
    {
      vals := [];
    }

    method Add(x: Value)
      modifies this
      ensures vals == old(vals) + [x]
    {
      vals := vals + [x];
    }

    /** `Vec::remove`; an index past the end panics in the source. */
    method Rem(i: nat)
      requires i < |vals|
      modifies this
      ensures vals == old(vals)[..i] + old(vals)[i + 1..]
    {
      vals := vals[..i] + vals[i + 1..];
    }

    method Set(xs: seq<Value>)
      modifies this
      ensures vals == xs
    {
      vals := xs;
    }

    method Join(xs: seq<Value>)
      modifies this
      ensures vals == old(vals) + xs
    {
      vals := vals + xs;
    }

    /** Appends the values of another builder, which is consumed. */
    method Extend(other: ValuesBuilder)
      modifies this
      ensures vals == old(vals) + old(other.vals)
    {
      vals := vals + other.vals;
    }

    method Str(text: string)
      modifies this
      ensures vals == old(vals) + [Value.String(text)]
    {
      Add(ValueBuilder.Str(text));
    }

    method S(text: string)
      modifies this
      ensures vals == old(vals) + [Value.String(text)]
    {
      Add(ValueBuilder.S(text));
    }

    method Int(x: I64)
      modifies this
      ensures vals == old(vals) + [Value.Int(x)]
    {
      Add(ValueBuilder.Int(x));
    }

    method I(x: I64)
      modifies this
      ensures vals == old(vals) + [Value.Int(x)]
    {
      Add(ValueBuilder.I(x));
    }

    method Flt(bits: F64)
      modifies this
      ensures vals == old(vals) + [Value.Float(bits)]
    {
      Add(ValueBuilder.Flt(bits));
    }

    method F(bits: F64)
      modifies this
      ensures vals == old(vals) + [Value.Float(bits)]
    {
      Add(ValueBuilder.F(bits));
    }

    method Nul()
      modifies this
      ensures vals == old(vals) + [Value.Null]
    {
      Add(ValueBuilder.Nul());
    }

    method Nil()
      modifies this
      ensures vals == old(vals) + [Value.Null]
    {
      Add(ValueBuilder.Nil());
    }

    method Bool(b: bool)
      modifies this
      ensures vals == old(vals) + [Value.Boolean(b)]
    {
      Add(ValueBuilder.Bool(b));
    }

    method B(b: bool)
      modifies this
      ensures vals == old(vals) + [Value.Boolean(b)]
    {
      Add(ValueBuilder.B(b));
    }

    method Y()
      modifies this
      ensures vals == old(vals) + [Value.Boolean(true)]
    {
      Add(ValueBuilder.Y());
    }

    method N()
      modifies this
      ensures vals == old(vals) + [Value.Boolean(false)]
    {
      Add(ValueBuilder.N());
    }
  }

  /** `KdlPropertiesBuilder`: one node's properties, keys unique, last write wins. */
  class PropertiesBuilder {
    var props: map<string, Value>

    constructor ()
      ensures props == map[]
    {
      props := map[];
    }

    /** Consumes the builder and hands out its map. */
    method Build() returns (r: map<string, Value>)
      ensures r == props
    {
      r := props;
    }

    method Reset()
      modifies this
      ensures props == map[]
    {
      props := map[];
    }

    /** `HashMap::insert`: overwrites an existing entry. */
    method Add(key: string, x: Value)
      modifies this
      ensures props == old(props)[key := x]
    {
      props := props[key := x];
    }

    /** `HashMap::remove`: an absent key leaves the map as it was. */
    method Rem(key: string)
      modifies this
      ensures props == old(props) - {key}
    {
      props := props - {key};
    }

    method Set(m: map<string, Value>)
      modifies this
      ensures props == m
    {
      props := m;
    }

    /** `HashMap::extend`: the entries of `m` win over the existing ones. */
    method Join(m: map<string, Value>)
      modifies this
      ensures props == old(props) + m
    {
      props := props + m;
    }

    /** Merges the properties of another builder, which is consumed; its entries win. */
    method Extend(other: PropertiesBuilder)
      modifies this
      ensures props == old(props) + old(other.props)
    {
      props := props + other.props;
    }

    method Str(key: string, text: string)
      modifies this
      ensures props == old(props)[key := Value.String(text)]
    {
      Add(key, ValueBuilder.Str(text));
    }

    method S(key: string, text: string)
      modifies this
      ensures props == old(props)[key := Value.String(text)]
    {
      Add(key, ValueBuilder.S(text));
    }

    method Int(key: string, x: I64)
      modifies this
      ensures props == old(props)[key := Value.Int(x)]
    {
      Add(key, ValueBuilder.Int(x));
    }

    method I(key: string, x: I64)
      modifies this
      ensures props == old(props)[key := Value.Int(x)]
    {
      Add(key, ValueBuilder.I(x));
    }

    method Flt(key: string, bits: F64)
      modifies this
      ensures props == old(props)[key := Value.Float(bits)]
    {
      Add(key, ValueBuilder.Flt(bits));
    }

    method F(key: string, bits: F64)
      modifies this
      ensures props == old(props)[key := Value.Float(bits)]
    {
      Add(key, ValueBuilder.F(bits));
    }

    method Bool(key: string, b: bool)
      modifies this
      ensures props == old(props)[key := Value.Boolean(b)]
    {
      Add(key, ValueBuilder.Bool(b));
    }

    method B(key: string, b: bool)
      modifies this
      ensures props == old(props)[key := Value.Boolean(b)]
    {
      Add(key, ValueBuilder.B(b));
    }

    method Y(key: string)
      modifies this
      ensures props == old(props)[key := Value.Boolean(true)]
    {
      Add(key, ValueBuilder.Y());
    }

    method N(key: string)
      modifies this
      ensures props == old(props)[key := Value.Boolean(false)]
    {
      Add(key, ValueBuilder.N());
    }

    method Nul(key: string)
      modifies this
      ensures props == old(props)[key := Value.Null]
    {
      Add(key, ValueBuilder.Nul());
    }

    method Nil(key: string)
      modifies this
      ensures props == old(props)[key := Value.Null]
    {
      Add(key, ValueBuilder.Nil());
    }
  }

  /**
   `KdlNodeBuilder`: a name, its own value and property builders (never
   replaced, hence `const`), and the children, held as values.
   */
  class NodeBuilder {
    var n: string
    const v: ValuesBuilder
    const p: PropertiesBuilder
    var c: seq<NodeState>

    /** Everything the builder holds. */
    function State(): NodeState
      reads this, v, p
    {
      NodeState(n, v.vals, p.props, c)
    }

    constructor (name: string)
      ensures State() == NodeState(name, [], map[], [])
      ensures fresh(v) && fresh(p)
    {
      n := name;
      v := new ValuesBuilder();
      p := new PropertiesBuilder();
      c := [];
    }

    /** Consumes the builder: the node it describes, children built first and kept in order. */
    method Build() returns (node: Node)
      ensures node == State().Build()
    {
      var values := v.Build();
      var properties := p.Build();
      var cs := c;
      var children := seq(|cs|, j requires 0 <= j < |cs| => cs[j].Build());
      node := Node(n, values, properties, children);
    }

    /** Clears the values and properties of this node and of every descendant; names and children stay. */
    method Reset()
      modifies this, v, p
      ensures State() == old(State()).Reset()
    {
      ResetValues();
      ResetProperties();
      ResetChildren();
    }

    /** Appends `other`'s values and children and merges its properties, `other`'s winning. */
    method Extend(other: NodeBuilder)
      modifies this, v, p
      ensures State() == old(State()).(
        vals := old(v.vals) + old(other.v.vals),
        props := old(p.props) + old(other.p.props),
        c := old(c) + old(other.c))
    {
      v.Extend(other.v);
      p.Extend(other.p);
      c := c + other.c;
    }

    /** Appends `other`'s children only. */
    method ExtendChildren(other: NodeBuilder)
      modifies this
      ensures State() == old(State()).(c := old(c) + old(other.c))
    {
      c := c + other.c;
    }

    method Name(name: string)
      modifies this
      ensures State() == old(State()).(n := name)
    {
      n := name;
    }

    method ResetValues()
      modifies v
      ensures State() == old(State()).ResetValues()
    {
      v.Reset();
    }

    method ResetProperties()
      modifies p
      ensures State() == old(State()).ResetProperties()
    {
      p.Reset();
    }

    /** Clears the values of each direct child; grandchildren and this node's own fields are untouched. */
    method ResetChildValues()
      modifies this
      ensures n == old(n) && |c| == |old(c)|
      ensures forall j :: 0 <= j < |c| ==> c[j] == old(c)[j].ResetValues()
    {
      var i := 0;
      while i < |c|
        invariant 0 <= i <= |c| == |old(c)| && n == old(n)
        invariant forall j :: 0 <= j < i ==> c[j] == old(c)[j].ResetValues()
        invariant forall j :: i <= j < |c| ==> c[j] == old(c)[j]
      {
        c := c[i := c[i].ResetValues()];
        i := i + 1;
      }
    }

    /** Clears the properties of each direct child; grandchildren and this node's own fields are untouched. */
    method ResetChildProperties()
      modifies this
      ensures n == old(n) && |c| == |old(c)|
      ensures forall j :: 0 <= j < |c| ==> c[j] == old(c)[j].ResetProperties()
    {
      var i := 0;
      while i < |c|
        invariant 0 <= i <= |c| == |old(c)| && n == old(n)
        invariant forall j :: 0 <= j < i ==> c[j] == old(c)[j].ResetProperties()
        invariant forall j :: i <= j < |c| ==> c[j] == old(c)[j]
      {
        c := c[i := c[i].ResetProperties()];
        i := i + 1;
      }
    }

    /** Resets child `i` and its subtree; indexing past the end panics in the source. */
    method ResetChild(i: nat)
      requires i < |c|
      modifies this
      ensures n == old(n) && c == old(c)[i := old(c)[i].Reset()]
    {
      c := c[i := c[i].Reset()];
    }

    /** Resets every child and its subtree. */
    method ResetChildren()
      modifies this
      ensures n == old(n) && |c| == |old(c)|
      ensures forall j :: 0 <= j < |c| ==> c[j] == old(c)[j].Reset()
    {
      var i := 0;
      while i < |c|
        invariant 0 <= i <= |c| == |old(c)| && n == old(n)
        invariant forall j :: 0 <= j < i ==> c[j] == old(c)[j].Reset()
        invariant forall j :: i <= j < |c| ==> c[j] == old(c)[j]
      {
        c := c[i := c[i].Reset()];
        i := i + 1;
      }
    }

    method Add(x: Value)
      modifies v
      ensures State() == old(State()).(vals := old(v.vals) + [x])
    {
      v.Add(x);
    }

    method Val(x: Value)
      modifies v
      ensures State() == old(State()).(vals := old(v.vals) + [x])
    {
      v.Add(x);
    }

    /** Removes the value at `i`; an index past the end panics in the source. */
    method Rem(i: nat)
      requires i < |v.vals|
      modifies v
      ensures State() == old(State()).(vals := old(v.vals)[..i] + old(v.vals)[i + 1..])
    {
      v.Rem(i);
    }

    method Join(xs: seq<Value>)
      modifies v
      ensures State() == old(State()).(vals := old(v.vals) + xs)
    {
      v.Join(xs);
    }

    /** Appends the values one at a time: the same effect as `join`. */
    method Vals(xs: seq<Value>)
      modifies v
      ensures State() == old(State()).(vals := old(v.vals) + xs)
    {
      var i := 0;
      while i < |xs|
        invariant 0 <= i <= |xs|
        invariant v.vals == old(v.vals) + xs[..i]
      {
        v.Add(xs[i]);
        i := i + 1;
      }
      assert xs[..|xs|] == xs;
    }

    /**
     Removes the value at `i` and appends `x` at the end: `x` does not take the
     removed value's place. An index past the end panics in the source.
     */
    method Value(i: nat, x: Kdl.Value)
      requires i < |v.vals|
      modifies v
      ensures State() == old(State()).(vals := old(v.vals)[..i] + old(v.vals)[i + 1..] + [x])
    {
      v.Rem(i);
      v.Add(x);
    }

    method Set(xs: seq<Kdl.Value>)
      modifies v
      ensures State() == old(State()).(vals := xs)
    {
      v.Set(xs);
    }

    /** Assigns the value list directly: the same effect as `set`. */
    method Values(xs: seq<Kdl.Value>)
      modifies v
      ensures State() == old(State()).(vals := xs)
    {
      v.vals := xs;
    }

    method Put(key: string, x: Kdl.Value)
      modifies p
      ensures State() == old(State()).(props := old(p.props)[key := x])
    {
      p.Add(key, x);
    }

    method Prop(key: string, x: Kdl.Value)
      modifies p
      ensures State() == old(State()).(props := old(p.props)[key := x])
    {
      p.Add(key, x);
    }

    /** Inserts every entry of `m` in the map's iteration order: a merge in which `m` wins. */
    method Props(m: map<string, Kdl.Value>)
      modifies p
      ensures State() == old(State()).(props := old(p.props) + m)
    {
      var rest := m.Keys;
      while rest != {}
        invariant rest <= m.Keys
        invariant p.props == old(p.props) + Restrict(m, m.Keys - rest)
        decreases rest
      {
        var k :| k in rest;
        MergeOneMore(old(p.props), m, m.Keys - rest, k);
        p.Add(k, m[k]);
        assert m.Keys - rest + {k} == m.Keys - (rest - {k});
        rest := rest - {k};
      }
      RestrictAll(m);
    }

    /** Removes `key` and then inserts it: the same effect as `prop`. */
    method Property(key: string, x: Kdl.Value)
      modifies p
      ensures State() == old(State()).(props := old(p.props)[key := x])
    {
      p.Rem(key);
      p.Add(key, x);
    }

    /** Replaces the whole property map with `m`. */
    method Properties(m: map<string, Kdl.Value>)
      modifies p
      ensures State() == old(State()).(props := m)
    {
      p.props := m;
    }

    /** Moves `child` in as the last child. */
    method Child(child: NodeBuilder)
      modifies this
      ensures State() == old(State()).(c := old(c) + [old(child.State())])
    {
      c := c + [child.State()];
    }

    method Children(children: seq<NodeState>)
      modifies this
      ensures State() == old(State()).(c := old(c) + children)
    {
      c := c + children;
    }

    /**
     Removes child `i` and inserts `child` at `i`: the child at `i` is
     replaced and no other moves. An index past the end panics in the source.
     */
    method SetChild(i: nat, child: NodeBuilder)
      requires i < |c|
      modifies this
      ensures State() == old(State()).(c := old(c)[i := old(child.State())])
    {
      var s := child.State();
      c := c[..i] + c[i + 1..];
      c := c[..i] + [s] + c[i..];
    }

    method SetChildren(children: seq<NodeState>)
      modifies this
      ensures State() == old(State()).(c := children)
    {
      c := children;
    }

    /** Removes child `i`; an index past the end panics in the source. */
    method RemoveChild(i: nat)
      requires i < |c|
      modifies this
      ensures State() == old(State()).(c := old(c)[..i] + old(c)[i + 1..])
    {
      c := c[..i] + c[i + 1..];
    }

    method RemoveChildren()
      modifies this
      ensures State() == old(State()).(c := [])
    {
      c := [];
    }

    method Str(text: string)
      modifies v
      ensures State() == old(State()).(vals := old(v.vals) + [Kdl.Value.String(text)])
    {
      v.Str(text);
    }

    method S(text: string)
      modifies v
      ensures State() == old(State()).(vals := old(v.vals) + [Kdl.Value.String(text)])
    {
      v.S(text);
    }

    method Int(x: I64)
      modifies v
      ensures State() == old(State()).(vals := old(v.vals) + [Kdl.Value.Int(x)])
    {
      v.Int(x);
    }

    method I(x: I64)
      modifies v
      ensures State() == old(State()).(vals := old(v.vals) + [Kdl.Value.Int(x)])
    {
      v.I(x);
    }

    method Flt(bits: F64)
      modifies v
      ensures State() == old(State()).(vals := old(v.vals) + [Kdl.Value.Float(bits)])
    {
      v.Flt(bits);
    }

    method F(bits: F64)
      modifies v
      ensures State() == old(State()).(vals := old(v.vals) + [Kdl.Value.Float(bits)])
    {
      v.F(bits);
    }

    method Bool(b: bool)
      modifies v
      ensures State() == old(State()).(vals := old(v.vals) + [Kdl.Value.Boolean(b)])
    {
      v.Bool(b);
    }

    method B(b: bool)
      modifies v
      ensures State() == old(State()).(vals := old(v.vals) + [Kdl.Value.Boolean(b)])
    {
      v.B(b);
    }

    method Y()
      modifies v
      ensures State() == old(State()).(vals := old(v.vals) + [Kdl.Value.Boolean(true)])
    {
      v.Y();
    }

    method N()
      modifies v
      ensures State() == old(State()).(vals := old(v.vals) + [Kdl.Value.Boolean(false)])
    {
      v.N();
    }

    method Null()
      modifies v
      ensures State() == old(State()).(vals := old(v.vals) + [Kdl.Value.Null])
    {
      v.Nul();
    }

    method Nul()
      modifies v
      ensures State() == old(State()).(vals := old(v.vals) + [Kdl.Value.Null])
    {
      v.Nul();
    }

    method Nil()
      modifies v
      ensures State() == old(State()).(vals := old(v.vals) + [Kdl.Value.Null])
    {
      v.Nil();
    }
  }

  /** The tree the demonstration assembles. */
  function DemoTree(): NodeState
  {
    NodeState("hygge", [Null, Null, Boolean(true), Boolean(false), String("hello")], map[], [
      NodeState("child", [Boolean(true)], map["uuid" := String("123")], []),
      NodeState("child2", [], map[], [])])
  }

  /** What the demonstration's tree builds into. */
  lemma DemoTreeBuilds()
    ensures DemoTree().Build() == Node("hygge", [Null, Null, Boolean(true), Boolean(false), String("hello")], map[], [
      Node("child", [Boolean(true)], map["uuid" := String("123")], []),
      Node("child2", [], map[], [])])
  {
    var t := DemoTree();
    assert t.c[0].Build() == Node("child", [Boolean(true)], map["uuid" := String("123")], []);
    assert t.c[1].Build() == Node("child2", [], map[], []);
  }

  /** The first child of the demonstration: "child" holding true and uuid="123". */
  method DemoChild() returns (childs: NodeBuilder)
    ensures fresh(childs) && fresh(childs.v) && fresh(childs.p)
    ensures childs.State() == NodeState("child", [Boolean(true)], map["uuid" := String("123")], [])
  {
    childs := new NodeBuilder("child");
    childs.Bool(true);
    childs.Prop("uuid", ValueBuilder.Str("123"));
  }

  /**
   The chain of the demonstration program: a node "hygge" with null, null,
   true, false, a child "child" holding true and uuid="123", the string
   "hello", and an empty child "child2", built into a node.
   */
  method DemoChain() returns (node: Node)
    ensures node.name == "hygge"
    ensures node.values == [Null, Null, Boolean(true), Boolean(false), String("hello")]
    ensures node.properties == map[]
    ensures node.children == [
      Node("child", [Boolean(true)], map["uuid" := String("123")], []),
      Node("child2", [], map[], [])]
  {
    var kdl := new NodeBuilder("hygge");
    var childs := DemoChild();
    kdl.Nil();
    kdl.Nil();
    kdl.Y();
    kdl.N();
    kdl.Child(childs);
    kdl.Str("hello");
    var child2 := new NodeBuilder("child2");
    kdl.Child(child2);
    assert kdl.State() == DemoTree();
    node := kdl.Build();
    DemoTreeBuilds();
  }
}
