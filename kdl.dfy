/**
 The shapes of the KDL document model that the builders produce: a tagged
 value and an immutable node. Their definitions, parsing and rendering belong
 to the `kdl` crate; only their structure is modelled here.
 */
module Kdl {

  /** A signed 64-bit integer, the payload of `KdlValue::Int`. */
  newtype I64 = x: int | -0x8000_0000_0000_0000 <= x < 0x8000_0000_0000_0000

  /** The bit pattern of an `f64`; the model stores it and never computes with it. */
  type F64 = bv64

  /** `KdlValue`: a closed variant of the five value kinds of KDL. */
  datatype Value =
    | String(text: string)
    | Int(integer: I64)
    | Float(bits: F64)
    | Boolean(truth: bool)
    | Null

  /** `KdlNode`: what a finished builder turns into. */
  datatype Node = Node(
    name: string,
    values: seq<Value>,
    properties: map<string, Value>,
    children: seq<Node>)
}
