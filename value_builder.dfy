/**
 `KdlValueBuilder`: a stateless helper turning primitives into `KdlValue`s.
 Both builder variants of the repository declare it with the same constructors
 and the same one- and two-letter shorthands; it is modelled once.
 */
module ValueBuilder {
  import opened Kdl

  function Str(text: string): (r: Value)
    ensures r.String? && r.text == text
  {
    Value.String(text)
  }

  /** Shorthand for `Str`. */
  function S(text: string): (r: Value)
    ensures r.String? && r.text == text
  {
    Str(text)
  }

  function Int(n: I64): (r: Value)
    ensures r.Int? && r.integer == n
  {
    Value.Int(n)
  }

  /** Shorthand for `Int`. */
  function I(n: I64): (r: Value)
    ensures r.Int? && r.integer == n
  {
    Int(n)
  }

  function Flt(bits: F64): (r: Value)
    ensures r.Float? && r.bits == bits
  {
    Value.Float(bits)
  }

  /** Shorthand for `Flt`. */
  function F(bits: F64): (r: Value)
    ensures r.Float? && r.bits == bits
  {
    Flt(bits)
  }

  function Bool(b: bool): (r: Value)
    ensures r.Boolean? && r.truth == b
  {
    Value.Boolean(b)
  }

  /** Shorthand for `Bool`. */
  function B(b: bool): (r: Value)
    ensures r.Boolean? && r.truth == b
  {
    Bool(b)
  }

  /** "yes": the boolean `true`. */
  function Y(): (r: Value)
    ensures r.Boolean? && r.truth
  {
    Bool(true)
  }

  /** "no": the boolean `false`. */
  function N(): (r: Value)
    ensures r.Boolean? && !r.truth
  {
    Bool(false)
  }

  function Nul(): (r: Value)
    ensures r.Null?
  {
    Value.Null
  }

  /** Shorthand for `Nul`. */
  function Nil(): (r: Value)
    ensures r.Null?
  {
    Nul()
  }

  /** Every shorthand produces exactly what its long form does. */
  lemma ShorthandsAgree(text: string, n: I64, bits: F64, b: bool)
    ensures S(text) == Str(text) && I(n) == Int(n) && F(bits) == Flt(bits) && B(b) == Bool(b)
    ensures Y() == Bool(true) && N() == Bool(false) && Nil() == Nul()
  {
  }
}
