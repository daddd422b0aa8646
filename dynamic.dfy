/** The dynamically typed values a script hands to the matrix layer: rhai's
    `Dynamic` restricted to the tags the layer switches on, and the error
    values its fallible operations return. */
module Dynamic {

  /** A FLOAT as the layer carries it. No arithmetic is ever done on floats
      here, so a float is kept symbolic: either a float the script supplied,
      named by its IEEE-754 binary64 bit pattern, or the widening `n as FLOAT`
      of an integer, which the model does not evaluate. */
  datatype Float = Bits(pattern: bv64) | Widened(n: int)

  /** The entry `DMatrix::zeros` starts from. */
  const Zero: Float := Bits(0)

  /** The cast `n as FLOAT`, kept unevaluated. */
  function IntToFloat(n: int): Float
  {
    Widened(n)
  }

  /** An element of a rhai `Array`: an INT, a FLOAT, a nested array, or any
      other dynamic value (string, bool, map, ...), which numeric code rejects. */
  datatype Value = VInt(n: int) | VFloat(x: Float) | VArr(elems: seq<Value>) | VOther

  /** rhai's `Array`. */
  type Array = seq<Value>

  predicate IsNumeric(v: Value)
  {
    v.VInt? || v.VFloat?
  }

  /** The float a numeric element contributes to a dense matrix: the float
      itself, or the widened integer. */
  function AsFloat(v: Value): (x: Float)
    requires IsNumeric(v)
    ensures v.VFloat? ==> x == v.x
    ensures v.VInt? ==> x == IntToFloat(v.n)
  {
    if v.VFloat? then v.x else IntToFloat(v.n)
  }

  datatype Option<+T> = None | Some(value: T)

  /** `Result<T, Box<EvalAltResult>>` where every error the layer raises is an
      `ErrorArithmetic` whose message is kept. */
  datatype Result<+T> = Ok(value: T) | Err(message: string) {
    predicate IsFailure()
    {
      Err?
    }

    function PropagateFailure<U>(): Result<U>
      requires Err?
    {
      Err(message)
    }

    function Extract(): T
      requires Ok?
    {
      value
    }
  }
}
