/** SQL values (src/sql/types/value.rs) and the equality they are compared, hashed and indexed by. */
module SqlValues {
  /** An f64, up to the payload and sign of NaN. */
  datatype Float = NaN | Infinite(negative: bool) | NegativeZero | Finite(r: real)

  datatype Value = Null | Boolean(b: bool) | Integer(i: int) | Number(f: Float) | Text(s: string)

  datatype DataType = BooleanType | IntegerType | FloatType | StringType

  type Row = seq<Value>

  /** `i as f64`, up to rounding: every statement here holds for any rounding. */
  type Cast = int -> Float

  predicate Undefined(v: Value) { v.Null? || (v.Number? && v.f.NaN?) }

  predicate IsOf(v: Value, t: DataType) {
    match v
    case Null => false
    case Boolean(_) => t.BooleanType?
    case Integer(_) => t.IntegerType?
    case Number(_) => t.FloatType?
    case Text(_) => t.StringType?
  }

  /** Negative zero hashes and stores as positive zero. */
  function Normal(f: Float): Float { if f == NegativeZero then Finite(0.0) else f }

  /** f64 `==`: NaN equals nothing, the zeros equal each other. */
  predicate FloatEqual(a: Float, b: Float) { !a.NaN? && !b.NaN? && Normal(a) == Normal(b) }

  datatype Verdict = True | NotTrue | Error

  function Truth(b: bool): Verdict { if b then True else NotTrue }

  /** `Expression::Equal`, with false and NULL both "not true". */
  function SqlEqual(v: Value, w: Value, cast: Cast): Verdict {
    match (v, w)
    case (Boolean(a), Boolean(b)) => Truth(a == b)
    case (Integer(a), Integer(b)) => Truth(a == b)
    case (Integer(a), Number(b)) => Truth(FloatEqual(cast(a), b))
    case (Number(a), Integer(b)) => Truth(FloatEqual(a, cast(b)))
    case (Number(a), Number(b)) => Truth(FloatEqual(a, b))
    case (Text(a), Text(b)) => Truth(a == b)
    case (Null, _) => NotTrue
    case (_, Null) => NotTrue
    case _ => Error
  }

  /** What `Hash` feeds to the hasher, type first; values with the same key are also equal. */
  function HashKey(v: Value): Value { if v.Number? then Number(Normal(v.f)) else v }

  /** `==` on values in the code: unlike in SQL, NULL equals NULL and NaN equals NaN. */
  predicate SameValue(v: Value, w: Value, cast: Cast) {
    match (v, w)
    case (Integer(a), Number(b)) => FloatEqual(cast(a), b)
    case (Number(a), Integer(b)) => FloatEqual(a, cast(b))
    case _ => HashKey(v) == HashKey(w)
  }

  /** Comparing the two values cannot fail, and cannot find an integer equal to a float. */
  predicate Compatible(v: Value, w: Value, cast: Cast) {
    match (v, w)
    case (Null, _) => true
    case (_, Null) => true
    case (Integer(a), Number(b)) => !FloatEqual(cast(a), b)
    case (Number(a), Integer(b)) => !FloatEqual(a, cast(b))
    case (Boolean(_), Boolean(_)) => true
    case (Integer(_), Integer(_)) => true
    case (Number(_), Number(_)) => true
    case (Text(_), Text(_)) => true
    case _ => false
  }

  /** Columns of one declared type are always compatible. */
  lemma SameTypeIsCompatible(v: Value, w: Value, t: DataType, cast: Cast)
    requires (v.Null? || IsOf(v, t)) && (w.Null? || IsOf(w, t))
    ensures Compatible(v, w, cast)
  {
  }

  /** Compatible values hash together exactly when they are equal. */
  lemma HashingDecides(v: Value, w: Value, cast: Cast)
    ensures !Undefined(w) && HashKey(v) == HashKey(w) ==> SqlEqual(v, w, cast) == True
    ensures Compatible(v, w, cast) <==> SqlEqual(v, w, cast) == Truth(!Undefined(w) && HashKey(v) == HashKey(w))
    ensures SqlEqual(v, w, cast) == True ==> !Undefined(w)
    ensures SqlEqual(v, w, cast) == SqlEqual(w, v, cast)
  {
  }
}
