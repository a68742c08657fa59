// Fixed-point simulation time: a signed 64-bit count of 2^-25 second units.
module SimTime {

  const INT64_MIN: int := -0x8000_0000_0000_0000
  const INT64_MAX: int := 0x7FFF_FFFF_FFFF_FFFF

  /** C++ `signed long long`. */
  type int64 = x: int | INT64_MIN <= x <= INT64_MAX

  predicate InInt64(x: int)
  {
    INT64_MIN <= x <= INT64_MAX
  }

  datatype SimulationTime = SimulationTime(raw: int64)
  {
    predicate Eq(other: SimulationTime)
      ensures Eq(other) <==> this == other
    {
      raw == other.raw
    }

    predicate Ne(other: SimulationTime)
      ensures Ne(other) <==> this != other
    {
      !Eq(other)
    }

    /** `<` compares the raw counts; it is a strict order. */
    predicate Lt(other: SimulationTime)
      ensures Lt(other) ==> this != other && !(other.raw < raw)
    {
      raw < other.raw
    }

    /** `<=` is written as `== || <`; it is the reflexive closure of Lt. */
    predicate Le(other: SimulationTime)
      ensures Le(other) <==> raw <= other.raw
    {
      Eq(other) || Lt(other)
    }

    /** `>` is the converse of `<`. */
    predicate Gt(other: SimulationTime)
      ensures Gt(other) <==> other.Lt(this)
    {
      raw > other.raw
    }

    /** `>=` is written as `== || >`; it is the converse of `<=`. */
    predicate Ge(other: SimulationTime)
      ensures Ge(other) <==> other.Le(this)
    {
      Eq(other) || Gt(other)
    }

    /** operator+ on the raw counts; signed overflow is undefined in C++. */
    function Plus(other: SimulationTime): (r: SimulationTime)
      requires InInt64(raw + other.raw)
      ensures r.raw - other.raw == raw
    {
      SimulationTime(raw + other.raw)
    }

    /** operator- on the raw counts. */
    function Minus(other: SimulationTime): (r: SimulationTime)
      requires InInt64(raw - other.raw)
      ensures r.raw + other.raw == raw
    {
      SimulationTime(raw - other.raw)
    }
  }

  /** `SimulationTime()` and `SimulationTime(0)`: the default argument 0 gives raw 0. */
  function FromZero(): (t: SimulationTime)
    ensures forall u: SimulationTime :: t.Le(u) <==> u.raw >= 0
  {
    SimulationTime(0)
  }

  const Zero: SimulationTime := SimulationTime(0)

  /** The six comparisons are those of a strict total order and its relatives. */
  lemma Trichotomy(a: SimulationTime, b: SimulationTime)
    ensures a.Lt(b) || a.Eq(b) || a.Gt(b)
    ensures !(a.Lt(b) && a.Eq(b)) && !(a.Lt(b) && a.Gt(b)) && !(a.Eq(b) && a.Gt(b))
    ensures a.Le(b) <==> !a.Gt(b)
    ensures a.Ge(b) <==> !a.Lt(b)
    ensures a.Ne(b) <==> (a.Lt(b) || a.Gt(b))
  {
  }

  lemma LtTransitive(a: SimulationTime, b: SimulationTime, c: SimulationTime)
    requires a.Lt(b) && b.Lt(c)
    ensures a.Lt(c) && !c.Lt(a)
  {
  }

  /** Subtracting what was added gives the original time back, and conversely. */
  lemma PlusMinusRoundTrip(a: SimulationTime, b: SimulationTime)
    requires InInt64(a.raw + b.raw)
    ensures InInt64(a.Plus(b).raw - b.raw) && a.Plus(b).Minus(b) == a
  {
  }

  lemma MinusPlusRoundTrip(a: SimulationTime, b: SimulationTime)
    requires InInt64(a.raw - b.raw)
    ensures InInt64(a.Minus(b).raw + b.raw) && a.Minus(b).Plus(b) == a
  {
  }

  /** Adding a delay preserves the order of two instants. */
  lemma PlusMonotone(a: SimulationTime, b: SimulationTime, d: SimulationTime)
    requires a.Le(b) && InInt64(a.raw + d.raw) && InInt64(b.raw + d.raw)
    ensures a.Plus(d).Le(b.Plus(d))
    ensures d.raw >= 0 ==> a.Le(a.Plus(d))
  {
  }

  /** A variable of type SimulationTime, for the compound assignments that update it. */
  class TimeVariable {
    var value: SimulationTime

    /** Copy constructor: starts at 0, then assigns. */
    constructor (initial: SimulationTime)
      ensures value == initial
    {
      value := Zero;
      value := initial;
    }

    /** operator=: copies unless the argument is this very object. */
    method Assign(other: TimeVariable)
      modifies this
      ensures value == old(other.value)
    {
      if other != this {
        value := other.value;
      }
    }

    /** operator+= */
    method AddAssign(op: SimulationTime)
      requires InInt64(value.raw + op.raw)
      modifies this
      ensures value == old(value).Plus(op)
    {
      value := SimulationTime(value.raw + op.raw);
    }

    /** operator-= */
    method SubAssign(op: SimulationTime)
      requires InInt64(value.raw - op.raw)
      modifies this
      ensures value == old(value).Minus(op)
    {
      value := SimulationTime(value.raw - op.raw);
    }
  }

  /** operator+: copy the left operand and apply += to the copy. */
  method Sum(a: SimulationTime, b: SimulationTime) returns (r: SimulationTime)
    requires InInt64(a.raw + b.raw)
    ensures r == a.Plus(b)
  {
    var cpy := new TimeVariable(a);
    cpy.AddAssign(b);
    r := cpy.value;
  }

  /** operator-: copy the left operand and apply -= to the copy. */
  method Difference(a: SimulationTime, b: SimulationTime) returns (r: SimulationTime)
    requires InInt64(a.raw - b.raw)
    ensures r == a.Minus(b)
  {
    var cpy := new TimeVariable(a);
    cpy.SubAssign(b);
    r := cpy.value;
  }
}
