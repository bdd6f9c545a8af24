/** Python's true-division operator `/` over exact reals, and the exception
    of `/` that the model keeps (OverflowError needs a float range, which
    exact reals do not have). */
module PyNum {

  /** The exception of `/` that the model keeps. */
  datatype Exception = ZeroDivisionError

  /** A value, or the exception that interrupted its computation. */
  datatype Result<+T> = Ok(value: T) | Err(error: Exception)

  /** `x / y` in Python 3: true (non-truncating) division, raising
      ZeroDivisionError when the divisor is zero. Real arithmetic stands in
      for IEEE-754 floats. */
  function TrueDiv(x: real, y: real): (r: Result<real>)
    ensures r.Err? <==> y == 0.0
    ensures r.Err? ==> r.error == ZeroDivisionError
    ensures r.Ok? ==> r.value * y == x
  {
    if y == 0.0 then Err(ZeroDivisionError) else Ok(x / y)
  }
}
