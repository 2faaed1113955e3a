/** The result types that the checkout, automation and auth models share. */
module Base {

  datatype Option<+T> = None | Some(value: T)

  /** The status and the code of the source's `HttpError`. */
  datatype HttpError = HttpError(status: nat, code: string)

  datatype Result<+T> = Ok(value: T) | Err(error: HttpError)

  function Max(a: int, b: int): int { if a < b then b else a }

  function Min(a: int, b: int): int { if a < b then a else b }

  /** The first `n` natural numbers. */
  function Upto(n: nat): (s: set<nat>)
    ensures forall i: nat :: i in s <==> i < n
    ensures |s| == n
  {
    if n == 0 then {} else Upto(n - 1) + {n - 1}
  }

  lemma {:induction false} SubsetSize(a: set<nat>, b: set<nat>)
    requires a <= b
    ensures |a| <= |b|
  {
    if a != {} {
      var x :| x in a;
      SubsetSize(a - {x}, b - {x});
    }
  }
}
