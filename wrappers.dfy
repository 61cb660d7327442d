/**
 * Option and Result, used by every module of the model.
 *
 * A handler that raises `HTTPException(status_code=c)` (or lets another
 * exception escape, which FastAPI answers with 500) is modelled as `Err(c)`.
 */
module Wrappers {
  datatype Option<T> = None | Some(value: T)

  datatype Result<T> = Ok(value: T) | Err(code: int)

  /** A non-empty set has a member; stated so that `:|` can pick one. */
  lemma Elemento(s: set<int>)
    requires s != {}
    ensures exists x :: x in s
  {
    if forall x :: x !in s {
      assert false;
    }
  }
}
