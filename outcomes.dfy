/** Result shapes shared by the whole model.

    The Rust code either returns `Result<_, String>` or aborts the process
    through `.unwrap()` on a missing or mistyped value. The two are kept
    apart: `Err(message)` is the returned error, `Panic` the abort.
 */
module Outcomes {

  datatype Option<+T> = None | Some(value: T)

  datatype Outcome<+T> = Ok(value: T) | Err(message: string) | Panic

  /** The `Result<(), String>` a resolver method returns for an outcome. */
  function Status<T>(o: Outcome<T>): (r: Outcome<()>)
    ensures r.Ok? <==> o.Ok?
    ensures r.Panic? <==> o.Panic?
    ensures o.Err? ==> r == Err(o.message)
  {
    match o
    case Ok(_) => Ok(())
    case Err(m) => Err(m)
    case Panic => Panic
  }
}
