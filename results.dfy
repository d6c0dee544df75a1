/** Outcomes shared by the whole model: the errors the optimizer can throw,
    and the Option and Result wrappers used instead of exceptions. */
module Results {

  datatype Option<+T> = None | Some(value: T)

  /** The two cost terms that divide by a zone's radius. */
  datatype CostTerm = Accessibility | Visibility

  datatype Error =
    | InvalidVectors              // vector_add / vector_subtract on lengths that differ
    | DivisionByZero(term: CostTerm)  // a cost denominator `b + radius` that is zero
    | UndefinedObject             // reading a field of an array slot that does not exist

  datatype Result<+T> = Ok(value: T) | Err(error: Error)
}
