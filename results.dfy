/** Outcomes of the generator: a value, or the Python exception that ends the run. */
module Results {

  /** The exceptions the generator can raise on inputs it accepts. */
  datatype Error =
    | CapacityMissing(labelIndex: nat) // `connect_vector[label]` is out of range (IndexError)
    | NegativeSampleSize(labelIndex: nat) // `rnd.sample` asked for a negative count (ValueError)
    | DivisionByZero                  // `number_firms/number_labels` with no labels

  datatype Result<T> = Ok(value: T) | Err(error: Error)

  datatype Option<T> = None | Some(value: T)
}
