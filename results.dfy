/** Failure values shared by every stage of the index-distance script. */
module Results {

  /** The errors the script raises, one constructor per failure kind. */
  datatype Error =
    | SchemaError            // reference and test tables expose different column sets
    | LengthMismatch         // two compared indices have different lengths
    | NoObjectsToConcatenate // `pd.concat` was handed an empty list (empty test table)
    | MissingColumn          // a column lookup found no such column (pandas' KeyError)
    | AssemblyError          // the per-channel tables do not agree on their (ref, test) keys

  /** A computation that either yields a value or raises one of the errors above. */
  datatype Result<T> = Ok(value: T) | Err(error: Error)

  datatype Option<T> = None | Some(value: T)
}
