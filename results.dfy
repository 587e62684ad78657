/** Optional values and fallible results, used where the chart writer reads
    an attribute that may be unset or raises an exception. */
module Results {

  datatype Option<+T> = None | Some(value: T)

  datatype Result<+T, +E> = Ok(value: T) | Err(error: E)
}
