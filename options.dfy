/** Optional values, standing in for JavaScript's `null`/`undefined` results. */
module Options {
  datatype Option<T> = None | Some(value: T)
  {
    predicate IsSome() { Some? }
  }
}
