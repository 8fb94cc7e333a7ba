/** Optional values: the pipeline's `None`. */
module Options {
  datatype Option<+T> = None | Some(value: T)
}
