/** Optional values, standing in for the source's nullable pointers. */
module Option {

  datatype Option<+T> = None | Some(value: T)
}
