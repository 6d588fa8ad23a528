/** An optional value: the first accepted candidate, or the last box under a point, when there is one. */
module Optional {
  datatype Option<+T> = None | Some(value: T)
}
