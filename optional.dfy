/** The `null` that the buffer's `next` operations return when there is no record. */
module Optional {

  datatype Option<T> = None | Some(value: T)

}
