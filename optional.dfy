/** An optional value: used where the original code leaves a value undefined. */
module Optional {

  datatype Option<T> = None | Some(value: T)
}
