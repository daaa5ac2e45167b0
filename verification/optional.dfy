/** An optional value: an element reference that may still be unset, or a
    field that may have no focus. */
module Optional {

  datatype Option<T> = None | Some(value: T)
}
