/** A value that may be absent: an unset JavaScript variable, an absent JSON
    field, a `null` reference. */
module Optional {

  datatype Option<+T> = None | Some(value: T)
}
