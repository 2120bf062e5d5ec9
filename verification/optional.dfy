/** The Some/None datatype used for dictionary lookups that may fail and for
    searches that may find nothing. */
module Optional {

  datatype Option<+T> = None | Some(value: T)

}
