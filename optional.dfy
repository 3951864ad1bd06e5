/** The optional value used for the component's nullable state (image slots, stream handle). */
module Optional {

  datatype Option<+T> = None | Some(value: T)

}
