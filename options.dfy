/** The optional value used throughout the model wherever the gateway has a nil
    pointer, a missing map entry or a failed decode. */
module Options {

  datatype Option<+T> = None | Some(value: T)
}
