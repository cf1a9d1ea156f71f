/** An optional value: the model of Rust's `Option<T>` for the layers' cached state. */
module Optional {

  datatype Option<T> = None | Some(value: T)

}
