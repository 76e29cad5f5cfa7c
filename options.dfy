/** The optional value shared by the modules of this model: `None` stands for
    Python's `None` or for an operation that raised instead of returning. */
module Options {

  datatype Option<+T> = None | Some(value: T)

}
