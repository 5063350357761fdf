/** The optional value shared by the modules of this model: `None` stands for
    JavaScript's `null`, `undefined` and `NaN` wherever the source tests for them. */
module Options {
  datatype Option<+T> = None | Some(value: T)
}
