/** The stock optional value, used for `std::optional` and for null pointers. */
module Options {
  datatype Option<+T> = None | Some(value: T)
}
