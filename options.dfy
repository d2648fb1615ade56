/** An optional value: used for the source's `null` / absent results and for JavaScript `NaN` outcomes. */
module Options {
  datatype Option<+T> = None | Some(value: T)
}
