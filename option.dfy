/** The optional value used wherever the palette's TypeScript uses `null` or `undefined`. */
module Optional {
  datatype Option<+T> = None | Some(value: T)
}
