/** The nullable values of the game state (`null` in the source) as an option type. */
module Optional {
  datatype Option<+T> = None | Some(value: T)
}
