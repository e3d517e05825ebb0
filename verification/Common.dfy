/** What several modules share. */
module Common {

  datatype Option<+T> = None | Some(value: T)

  const INT_MAX: int := 0x7fff_ffff
}
