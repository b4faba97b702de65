/** What several modules share. */
module Basics {

  const TWO_64: nat := 0x1_0000_0000_0000_0000

  datatype Option<T> = None | Some(value: T)
}
