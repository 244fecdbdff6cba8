/** Vocabulary shared by the modules of this project. */
module Types {
  datatype Option<+T> = None | Some(value: T)

  newtype byte = x: int | 0 <= x < 256

  type bytes = seq<byte>
}
