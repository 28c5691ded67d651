/** Small datatypes shared by the modules of this project. */
module Common {
  datatype Option<+T> = None | Some(value: T)

  function Max(x: int, y: int): int {
    if x < y then y else x
  }

  function Abs(x: int): int {
    if x < 0 then -x else x
  }
}
