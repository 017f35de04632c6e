// Shared vocabulary of the FlexConnect models.
module Common {

  datatype Option<+T> = None | Some(value: T)

  type byte = b: nat | b < 256 witness 0
}
