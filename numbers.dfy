/** JavaScript numbers as the model sees them: a finite value, or a value that is
    not finite (NaN or an infinity), which the source produces by dividing by a
    zero parameter or by taking a remainder modulo zero. */
module Numbers {
  datatype Num = Finite(value: real) | NonFinite
}
