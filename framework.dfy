/** Values as the Terraform plugin framework hands them to the provider. */
module Framework {
  import opened Wrappers

  /** An attribute value (types.String, types.Int64, types.Bool,
      types.Float64, types.Number): a null flag beside the value. The
      provider reads `value` directly in several places, null or not. */
  datatype TfValue<T> = TfValue(isNull: bool, value: T) {
    /** The override this attribute carries: its value when not null. */
    function Known(): Option<T> {
      if isNull then None else Some(value)
    }
  }

  /** A 64-bit IEEE float. The provider only copies floats, so they are kept
      opaque: no arithmetic is ever done on them. */
  datatype Float64 = Float64(bits: bv64)

  /** An arbitrary-precision number (types.Number), likewise only copied. */
  datatype BigFloat = BigFloat(mantissa: int, exponent: int)
}
