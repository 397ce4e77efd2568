/** Value wrappers shared by the model of the CLB instances data source:
    Option (a Go pointer or slice that may be nil), Result (a value or an error)
    and TfValue (a Terraform attribute, which is known, null or unknown). */
module TfTypes {

  /** A Go pointer or slice field of a request: None stands for nil. */
  datatype Option<+T> = None | Some(value: T)

  /** A value, or the error a call returned instead. */
  datatype Result<+T, +E> = Ok(value: T) | Err(error: E)

  /** A Terraform attribute value (types.String, types.Map): known, null (not
      configured) or unknown (to be computed at apply time). */
  datatype TfValue<+T> = Known(value: T) | Null | Unknown {

    /** The source's test `!(v.IsUnknown() || v.IsNull())`. */
    predicate IsSet() {
      !(Unknown? || Null?)
    }
  }

  /** types.String.ValueString(): the string of a known value, and "" for a
      null or unknown one. */
  function ValueString(v: TfValue<string>): string {
    match v
    case Known(s) => s
    case Null => ""
    case Unknown => ""
  }
}
