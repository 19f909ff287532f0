/** Small shared vocabulary: identifiers and optional values. */
module Common {

  /** A java.util.UUID. The model only ever compares identifiers for equality. */
  type Uuid = nat

  /** A value or its absence (a Java reference that may be null). */
  datatype Option<+T> = None | Some(value: T)
}
