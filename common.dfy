/** Small shared vocabulary: Java's nullable references become `Option`, and
    player identities are plain `Uuid` values. */
module Common {

  /** A Java reference that may be null, or a `java.util.Optional`. */
  datatype Option<+T> = None | Some(value: T)

  /** A player's `java.util.UUID`, compared by value. */
  type Uuid = int
}
