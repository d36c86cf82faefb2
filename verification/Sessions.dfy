/** The normalized Herdr session grammar shared by every Relay protocol (src/lib.rs). */
module Sessions {
  import opened Bytes

  const MAX_SESSION_BYTES: nat := 64

  type Session = Text

  predicate SessionByte(b: Byte) {
    48 <= b < 58 || 65 <= b < 91 || 97 <= b < 123 || b == 46 || b == 95 || b == 45
  }

  /** Nonempty, at most 64 bytes of the grammar, and neither "." nor "..". */
  predicate ValidSession(name: Session) {
    && 0 < |name| <= MAX_SESSION_BYTES
    && name != [46] && name != [46, 46]
    && forall i | 0 <= i < |name| :: SessionByte(name[i])
  }
}
