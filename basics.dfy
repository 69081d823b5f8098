/** Shared vocabulary of the auction house: optional values, Java's 32-bit
    integers, participant handles, client states and auction identifiers. */
module Basics {

  /** A Java reference that may be null. */
  datatype Option<+T> = None | Some(value: T)

  const INT32_MIN: int := -0x8000_0000

  /** A Java `int` (prices and bids). */
  type Int32 = x: int | -0x8000_0000 <= x <= 0x7fff_ffff

  /** The remote handle of a participant (an `IClient` stub); only its identity matters. */
  datatype ClientId = ClientId(handle: nat)

  /** A GUI observer registered with a client; only its identity matters. */
  datatype ObserverId = ObserverId(handle: nat)

  /** The state of a client during a round. */
  datatype ClientState = Waiting | Raising | Ending

  /** The canonical text of a `java.util.UUID`: always 36 characters. */
  type UuidText = s: string | |s| == 36 witness "00000000-0000-0000-0000-000000000000"

  /** A random UUID, represented by its canonical text. */
  datatype Uuid = Uuid(text: UuidText)
}
