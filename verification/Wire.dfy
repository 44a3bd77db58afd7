/** Values shared by every component: public keys, IPv4 addresses, raw packets and results. */
module Wire {

  /** Public keys are compared only by equality and by their total order, so integers stand for them. */
  type Key = nat

  type Byte = b: int | 0 <= b < 256

  type Packet = seq<Byte>

  datatype Addr = Addr(a: Byte, b: Byte, c: Byte, d: Byte)

  datatype Option<+T> = None | Some(value: T)

  datatype Result<+T, +E> = Ok(value: T) | Err(error: E)

  /** Capacity of every mpsc channel between the actors (src/main.rs:8, src/iroh.rs:17). */
  const CHANNEL_CAPACITY: nat := 8192
}
