/** Identities and wire values shared by the leader, its clients and its journals. */
module Protocol {
  datatype Option<+T> = None | Some(value: T)

  datatype Result<+T, +E> = Ok(value: T) | Err(error: E)

  type ClientId = nat
  type ConnectionId = nat
  type SessionId = nat
  type EffectId = nat

  type Byte = b: nat | b < 256

  /** A request number scoped to one client instance, which survives reconnects. */
  datatype RequestId = RequestId(client: ClientId, sequence: nat)

  /** Mutation authority over one session, with its fencing token. */
  datatype DriverLease = DriverLease(owner: ClientId, epoch: nat)

  datatype AttachmentMode = Drive | View

  function Max(a: nat, b: nat): nat {
    if a < b then b else a
  }

  function Min(a: nat, b: nat): nat {
    if a < b then a else b
  }
}
