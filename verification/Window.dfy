/** The retransmission window seen as a flat byte string, and the receiver's in-order inbox.
    These are the specifications that the classes of module Resume refine, and the values
    that the mux, the helper and the protocol models pass around. */
module Window {
  import opened Prelude

  datatype ResumeError =
    | AckBeyondSent(ack: nat, sent: nat)
    | GapUnrecoverable(peerRecv: nat, acked: nat)
    | Gap(expected: nat, got: nat)

  datatype Segment = Segment(offset: nat, data: bytes)

  /** hist is every byte ever accepted from the application; bytes below acked have been released. */
  datatype Window = Window(hist: bytes, acked: nat, cursor: nat, capacity: nat, fin: bool) {

    predicate Valid() {
      && 0 < capacity
      && acked <= cursor <= |hist|
      && |hist| - acked <= capacity
    }

    function Writable(): nat
      requires Valid()
    {
      capacity - (|hist| - acked)
    }

    function Pending(): nat
      requires Valid()
    {
      |hist| - cursor
    }

    predicate HasPending() { cursor < |hist| }

    predicate FullyAcked() { acked == |hist| }

    function Push(data: bytes): (w: Window)
      requires Valid()
    {
      this.(hist := hist + data[..Min(Writable(), |data|)])
    }

    /** The next unsent run of at most max bytes, and the window after it was taken. */
    function NextUnsent(max: nat): (r: (Window, Option<Segment>))
      requires Valid()
    {
      var n := Min(max, Pending());
      if n == 0 then (this, None)
      else (this.(cursor := cursor + n), Some(Segment(cursor, hist[cursor..cursor + n])))
    }

    function Ack(offset: nat): (r: Result<Window, ResumeError>)
      requires Valid()
    {
      if offset < acked then Ok(this)
      else if offset > |hist| then Err(AckBeyondSent(offset, |hist|))
      else Ok(this.(acked := offset, cursor := Max(cursor, offset)))
    }

    function Rewind(peerRecv: nat): (r: Result<Window, ResumeError>)
      requires Valid()
    {
      if peerRecv < acked then Err(GapUnrecoverable(peerRecv, acked))
      else if peerRecv > |hist| then Err(AckBeyondSent(peerRecv, |hist|))
      else Ok(this.(acked := peerRecv, cursor := peerRecv))
    }
  }

  function NewWindow(capacity: nat): (w: Window)
    requires 0 < capacity
  {
    Window([], 0, 0, capacity, false)
  }

  /** got is every byte handed on in order; its length is the offset that goes into acks. */
  datatype Inbox = Inbox(got: bytes, finAt: Option<nat>) {

    /** None: a duplicate. Some(news): the new bytes. Err: a hole before offset. */
    function Accept(offset: nat, data: bytes): (r: Result<(Inbox, Option<bytes>), ResumeError>)
    {
      if offset + |data| <= |got| then Ok((this, None))
      else if offset > |got| then Err(Gap(|got|, offset))
      else
        var news := data[|got| - offset..];
        Ok((this.(got := got + news), Some(news)))
    }

    function MarkFin(): Inbox { this.(finAt := Some(|got|)) }
  }

  const NEW_INBOX := Inbox([], None)
}
