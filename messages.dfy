/** The messages the flow-control accountant looks at, reduced to what it needs
    of them: the routing layer's flood classification, the XDR sizes of the
    whole message and of its type discriminant, and for capacity grants the
    magnitudes they carry. */
module Messages {

  /** The overlay protocol version from which a message's cost in bytes no
      longer counts its type discriminant. Its value is declared outside this
      model, so it is left uninterpreted. */
  const FirstVersionUpdatedFlowControlAccounting: Version

  /** Overlay protocol versions that can mark a change of behaviour: version 0
      never does, so some version always precedes the threshold. */
  type Version = v: nat | v > 0 witness 1

  /** The body of a message, as far as flow control distinguishes it:
      the two capacity-grant kinds and everything else. */
  datatype MessageBody =
    | SendMore(numMessages: nat)
    | SendMoreExtended(numMessages: nat, numBytes: nat)
    | OtherBody

  datatype RawMessage = RawMessage(body: MessageBody, isFlood: bool, xdrSize: nat, typeSize: nat)

  /** A serialized message always contains its own type discriminant. */
  type StellarMessage = m: RawMessage | m.typeSize <= m.xdrSize
    witness RawMessage(OtherBody, false, 0, 0)

  /** Both peers count a message's bytes without its discriminant. */
  predicate UpdatedAccounting(remoteVersion: nat, localVersion: nat)
  {
    remoteVersion >= FirstVersionUpdatedFlowControlAccounting &&
    localVersion >= FirstVersionUpdatedFlowControlAccounting
  }

  /** The cost of a message in bytes under the overlay versions of both peers. */
  function MsgBodySize(msg: StellarMessage, remoteVersion: nat, localVersion: nat): (r: nat)
    ensures r <= msg.xdrSize
    ensures r + msg.typeSize >= msg.xdrSize
    ensures r == msg.xdrSize <==> !UpdatedAccounting(remoteVersion, localVersion) || msg.typeSize == 0
  {
    if UpdatedAccounting(remoteVersion, localVersion) then
      msg.xdrSize - msg.typeSize
    else
      msg.xdrSize
  }

  /** Whichever versions select each regime, the old regime charges exactly
      the discriminant's size more than the updated one. */
  lemma OldRegimeChargesDiscriminant(msg: StellarMessage, newRemote: nat, newLocal: nat,
                                     oldRemote: nat, oldLocal: nat)
    requires UpdatedAccounting(newRemote, newLocal)
    requires !UpdatedAccounting(oldRemote, oldLocal)
    ensures MsgBodySize(msg, oldRemote, oldLocal)
            == MsgBodySize(msg, newRemote, newLocal) + msg.typeSize
  {
  }

  /** The message count a grant carries (`FlowControl::getNumMessages`). */
  function NumMessages(body: MessageBody): (n: nat)
    requires body.SendMore? || body.SendMoreExtended?
  {
    match body
    case SendMore(n) => n
    case SendMoreExtended(n, _) => n
  }
}
