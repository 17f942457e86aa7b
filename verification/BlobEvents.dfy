/** What a blob behaviour and its connection handler say to each other. */
module BlobEvents {
  import opened Basics

  datatype FromBehaviour =
    | NewFileSend(fileName: Bytes, localSendId: nat, bytesTotal: nat)
    | FileChunk(localSendId: nat, bytesToSend: Bytes)
    | AcceptFile(remoteSendId: nat)
    | LocalCancelSend(localSendId: nat)
    | LocalCancelRecv(remoteSendId: nat)

  datatype Error =
    | UnrecognizedMessage
    | Io
    | UnexpectedEof(localRecvId: nat)

  datatype ToBehaviour =
    | RecvProgressed(remoteSendId: nat, content: Bytes)
    | SendProgressed(localSendId: nat)
    | IncomingFile(fileName: Bytes, remoteSendId: nat, bytesTotal: nat)
    | FileSendAccepted(localSendId: nat)
    | FileSendPending(localSendId: nat)
    | RemoteCancelSend(localSendId: nat)
    | RemoteCancelRecv(remoteSendId: nat)
    | Failure(error: Error)
    | InboundNegotiated
    | OutboundNegotiated
    | Unsupported

  /** How the remote sees an event: an id that is local here is remote there, and back. */
  function Mirror(ev: FromBehaviour): ToBehaviour {
    match ev
    case NewFileSend(name, id, total) => IncomingFile(name, id, total)
    case FileChunk(id, content) => RecvProgressed(id, content)
    case AcceptFile(id) => FileSendAccepted(id)
    case LocalCancelSend(id) => RemoteCancelRecv(id)
    case LocalCancelRecv(id) => RemoteCancelSend(id)
  }
}
