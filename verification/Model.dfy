/** internal/model: the records and requests of the phonebook, with the store's errors. */
module Model {
  import opened Keys

  datatype Option<+T> = None | Some(value: T)

  /** The sentinel errors of internal/store/store.go that the in-memory store returns. */
  datatype StoreError =
    | NotFound
    | InvalidPeer
    | InvalidKey
    | InvalidChunk
    | ChunkNotFound
    | InvalidSignature
    | NoSigningKey

  datatype Result<+T> = Ok(value: T) | Err(error: StoreError)

  datatype Quality = Quality(valid: int, invalid: int)

  /** `lastSeen` is in nanoseconds. */
  datatype Peer = Peer(
    id: string,
    login: string,
    encryptionKey: string,
    signatureKey: string,
    lastSeen: int,
    ttl: int,
    score: int,
    quality: Quality,
    flag: string,
    fake: bool)
  {
    function Key(): string {
      PeerKey(login, signatureKey)
    }
  }

  datatype RegisterRequest = RegisterRequest(
    id: string,
    login: string,
    encryptionKey: string,
    signatureKey: string,
    ttl: int,
    flag: string,
    fake: Option<bool>)

  datatype RefreshRequest = RefreshRequest(id: string, login: string, signatureKey: string)

  datatype ChunkRequest = ChunkRequest(
    sender: string,
    recipient: string,
    hash: string,
    signature: string,
    peerId: string,
    persist: bool,
    ttl: int)

  datatype ReportRequest = ReportRequest(reporter: string, fileId: string, index: int, hash: string, signature: string)

  datatype ConfirmRequest = ConfirmRequest(recipient: string, fileId: string, index: int, hash: string,
                                           signature: string)

  datatype ReadRequest = ReadRequest(recipient: string, fileId: string, signature: string)

  /** The answer to a report or a confirmation. */
  datatype Verdict = Verdict(valid: bool, expected: string, given: string, delta: int, peer: Peer)

  datatype Signal = Signal(from: string, kind: string, data: string)

  /** One stored chunk; `createdAt` and `updatedAt` are Unix seconds. */
  datatype Entry = Entry(
    key: string,
    hash: string,
    sender: string,
    recipient: string,
    peerId: string,
    persist: bool,
    confirmed: bool,
    readed: bool,
    createdAt: int,
    updatedAt: int,
    ttl: int)

  /** One chunk as the listing calls return it. */
  datatype Record = Record(
    fileId: string,
    index: int,
    sender: string,
    recipient: string,
    hash: string,
    peerId: string,
    persist: bool,
    confirmed: bool,
    readed: bool,
    createdAt: int,
    updatedAt: int,
    ttl: int)

  /** Signature verification: public key, signature, message. */
  type Verifier = (string, string, string) -> bool
}
