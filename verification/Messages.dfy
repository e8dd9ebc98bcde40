/** The values that validators exchange (consensus/protocol/protocol.go, consensus/state/state.go).

    A Go string that may hold a SHA-256 digest is a `Digest`: either a plain text, or the hash of
    some bytes, of a state-transition record or of a block. Hashing is thereby injective, and no
    hash equals the hash of a value of another kind. */
module Messages {

  datatype Option<+T> = None | Some(value: T)

  datatype Digest =
    | Text(text: string)
    | OfBytes(bytes: string)
    | OfTransition(previous: Digest, applied: seq<Transaction>)
    | OfBlock(block: Block)

  datatype Transaction = Transaction(id: Digest, payload: string)

  datatype Block = Block(
    height: nat,
    round: nat,
    previousHash: Digest,
    payload: string,
    transactions: seq<Transaction>,
    stateDigest: Digest,
    proposerId: string,
    membershipVersion: nat,
    validatorSetHash: string,
    createdAt: int)
  {
    function Hash(): Digest { OfBlock(this) }
  }

  const EMPTY: Digest := Text("")
  const GENESIS_HASH: Digest := Text("GENESIS")

  /** The characters that `strings.TrimSpace` removes. */
  predicate IsSpace(c: char)
  {
    var code := c as int;
    || 9 <= code <= 13 || code == 32 || code == 0x85 || code == 0xA0 || code == 0x1680
    || 0x2000 <= code <= 0x200A || code == 0x2028 || code == 0x2029 || code == 0x202F
    || code == 0x205F || code == 0x3000
  }

  /** `strings.TrimSpace(s) == ""`; a hexadecimal digest is never blank. */
  predicate Blank(d: Digest)
  {
    d.Text? && AllSpace(d.text)
  }

  predicate AllSpace(text: string)
  {
    text == "" || (IsSpace(text[0]) && AllSpace(text[1..]))
  }

  /** The reasons for which the consensus core turns a message down. */
  datatype Rejection =
    | EmptyValidatorSet | ZeroHeight
    | BadDecision | BadStage | MissingBlockHash | UnknownIdentity | AlgorithmMismatch
    | BadSignature | BadThreshold | ThresholdTooLarge | VoteMismatch | DuplicateVote
    | VoteCountMismatch | InsufficientVotes
    | MissingPreviousHash | MissingProposer | RoundMismatch
    | MissingPrevoteCertificate | CertificateMismatch
    | StaleHeight | FutureHeight | StaleRound | WrongProposer | PreviousHashMismatch
    | StateDigestMismatch | ConflictingProposal | Locked | AlreadyVoted
    | MissingDigest | MissingTransactionId
    | HashMismatch | HeightMismatch | NotPrecommit | ThresholdMismatch | MembershipMismatch
    | ConflictingCommit | HeightGap | StoreConflict
    | CandidateBehind | CandidateDiverges
    | UnknownKey | MalformedRecord | LineTooLong | DurableStateMismatch

  datatype Result<+T> = Ok(value: T) | Err(reason: Rejection)

  datatype Outcome = Pass | Fail(reason: Rejection)
}
