/**
  The core steps of identity registration: building the lock transaction,
  subscribing to the filtered transaction stream, broadcasting the
  transaction and waiting on the stream for an instant-send lock.

  Network calls are not made here: the replies the network gives are a
  parameter (`NetworkReplies`), and the requests the registration issues are
  returned, in order, so that their order can be stated.
*/
module Identity {
  import opened Wrappers
  import opened Wallet

  const StreamClosedMessage: string := "steam closed unexpectedly"
  const MissingChainMessage: string := "missing `chain` field"

  /** Registration errors: a message, or the wallet error the lock transaction failed with. */
  datatype RegisterIdentityError =
    | RegisterIdentityError(message: string)
    | FromWalletError(cause: WalletError)

  // ---------------------------------------------------------------------
  // The transaction stream

  datatype InstantSendLockMessages = InstantSendLockMessages(messages: seq<Bytes>)

  /** The variants a stream response can carry. */
  datatype Responses =
    | RawTransactions(transactions: seq<Bytes>)
    | InstantSendLocks(locks: InstantSendLockMessages)
    | RawMerkleBlock(block: Bytes)

  datatype TransactionsWithProofsResponse = TransactionsWithProofsResponse(responses: Option<Responses>)

  /**
    One read from the stream: a read error, or a response. The end of the
    sequence of reads is the end of the stream.
  */
  datatype StreamRead =
    | ReadFailed(message: string)
    | Received(response: TransactionsWithProofsResponse)

  /** A response carrying instant-send lock messages. */
  predicate IsLock(read: StreamRead) {
    read.Received? && read.response.responses.Some? && read.response.responses.value.InstantSendLocks?
  }

  /** A response the wait passes over: any other variant, or no variant at all. */
  predicate Skipped(read: StreamRead) {
    read.Received? && !IsLock(read)
  }

  /** Position of the first read that ends the wait, or the stream's length when none does. */
  function FirstDecisive(stream: seq<StreamRead>): (i: nat)
    ensures i <= |stream|
    ensures forall j | 0 <= j < i :: Skipped(stream[j])
    ensures i < |stream| ==> !Skipped(stream[i])
  {
    if stream == [] || !Skipped(stream[0]) then 0
    else 1 + FirstDecisive(stream[1..])
  }

  /** What the wait returns on `stream`. */
  function WaitOutcome(stream: seq<StreamRead>): Result<InstantSendLockMessages, RegisterIdentityError> {
    var i := FirstDecisive(stream);
    if i == |stream| then Err(RegisterIdentityError(StreamClosedMessage))
    else match stream[i]
      case ReadFailed(message) => Err(RegisterIdentityError(message))
      case Received(response) => Ok(response.responses.value.locks)
  }

  /** How many reads of `stream` the wait consumes. */
  function ReadsConsumed(stream: seq<StreamRead>): nat {
    var i := FirstDecisive(stream);
    if i == |stream| then i else i + 1
  }

  /**
    Reads the stream one response at a time, passing over every response
    that carries no instant-send lock messages, and returns the first lock
    messages it reads. A read error, or the end of the stream, ends the wait
    with an error. `read` is the number of reads consumed.
  */
  method WaitForInstantSendLockMessages(stream: seq<StreamRead>)
    returns (r: Result<InstantSendLockMessages, RegisterIdentityError>, read: nat)
    ensures r == WaitOutcome(stream)
    ensures read == ReadsConsumed(stream)
  {
    var i := 0;
    while true
      invariant i <= |stream|
      invariant forall j | 0 <= j < i :: Skipped(stream[j])
      decreases |stream| - i
    {
      if i == |stream| {
        return Err(RegisterIdentityError(StreamClosedMessage)), i;
      }
      var next := stream[i];
      i := i + 1;
      match next {
        case ReadFailed(message) =>
          return Err(RegisterIdentityError(message)), i;
        case Received(response) =>
          if response.responses.Some? && response.responses.value.InstantSendLocks? {
            return Ok(response.responses.value.locks), i;
          }
      }
    }
  }

  /** Reads passed over before `rest` do not change where the wait ends. */
  lemma {:induction false} DecisiveAfterSkipped(skipped: seq<StreamRead>, rest: seq<StreamRead>)
    requires forall j | 0 <= j < |skipped| :: Skipped(skipped[j])
    ensures FirstDecisive(skipped + rest) == |skipped| + FirstDecisive(rest)
  {
    if skipped == [] {
      assert skipped + rest == rest;
    } else {
      assert (skipped + rest)[0] == skipped[0];
      assert (skipped + rest)[1..] == skipped[1..] + rest;
      DecisiveAfterSkipped(skipped[1..], rest);
    }
  }

  /**
    The wait returns the first lock messages of the stream, whatever they
    contain, and reads nothing after them.
  */
  lemma WaitReturnsFirstLock(skipped: seq<StreamRead>, locks: InstantSendLockMessages, rest: seq<StreamRead>)
    requires forall j | 0 <= j < |skipped| :: Skipped(skipped[j])
    ensures var stream := skipped + [Received(TransactionsWithProofsResponse(Some(InstantSendLocks(locks))))] + rest;
      && WaitOutcome(stream) == Ok(locks)
      && ReadsConsumed(stream) == |skipped| + 1
  {
    var lock := Received(TransactionsWithProofsResponse(Some(InstantSendLocks(locks))));
    assert skipped + [lock] + rest == skipped + ([lock] + rest);
    DecisiveAfterSkipped(skipped, [lock] + rest);
  }

  /** A read error ends the wait with that error, even when a lock would follow. */
  lemma WaitFailsOnReadError(skipped: seq<StreamRead>, message: string, rest: seq<StreamRead>)
    requires forall j | 0 <= j < |skipped| :: Skipped(skipped[j])
    ensures var stream := skipped + [ReadFailed(message)] + rest;
      && WaitOutcome(stream) == Err(RegisterIdentityError(message))
      && ReadsConsumed(stream) == |skipped| + 1
  {
    assert skipped + [ReadFailed(message)] + rest == skipped + ([ReadFailed(message)] + rest);
    DecisiveAfterSkipped(skipped, [ReadFailed(message)] + rest);
  }

  /** A stream that ends before any lock ends the wait with the stream-closed error. */
  lemma WaitFailsWhenClosed(skipped: seq<StreamRead>)
    requires forall j | 0 <= j < |skipped| :: Skipped(skipped[j])
    ensures WaitOutcome(skipped) == Err(RegisterIdentityError(StreamClosedMessage))
    ensures ReadsConsumed(skipped) == |skipped|
  {
    assert skipped + [] == skipped;
    DecisiveAfterSkipped(skipped, []);
  }

  // ---------------------------------------------------------------------
  // The registration

  datatype ChainStatus = ChainStatus(bestBlockHash: Bytes)
  datatype GetStatusResponse = GetStatusResponse(chain: Option<ChainStatus>)

  /** The replies of the network to the three requests, in order. */
  datatype NetworkReplies = NetworkReplies(
    status: Result<GetStatusResponse, string>,
    subscription: Result<seq<StreamRead>, string>,
    broadcast: Result<(), string>)

  /** The steps a registration performs against the network. */
  datatype Request =
    | GetStatus
    | SubscribeToTransactionsWithProofs(fromBlockHash: Bytes)
    | BroadcastTransaction(transaction: Transaction, allowHighFees: bool, bypassLimits: bool)
    | AwaitInstantSendLock

  /** How a registration ends. */
  datatype Registration =
    | NoWallet
    | Failed(error: RegisterIdentityError)
    /** The lock was confirmed; the platform steps that follow are not implemented. */
    | LockConfirmed(locks: InstantSendLockMessages)

  /**
    The network steps of a registration for `tx`, with the requests issued:
    status query, stream subscription from the reported best block,
    broadcast, wait. The first failing step ends the sequence.
  */
  function NetworkSteps(tx: Transaction, replies: NetworkReplies): (out: (Registration, seq<Request>))
    ensures 1 <= |out.1| <= 4 && out.1[0] == GetStatus
    ensures |out.1| >= 2 ==>
      && replies.status.Ok? && replies.status.value.chain.Some?
      && out.1[1] == SubscribeToTransactionsWithProofs(replies.status.value.chain.value.bestBlockHash)
    ensures |out.1| >= 3 ==> replies.subscription.Ok? && out.1[2] == BroadcastTransaction(tx, false, false)
    ensures |out.1| == 4 ==> replies.broadcast.Ok? && out.1[3] == AwaitInstantSendLock
    ensures |out.1| < 4 ==> out.0.Failed?
    ensures replies.status.Ok? && replies.status.value.chain.Some? ==> |out.1| >= 2
    ensures |out.1| >= 2 && replies.subscription.Ok? ==> |out.1| >= 3
    ensures |out.1| >= 3 && replies.broadcast.Ok? ==> |out.1| == 4
    ensures |out.1| == 1 ==>
      out.0 == Failed(if replies.status.Err? then RegisterIdentityError(replies.status.error)
                      else RegisterIdentityError(MissingChainMessage))
    ensures |out.1| == 2 ==> out.0 == Failed(RegisterIdentityError(replies.subscription.error))
    ensures |out.1| == 3 ==> out.0 == Failed(RegisterIdentityError(replies.broadcast.error))
    ensures |out.1| == 4 ==>
      out.0 == match WaitOutcome(replies.subscription.value)
        case Ok(locks) => LockConfirmed(locks)
        case Err(error) => Failed(error)
    ensures out.0.LockConfirmed? <==> |out.1| == 4 && replies.subscription.Ok? && WaitOutcome(replies.subscription.value).Ok?
  {
    match replies.status
    case Err(message) => (Failed(RegisterIdentityError(message)), [GetStatus])
    case Ok(status) =>
      if status.chain.None? then (Failed(RegisterIdentityError(MissingChainMessage)), [GetStatus])
      else
        var subscribe := SubscribeToTransactionsWithProofs(status.chain.value.bestBlockHash);
        match replies.subscription
        case Err(message) => (Failed(RegisterIdentityError(message)), [GetStatus, subscribe])
        case Ok(stream) =>
          var broadcast := BroadcastTransaction(tx, false, false);
          match replies.broadcast
          case Err(message) => (Failed(RegisterIdentityError(message)), [GetStatus, subscribe, broadcast])
          case Ok(_) =>
            var outcome := match WaitOutcome(stream)
              case Ok(locks) => LockConfirmed(locks)
              case Err(error) => Failed(error);
            (outcome, [GetStatus, subscribe, broadcast, AwaitInstantSendLock])
  }

  /** The stream is opened before the transaction is broadcast, so its lock cannot be missed. */
  lemma SubscribeBeforeBroadcast(tx: Transaction, replies: NetworkReplies, k: nat)
    requires k < |NetworkSteps(tx, replies).1| && NetworkSteps(tx, replies).1[k].BroadcastTransaction?
    ensures exists j | 0 <= j < k :: NetworkSteps(tx, replies).1[j].SubscribeToTransactionsWithProofs?
  {
    assert NetworkSteps(tx, replies).1[1].SubscribeToTransactionsWithProofs?;
  }

  class AppState {
    var loadedWallet: SingleKeyWallet?
    /** The secret of the one-time key the lock transaction burns to. */
    var identityCreationPrivateKey: Option<Bytes>

    constructor (wallet: SingleKeyWallet?)
      ensures loadedWallet == wallet && identityCreationPrivateKey == None
    {
      loadedWallet := wallet;
      identityCreationPrivateKey := None;
    }

    /**
      Registers an identity funded with `amount`: without a loaded wallet it
      does nothing. Otherwise it builds the lock transaction (reserving the
      wallet's outputs), keeps the one-time key's secret, and runs the
      network steps. `oneTimeKey`, `oneTimeKeyHash` and `order` stand for the
      random key, the hash of its public key and the wallet's iteration order.
    */
    method RegisterIdentity(
      amount: nat, oneTimeKey: PrivateKey, oneTimeKeyHash: PubkeyHash,
      order: seq<OutPoint>, replies: NetworkReplies)
      returns (r: Registration, requests: seq<Request>)
      requires amount <= I64Max
      requires loadedWallet != null ==>
        Enumerates(order, loadedWallet.utxos) && TotalValue(loadedWallet.utxos) <= I64Max
      modifies this, loadedWallet
      ensures loadedWallet == old(loadedWallet)
      ensures loadedWallet == null ==>
        r == NoWallet && requests == [] && identityCreationPrivateKey == old(identityCreationPrivateKey)
      ensures loadedWallet != null ==>
        var selection := Select(old(loadedWallet.utxos), order, amount, loadedWallet.publicKey, loadedWallet.address);
        match selection
        case None =>
          && r == Failed(FromWalletError(WalletError(NotEnoughBalance)))
          && requests == []
          && loadedWallet.utxos == old(loadedWallet.utxos)
          && identityCreationPrivateKey == old(identityCreationPrivateKey)
        case Some((taken, change)) =>
          && loadedWallet.utxos == old(loadedWallet.utxos) - taken.Keys
          && identityCreationPrivateKey == Some(oneTimeKey.secret)
          && (r, requests) == NetworkSteps(LockTransaction(amount, oneTimeKeyHash, change, loadedWallet.address), replies)
    {
      var wallet := loadedWallet;
      if wallet == null {
        return NoWallet, [];
      }

      var created := wallet.RegistrationTransaction(amount, oneTimeKey, oneTimeKeyHash, order);
      if created.Err? {
        return Failed(FromWalletError(created.error)), [];
      }
      var (transaction, privateKey) := created.value;
      identityCreationPrivateKey := Some(privateKey.secret);

      requests := [GetStatus];
      if replies.status.Err? {
        return Failed(RegisterIdentityError(replies.status.error)), requests;
      }
      if replies.status.value.chain.None? {
        return Failed(RegisterIdentityError(MissingChainMessage)), requests;
      }
      var blockHash := replies.status.value.chain.value.bestBlockHash;

      requests := requests + [SubscribeToTransactionsWithProofs(blockHash)];
      if replies.subscription.Err? {
        assert requests == NetworkSteps(transaction, replies).1;
        return Failed(RegisterIdentityError(replies.subscription.error)), requests;
      }
      var stream := replies.subscription.value;

      requests := requests + [BroadcastTransaction(transaction, false, false)];
      if replies.broadcast.Err? {
        assert requests == NetworkSteps(transaction, replies).1;
        return Failed(RegisterIdentityError(replies.broadcast.error)), requests;
      }

      requests := requests + [AwaitInstantSendLock];
      var locks, _ := WaitForInstantSendLockMessages(stream);
      assert requests == NetworkSteps(transaction, replies).1;
      if locks.Err? {
        return Failed(locks.error), requests;
      }
      r := LockConfirmed(locks.value);
    }
  }
}
