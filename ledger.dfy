/**
 * The Stellar SDK values the backend handles, reduced to what its own code decides:
 * accounts loaded from the gateway, operations, time bounds and transactions. Keys and
 * signatures are opaque; amounts are integers (stroops) passed through unchanged.
 */
module Ledger {
  import opened Wrappers

  type PublicKey = string
  type Amount = int

  /** `Asset.native()`, the only asset the backend pays in. */
  datatype Asset = Native

  datatype Operation =
    | Payment(destination: PublicKey, asset: Asset, amount: Amount)
    | SetThresholds(masterWeight: int, lowThreshold: int, medThreshold: int, highThreshold: int)
    | SetSigner(signerKey: PublicKey, weight: int)

  /** Unix times; a `maxTime` of 0 means the transaction has no upper time bound. */
  datatype TimeBounds = TimeBounds(minTime: int, maxTime: int)

  /** A decorated signature: the key hint and the signature bytes, both opaque. */
  datatype Signature = Signature(hint: seq<int>, bytes: seq<int>)

  datatype Balance = Balance(assetType: string, balance: string)

  /** An account as `server.loadAccount` returns it. */
  datatype Account = Account(accountId: PublicKey, sequence: int, balances: seq<Balance>)

  /** The extras of a rejected submission (`response.data.extras.result_codes`). */
  datatype ResultCodes = ResultCodes(transaction: string, operations: seq<string>)

  /** A failed gateway call: the result codes when the ledger sent some, and the error's message. */
  datatype GatewayError = GatewayError(resultCodes: Option<ResultCodes>, message: string)

  /** A built transaction. `signers` is the `_signers` property the backend may attach. */
  datatype Tx = Tx(
    source: PublicKey,
    baseFee: int,
    operations: seq<Operation>,
    timeBounds: Option<TimeBounds>,
    signatures: seq<Signature>,
    signers: Option<seq<PublicKey>>)

  /** The ledger's rule for time bounds: no bounds, or `minTime <= closeTime` and, unless
      `maxTime` is 0, `closeTime <= maxTime`. */
  predicate ValidAt(tb: Option<TimeBounds>, closeTime: int) {
    || tb.None?
    || (tb.value.minTime <= closeTime && (tb.value.maxTime == 0 || closeTime <= tb.value.maxTime))
  }

  /** A transaction as built by the SDK, not yet signed and without attached signers. */
  function Unsigned(source: PublicKey, baseFee: int, operations: seq<Operation>, timeBounds: Option<TimeBounds>)
    : Tx
  {
    Tx(source, baseFee, operations, timeBounds, [], None)
  }

  /** The SDK's transaction object, modelled as an object whose properties can be reassigned,
      as the backend's code assumes when it writes to them. */
  class Transaction {
    var source: PublicKey
    var baseFee: int
    var operations: seq<Operation>
    var timeBounds: Option<TimeBounds>
    var signatures: seq<Signature>
    var signers: Option<seq<PublicKey>>

    function Value(): Tx
      reads this
    {
      Tx(source, baseFee, operations, timeBounds, signatures, signers)
    }

    constructor (tx: Tx)
      ensures Value() == tx
    {
      source := tx.source;
      baseFee := tx.baseFee;
      operations := tx.operations;
      timeBounds := tx.timeBounds;
      signatures := tx.signatures;
      signers := tx.signers;
    }
  }
}
