/**
 * The backend's account manager (backend/src/stellar/accountManager.js): the transaction that
 * installs an account's thresholds and signers, and the two queries that fold a failed
 * `loadAccount` into `false` or `null`.
 */
module AccountManager {
  import opened Wrappers
  import opened Ledger

  datatype Signer = Signer(publicKey: PublicKey, weight: int)

  datatype Thresholds = Thresholds(masterWeight: int, lowThreshold: int, medThreshold: int, highThreshold: int)

  /** `addMultiSigRequirements`, given the account loaded for `accountPublicKey` and the base fee:
      one `setOptions` with the thresholds, then one `setOptions` per signer, in order. */
  method AddMultiSigRequirements(account: Account, fee: int, signers: seq<Signer>, thresholds: Thresholds)
    returns (tx: Tx)
    ensures tx.source == account.accountId && tx.baseFee == fee
    ensures |tx.operations| == 1 + |signers|
    ensures tx.operations[0] == SetThresholds(thresholds.masterWeight, thresholds.lowThreshold,
                                              thresholds.medThreshold, thresholds.highThreshold)
    ensures forall i :: 0 <= i < |signers| ==>
              tx.operations[i + 1] == SetSigner(signers[i].publicKey, signers[i].weight)
    ensures tx.timeBounds == None && tx.signatures == [] && tx.signers == None
  {
    var operations := [SetThresholds(thresholds.masterWeight, thresholds.lowThreshold,
                                     thresholds.medThreshold, thresholds.highThreshold)];
    for i := 0 to |signers|
      invariant |operations| == 1 + i
      invariant operations[0] == SetThresholds(thresholds.masterWeight, thresholds.lowThreshold,
                                               thresholds.medThreshold, thresholds.highThreshold)
      invariant forall j :: 0 <= j < i ==> operations[j + 1] == SetSigner(signers[j].publicKey, signers[j].weight)
    {
      operations := operations + [SetSigner(signers[i].publicKey, signers[i].weight)];
    }
    tx := Unsigned(account.accountId, fee, operations, None);
  }

  /** `getAccountBalance`, given the outcome of `loadAccount`: the balances, or null on any failure. */
  function GetAccountBalance(loaded: Result<Account, GatewayError>): (r: Option<seq<Balance>>)
    ensures r.Some? <==> loaded.Ok?
    ensures loaded.Ok? ==> r.value == loaded.value.balances
  {
    match loaded
    case Ok(account) => Some(account.balances)
    case Err(_) => None
  }

  /** `accountExists`, given the outcome of `loadAccount`: true exactly when the load succeeded. */
  function AccountExists(loaded: Result<Account, GatewayError>): (r: bool)
    ensures r <==> loaded.Ok?
  {
    loaded.Ok?
  }

  /** The two queries agree: there is a balance exactly when the account exists. */
  lemma BalanceIffExists(loaded: Result<Account, GatewayError>)
    ensures GetAccountBalance(loaded).Some? <==> AccountExists(loaded)
  {
  }
}
