/**
 * The backend's escrow service (backend/src/stellar/escrowContract.js): the multi-signature
 * configuration of a new escrow account, the time-locked and refund payments, the signature
 * check and the folding of a submission's outcome into a result record.
 *
 * The gateway's answers (the loaded account, the base fee, the submission outcome), the fresh
 * keypair and the signature verifier are parameters.
 */
module EscrowContract {
  import opened Wrappers
  import opened Ledger

  datatype Keypair = Keypair(publicKey: PublicKey, secret: string)

  datatype SignerDetail = SignerDetail(publicKey: PublicKey, weight: int)

  datatype MultiSigOptions = MultiSigOptions(
    masterWeight: int,
    lowThreshold: int,
    medThreshold: int,
    highThreshold: int,
    signerDetails: seq<SignerDetail>)

  datatype EscrowAccount = EscrowAccount(publicKey: PublicKey, secretKey: string, multiSigOptions: MultiSigOptions)

  /** `createEscrowAccount`, given the keypair `Keypair.random()` produced. */
  function CreateEscrowAccount(clientPublicKey: PublicKey, freelancerPublicKey: PublicKey, escrowKeypair: Keypair)
    : (r: EscrowAccount)
    ensures r.publicKey == escrowKeypair.publicKey && r.secretKey == escrowKeypair.secret
    ensures r.multiSigOptions.masterWeight == 0
    ensures r.multiSigOptions.lowThreshold == r.multiSigOptions.medThreshold == r.multiSigOptions.highThreshold == 2
    ensures |r.multiSigOptions.signerDetails| == 2
    ensures r.multiSigOptions.signerDetails[0] == SignerDetail(clientPublicKey, 1)
    ensures r.multiSigOptions.signerDetails[1] == SignerDetail(freelancerPublicKey, 1)
  {
    var multiSigOptions := MultiSigOptions(0, 2, 2, 2, [SignerDetail(clientPublicKey, 1), SignerDetail(freelancerPublicKey, 1)]);
    EscrowAccount(escrowKeypair.publicKey, escrowKeypair.secret, multiSigOptions)
  }

  /** The summed weight of the listed signers whose key is among `keys`. */
  function SignerWeight(signers: seq<SignerDetail>, keys: set<PublicKey>): int {
    if signers == [] then 0
    else (if signers[0].publicKey in keys then signers[0].weight else 0) + SignerWeight(signers[1..], keys)
  }

  /** The weight the keys in `keys` carry on an account configured with `o` whose own key is `accountKey`. */
  function AuthorizingWeight(o: MultiSigOptions, accountKey: PublicKey, keys: set<PublicKey>): int {
    (if accountKey in keys then o.masterWeight else 0) + SignerWeight(o.signerDetails, keys)
  }

  /** The configuration forces co-signing: for distinct parties, a set of keys reaches each of
      the three thresholds exactly when it holds both the client's and the freelancer's key,
      whether or not it holds the escrow's own key. */
  lemma {:induction false} EscrowNeedsBothParties(
    clientPublicKey: PublicKey, freelancerPublicKey: PublicKey, escrowKeypair: Keypair, keys: set<PublicKey>)
    requires clientPublicKey != freelancerPublicKey
    ensures var e := CreateEscrowAccount(clientPublicKey, freelancerPublicKey, escrowKeypair);
            var o := e.multiSigOptions;
            var w := AuthorizingWeight(o, e.publicKey, keys);
            && (w >= o.lowThreshold <==> clientPublicKey in keys && freelancerPublicKey in keys)
            && (w >= o.medThreshold <==> clientPublicKey in keys && freelancerPublicKey in keys)
            && (w >= o.highThreshold <==> clientPublicKey in keys && freelancerPublicKey in keys)
  {
    var e := CreateEscrowAccount(clientPublicKey, freelancerPublicKey, escrowKeypair);
    var signers := e.multiSigOptions.signerDetails;
    assert signers[1..][1..] == [];
    assert SignerWeight(signers[1..], keys) == (if freelancerPublicKey in keys then 1 else 0);
    assert SignerWeight(signers, keys)
        == (if clientPublicKey in keys then 1 else 0) + (if freelancerPublicKey in keys then 1 else 0);
  }

  /** `createTimeLockTransaction`: one native payment from the escrow account, valid from `lockTime` on with no upper bound. */
  function CreateTimeLockTransaction(
    escrow: Account, fee: int, destinationPublicKey: PublicKey, amount: Amount, lockTime: int): (tx: Tx)
    ensures tx.source == escrow.accountId && tx.baseFee == fee
    ensures tx.operations == [Payment(destinationPublicKey, Native, amount)]
    ensures tx.signatures == [] && tx.signers == None
    ensures forall t :: ValidAt(tx.timeBounds, t) <==> lockTime <= t
  {
    Unsigned(escrow.accountId, fee, [Payment(destinationPublicKey, Native, amount)], Some(TimeBounds(lockTime, 0)))
  }

  /** `createRefundTransaction`: one native payment from the escrow account back to the client, with no time bounds. */
  function CreateRefundTransaction(escrow: Account, fee: int, clientPublicKey: PublicKey, amount: Amount): (tx: Tx)
    ensures tx.source == escrow.accountId && tx.baseFee == fee
    ensures tx.operations == [Payment(clientPublicKey, Native, amount)]
    ensures tx.timeBounds == None && forall t :: ValidAt(tx.timeBounds, t)
    ensures tx.signatures == [] && tx.signers == None
  {
    Unsigned(escrow.accountId, fee, [Payment(clientPublicKey, Native, amount)], None)
  }

  /** The gateway's answer to an accepted submission. */
  datatype SubmitResponse = SubmitResponse(hash: string, ledger: int)

  /** The `error` field of a failed submission: the ledger's result codes, or else the message. */
  datatype SubmitError = Codes(codes: ResultCodes) | Message(message: string)

  /** The record `submitTransaction` resolves to; it never rejects. */
  datatype SubmitReport = Submitted(transactionHash: string, ledger: int) | NotSubmitted(error: SubmitError)

  /** `submitTransaction`, given the gateway's outcome for the submission. */
  function SubmitTransaction(outcome: Result<SubmitResponse, GatewayError>): (r: SubmitReport)
    ensures r.Submitted? <==> outcome.Ok?
    ensures outcome.Ok? ==> r.transactionHash == outcome.value.hash && r.ledger == outcome.value.ledger
    ensures outcome.Err? && outcome.error.resultCodes.Some? ==> r.error == Codes(outcome.error.resultCodes.value)
    ensures outcome.Err? && outcome.error.resultCodes.None? ==> r.error == Message(outcome.error.message)
  {
    match outcome
    case Ok(result) => Submitted(result.hash, result.ledger)
    case Err(error) =>
      NotSubmitted(if error.resultCodes.Some? then Codes(error.resultCodes.value) else Message(error.message))
  }

  /** `verifyTransactionSignatures` as written: every signature is run through `verify`
      (which stands for `Keypair.fromPublicKey(hint).verify(hash, signature)`), then only the
      number of results is compared with the number of required signers. */
  function VerifyTransactionSignatures(tx: Tx, requiredSigners: seq<PublicKey>, verify: Signature -> bool)
    : (ok: bool)
    ensures ok <==> |tx.signatures| >= |requiredSigners|
  {
    var results := seq(|tx.signatures|, i requires 0 <= i < |tx.signatures| => verify(tx.signatures[i]));
    |results| >= |requiredSigners|
  }

  /** The answer does not depend on which signatures verify. */
  lemma VerifyIgnoresValidity(tx: Tx, requiredSigners: seq<PublicKey>, v1: Signature -> bool, v2: Signature -> bool)
    ensures VerifyTransactionSignatures(tx, requiredSigners, v1) == VerifyTransactionSignatures(tx, requiredSigners, v2)
  {
  }

  /** Adding a signature never turns an accepted transaction into a rejected one. */
  lemma VerifyMonotone(tx: Tx, requiredSigners: seq<PublicKey>, verify: Signature -> bool, sig: Signature)
    ensures VerifyTransactionSignatures(tx, requiredSigners, verify)
            ==> VerifyTransactionSignatures(tx.(signatures := tx.signatures + [sig]), requiredSigners, verify)
  {
  }

  /** Some signature in `sigs` comes from `key` (as `signerOf`, the lookup of the signature's
      hint, says) and verifies. */
  function SignedBy(sigs: seq<Signature>, key: PublicKey, signerOf: Signature -> Option<PublicKey>,
                    verify: Signature -> bool): (b: bool)
  {
    if sigs == [] then false
    else (signerOf(sigs[0]) == Some(key) && verify(sigs[0])) || SignedBy(sigs[1..], key, signerOf, verify)
  }

  /** `SignedBy` holds exactly when some signature of `key` verifies. */
  lemma {:induction false} SignedByWitness(sigs: seq<Signature>, key: PublicKey, signerOf: Signature -> Option<PublicKey>,
                                           verify: Signature -> bool)
    ensures SignedBy(sigs, key, signerOf, verify) <==>
            exists i :: 0 <= i < |sigs| && signerOf(sigs[i]) == Some(key) && verify(sigs[i])
    decreases |sigs|
  {
    if sigs != [] {
      SignedByWitness(sigs[1..], key, signerOf, verify);
      if exists i :: 0 <= i < |sigs| && signerOf(sigs[i]) == Some(key) && verify(sigs[i]) {
        var i :| 0 <= i < |sigs| && signerOf(sigs[i]) == Some(key) && verify(sigs[i]);
        if i > 0 {
          assert sigs[1..][i - 1] == sigs[i];
        }
      }
      if SignedBy(sigs[1..], key, signerOf, verify) {
        var j :| 0 <= j < |sigs[1..]| && signerOf(sigs[1..][j]) == Some(key) && verify(sigs[1..][j]);
        assert sigs[j + 1] == sigs[1..][j];
      }
    }
  }

  /** The check the discarded results were evidently computed for: every required signer has
      a signature of its own that verifies. */
  function VerifyRequiredSignatures(tx: Tx, requiredSigners: seq<PublicKey>,
                                    signerOf: Signature -> Option<PublicKey>, verify: Signature -> bool): (ok: bool)
    ensures ok <==> forall key :: key in requiredSigners ==>
                      exists i :: 0 <= i < |tx.signatures| && signerOf(tx.signatures[i]) == Some(key) && verify(tx.signatures[i])
  {
    SignedByWitnessAll(tx.signatures, requiredSigners, signerOf, verify);
    forall key :: key in requiredSigners ==> SignedBy(tx.signatures, key, signerOf, verify)
  }

  lemma SignedByWitnessAll(sigs: seq<Signature>, keys: seq<PublicKey>, signerOf: Signature -> Option<PublicKey>,
                           verify: Signature -> bool)
    ensures forall key :: key in keys ==>
              (SignedBy(sigs, key, signerOf, verify) <==>
               exists i :: 0 <= i < |sigs| && signerOf(sigs[i]) == Some(key) && verify(sigs[i]))
  {
    forall key | key in keys
      ensures SignedBy(sigs, key, signerOf, verify) <==>
              exists i :: 0 <= i < |sigs| && signerOf(sigs[i]) == Some(key) && verify(sigs[i])
    {
      SignedByWitness(sigs, key, signerOf, verify);
    }
  }

  /** Adding a signature never withdraws an acceptance of the corrected check. */
  lemma VerifyRequiredMonotone(tx: Tx, requiredSigners: seq<PublicKey>, signerOf: Signature -> Option<PublicKey>,
                               verify: Signature -> bool, sig: Signature)
    ensures VerifyRequiredSignatures(tx, requiredSigners, signerOf, verify)
            ==> VerifyRequiredSignatures(tx.(signatures := tx.signatures + [sig]), requiredSigners, signerOf, verify)
  {
    var sigs' := tx.signatures + [sig];
    forall key | key in requiredSigners && SignedBy(tx.signatures, key, signerOf, verify)
      ensures SignedBy(sigs', key, signerOf, verify)
    {
      SignedByWitness(tx.signatures, key, signerOf, verify);
      var i :| 0 <= i < |tx.signatures| && signerOf(tx.signatures[i]) == Some(key) && verify(tx.signatures[i]);
      assert sigs'[i] == tx.signatures[i];
      SignedByWitness(sigs', key, signerOf, verify);
    }
  }

  /** Under the corrected check, signatures that all come from one key never satisfy two
      distinct required signers, however many there are and whether or not they verify. */
  lemma OneKeyNeverSatisfiesTwo(tx: Tx, clientPublicKey: PublicKey, freelancerPublicKey: PublicKey, signer: PublicKey,
                                signerOf: Signature -> Option<PublicKey>, verify: Signature -> bool)
    requires clientPublicKey != freelancerPublicKey
    requires forall i :: 0 <= i < |tx.signatures| ==> signerOf(tx.signatures[i]) == Some(signer)
    ensures !VerifyRequiredSignatures(tx, [clientPublicKey, freelancerPublicKey], signerOf, verify)
  {
    var other := if signer == clientPublicKey then freelancerPublicKey else clientPublicKey;
    SignedByWitness(tx.signatures, other, signerOf, verify);
    assert other in [clientPublicKey, freelancerPublicKey];
  }

  /** Under the corrected check, valid signatures of the client and of the freelancer satisfy
      the escrow's two required signers. */
  lemma BothPartiesSatisfyRequired(tx: Tx, clientPublicKey: PublicKey, freelancerPublicKey: PublicKey,
                                   signerOf: Signature -> Option<PublicKey>, verify: Signature -> bool)
    requires |tx.signatures| == 2
    requires signerOf(tx.signatures[0]) == Some(clientPublicKey) && verify(tx.signatures[0])
    requires signerOf(tx.signatures[1]) == Some(freelancerPublicKey) && verify(tx.signatures[1])
    ensures VerifyRequiredSignatures(tx, [clientPublicKey, freelancerPublicKey], signerOf, verify)
  {
    SignedByWitness(tx.signatures, clientPublicKey, signerOf, verify);
    SignedByWitness(tx.signatures, freelancerPublicKey, signerOf, verify);
  }

  /** As written, two signatures that both fail to verify satisfy two required signers, where
      the corrected check rejects them. */
  lemma InvalidSignaturesAccepted(tx: Tx, clientPublicKey: PublicKey, freelancerPublicKey: PublicKey,
                                  signerOf: Signature -> Option<PublicKey>, s1: Signature, s2: Signature)
    requires tx.signatures == [s1, s2]
    ensures var reject := (s: Signature) => false;
            && VerifyTransactionSignatures(tx, [clientPublicKey, freelancerPublicKey], reject)
            && !VerifyRequiredSignatures(tx, [clientPublicKey, freelancerPublicKey], signerOf, reject)
  {
    var reject := (s: Signature) => false;
    SignedByWitness(tx.signatures, clientPublicKey, signerOf, reject);
    assert clientPublicKey in [clientPublicKey, freelancerPublicKey];
  }

  /** As written, the keys in `requiredSigners` are never compared with the signers: one
      party's valid signature, given twice, satisfies both the client and the freelancer,
      where the corrected check rejects it. */
  lemma DuplicateSignatureAccepted(tx: Tx, clientPublicKey: PublicKey, freelancerPublicKey: PublicKey,
                                   signerOf: Signature -> Option<PublicKey>, verify: Signature -> bool, s: Signature)
    requires clientPublicKey != freelancerPublicKey
    requires tx.signatures == [s, s]
    requires signerOf(s) == Some(clientPublicKey) && verify(s)
    ensures VerifyTransactionSignatures(tx, [clientPublicKey, freelancerPublicKey], verify)
    ensures !VerifyRequiredSignatures(tx, [clientPublicKey, freelancerPublicKey], signerOf, verify)
  {
    OneKeyNeverSatisfiesTwo(tx, clientPublicKey, freelancerPublicKey, clientPublicKey, signerOf, verify);
  }

  /** One signature against the escrow's two signers is rejected, and a second one, whatever
      it is, makes the transaction pass. */
  lemma OneSignatureShortOfEscrow(
    tx: Tx, clientPublicKey: PublicKey, freelancerPublicKey: PublicKey,
    verify: Signature -> bool, sig: Signature)
    requires |tx.signatures| == 1
    ensures var required := [clientPublicKey, freelancerPublicKey];
            && !VerifyTransactionSignatures(tx, required, verify)
            && VerifyTransactionSignatures(tx.(signatures := tx.signatures + [sig]), required, verify)
  {
  }
}
