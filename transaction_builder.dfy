/**
 * The backend's transaction builder (backend/src/stellar/transactionBuilder.js): deposit,
 * release and dispute-resolution payments with a 30-second validity window, and the two
 * helpers that reassign properties of an already built transaction.
 *
 * The account loaded for the source key, the base fee and the current time are parameters.
 */
module TransactionBuilder {
  import opened Wrappers
  import opened Ledger

  /** `setTimeout(30)`. */
  const TimeoutSeconds: nat := 30

  /** The bounds `setTimeout(30)` attaches at time `now`: no lower bound, expiry 30 seconds later. */
  function Timeout(now: nat): Option<TimeBounds> {
    Some(TimeBounds(0, now + TimeoutSeconds))
  }

  /** The destination and amount of a transaction made of one payment; the inverse of the
      single-payment builders. */
  function SinglePayment(tx: Tx): Option<(PublicKey, Amount)> {
    if |tx.operations| == 1 && tx.operations[0].Payment?
    then Some((tx.operations[0].destination, tx.operations[0].amount))
    else None
  }

  /** The sum of the amounts of the payments in `ops`. */
  function TotalPaid(ops: seq<Operation>): int {
    if ops == [] then 0
    else (if ops[0].Payment? then ops[0].amount else 0) + TotalPaid(ops[1..])
  }

  /** `buildDepositTransaction`: one native payment from the source account to the escrow account. */
  function BuildDepositTransaction(source: Account, fee: int, escrowPublicKey: PublicKey, amount: Amount, now: nat)
    : (tx: Tx)
    ensures tx.source == source.accountId && tx.baseFee == fee
    ensures tx.operations == [Payment(escrowPublicKey, Native, amount)]
    ensures tx.timeBounds == Some(TimeBounds(0, now + 30))
    ensures forall t :: 0 <= t ==> (ValidAt(tx.timeBounds, t) <==> t <= now + 30)
    ensures tx.signatures == [] && tx.signers == None
  {
    Unsigned(source.accountId, fee, [Payment(escrowPublicKey, Native, amount)], Timeout(now))
  }

  /** `buildReleaseTransaction`: one native payment from the escrow account to the freelancer. */
  function BuildReleaseTransaction(escrow: Account, fee: int, freelancerPublicKey: PublicKey, amount: Amount, now: nat)
    : (tx: Tx)
    ensures tx.source == escrow.accountId && tx.baseFee == fee
    ensures tx.operations == [Payment(freelancerPublicKey, Native, amount)]
    ensures tx.timeBounds == Some(TimeBounds(0, now + 30))
    ensures forall t :: 0 <= t ==> (ValidAt(tx.timeBounds, t) <==> t <= now + 30)
    ensures tx.signatures == [] && tx.signers == None
  {
    Unsigned(escrow.accountId, fee, [Payment(freelancerPublicKey, Native, amount)], Timeout(now))
  }

  /** `buildDisputeResolutionTransaction`: two native payments from the escrow account, the
      client's share first and the freelancer's second, with no check on either amount. */
  function BuildDisputeResolutionTransaction(
    escrow: Account, fee: int, clientAmount: Amount, freelancerAmount: Amount,
    clientPublicKey: PublicKey, freelancerPublicKey: PublicKey, now: nat): (tx: Tx)
    ensures tx.source == escrow.accountId && tx.baseFee == fee
    ensures |tx.operations| == 2
    ensures tx.operations[0] == Payment(clientPublicKey, Native, clientAmount)
    ensures tx.operations[1] == Payment(freelancerPublicKey, Native, freelancerAmount)
    ensures tx.timeBounds == Some(TimeBounds(0, now + 30))
    ensures tx.signatures == [] && tx.signers == None
  {
    var ops := [Payment(clientPublicKey, Native, clientAmount), Payment(freelancerPublicKey, Native, freelancerAmount)];
    Unsigned(escrow.accountId, fee, ops, Timeout(now))
  }

  /** The dispute split pays out exactly the two shares, however they compare with the escrow's balance. */
  lemma {:induction false} DisputeSplitTotal(
    escrow: Account, fee: int, clientAmount: Amount, freelancerAmount: Amount,
    clientPublicKey: PublicKey, freelancerPublicKey: PublicKey, now: nat)
    ensures var tx := BuildDisputeResolutionTransaction(escrow, fee, clientAmount, freelancerAmount,
                                                        clientPublicKey, freelancerPublicKey, now);
            TotalPaid(tx.operations) == clientAmount + freelancerAmount
  {
    var ops := BuildDisputeResolutionTransaction(escrow, fee, clientAmount, freelancerAmount,
                                                 clientPublicKey, freelancerPublicKey, now).operations;
    assert ops[1..][1..] == [];
    assert TotalPaid(ops[1..]) == freelancerAmount;
  }

  /** Re-deriving the payment of a deposit or release gives back exactly the destination and
      amount it was built from, whatever the amount. */
  lemma PaymentRoundTrip(account: Account, fee: int, destination: PublicKey, amount: Amount, now: nat)
    ensures SinglePayment(BuildDepositTransaction(account, fee, destination, amount, now)) == Some((destination, amount))
    ensures SinglePayment(BuildReleaseTransaction(account, fee, destination, amount, now)) == Some((destination, amount))
  {
  }

  /** The transaction as `addTimeLock` leaves it: valid from `unlockTime` on, with no upper
      bound, whatever bounds it had and whether or not `unlockTime` has passed. */
  function WithTimeLock(t: Tx, unlockTime: int): (r: Tx)
    ensures r.timeBounds == Some(TimeBounds(unlockTime, 0))
    ensures r.(timeBounds := t.timeBounds) == t
    ensures forall closeTime :: ValidAt(r.timeBounds, closeTime) <==> unlockTime <= closeTime
  {
    t.(timeBounds := Some(TimeBounds(unlockTime, 0)))
  }

  /** A second time lock replaces the first, so applying the same one twice changes nothing. */
  lemma TimeLockLastWins(t: Tx, first: int, second: int)
    ensures WithTimeLock(WithTimeLock(t, first), second) == WithTimeLock(t, second)
    ensures WithTimeLock(WithTimeLock(t, first), first) == WithTimeLock(t, first)
  {
  }

  /** A time lock on a modelled deposit replaces its 30-second expiry: the bounds it then
      carries admit every time from `unlockTime` on. */
  lemma TimeLockRemovesTimeout(source: Account, fee: int, escrowPublicKey: PublicKey, amount: Amount, now: nat, unlockTime: int)
    ensures var tx := WithTimeLock(BuildDepositTransaction(source, fee, escrowPublicKey, amount, now), unlockTime);
            forall t :: t >= unlockTime ==> ValidAt(tx.timeBounds, t)
    ensures !ValidAt(BuildDepositTransaction(source, fee, escrowPublicKey, amount, now).timeBounds, now + 31)
  {
  }

  /** The transaction as `addSignatureRequirements` leaves it: `signers` attached, nothing else changed. */
  function WithSigners(t: Tx, signers: seq<PublicKey>): (r: Tx)
    ensures r.signers == Some(signers)
    ensures r.(signers := t.signers) == t
  {
    t.(signers := Some(signers))
  }

  /** `addTimeLock`: overwrites the time bounds of `transaction` in place and returns it. */
  method AddTimeLock(transaction: Transaction, unlockTime: int) returns (r: Transaction)
    modifies transaction
    ensures r == transaction
    ensures transaction.Value() == WithTimeLock(old(transaction.Value()), unlockTime)
  {
    transaction.timeBounds := Some(TimeBounds(unlockTime, 0));
    r := transaction;
  }

  /** `addSignatureRequirements`: sets the attached signers of `transaction` in place and returns it. */
  method AddSignatureRequirements(transaction: Transaction, signers: seq<PublicKey>) returns (r: Transaction)
    modifies transaction
    ensures r == transaction
    ensures transaction.Value() == WithSigners(old(transaction.Value()), signers)
  {
    transaction.signers := Some(signers);
    r := transaction;
  }
}
