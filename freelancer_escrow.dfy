/**
 * The Soroban escrow agreement book (contracts/freelancer_escrow.rs).
 *
 * The contract's instance storage holds one `EscrowDetails` record per agreement id and the
 * counter stored under `ESC_CNT`. Each entry point either returns a value and commits its
 * storage writes, or panics, in which case the host reverts the whole invocation and the
 * storage is left as it was. `require_auth` is modelled by the set of addresses whose
 * authorisation accompanies the invocation.
 */
module FreelancerEscrow {
  import opened Wrappers

  type Address = string
  type Symbol = string

  const I128_MIN: int := -0x8000_0000_0000_0000_0000_0000_0000_0000
  const I128_MAX: int := 0x7FFF_FFFF_FFFF_FFFF_FFFF_FFFF_FFFF_FFFF
  type I128 = x: int | I128_MIN <= x <= I128_MAX

  const U32_MAX: int := 0xFFFF_FFFF
  type U32 = x: int | 0 <= x <= U32_MAX

  datatype EscrowDetails = EscrowDetails(
    client: Address,
    freelancer: Address,
    amount: I128,
    clientApproved: bool,
    freelancerApproved: bool,
    isCompleted: bool,
    isRefunded: bool)

  /** Why an invocation reverts: a missing authorisation, one of the contract's panics, or the counter overflowing. */
  datatype Panic =
    | NotAuthorized(address: Address)
    | EscrowNotFound
    | UnauthorizedApprover
    | OnlyClientCanRefund
    | CannotRefundCompleted
    | CountOverflow

  /** The contract's instance storage: the agreement map and the optional `ESC_CNT` entry. */
  datatype Store = Store(agreements: map<Symbol, EscrowDetails>, escrowCount: Option<U32>)

  /** What one invocation does: it returns a value together with the committed storage, or it reverts. */
  datatype Invocation<+T> = Returned(value: T, post: Store) | Reverted(panic: Panic)

  const EmptyStore := Store(map[], None)

  /** The counter as `create_escrow` reads it: an absent entry reads as 0. */
  function StoredCount(s: Store): U32 {
    if s.escrowCount.Some? then s.escrowCount.value else 0
  }

  /** The storage after an invocation: the committed one, or the old one on a revert. */
  function PostState<T>(s: Store, r: Invocation<T>): Store {
    if r.Returned? then r.post else s
  }

  /** `create_escrow`: stores a fresh agreement under `id` (overwriting any old one) and counts the call. */
  function Create(s: Store, auth: set<Address>, client: Address, freelancer: Address, amount: I128, id: Symbol)
    : (r: Invocation<bool>)
    ensures r.Reverted? <==> client !in auth || StoredCount(s) == U32_MAX
    ensures client !in auth ==> r == Reverted(NotAuthorized(client))
    ensures client in auth && StoredCount(s) == U32_MAX ==> r == Reverted(CountOverflow)
    ensures r.Returned? ==>
      && r.value
      && id in r.post.agreements
      && r.post.agreements[id].client == client
      && r.post.agreements[id].freelancer == freelancer
      && r.post.agreements[id].amount == amount
      && !r.post.agreements[id].clientApproved
      && !r.post.agreements[id].freelancerApproved
      && !r.post.agreements[id].isCompleted
      && !r.post.agreements[id].isRefunded
      && r.post.agreements.Keys == s.agreements.Keys + {id}
      && (forall k :: k in s.agreements && k != id ==> r.post.agreements[k] == s.agreements[k])
      && r.post.escrowCount == Some(StoredCount(s) + 1)
  {
    if client !in auth then Reverted(NotAuthorized(client))
    else
      var escrow := EscrowDetails(client, freelancer, amount, false, false, false, false);
      var count := StoredCount(s);
      if count == U32_MAX then Reverted(CountOverflow)
      else Returned(true, Store(s.agreements[id := escrow], Some(count + 1)))
  }

  /** `approve_completion`: the client or the freelancer records an approval; both approvals complete the escrow. */
  function Approve(s: Store, auth: set<Address>, id: Symbol, approver: Address): (r: Invocation<bool>)
    ensures r.Reverted? <==>
      || approver !in auth
      || id !in s.agreements
      || (approver != s.agreements[id].client && approver != s.agreements[id].freelancer)
    ensures approver !in auth ==> r == Reverted(NotAuthorized(approver))
    ensures approver in auth && id !in s.agreements ==> r == Reverted(EscrowNotFound)
    ensures approver in auth && id in s.agreements
            && approver != s.agreements[id].client && approver != s.agreements[id].freelancer
            ==> r == Reverted(UnauthorizedApprover)
    ensures r.Returned? ==> id in s.agreements && id in r.post.agreements
    ensures r.Returned? ==>
      var d := s.agreements[id];
      var d' := r.post.agreements[id];
      && d'.client == d.client && d'.freelancer == d.freelancer && d'.amount == d.amount
      && d'.isRefunded == d.isRefunded
      && d'.clientApproved == (d.clientApproved || approver == d.client)
      && d'.freelancerApproved == (d.freelancerApproved || (approver != d.client && approver == d.freelancer))
      && d'.isCompleted == (d.isCompleted || (d'.clientApproved && d'.freelancerApproved))
      && r.value == d'.isCompleted
      && r.post.agreements.Keys == s.agreements.Keys
      && (forall k :: k in s.agreements && k != id ==> r.post.agreements[k] == s.agreements[k])
      && r.post.escrowCount == s.escrowCount
  {
    if approver !in auth then Reverted(NotAuthorized(approver))
    else if id !in s.agreements then Reverted(EscrowNotFound)
    else
      var escrow := s.agreements[id];
      if approver != escrow.client && approver != escrow.freelancer then Reverted(UnauthorizedApprover)
      else
        var approved :=
          if approver == escrow.client then escrow.(clientApproved := true)
          else escrow.(freelancerApproved := true);
        var checked :=
          if approved.clientApproved && approved.freelancerApproved then approved.(isCompleted := true)
          else approved;
        Returned(checked.isCompleted, Store(s.agreements[id := checked], s.escrowCount))
  }

  /** `refund_escrow`: the stored client marks an agreement that is not completed as refunded. */
  function Refund(s: Store, auth: set<Address>, id: Symbol, client: Address): (r: Invocation<bool>)
    ensures r.Reverted? <==>
      || client !in auth
      || id !in s.agreements
      || client != s.agreements[id].client
      || s.agreements[id].isCompleted
    ensures client !in auth ==> r == Reverted(NotAuthorized(client))
    ensures client in auth && id !in s.agreements ==> r == Reverted(EscrowNotFound)
    ensures client in auth && id in s.agreements && client != s.agreements[id].client
            ==> r == Reverted(OnlyClientCanRefund)
    ensures client in auth && id in s.agreements && client == s.agreements[id].client
            && s.agreements[id].isCompleted
            ==> r == Reverted(CannotRefundCompleted)
    ensures r.Returned? ==>
      && r.value
      && r.post.agreements == s.agreements[id := s.agreements[id].(isRefunded := true)]
      && r.post.escrowCount == s.escrowCount
  {
    if client !in auth then Reverted(NotAuthorized(client))
    else if id !in s.agreements then Reverted(EscrowNotFound)
    else
      var escrow := s.agreements[id];
      if client != escrow.client then Reverted(OnlyClientCanRefund)
      else if escrow.isCompleted then Reverted(CannotRefundCompleted)
      else Returned(true, Store(s.agreements[id := escrow.(isRefunded := true)], s.escrowCount))
  }

  /** `view_escrow`: the stored record, or the "Escrow not found" panic. */
  function View(s: Store, id: Symbol): (r: Result<EscrowDetails, Panic>)
    ensures r.Ok? <==> id in s.agreements
    ensures r.Ok? ==> r.value == s.agreements[id]
    ensures r.Err? ==> r.error == EscrowNotFound
  {
    if id in s.agreements then Ok(s.agreements[id]) else Err(EscrowNotFound)
  }

  /** An entry point's return value and storage agree with the step function `r` run on `pre`. */
  ghost predicate Committed<T>(r: Invocation<T>, res: Result<T, Panic>, pre: Store, post: Store) {
    match r
    case Returned(v, s') => res == Ok(v) && post == s'
    case Reverted(p) => res == Err(p) && post == pre
  }

  /** The deployed contract: its instance storage, updated in place by the entry points. */
  class FreelancerEscrowContract {
    var agreements: map<Symbol, EscrowDetails>
    var escrowCount: Option<U32>

    function State(): Store
      reads this
    {
      Store(agreements, escrowCount)
    }

    constructor ()
      ensures State() == EmptyStore
    {
      agreements := map[];
      escrowCount := None;
    }

    method CreateEscrow(auth: set<Address>, client: Address, freelancer: Address, amount: I128, agreementId: Symbol)
      returns (res: Result<bool, Panic>)
      modifies this
      ensures Committed(Create(old(State()), auth, client, freelancer, amount, agreementId), res, old(State()), State())
    {
      if client !in auth {
        return Err(NotAuthorized(client));
      }
      var escrow := EscrowDetails(client, freelancer, amount, false, false, false, false);
      var count: int := if escrowCount.Some? then escrowCount.value else 0;
      if count == U32_MAX {
        // `count += 1` overflows. The source stores the record before touching the counter;
        // the revert discards that write, so checking first leaves the same storage.
        return Err(CountOverflow);
      }
      agreements := agreements[agreementId := escrow];
      count := count + 1;
      escrowCount := Some(count);
      res := Ok(true);
    }

    method ApproveCompletion(auth: set<Address>, agreementId: Symbol, approver: Address)
      returns (res: Result<bool, Panic>)
      modifies this
      ensures Committed(Approve(old(State()), auth, agreementId, approver), res, old(State()), State())
    {
      if approver !in auth {
        return Err(NotAuthorized(approver));
      }
      if agreementId !in agreements {
        return Err(EscrowNotFound);
      }
      var escrow := agreements[agreementId];
      if approver == escrow.client {
        escrow := escrow.(clientApproved := true);
      } else if approver == escrow.freelancer {
        escrow := escrow.(freelancerApproved := true);
      } else {
        return Err(UnauthorizedApprover);
      }
      if escrow.clientApproved && escrow.freelancerApproved {
        escrow := escrow.(isCompleted := true);
      }
      agreements := agreements[agreementId := escrow];
      res := Ok(escrow.isCompleted);
    }

    method RefundEscrow(auth: set<Address>, agreementId: Symbol, client: Address)
      returns (res: Result<bool, Panic>)
      modifies this
      ensures Committed(Refund(old(State()), auth, agreementId, client), res, old(State()), State())
    {
      if client !in auth {
        return Err(NotAuthorized(client));
      }
      if agreementId !in agreements {
        return Err(EscrowNotFound);
      }
      var escrow := agreements[agreementId];
      if client != escrow.client {
        return Err(OnlyClientCanRefund);
      }
      if escrow.isCompleted {
        return Err(CannotRefundCompleted);
      }
      escrow := escrow.(isRefunded := true);
      agreements := agreements[agreementId := escrow];
      res := Ok(true);
    }

    /** Read-only: returns the stored record and changes nothing. */
    method ViewEscrow(agreementId: Symbol) returns (res: Result<EscrowDetails, Panic>)
      ensures res.Ok? <==> agreementId in agreements
      ensures res.Ok? ==> res.value == agreements[agreementId]
      ensures res.Err? ==> res.error == EscrowNotFound
    {
      if agreementId !in agreements {
        return Err(EscrowNotFound);
      }
      res := Ok(agreements[agreementId]);
    }
  }
}
