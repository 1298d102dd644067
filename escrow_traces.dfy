/**
 * Properties of the escrow agreement book over whole sequences of invocations: the record
 * invariant every reachable agreement keeps, the monotonicity of the flags, and what the
 * `ESC_CNT` counter counts.
 */
module EscrowTraces {
  import opened Wrappers
  import opened FreelancerEscrow

  /** One invocation of an entry point, with the addresses that authorised it. */
  datatype Call =
    | CreateCall(auth: set<Address>, client: Address, freelancer: Address, amount: I128, id: Symbol)
    | ApproveCall(auth: set<Address>, id: Symbol, approver: Address)
    | RefundCall(auth: set<Address>, id: Symbol, caller: Address)
    | ViewCall(id: Symbol)

  /** The storage after one invocation (unchanged when it reverts or only reads). */
  function Exec(s: Store, c: Call): Store {
    match c
    case CreateCall(auth, client, freelancer, amount, id) =>
      PostState(s, Create(s, auth, client, freelancer, amount, id))
    case ApproveCall(auth, id, approver) => PostState(s, Approve(s, auth, id, approver))
    case RefundCall(auth, id, caller) => PostState(s, Refund(s, auth, id, caller))
    case ViewCall(_) => s
  }

  /** The storage after the invocations `calls`, in order. */
  function Run(s: Store, calls: seq<Call>): Store
    decreases |calls|
  {
    if calls == [] then s else Run(Exec(s, calls[0]), calls[1..])
  }

  /** Every record the entry points can produce: completed exactly when both parties approved,
      and a record whose client is also its freelancer never has the freelancer's approval. */
  ghost predicate RecordInvariant(d: EscrowDetails) {
    && d.isCompleted == (d.clientApproved && d.freelancerApproved)
    && (d.client == d.freelancer ==> !d.freelancerApproved)
  }

  ghost predicate StoreInvariant(s: Store) {
    forall id :: id in s.agreements ==> RecordInvariant(s.agreements[id])
  }

  /** `d'` keeps the parties and amount of `d`, and no flag of `d` has been cleared. */
  ghost predicate FlagsGrow(d: EscrowDetails, d': EscrowDetails) {
    && d'.client == d.client && d'.freelancer == d.freelancer && d'.amount == d.amount
    && (d.clientApproved ==> d'.clientApproved)
    && (d.freelancerApproved ==> d'.freelancerApproved)
    && (d.isCompleted ==> d'.isCompleted)
    && (d.isRefunded ==> d'.isRefunded)
  }

  /** No invocation in `calls` re-creates agreement `id`. */
  ghost predicate NoCreateOf(calls: seq<Call>, id: Symbol) {
    forall i :: 0 <= i < |calls| && calls[i].CreateCall? ==> calls[i].id != id
  }

  /** The number of invocations of `create_escrow` that carry the client's authorisation. */
  function AuthorizedCreates(calls: seq<Call>): (n: nat)
    ensures n <= |calls|
  {
    if calls == [] then 0
    else (if calls[0].CreateCall? && calls[0].client in calls[0].auth then 1 else 0)
         + AuthorizedCreates(calls[1..])
  }

  lemma ExecPreservesInvariant(s: Store, c: Call)
    requires StoreInvariant(s)
    ensures StoreInvariant(Exec(s, c))
  {
  }

  /** Every sequence of invocations keeps the record invariant; in particular the empty
      contract only ever holds records that satisfy it. */
  lemma {:induction false} RunPreservesInvariant(s: Store, calls: seq<Call>)
    requires StoreInvariant(s)
    ensures StoreInvariant(Run(s, calls))
    decreases |calls|
  {
    if calls != [] {
      ExecPreservesInvariant(s, calls[0]);
      RunPreservesInvariant(Exec(s, calls[0]), calls[1..]);
    }
  }

  /** Whatever is invoked from a fresh contract, an agreement whose client is its own
      freelancer is never completed: only the client branch of `approve_completion` is ever taken. */
  lemma SelfDealtNeverCompletes(calls: seq<Call>, id: Symbol)
    ensures var s := Run(EmptyStore, calls);
            id in s.agreements && s.agreements[id].client == s.agreements[id].freelancer
            ==> !s.agreements[id].freelancerApproved && !s.agreements[id].isCompleted
  {
    RunPreservesInvariant(EmptyStore, calls);
  }

  /** Whatever is invoked from a fresh contract, an agreement is completed exactly when both
      parties have approved it. */
  lemma CompletedIffBothApproved(calls: seq<Call>, id: Symbol)
    ensures var s := Run(EmptyStore, calls);
            id in s.agreements ==>
            (s.agreements[id].isCompleted <==>
             s.agreements[id].clientApproved && s.agreements[id].freelancerApproved)
  {
    RunPreservesInvariant(EmptyStore, calls);
  }

  lemma ExecKeepsFlags(s: Store, c: Call, id: Symbol)
    requires id in s.agreements
    requires !(c.CreateCall? && c.id == id)
    ensures id in Exec(s, c).agreements
    ensures FlagsGrow(s.agreements[id], Exec(s, c).agreements[id])
  {
  }

  /** Only re-creating an agreement clears its flags: until then, parties and amount stay as
      created and every flag once set stays set. */
  lemma {:induction false} RunKeepsFlags(s: Store, calls: seq<Call>, id: Symbol)
    requires id in s.agreements
    requires NoCreateOf(calls, id)
    ensures id in Run(s, calls).agreements
    ensures FlagsGrow(s.agreements[id], Run(s, calls).agreements[id])
    decreases |calls|
  {
    if calls != [] {
      assert !(calls[0].CreateCall? && calls[0].id == id);
      ExecKeepsFlags(s, calls[0], id);
      var s1 := Exec(s, calls[0]);
      assert NoCreateOf(calls[1..], id) by {
        forall i | 0 <= i < |calls[1..]| && calls[1..][i].CreateCall?
          ensures calls[1..][i].id != id
        {
          assert calls[1..][i] == calls[i + 1];
        }
      }
      RunKeepsFlags(s1, calls[1..], id);
    }
  }

  /** `ESC_CNT` counts the authorised calls of `create_escrow`, not the distinct agreements:
      as long as it cannot overflow, it rises by one per authorised create and by nothing else. */
  lemma {:induction false} RunCountsCreates(s: Store, calls: seq<Call>)
    requires StoredCount(s) + |calls| <= U32_MAX
    ensures StoredCount(Run(s, calls)) == StoredCount(s) + AuthorizedCreates(calls)
    decreases |calls|
  {
    if calls != [] {
      var s1 := Exec(s, calls[0]);
      assert StoredCount(s1) == StoredCount(s) + (if calls[0].CreateCall? && calls[0].client in calls[0].auth then 1 else 0);
      RunCountsCreates(s1, calls[1..]);
    }
  }

  /** Creating the same agreement id twice leaves one agreement, with its approvals reset,
      and a count of two. */
  lemma RecreateResetsApprovals(c: Address, f: Address, id: Symbol)
    requires c != f
    ensures var s := Run(EmptyStore, [CreateCall({c}, c, f, 100, id), ApproveCall({c}, id, c),
                                      CreateCall({c}, c, f, 100, id)]);
            && s.agreements.Keys == {id}
            && !s.agreements[id].clientApproved
            && StoredCount(s) == 2
  {
    var calls := [CreateCall({c}, c, f, 100, id), ApproveCall({c}, id, c), CreateCall({c}, c, f, 100, id)];
    var s1 := Exec(EmptyStore, calls[0]);
    var s2 := Exec(s1, calls[1]);
    assert s2.agreements[id].clientApproved;
    var s3 := Exec(s2, calls[2]);
    assert calls[1..] == [calls[1], calls[2]] && calls[2..] == [calls[2]];
    assert Run(s2, calls[2..]) == Run(s3, []);
    assert Run(EmptyStore, calls) == s3;
  }

  /** A refunded agreement is still completed by the two approvals afterwards: nothing in
      `approve_completion` looks at `is_refunded`. */
  lemma RefundedAgreementStillCompletes(c: Address, f: Address, id: Symbol)
    requires c != f
    ensures var s := Run(EmptyStore, [CreateCall({c}, c, f, 100, id), RefundCall({c}, id, c),
                                      ApproveCall({c}, id, c), ApproveCall({f}, id, f)]);
            && id in s.agreements
            && s.agreements[id].isRefunded
            && s.agreements[id].isCompleted
  {
    var calls := [CreateCall({c}, c, f, 100, id), RefundCall({c}, id, c),
                  ApproveCall({c}, id, c), ApproveCall({f}, id, f)];
    var s1 := Exec(EmptyStore, calls[0]);
    var s2 := Exec(s1, calls[1]);
    var s3 := Exec(s2, calls[2]);
    var s4 := Exec(s3, calls[3]);
    assert s4.agreements[id].isRefunded && s4.agreements[id].isCompleted;
    assert calls[1..] == calls[1..4] && calls[2..] == calls[2..4] && calls[3..] == [calls[3]];
    assert Run(s3, calls[3..]) == Run(s4, []);
    assert Run(s2, calls[2..]) == Run(s3, calls[3..]);
    assert Run(s1, calls[1..]) == Run(s2, calls[2..]);
    assert Run(EmptyStore, calls) == s4;
  }

  /** Repeating a successful approval changes nothing more and returns the same answer. */
  lemma ApproveIdempotent(s: Store, auth: set<Address>, id: Symbol, approver: Address)
    requires Approve(s, auth, id, approver).Returned?
    ensures var r := Approve(s, auth, id, approver);
            Approve(r.post, auth, id, approver) == r
  {
  }

  /** Repeating a successful refund changes nothing more: `is_refunded` is not checked first. */
  lemma RefundIdempotent(s: Store, auth: set<Address>, id: Symbol, client: Address)
    requires Refund(s, auth, id, client).Returned?
    ensures var r := Refund(s, auth, id, client);
            Refund(r.post, auth, id, client) == r
  {
  }
}
