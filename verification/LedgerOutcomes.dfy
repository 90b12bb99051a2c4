/** When each call of the ledger succeeds, what it then writes and what it says otherwise, stated on the
    books alone; and what becomes of a draft from its creation to its submission. */
module LedgerOutcomes {
  import opened Ledger
  import opened LedgerProofs

  // ---------------------------------------------------------------- creating a draft

  /** What is wrong with a request, in the order in which it is looked for. */
  function Objections(b: Books, r: Request): seq<(bool, Error)> {
    var known := r.source in b.accounts;
    var payee := r.beneficiary in b.beneficiaries;
    [(!known, AccountNotFound),
     (known && !b.accounts[r.source].active, AccountInactive),
     (known && b.accounts[r.source].ownerId != r.userId, NotOwner),
     (!payee, BeneficiaryNotFound),
     (payee && !b.beneficiaries[r.beneficiary].active, BeneficiaryInactive),
     (!(r.amount > 0.0), AmountNotPositive),
     (r.amount > 100000.0, AmountOverLimit),
     (r.currency !in {"USD", "EUR", "GBP", "JPY", "CHF"}, UnsupportedCurrency),
     (known && r.amount > b.accounts[r.source].balance, InsufficientFunds),
     (r.idempotencyKey in b.completed, AlreadyCompleted)]
  }

  /** The objection at `i` is the first that applies. */
  predicate First(objections: seq<(bool, Error)>, i: nat) {
    i < |objections| && objections[i].0 && forall j | 0 <= j < i :: !objections[j].0
  }

  /** The request may become a draft. */
  predicate Acceptable(b: Books, r: Request) {
    && r.source in b.accounts
    && b.accounts[r.source].active && b.accounts[r.source].ownerId == r.userId && r.amount <= b.accounts[r.source].balance
    && r.beneficiary in b.beneficiaries && b.beneficiaries[r.beneficiary].active
    && 0.0 < r.amount <= 100000.0
    && r.currency in {"USD", "EUR", "GBP", "JPY", "CHF"}
    && r.idempotencyKey !in b.completed
  }

  /** Only one draft is added, open for half an hour. */
  ghost predicate DraftAdded(b: Books, c: Books, id: string, r: Request, now: int) {
    && c.accounts == b.accounts && c.beneficiaries == b.beneficiaries
    && c.transactions == b.transactions && c.completed == b.completed
    && id in c.drafts && c.drafts - {id} == b.drafts - {id}
    && var d := c.drafts[id];
    && d.source == r.source && d.beneficiary == r.beneficiary
    && d.amount == r.amount && d.currency == r.currency && d.description == r.description
    && d.status == Draft && d.idempotencyKey == r.idempotencyKey
    && d.expiresAt == now + 1800
  }

  /** A request is accepted exactly when nothing is wrong with it, and otherwise refused for the first thing
      that is. */
  lemma CreateIsExact(b: Books, id: string, r: Request, now: int)
    ensures var c := Apply(b, Create(id, r, now));
            && (RequestError(b, r) == Ok <==> Acceptable(b, r))
            && (Acceptable(b, r) ==> DraftAdded(b, c, id, r, now))
            && (!Acceptable(b, r) ==> c == b)
            && (forall i: nat | First(Objections(b, r), i) :: RequestError(b, r) == Refused(Objections(b, r)[i].1))
  {
    CreateChecks(b, r);
    hide RequestError, Objections;
  }

  lemma CreateChecks(b: Books, r: Request)
    ensures RequestError(b, r) == Ok <==> Acceptable(b, r)
    ensures forall i: nat | First(Objections(b, r), i) :: RequestError(b, r) == Refused(Objections(b, r)[i].1)
  {
    var o := Objections(b, r);
    assert |o| == 10;
    forall i: nat | First(o, i)
      ensures RequestError(b, r) == Refused(o[i].1)
    {
      FirstObjection(b, r, i);
    }
  }

  lemma FirstObjection(b: Books, r: Request, i: nat)
    requires First(Objections(b, r), i)
    ensures RequestError(b, r) == Refused(Objections(b, r)[i].1)
  {
    var o := Objections(b, r);
    assert i > 0 ==> !o[0].0;
    assert i > 1 ==> !o[1].0;
    assert i > 2 ==> !o[2].0;
    assert i > 3 ==> !o[3].0;
    assert i > 4 ==> !o[4].0;
    assert i > 5 ==> !o[5].0;
    assert i > 6 ==> !o[6].0;
    assert i > 7 ==> !o[7].0;
    assert i > 8 ==> !o[8].0;
  }

  // ---------------------------------------------------------------- submitting it

  /** The draft may be paid. */
  predicate Payable(b: Books, id: string, user: string, now: int) {
    && id in b.drafts
    && var d := b.drafts[id];
    && d.status == Draft
    && d.source in b.accounts && b.accounts[d.source].ownerId == user && d.amount <= b.accounts[d.source].balance
    && now <= d.expiresAt
    && (d.idempotencyKey == "" || d.idempotencyKey !in b.completed)
  }

  /** The draft's own deadline is what stands against it. */
  predicate Overdue(b: Books, id: string, user: string, now: int) {
    && id in b.drafts
    && var d := b.drafts[id];
    && d.status == Draft && d.source in b.accounts && b.accounts[d.source].ownerId == user && d.expiresAt < now
  }

  /** The amount leaves the account and is recorded once; the draft is COMPLETED and its key used. */
  ghost predicate Paid(b: Books, c: Books, id: string)
    requires id in b.drafts && b.drafts[id].source in b.accounts
  {
    var d := b.drafts[id];
    && c.beneficiaries == b.beneficiaries
    && c.accounts.Keys == b.accounts.Keys
    && (forall a | a in b.accounts && a != d.source :: c.accounts[a] == b.accounts[a])
    && c.accounts[d.source].balance == b.accounts[d.source].balance - d.amount
    && c.accounts[d.source].ownerId == b.accounts[d.source].ownerId && c.accounts[d.source].active == b.accounts[d.source].active
    && c.drafts == b.drafts[id := d.(status := Completed)]
    && c.completed == b.completed + (if d.idempotencyKey == "" then {} else {d.idempotencyKey})
    && (forall a | a != d.source :: a in c.transactions <==> a in b.transactions)
    && (forall a | a in b.transactions && a != d.source :: c.transactions[a] == b.transactions[a])
    && d.source in c.transactions
    && var (before, after) := (if d.source in b.transactions then b.transactions[d.source] else [], c.transactions[d.source]);
    && |after| == |before| + 1 && after[..|before|] == before
    && var t := after[|before|];
    && t.accountId == d.source && t.amount == 0.0 - d.amount && t.currency == d.currency
    && t.description == (if |d.description| > 0 then d.description else "Transfer to " + d.beneficiary)
  }

  /** A submit succeeds exactly when the draft may be paid, and then pays it; a draft past its deadline
      becomes FAILED; any other refusal changes nothing. */
  lemma SubmitIsExact(b: Books, id: string, user: string, now: int)
    ensures var c := Apply(b, Submit(id, user, now));
            && (SubmitError(b, id, user, now) == Ok <==> Payable(b, id, user, now))
            && (Payable(b, id, user, now) ==> Paid(b, c, id))
            && (Overdue(b, id, user, now) ==> c == b.(drafts := b.drafts[id := b.drafts[id].(status := Failed)]))
            && (!Payable(b, id, user, now) && !Overdue(b, id, user, now) ==> c == b)
  {
    if Payable(b, id, user, now) {
      PaidBooks(b, id, user, now);
    }
    hide Paid;
  }

  lemma PaidBooks(b: Books, id: string, user: string, now: int)
    requires Payable(b, id, user, now)
    ensures Paid(b, Submitted(b, id, user, now), id)
  {
    assert b.drafts[id].description != "" <==> |b.drafts[id].description| > 0;
  }

  /** Why a submit is refused. */
  lemma SubmitRefusals(b: Books, id: string, user: string, now: int)
    ensures SubmitError(b, id, user, now) == Refused(DraftNotFound) <==> id !in b.drafts
    ensures id in b.drafts ==>
              var d := b.drafts[id];
              var e := SubmitError(b, id, user, now);
              var mine := d.source in b.accounts && b.accounts[d.source].ownerId == user;
              && (d.status != Draft ==> e == Refused(DraftAlready(d.status)))
              && (d.status == Draft && !mine ==> e == Refused(OwnershipViolation))
              && (e == Refused(DraftExpired) <==> Overdue(b, id, user, now))
              && (d.status == Draft && mine && now <= d.expiresAt ==>
                    if d.idempotencyKey != "" && d.idempotencyKey in b.completed then e == Refused(AlreadyCompleted)
                    else b.accounts[d.source].balance < d.amount <==> e == Refused(InsufficientFunds))
  {
  }

  // ---------------------------------------------------------------- cancelling it

  /** An owner cancels a draft that is not yet decided; nobody else cancels anything. */
  lemma CancelIsExact(b: Books, id: string, user: string)
    ensures var c := Apply(b, Cancel(id, user));
            var e := CancelError(b, id, user);
            var allowed := && id in b.drafts && b.drafts[id].status in {Draft, Pending}
                           && b.drafts[id].source in b.accounts && b.accounts[b.drafts[id].source].ownerId == user;
            && (e == Ok <==> allowed)
            && (allowed ==> c == b.(drafts := b.drafts[id := b.drafts[id].(status := Cancelled)]))
            && (!allowed ==> c == b)
            && (e == Refused(DraftNotFound) <==> id !in b.drafts)
            && (id in b.drafts && b.drafts[id].status !in {Draft, Pending} ==> e == Refused(DraftAlready(b.drafts[id].status)))
            && (id in b.drafts && b.drafts[id].status in {Draft, Pending} && !allowed ==> e == Refused(OwnershipViolation))
  {
  }

  // ---------------------------------------------------------------- from creation to submission

  /** Nobody touches the draft. */
  predicate LeavesDraft(ops: seq<Op>, id: string) {
    forall k | 0 <= k < |ops| :: match ops[k]
                                 case Create(x, _, _) => x != id
                                 case Submit(x, _, _) => x != id
                                 case Cancel(x, _) => x != id
  }

  lemma {:induction false} DraftIsLeft(b: Books, ops: seq<Op>, id: string)
    requires id in b.drafts && LeavesDraft(ops, id)
    ensures id in Run(b, ops).drafts && Run(b, ops).drafts[id] == b.drafts[id]
    decreases |ops|
  {
    if ops != [] {
      OneLeavesDraft(b, ops[0], id);
      hide Apply;
      DraftIsLeft(Apply(b, ops[0]), ops[1..], id);
    }
  }

  lemma OneLeavesDraft(b: Books, op: Op, id: string)
    requires id in b.drafts && LeavesDraft([op], id)
    ensures id in Apply(b, op).drafts && Apply(b, op).drafts[id] == b.drafts[id]
  {
    assert [op][0] == op;
  }

  /** An accepted request, whatever else happens meanwhile, is paid when its owner submits it within half an
      hour, provided its key is then unused and its amount covered; submitted later it fails and moves nothing. */
  lemma DraftIsPaidInTime(b: Books, id: string, r: Request, now: int, ops: seq<Op>, later: int)
    requires Acceptable(b, r) && LeavesDraft(ops, id)
    requires Sound(b) && id !in b.drafts && AllFresh(Apply(b, Create(id, r, now)), ops)
    ensures var met := Run(Apply(b, Create(id, r, now)), ops);
            var c := Apply(met, Submit(id, r.userId, later));
            && id in met.drafts && id in c.drafts
            && r.source in met.accounts && r.source in c.accounts
            && var clear := (r.idempotencyKey == "" || r.idempotencyKey !in met.completed) && r.amount <= met.accounts[r.source].balance;
            && (later <= now + 1800 && clear ==>
                  && c.accounts[r.source].balance == met.accounts[r.source].balance - r.amount
                  && c.drafts[id].status == Completed
                  && Paid(met, c, id))
            && (later > now + 1800 ==> c.drafts[id].status == Failed && c == met.(drafts := c.drafts))
  {
    hide Apply, Acceptable;
    var b1 := Apply(b, Create(id, r, now));
    CreateIsExact(b, id, r, now);
    DraftIsLeft(b1, ops, id);
    ApplyKeepsSound(b, Create(id, r, now));
    MoneyIsConserved(b1, ops);
    SubmitIsExact(Run(b1, ops), id, r.userId, later);
    OwnerStays(b, r);
  }

  lemma OwnerStays(b: Books, r: Request)
    requires Acceptable(b, r)
    ensures r.source in b.accounts && b.accounts[r.source].ownerId == r.userId
  {
  }
}
