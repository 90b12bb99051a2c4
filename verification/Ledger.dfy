/** The synthetic bank: accounts, transfer drafts, transactions and the set of completed keys. */
module Ledger {
  datatype Account = Account(ownerId: string, balance: real, active: bool)

  datatype Beneficiary = Beneficiary(active: bool)

  datatype Transaction = Transaction(accountId: string, amount: real, currency: string, description: string)

  datatype Status = Draft | Pending | Completed | Cancelled | Failed

  datatype Transfer = Transfer(
    source: string,
    beneficiary: string,
    amount: real,
    currency: string,
    description: string,
    status: Status,
    idempotencyKey: string,
    expiresAt: int)

  datatype Books = Books(
    accounts: map<string, Account>,
    beneficiaries: map<string, Beneficiary>,
    transactions: map<string, seq<Transaction>>,
    drafts: map<string, Transfer>,
    completed: set<string>)

  datatype Error =
    | AccountNotFound | AccountInactive | NotOwner
    | BeneficiaryNotFound | BeneficiaryInactive
    | AmountNotPositive | AmountOverLimit | UnsupportedCurrency
    | InsufficientFunds | AlreadyCompleted
    | DraftNotFound | DraftAlready(status: Status) | OwnershipViolation | DraftExpired

  datatype Outcome = Ok | Refused(error: Error)

  /** The arguments of `create_transfer_draft`. */
  datatype Request = Request(
    source: string,
    beneficiary: string,
    amount: real,
    currency: string,
    userId: string,
    idempotencyKey: string,
    description: string)

  const TRANSACTION_LIMIT: real := 100000.0
  const DRAFT_EXPIRY_SECONDS: int := 30 * 60
  const SUPPORTED_CURRENCIES: set<string> := {"USD", "EUR", "GBP", "JPY", "CHF"}

  // ---------------------------------------------------------------- the operations, on whole books

  predicate Owns(b: Books, account: string, user: string) {
    account in b.accounts && b.accounts[account].ownerId == user
  }

  function RequestError(b: Books, r: Request): Outcome {
    if r.source !in b.accounts then Refused(AccountNotFound)
    else if !b.accounts[r.source].active then Refused(AccountInactive)
    else if b.accounts[r.source].ownerId != r.userId then Refused(NotOwner)
    else if r.beneficiary !in b.beneficiaries then Refused(BeneficiaryNotFound)
    else if !b.beneficiaries[r.beneficiary].active then Refused(BeneficiaryInactive)
    else if r.amount <= 0.0 then Refused(AmountNotPositive)
    else if r.amount > TRANSACTION_LIMIT then Refused(AmountOverLimit)
    else if r.currency !in SUPPORTED_CURRENCIES then Refused(UnsupportedCurrency)
    else if b.accounts[r.source].balance < r.amount then Refused(InsufficientFunds)
    else if r.idempotencyKey in b.completed then Refused(AlreadyCompleted)
    else Ok
  }

  /** `id` is the fresh UUID of the draft. */
  function Created(b: Books, id: string, r: Request, now: int): Books {
    if RequestError(b, r) != Ok then b
    else b.(drafts := b.drafts[id := Transfer(r.source, r.beneficiary, r.amount, r.currency, r.description, Draft,
                                              r.idempotencyKey, now + DRAFT_EXPIRY_SECONDS)])
  }

  function SubmitError(b: Books, id: string, user: string, now: int): Outcome {
    if id !in b.drafts then Refused(DraftNotFound)
    else
      var d := b.drafts[id];
      if d.status != Draft then Refused(DraftAlready(d.status))
      else if !Owns(b, d.source, user) then Refused(OwnershipViolation)
      else if now > d.expiresAt then Refused(DraftExpired)
      else if d.idempotencyKey != "" && d.idempotencyKey in b.completed then Refused(AlreadyCompleted)
      else if b.accounts[d.source].balance < d.amount then Refused(InsufficientFunds)
      else Ok
  }

  function HistoryOf(b: Books, account: string): seq<Transaction> {
    if account in b.transactions then b.transactions[account] else []
  }

  function DescriptionOf(d: Transfer): string {
    if d.description != "" then d.description else "Transfer to " + d.beneficiary
  }

  function Submitted(b: Books, id: string, user: string, now: int): Books {
    match SubmitError(b, id, user, now)
    case Ok =>
      var d := b.drafts[id];
      var a := b.accounts[d.source];
      Books(b.accounts[d.source := a.(balance := a.balance - d.amount)],
            b.beneficiaries,
            b.transactions[d.source := HistoryOf(b, d.source) + [Transaction(d.source, -d.amount, d.currency, DescriptionOf(d))]],
            b.drafts[id := d.(status := Completed)],
            if d.idempotencyKey != "" then b.completed + {d.idempotencyKey} else b.completed)
    case Refused(DraftExpired) => b.(drafts := b.drafts[id := b.drafts[id].(status := Failed)])
    case Refused(_) => b
  }

  function CancelError(b: Books, id: string, user: string): Outcome {
    if id !in b.drafts then Refused(DraftNotFound)
    else if b.drafts[id].status != Draft && b.drafts[id].status != Pending then Refused(DraftAlready(b.drafts[id].status))
    else if !Owns(b, b.drafts[id].source, user) then Refused(OwnershipViolation)
    else Ok
  }

  function CancelledBooks(b: Books, id: string, user: string): Books {
    if CancelError(b, id, user) != Ok then b
    else b.(drafts := b.drafts[id := b.drafts[id].(status := Cancelled)])
  }

  class BankingRepository {
    var accounts: map<string, Account>
    var beneficiaries: map<string, Beneficiary>
    var transactions: map<string, seq<Transaction>>
    var transferDrafts: map<string, Transfer>
    var completedTransfers: set<string>

    constructor ()
      ensures View() == Books(map[], map[], map[], map[], {})
    {
      accounts := map[];
      beneficiaries := map[];
      transactions := map[];
      transferDrafts := map[];
      completedTransfers := {};
    }

    ghost function View(): Books
      reads this
    {
      Books(accounts, beneficiaries, transactions, transferDrafts, completedTransfers)
    }

    method CreateTransferDraft(id: string, r: Request, now: int) returns (outcome: Outcome)
      modifies this
      ensures outcome == RequestError(old(View()), r)
      ensures View() == Created(old(View()), id, r, now)
    {
      if r.source !in accounts {
        return Refused(AccountNotFound);
      }
      var acc := accounts[r.source];
      if !acc.active {
        return Refused(AccountInactive);
      }
      if acc.ownerId != r.userId {
        return Refused(NotOwner);
      }
      if r.beneficiary !in beneficiaries {
        return Refused(BeneficiaryNotFound);
      }
      if !beneficiaries[r.beneficiary].active {
        return Refused(BeneficiaryInactive);
      }
      if r.amount <= 0.0 {
        return Refused(AmountNotPositive);
      }
      if r.amount > TRANSACTION_LIMIT {
        return Refused(AmountOverLimit);
      }
      if r.currency !in SUPPORTED_CURRENCIES {
        return Refused(UnsupportedCurrency);
      }
      if acc.balance < r.amount {
        return Refused(InsufficientFunds);
      }
      if r.idempotencyKey in completedTransfers {
        return Refused(AlreadyCompleted);
      }
      transferDrafts := transferDrafts[id := Transfer(r.source, r.beneficiary, r.amount, r.currency, r.description, Draft,
                                                      r.idempotencyKey, now + DRAFT_EXPIRY_SECONDS)];
      return Ok;
    }

    method SubmitTransfer(id: string, user: string, now: int) returns (outcome: Outcome)
      modifies this
      ensures outcome == SubmitError(old(View()), id, user, now)
      ensures View() == Submitted(old(View()), id, user, now)
    {
      if id !in transferDrafts {
        return Refused(DraftNotFound);
      }
      var draft := transferDrafts[id];
      if draft.status != Draft {
        return Refused(DraftAlready(draft.status));
      }
      if !(draft.source in accounts && accounts[draft.source].ownerId == user) {
        return Refused(OwnershipViolation);
      }
      if now > draft.expiresAt {
        transferDrafts := transferDrafts[id := draft.(status := Failed)];
        return Refused(DraftExpired);
      }
      if draft.idempotencyKey != "" && draft.idempotencyKey in completedTransfers {
        return Refused(AlreadyCompleted);
      }
      var acc := accounts[draft.source];
      if acc.balance < draft.amount {
        return Refused(InsufficientFunds);
      }
      accounts := accounts[draft.source := acc.(balance := acc.balance - draft.amount)];
      transferDrafts := transferDrafts[id := draft.(status := Completed)];
      var txn := Transaction(draft.source, -draft.amount, draft.currency, DescriptionOf(draft));
      var history := if draft.source in transactions then transactions[draft.source] else [];
      transactions := transactions[draft.source := history + [txn]];
      if draft.idempotencyKey != "" {
        completedTransfers := completedTransfers + {draft.idempotencyKey};
      }
      return Ok;
    }

    method CancelTransfer(id: string, user: string) returns (outcome: Outcome)
      modifies this
      ensures outcome == CancelError(old(View()), id, user)
      ensures View() == CancelledBooks(old(View()), id, user)
    {
      if id !in transferDrafts {
        return Refused(DraftNotFound);
      }
      var draft := transferDrafts[id];
      if draft.status != Draft && draft.status != Pending {
        return Refused(DraftAlready(draft.status));
      }
      if !(draft.source in accounts && accounts[draft.source].ownerId == user) {
        return Refused(OwnershipViolation);
      }
      transferDrafts := transferDrafts[id := draft.(status := Cancelled)];
      return Ok;
    }
  }
}
