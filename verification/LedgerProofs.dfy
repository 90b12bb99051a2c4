/** Conservation of money and once-only debits over every sequence of calls. */
module LedgerProofs {
  import opened Ledger

  datatype Op =
    | Create(id: string, r: Request, now: int)
    | Submit(id: string, user: string, now: int)
    | Cancel(id: string, user: string)

  function Apply(b: Books, op: Op): Books {
    match op
    case Create(id, r, now) => Created(b, id, r, now)
    case Submit(id, user, now) => Submitted(b, id, user, now)
    case Cancel(id, user) => CancelledBooks(b, id, user)
  }

  function Run(b: Books, ops: seq<Op>): Books
    decreases |ops|
  {
    if ops == [] then b else Run(Apply(b, ops[0]), ops[1..])
  }

  /** A created draft gets an id that is not in use: UUIDs do not repeat. */
  ghost predicate Fresh(b: Books, op: Op) {
    op.Create? ==> op.id !in b.drafts
  }

  ghost predicate AllFresh(b: Books, ops: seq<Op>)
    decreases |ops|
  {
    ops != [] ==> Fresh(b, ops[0]) && AllFresh(Apply(b, ops[0]), ops[1..])
  }

  // ---------------------------------------------------------------- sums over drafts and transactions

  ghost function DebitOf(d: Transfer, account: string): real {
    if d.status == Completed && d.source == account then d.amount else 0.0
  }

  ghost function DebitsIn(ids: set<string>, drafts: map<string, Transfer>, account: string): real
    requires ids <= drafts.Keys
  {
    if ids == {} then 0.0
    else
      var id :| id in ids;
      DebitOf(drafts[id], account) + DebitsIn(ids - {id}, drafts, account)
  }

  /** What the COMPLETED drafts took from an account. */
  ghost function Debited(drafts: map<string, Transfer>, account: string): real {
    DebitsIn(drafts.Keys, drafts, account)
  }

  lemma {:induction false} DebitsSplit(ids: set<string>, drafts: map<string, Transfer>, account: string, id: string)
    requires ids <= drafts.Keys && id in ids
    ensures DebitsIn(ids, drafts, account) == DebitOf(drafts[id], account) + DebitsIn(ids - {id}, drafts, account)
  {
    var first :| first in ids && DebitsIn(ids, drafts, account) == DebitOf(drafts[first], account) + DebitsIn(ids - {first}, drafts, account);
    if first != id {
      DebitsSplit(ids - {first}, drafts, account, id);
      DebitsSplit(ids - {id}, drafts, account, first);
      assert ids - {first} - {id} == ids - {id} - {first};
    }
  }

  lemma {:induction false} DebitsAgree(ids: set<string>, before: map<string, Transfer>, after: map<string, Transfer>, account: string)
    requires ids <= before.Keys && ids <= after.Keys
    requires forall id | id in ids :: DebitOf(before[id], account) == DebitOf(after[id], account)
    ensures DebitsIn(ids, before, account) == DebitsIn(ids, after, account)
  {
    if ids != {} {
      var id :| id in ids;
      DebitsSplit(ids, before, account, id);
      DebitsSplit(ids, after, account, id);
      DebitsAgree(ids - {id}, before, after, account);
    }
  }

  lemma UpdatedDebits(drafts: map<string, Transfer>, id: string, d: Transfer, account: string)
    ensures Debited(drafts[id := d], account)
            == Debited(drafts, account) + DebitOf(d, account) - (if id in drafts then DebitOf(drafts[id], account) else 0.0)
  {
    var after := drafts[id := d];
    var others := drafts.Keys - {id};
    assert after.Keys - {id} == others;
    DebitsSplit(after.Keys, after, account, id);
    DebitsAgree(others, drafts, after, account);
    if id in drafts {
      DebitsSplit(drafts.Keys, drafts, account, id);
    } else {
      assert others == drafts.Keys;
    }
  }

  ghost function Total(history: seq<Transaction>): real {
    if history == [] then 0.0 else Total(history[..|history| - 1]) + history[|history| - 1].amount
  }

  // ---------------------------------------------------------------- one call

  ghost function BalanceOf(b: Books, account: string): real {
    if account in b.accounts then b.accounts[account].balance else 0.0
  }

  /** What a call must leave alone: owners, the sum of balance and completed debits, and the sum of
      balance and recorded transactions with its sign turned. */
  ghost predicate Conserves(b: Books, c: Books) {
    && c.accounts.Keys == b.accounts.Keys
    && (forall a | a in b.accounts ::
          && c.accounts[a].ownerId == b.accounts[a].ownerId
          && c.accounts[a].active == b.accounts[a].active)
    && (forall a | a in b.accounts ::
          && BalanceOf(c, a) + Debited(c.drafts, a) == BalanceOf(b, a) + Debited(b.drafts, a)
          && BalanceOf(c, a) - Total(HistoryOf(c, a)) == BalanceOf(b, a) - Total(HistoryOf(b, a)))
  }

  lemma SubmitConserves(b: Books, id: string, user: string, now: int, a: string)
    requires SubmitError(b, id, user, now) == Ok && a in b.accounts
    ensures var c := Submitted(b, id, user, now);
            && BalanceOf(c, a) + Debited(c.drafts, a) == BalanceOf(b, a) + Debited(b.drafts, a)
            && BalanceOf(c, a) - Total(HistoryOf(c, a)) == BalanceOf(b, a) - Total(HistoryOf(b, a))
  {
    var d := b.drafts[id];
    UpdatedDebits(b.drafts, id, d.(status := Completed), a);
    var history := HistoryOf(b, d.source);
    var txn := Transaction(d.source, -d.amount, d.currency, DescriptionOf(d));
    assert (history + [txn])[..|history|] == history;
  }

  lemma AccountIsConserved(b: Books, op: Op, a: string)
    requires Fresh(b, op) && a in b.accounts
    ensures var c := Apply(b, op);
            && BalanceOf(c, a) + Debited(c.drafts, a) == BalanceOf(b, a) + Debited(b.drafts, a)
            && BalanceOf(c, a) - Total(HistoryOf(c, a)) == BalanceOf(b, a) - Total(HistoryOf(b, a))
  {
    match op
    case Create(id, r, now) =>
      UpdatedDebits(b.drafts, id, Transfer(r.source, r.beneficiary, r.amount, r.currency, r.description, Draft,
                                           r.idempotencyKey, now + DRAFT_EXPIRY_SECONDS), a);
    case Submit(id, user, now) =>
      if SubmitError(b, id, user, now) == Ok {
        SubmitConserves(b, id, user, now, a);
      } else if id in b.drafts {
        UpdatedDebits(b.drafts, id, b.drafts[id].(status := Failed), a);
      }
    case Cancel(id, user) =>
      if id in b.drafts {
        UpdatedDebits(b.drafts, id, b.drafts[id].(status := Cancelled), a);
      }
  }

  lemma OwnersAreKept(b: Books, op: Op)
    ensures var c := Apply(b, op);
            && c.accounts.Keys == b.accounts.Keys
            && forall a | a in b.accounts ::
                 c.accounts[a].ownerId == b.accounts[a].ownerId && c.accounts[a].active == b.accounts[a].active
  {
  }

  lemma ApplyConserves(b: Books, op: Op)
    requires Fresh(b, op)
    ensures Conserves(b, Apply(b, op))
  {
    hide Apply, Debited, HistoryOf, Total, BalanceOf;
    OwnersAreKept(b, op);
    forall a | a in b.accounts
      ensures var c := Apply(b, op);
              && BalanceOf(c, a) + Debited(c.drafts, a) == BalanceOf(b, a) + Debited(b.drafts, a)
              && BalanceOf(c, a) - Total(HistoryOf(c, a)) == BalanceOf(b, a) - Total(HistoryOf(b, a))
    {
      AccountIsConserved(b, op, a);
    }
  }

  // ---------------------------------------------------------------- well-formed books

  ghost predicate Sound(b: Books) {
    && (forall id | id in b.drafts ::
          var d := b.drafts[id];
          && d.source in b.accounts
          && 0.0 < d.amount <= TRANSACTION_LIMIT
          && (d.status == Completed && d.idempotencyKey != "" ==> d.idempotencyKey in b.completed))
    && (forall x, y | x in b.drafts && y in b.drafts && b.drafts[x].status == Completed && b.drafts[y].status == Completed
                      && b.drafts[x].idempotencyKey == b.drafts[y].idempotencyKey != "" :: x == y)
  }

  /** No call takes an account below zero, and no call raises a balance. */
  ghost predicate OnlyFalls(b: Books, c: Books) {
    forall a | a in b.accounts && a in c.accounts ::
      && c.accounts[a].balance <= b.accounts[a].balance
      && (b.accounts[a].balance >= 0.0 ==> c.accounts[a].balance >= 0.0)
  }

  lemma SubmitKeepsSound(b: Books, id: string, user: string, now: int)
    requires Sound(b)
    ensures Sound(Submitted(b, id, user, now)) && OnlyFalls(b, Submitted(b, id, user, now))
    ensures Submitted(b, id, user, now).accounts.Keys == b.accounts.Keys
  {
  }

  lemma ApplyKeepsSound(b: Books, op: Op)
    requires Sound(b) && Fresh(b, op)
    ensures Sound(Apply(b, op)) && OnlyFalls(b, Apply(b, op))
    ensures Apply(b, op).accounts.Keys == b.accounts.Keys
  {
    hide Submitted;
    if op.Submit? {
      SubmitKeepsSound(b, op.id, op.user, op.now);
    }
  }

  // ---------------------------------------------------------------- whole runs

  /** Over any sequence of calls each account's loss equals what its COMPLETED drafts took and what its
      transaction history records; the balance never rises nor drops below zero; every draft keeps within
      the limit; and no non-empty key has two COMPLETED drafts. */
  lemma {:induction false} MoneyIsConserved(b: Books, ops: seq<Op>)
    requires Sound(b) && AllFresh(b, ops)
    ensures Conserves(b, Run(b, ops)) && OnlyFalls(b, Run(b, ops)) && Sound(Run(b, ops))
    decreases |ops|
  {
    if ops != [] {
      ApplyConserves(b, ops[0]);
      ApplyKeepsSound(b, ops[0]);
      MoneyIsConserved(Apply(b, ops[0]), ops[1..]);
    }
  }

  lemma {:induction false} TotalOfConcat(before: seq<Transaction>, more: seq<Transaction>)
    ensures Total(before + more) == Total(before) + Total(more)
    decreases |more|
  {
    if more == [] {
      assert before + more == before;
    } else {
      var fewer := more[..|more| - 1];
      assert (before + more)[..|before + more| - 1] == before + fewer;
      TotalOfConcat(before, fewer);
    }
  }

  lemma HistoryIsAppended(b: Books, op: Op, account: string)
    ensures HistoryOf(b, account) <= HistoryOf(Apply(b, op), account)
  {
  }

  lemma {:induction false} HistoriesOnlyGrow(b: Books, ops: seq<Op>, account: string)
    ensures HistoryOf(b, account) <= HistoryOf(Run(b, ops), account)
    decreases |ops|
  {
    hide Apply;
    if ops != [] {
      HistoryIsAppended(b, ops[0], account);
      HistoriesOnlyGrow(Apply(b, ops[0]), ops[1..], account);
    }
  }

  /** The transactions that a run adds to an account's history. */
  ghost function Appended(b: Books, ops: seq<Op>, account: string): seq<Transaction> {
    var before, after := HistoryOf(b, account), HistoryOf(Run(b, ops), account);
    if |before| <= |after| then after[|before|..] else []
  }

  /** From books without drafts, whatever their accounts and histories: initial balance minus current
      balance is the sum of the completed drafts, and of the appended transactions with its sign turned;
      nothing already recorded is lost. */
  lemma LossIsTheSumOfCompletedDrafts(b: Books, ops: seq<Op>, account: string)
    requires b.drafts == map[] && AllFresh(b, ops) && account in b.accounts
    ensures var c := Run(b, ops);
            && account in c.accounts
            && b.accounts[account].balance - c.accounts[account].balance == Debited(c.drafts, account)
            && b.accounts[account].balance - c.accounts[account].balance == -Total(Appended(b, ops, account))
            && HistoryOf(c, account) == HistoryOf(b, account) + Appended(b, ops, account)
  {
    hide Apply;
    MoneyIsConserved(b, ops);
    HistoriesOnlyGrow(b, ops, account);
    TotalOfConcat(HistoryOf(b, account), Appended(b, ops, account));
    assert HistoryOf(Run(b, ops), account) == HistoryOf(b, account) + Appended(b, ops, account);
    assert BalanceOf(Run(b, ops), account) == Run(b, ops).accounts[account].balance;
  }

  // ---------------------------------------------------------------- once only

  /** A draft that no submit can complete any more. */
  ghost predicate Dead(b: Books, id: string) {
    && id in b.drafts
    && var d := b.drafts[id];
    || d.status != Draft
    || (d.idempotencyKey != "" && d.idempotencyKey in b.completed)
    || BalanceOf(b, d.source) < d.amount
  }

  lemma ApplyKeepsDead(b: Books, op: Op, id: string)
    requires Sound(b) && Fresh(b, op) && Dead(b, id)
    ensures Dead(Apply(b, op), id)
  {
  }

  lemma {:induction false} RunKeepsDead(b: Books, ops: seq<Op>, id: string)
    requires Sound(b) && AllFresh(b, ops) && Dead(b, id)
    ensures Dead(Run(b, ops), id)
    decreases |ops|
  {
    if ops != [] {
      ApplyKeepsDead(b, ops[0], id);
      ApplyKeepsSound(b, ops[0]);
      RunKeepsDead(Apply(b, ops[0]), ops[1..], id);
    }
  }

  lemma SubmitKills(b: Books, id: string, user: string, now: int)
    requires Sound(b) && id in b.drafts && Owns(b, b.drafts[id].source, user)
    ensures Dead(Submitted(b, id, user, now), id)
  {
  }

  /** After a submit by the owner of an existing draft, whether it succeeded or failed, no later submit of
      that draft succeeds, by anyone at any time and whatever calls lie between. */
  lemma OneSubmitDecides(b: Books, id: string, user: string, now: int, ops: seq<Op>, later: string, laterNow: int)
    requires Sound(b) && id in b.drafts && Owns(b, b.drafts[id].source, user)
    requires AllFresh(Submitted(b, id, user, now), ops)
    ensures SubmitError(Run(Submitted(b, id, user, now), ops), id, later, laterNow) != Ok
  {
    var c := Submitted(b, id, user, now);
    hide Submitted;
    SubmitKeepsSound(b, id, user, now);
    SubmitKills(b, id, user, now);
    RunKeepsDead(c, ops, id);
  }

  predicate Completes(b: Books, op: Op, id: string) {
    op.Submit? && op.id == id && SubmitError(b, op.id, op.user, op.now) == Ok
  }

  predicate CompletesKey(b: Books, op: Op, key: string) {
    op.Submit? && SubmitError(b, op.id, op.user, op.now) == Ok && b.drafts[op.id].idempotencyKey == key
  }

  /** How often a run debits a draft. */
  function Completions(b: Books, ops: seq<Op>, id: string): nat
    decreases |ops|
  {
    if ops == [] then 0
    else (if Completes(b, ops[0], id) then 1 else 0) + Completions(Apply(b, ops[0]), ops[1..], id)
  }

  /** How often a run debits a draft that carries the key. */
  function KeyCompletions(b: Books, ops: seq<Op>, key: string): nat
    decreases |ops|
  {
    if ops == [] then 0
    else (if CompletesKey(b, ops[0], key) then 1 else 0) + KeyCompletions(Apply(b, ops[0]), ops[1..], key)
  }

  /** Whatever is duplicated or replayed, a draft is debited at most once, and not at all once it is dead. */
  lemma {:induction false} DraftIsDebitedOnce(b: Books, ops: seq<Op>, id: string)
    requires Sound(b) && AllFresh(b, ops)
    ensures Completions(b, ops, id) <= if Dead(b, id) then 0 else 1
    decreases |ops|
  {
    if ops != [] {
      ApplyKeepsSound(b, ops[0]);
      if Dead(b, id) {
        ApplyKeepsDead(b, ops[0], id);
      }
      DraftIsDebitedOnce(Apply(b, ops[0]), ops[1..], id);
    }
  }

  /** Likewise for a non-empty idempotency key, however many drafts carry it. */
  lemma {:induction false} KeyIsDebitedOnce(b: Books, ops: seq<Op>, key: string)
    requires key != ""
    ensures KeyCompletions(b, ops, key) <= if key in b.completed then 0 else 1
    decreases |ops|
  {
    if ops != [] {
      KeyIsDebitedOnce(Apply(b, ops[0]), ops[1..], key);
    }
  }

  // ---------------------------------------------------------------- replayed dispatches

  ghost predicate AllReplays(ops: seq<Op>, id: string, user: string) {
    forall i | 0 <= i < |ops| :: ops[i].Submit? && ops[i].id == id && ops[i].user == user
  }

  /** A submit that follows one by the same user moves nothing, and repeating it changes nothing more. */
  lemma SecondSubmitMovesNothing(b: Books, id: string, user: string, now: int, later: int)
    requires Sound(b)
    ensures var once := Submitted(b, id, user, now);
            var twice := Submitted(once, id, user, later);
            && SubmitError(once, id, user, later) != Ok
            && twice.accounts == once.accounts && twice.transactions == once.transactions && twice.completed == once.completed
  {
    if id in b.drafts && Owns(b, b.drafts[id].source, user) {
      SubmitKills(b, id, user, now);
    }
  }

  /** Dispatching one submit again and again, as the executor and the resumed graph do, moves the money of
      the first dispatch and no more. */
  lemma {:induction false} ReplaysMoveNothing(b: Books, id: string, user: string, now: int, replays: seq<Op>)
    requires Sound(b) && AllReplays(replays, id, user)
    ensures var once := Submitted(b, id, user, now);
            var c := Run(once, replays);
            && c.accounts == once.accounts && c.transactions == once.transactions && c.completed == once.completed
    decreases |replays|
  {
    hide Submitted;
    var once := Submitted(b, id, user, now);
    SubmitKeepsSound(b, id, user, now);
    if replays != [] {
      SecondSubmitMovesNothing(b, id, user, now, replays[0].now);
      assert AllReplays(replays[1..], id, user);
      ReplaysMoveNothing(once, id, user, replays[0].now, replays[1..]);
    }
  }
}
