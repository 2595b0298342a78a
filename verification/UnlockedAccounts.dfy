/** The accounts as the offices really use them: no lock, so between one load or store and the
    next of a transfer or an account creation the other offices move. Every load of an id or a
    balance that a check or an update uses, and every store of one, is a step of its own; the
    requests are those that passed their login, and loads that only fill a reply are left out.
    Whether money is conserved then depends on the number of offices. */
module UnlockedAccounts {
  import opened Messages
  import opened Ledger
  import opened Bank
  import opened LedgerRuns

  datatype Payment = Payment(from: word, to: word, amount: word)
  datatype Deposit = Deposit(id: word, balance: word, password: string)
  datatype Job = Pay(p: Payment) | Open(d: Deposit)

  /** Where an office is in a request. */
  datatype Racer =
    | Idle
    | Asked(p: Payment)              // the receiver's account exists
    | Funded(p: Payment)             // the sender's balance covers the amount
    | Cleared(p: Payment)            // the receiver's balance has room for it
    | HaveFrom(p: Payment, seen: word) // loaded the sender's balance
    | Debited(p: Payment)            // stored it less the amount
    | HaveTo(p: Payment, seen: word) // loaded the receiver's balance
    | Creating(d: Deposit)            // passed the checks of a creation
    | Named(d: Deposit)              // stored the new account's id

  /** `deposited` adds up the opening balances of the creations answered with RC_OK. */
  datatype State = State(table: Table, offices: seq<Racer>, deposited: nat)

  function StoreBalance(t: Table, id: word, balance: word): Table
    requires id < MAX_BANK_ACCOUNTS
  {
    t[id := t[id].(balance := balance)]
  }

  function StoreId(t: Table, id: word): Table
    requires id < MAX_BANK_ACCOUNTS
  {
    t[id := t[id].(id := id)]
  }

  predicate Allowed(t: Table, d: Deposit) {
    d.id != MAX_BANK_ACCOUNTS && CreateCode(t, d.id, d.balance, d.password) == RC_OK
  }

  predicate InTable(p: Payment) {
    1 <= p.from < MAX_BANK_ACCOUNTS && p.to < MAX_BANK_ACCOUNTS
  }

  predicate Exists(t: Table, id: word) {
    1 <= id < MAX_BANK_ACCOUNTS && t[id].id == id
  }

  /** The sender's balance covers the amount. */
  predicate Covers(t: Table, p: Payment)
    requires InTable(p)
  {
    Between(MIN_BALANCE, p.amount, t[p.from].balance)
  }

  /** The receiver's balance has room for the amount. */
  predicate HasRoom(t: Table, p: Payment)
    requires InTable(p)
  {
    Between(MIN_BALANCE, Wrap(p.amount + t[p.to].balance), MAX_BALANCE)
  }

  /** One load or store: the table after it, where the office then is, and what a creation
      that this step completes brought in. */
  function Act(t: Table, r: Racer, job: Job): Option<(Table, Racer, nat)> {
    match r
    case Idle => Begin(t, job)
    case Creating(d) =>
      if d.id < MAX_BANK_ACCOUNTS then Some((StoreId(t, d.id), Named(d), 0)) else None
    case Named(d) =>
      if d.id < MAX_BANK_ACCOUNTS then Some((StoreBalance(t, d.id, d.balance), Idle, d.balance)) else None
    case _ => if InTable(r.p) then Some(Transfer(t, r)) else None
  }

  /** An idle office takes up a request: a transfer of a logged-in customer, or a creation. */
  function Begin(t: Table, job: Job): Option<(Table, Racer, nat)> {
    match job
    case Pay(p) =>
      if !Exists(t, p.from) || p.to >= MAX_BANK_ACCOUNTS then None
      else if Exists(t, p.to) then Some((t, Asked(p), 0)) else Some((t, Idle, 0))
    case Open(d) =>
      if d.id == MAX_BANK_ACCOUNTS then None
      else if Allowed(t, d) then Some((t, Creating(d), 0)) else Some((t, Idle, 0))
  }

  function Transfer(t: Table, r: Racer): (Table, Racer, nat)
    requires !r.Idle? && !r.Creating? && !r.Named? && InTable(r.p)
  {
    match r
    case Asked(p) => (t, if Covers(t, p) then Funded(p) else Idle, 0)
    case Funded(p) => (t, if HasRoom(t, p) then Cleared(p) else Idle, 0)
    case Cleared(p) => (t, HaveFrom(p, t[p.from].balance), 0)
    case HaveFrom(p, seen) => (StoreBalance(t, p.from, Wrap(seen - p.amount)), Debited(p), 0)
    case Debited(p) => (t, HaveTo(p, t[p.to].balance), 0)
    case HaveTo(p, seen) => (StoreBalance(t, p.to, Wrap(seen + p.amount)), Idle, 0)
  }

  /** Office i moves; `job` is the request an idle office takes up. */
  datatype Step = Step(i: nat, job: Job)

  function Next(s: State, step: Step): Option<State> {
    if step.i >= |s.offices| then None
    else match Act(s.table, s.offices[step.i], step.job)
      case None => None
      case Some((t, r, paidIn)) => Some(State(t, s.offices[step.i := r], s.deposited + paidIn))
  }

  function After(s: State, steps: seq<Step>): Option<State> {
    if steps == [] then Some(s)
    else match After(s, steps[..|steps| - 1])
      case None => None
      case Some(before) => Next(before, steps[|steps| - 1])
  }

  ghost function Start(n: nat, t: Table): State {
    State(t, seq(n, _ => Idle), 0)
  }

  ghost predicate AllIdle(s: State) {
    forall i :: 0 <= i < |s.offices| ==> s.offices[i] == Idle
  }

  ghost predicate Reached(n: nat, t: Table, s: State) {
    exists steps: seq<Step> :: After(Start(n, t), steps) == Some(s)
  }

  /** Whenever no request is under way the balances add up to what they did at the start and
      what the successful creations brought in. */
  ghost predicate Conserves(n: nat, t: Table) {
    forall s: State :: Reached(n, t, s) && AllIdle(s) ==> Total(s.table) == Total(t) + s.deposited
  }

  // ---- One office alone

  ghost predicate Payable(t: Table, p: Payment) {
    InTable(p) && Exists(t, p.from) && Exists(t, p.to) && Covers(t, p) && HasRoom(t, p)
  }

  function Debit(t: Table, p: Payment): Table
    requires InTable(p)
  {
    StoreBalance(t, p.from, Wrap(t[p.from].balance - p.amount))
  }

  function Credit(t: Table, p: Payment): Table
    requires InTable(p)
  {
    StoreBalance(t, p.to, Wrap(t[p.to].balance + p.amount))
  }

  /** The table before the debit. */
  function Undebit(t: Table, p: Payment): Table
    requires InTable(p)
  {
    StoreBalance(t, p.from, Wrap(t[p.from].balance + p.amount))
  }

  /** Between its steps one office alone finds the accounts as it left them: before the debit
      what its checks found still holds, after it the debit is what the credit will make up. */
  ghost predicate AloneOk(t: Table, r: Racer, total: nat) {
    match r
    case Idle => TableOk(t) && Total(t) == total
    case Asked(p) => TableOk(t) && Total(t) == total && InTable(p) && Exists(t, p.from) && Exists(t, p.to)
    case Funded(p) =>
      TableOk(t) && Total(t) == total && InTable(p) && Exists(t, p.from) && Exists(t, p.to) && Covers(t, p)
    case Cleared(p) => TableOk(t) && Total(t) == total && Payable(t, p)
    case HaveFrom(p, seen) => TableOk(t) && Total(t) == total && Payable(t, p) && seen == t[p.from].balance
    case Debited(p) => InTable(p) && HalfPaid(t, p, total)
    case HaveTo(p, seen) => InTable(p) && HalfPaid(t, p, total) && seen == t[p.to].balance
    case Creating(d) => TableOk(t) && Total(t) == total && Allowed(t, d)
    case Named(d) => TableOk(t) && Total(t) == total && Exists(t, d.id) && t[d.id].balance == 0
                     && Between(MIN_BALANCE, d.balance, MAX_BALANCE)
  }

  ghost predicate HalfPaid(t: Table, p: Payment, total: nat)
    requires InTable(p)
  {
    var base := Undebit(t, p);
    TableOk(base) && Total(base) == total && Payable(base, p) && t == Debit(base, p)
  }

  /** A transfer that its checks let through moves the money and makes none. */
  lemma {:induction false} PaidTotal(t: Table, p: Payment)
    requires TableOk(t) && Payable(t, p)
    ensures TableOk(Credit(Debit(t, p), p)) && Total(Credit(Debit(t, p), p)) == Total(t)
    ensures p.amount <= MAX_BALANCE
  {
    assert SlotOk(t, p.from);
    TransferExact(t, p.from, p.to, p.amount);
    assert Credit(Debit(t, p), p) == Moved(t, p.from, p.to, p.amount);
    if p.from != p.to {
      var debit := t[p.from].(balance := t[p.from].balance - p.amount);
      TotalUpdate(t, p.from, debit);
      TotalUpdate(t[p.from := debit], p.to, t[p.to].(balance := t[p.to].balance + p.amount));
    }
  }

  lemma DebitUndone(t: Table, p: Payment)
    requires TableOk(t) && Payable(t, p)
    ensures Undebit(Debit(t, p), p) == t
  {
    assert SlotOk(t, p.from);
    assert Undebit(Debit(t, p), p)[p.from] == t[p.from];
  }

  lemma {:induction false} NamedOk(t: Table, d: Deposit)
    requires TableOk(t) && Allowed(t, d)
    ensures d.id < MAX_BANK_ACCOUNTS
    ensures var t' := StoreId(t, d.id); TableOk(t') && Total(t') == Total(t) && t'[d.id].balance == 0
  {
    assert SlotOk(t, d.id);
    var t' := StoreId(t, d.id);
    TotalUpdate(t, d.id, t'[d.id]);
    forall i: nat | i < MAX_BANK_ACCOUNTS ensures SlotOk(t', i) {
      assert SlotOk(t, i);
    }
  }

  lemma {:induction false} BalanceOk(t: Table, d: Deposit)
    requires TableOk(t) && Exists(t, d.id) && t[d.id].balance == 0 && Between(MIN_BALANCE, d.balance, MAX_BALANCE)
    ensures var t' := StoreBalance(t, d.id, d.balance); TableOk(t') && Total(t') == Total(t) + d.balance
  {
    var t' := StoreBalance(t, d.id, d.balance);
    TotalUpdate(t, d.id, t'[d.id]);
    forall i: nat | i < MAX_BANK_ACCOUNTS ensures SlotOk(t', i) {
      assert SlotOk(t, i);
    }
  }

  lemma CheckingKept(t: Table, r: Racer, job: Job, total: nat)
    requires AloneOk(t, r, total) && (r.Idle? || r.Asked? || r.Funded? || r.Cleared?) && Act(t, r, job).Some?
    ensures var (t', r', paidIn) := Act(t, r, job).value; t' == t && paidIn == 0 && AloneOk(t, r', total)
  {
  }

  lemma PayingKept(t: Table, r: Racer, job: Job, total: nat)
    requires AloneOk(t, r, total) && (r.HaveFrom? || r.Debited? || r.HaveTo?) && Act(t, r, job).Some?
    ensures var (t', r', paidIn) := Act(t, r, job).value; paidIn == 0 && AloneOk(t', r', total)
  {
    match r
    case HaveFrom(p, _) => DebitUndone(t, p);
    case HaveTo(p, _) => PaidTotal(Undebit(t, p), p);
    case _ =>
  }

  lemma OpeningKept(t: Table, r: Racer, job: Job, total: nat)
    requires AloneOk(t, r, total) && (r.Creating? || r.Named?) && Act(t, r, job).Some?
    ensures var (t', r', paidIn) := Act(t, r, job).value; AloneOk(t', r', total + paidIn)
  {
    match r
    case Creating(d) => NamedOk(t, d);
    case Named(d) => BalanceOk(t, d);
  }

  lemma AloneKept(t: Table, r: Racer, job: Job, total: nat)
    requires AloneOk(t, r, total) && Act(t, r, job).Some?
    ensures var (t', r', paidIn) := Act(t, r, job).value; AloneOk(t', r', total + paidIn)
  {
    match r
    case Creating(_) => OpeningKept(t, r, job, total);
    case Named(_) => OpeningKept(t, r, job, total);
    case HaveFrom(_, _) => PayingKept(t, r, job, total);
    case Debited(_) => PayingKept(t, r, job, total);
    case HaveTo(_, _) => PayingKept(t, r, job, total);
    case _ => CheckingKept(t, r, job, total);
  }

  lemma {:induction false} AloneAlong(n: nat, t: Table, steps: seq<Step>, s: State)
    requires n <= 1 && TableOk(t) && After(Start(n, t), steps) == Some(s)
    ensures |s.offices| == n
    ensures AloneOk(s.table, if n == 0 then Idle else s.offices[0], Total(t) + s.deposited)
  {
    if steps != [] {
      var before, step := After(Start(n, t), steps[..|steps| - 1]).value, steps[|steps| - 1];
      AloneAlong(n, t, steps[..|steps| - 1], before);
      AloneKept(before.table, before.offices[0], step.job, Total(t) + before.deposited);
    }
  }

  /** How many more steps an office makes at most until it is idle again. */
  function Left(r: Racer): nat {
    match r
    case Idle => 7
    case Asked(_) => 6
    case Funded(_) => 5
    case Cleared(_) => 4
    case HaveFrom(_, _) => 3
    case Debited(_) => 2
    case HaveTo(_, _) => 1
    case Creating(_) => 2
    case Named(_) => 1
  }

  /** An office that nobody interrupts, from `r` on until it is idle again: the table it leaves
      and the deposit it took in. */
  function Uninterrupted(t: Table, r: Racer, job: Job): Option<(Table, nat)>
    decreases Left(r)
  {
    match Act(t, r, job)
    case None => None
    case Some((t', r', paidIn)) => if r'.Idle? then Some((t', paidIn)) else Uninterrupted(t', r', job)
  }

  /** Uninterrupted, the loads and stores of a transfer are the transfer of the table functions. */
  lemma {:induction false} PaidAlone(t: Table, p: Payment)
    requires Exists(t, p.from) && p.to < MAX_BANK_ACCOUNTS
    ensures Uninterrupted(t, Idle, Pay(p)) == Some((
      if TransferCode(t, p.from, p.to, p.amount) == RC_OK then Moved(t, p.from, p.to, p.amount) else t, 0))
  {
    if Payable(t, p) {
      var t' := Debit(t, p);
      var job := Pay(p);
      assert Uninterrupted(t', Debited(p), job) == Some((Credit(t', p), 0));
      assert Uninterrupted(t, Cleared(p), job) == Uninterrupted(t, HaveFrom(p, t[p.from].balance), job);
      assert Credit(t', p) == Moved(t, p.from, p.to, p.amount);
    }
  }

  /** And those of a creation put in the id and the balance, if its checks pass. */
  lemma {:induction false} OpenedAlone(t: Table, d: Deposit)
    requires d.id != MAX_BANK_ACCOUNTS
    ensures Uninterrupted(t, Idle, Open(d)) ==
      if CreateCode(t, d.id, d.balance, d.password) == RC_OK
      then Some((t[d.id := t[d.id].(id := d.id, balance := d.balance)], d.balance))
      else Some((t, 0))
  {
    if Allowed(t, d) {
      var t' := StoreId(t, d.id);
      assert Uninterrupted(t', Named(d), Open(d)) == Some((StoreBalance(t', d.id, d.balance), d.balance));
      assert StoreBalance(t', d.id, d.balance) == t[d.id := t[d.id].(id := d.id, balance := d.balance)];
    }
  }

  // ---- Nothing to do

  /** No transfer would be accepted and no account is left to open. */
  ghost predicate Frozen(t: Table) {
    (forall p: Payment :: !Payable(t, p)) && (forall id: word :: 1 <= id < MAX_BANK_ACCOUNTS ==> Exists(t, id))
  }

  /** An office that has got no further than the first checks. */
  ghost predicate Checking(t: Table, r: Racer) {
    || r.Idle?
    || (r.Asked? && InTable(r.p) && Exists(t, r.p.from) && Exists(t, r.p.to))
    || (r.Funded? && InTable(r.p) && Exists(t, r.p.from) && Exists(t, r.p.to) && Covers(t, r.p))
  }

  lemma FrozenKept(t: Table, r: Racer, job: Job)
    requires Frozen(t) && Checking(t, r) && Act(t, r, job).Some?
    ensures var (t', r', paidIn) := Act(t, r, job).value; t' == t && paidIn == 0 && Checking(t, r')
  {
    if r.Funded? {
      assert !Payable(t, r.p);
    } else if r.Idle? && job.Open? && 1 <= job.d.id < MAX_BANK_ACCOUNTS {
      assert Exists(t, job.d.id);
    }
  }

  lemma {:induction false} NothingHappens(n: nat, t: Table, steps: seq<Step>, s: State)
    requires Frozen(t) && After(Start(n, t), steps) == Some(s)
    ensures s.table == t && s.deposited == 0 && forall i :: 0 <= i < |s.offices| ==> Checking(t, s.offices[i])
  {
    if steps != [] {
      var before, step := After(Start(n, t), steps[..|steps| - 1]).value, steps[|steps| - 1];
      NothingHappens(n, t, steps[..|steps| - 1], before);
      FrozenKept(t, before.offices[step.i], step.job);
    }
  }

  // ---- Two offices race

  lemma Extend(n: nat, t: Table, s: State, step: Step, next: State)
    requires Reached(n, t, s) && Next(s, step) == Some(next)
    ensures Reached(n, t, next)
  {
    var steps :| After(Start(n, t), steps) == Some(s);
    assert (steps + [step])[..|steps|] == steps;
    assert After(Start(n, t), steps + [step]) == Some(next);
  }

  /** The first two of `n` offices are at `a` and `b`, the others idle. */
  ghost function Two(n: nat, table: Table, a: Racer, b: Racer, deposited: nat): State
    requires n >= 2
  {
    State(table, seq(n, _ => Idle)[0 := a][1 := b], deposited)
  }

  /** The first two offices do the same job. */
  datatype Race = Race(n: nat, start: Table, job: Job)

  ghost predicate At(g: Race, table: Table, a: Racer, b: Racer, deposited: nat) {
    g.n >= 2 && Reached(g.n, g.start, Two(g.n, table, a, b, deposited))
  }

  lemma First(g: Race, table: Table, a: Racer, b: Racer, deposited: nat, table': Table, a': Racer, paidIn: nat)
    requires At(g, table, a, b, deposited) && Act(table, a, g.job) == Some((table', a', paidIn))
    ensures At(g, table', a', b, deposited + paidIn)
  {
    var s, s' := Two(g.n, table, a, b, deposited), Two(g.n, table', a', b, deposited + paidIn);
    assert s.offices[0 := a'] == s'.offices;
    Extend(g.n, g.start, s, Step(0, g.job), s');
  }

  lemma Second(g: Race, table: Table, a: Racer, b: Racer, deposited: nat, table': Table, b': Racer, paidIn: nat)
    requires At(g, table, a, b, deposited) && Act(table, b, g.job) == Some((table', b', paidIn))
    ensures At(g, table', a, b', deposited + paidIn)
  {
    var s, s' := Two(g.n, table, a, b, deposited), Two(g.n, table', a, b', deposited + paidIn);
    assert s.offices[1 := b'] == s'.offices;
    Extend(g.n, g.start, s, Step(1, g.job), s');
  }

  lemma Off(n: nat, t: Table, job: Job)
    requires n >= 2
    ensures At(Race(n, t, job), t, Idle, Idle, 0)
  {
    assert After(Start(n, t), []) == Some(Start(n, t));
    assert Start(n, t).offices == Two(n, t, Idle, Idle, 0).offices;
  }

  /** Both offices pass the checks of one payment. */
  lemma BothCleared(g: Race, p: Payment)
    requires g.n >= 2 && g.job == Pay(p) && Payable(g.start, p)
    ensures At(g, g.start, Cleared(p), Cleared(p), 0)
  {
    var t := g.start;
    Off(g.n, t, g.job);
    First(g, t, Idle, Idle, 0, t, Asked(p), 0);
    First(g, t, Asked(p), Idle, 0, t, Funded(p), 0);
    First(g, t, Funded(p), Idle, 0, t, Cleared(p), 0);
    Second(g, t, Cleared(p), Idle, 0, t, Asked(p), 0);
    Second(g, t, Cleared(p), Asked(p), 0, t, Funded(p), 0);
    Second(g, t, Cleared(p), Funded(p), 0, t, Cleared(p), 0);
  }

  /** Both load the sender's balance before either stores it: one debit. */
  lemma BothDebit(g: Race, p: Payment)
    requires g.n >= 2 && g.job == Pay(p) && Payable(g.start, p)
    ensures At(g, Debit(g.start, p), Debited(p), Debited(p), 0)
  {
    var t, seen := g.start, g.start[p.from].balance;
    var t' := Debit(t, p);
    BothCleared(g, p);
    First(g, t, Cleared(p), Cleared(p), 0, t, HaveFrom(p, seen), 0);
    Second(g, t, HaveFrom(p, seen), Cleared(p), 0, t, HaveFrom(p, seen), 0);
    First(g, t, HaveFrom(p, seen), HaveFrom(p, seen), 0, t', Debited(p), 0);
    assert StoreBalance(t', p.from, Wrap(seen - p.amount)) == t';
    Second(g, t', Debited(p), HaveFrom(p, seen), 0, t', Debited(p), 0);
  }

  lemma FirstCredits(g: Race, p: Payment, t: Table)
    requires InTable(p) && At(g, t, Debited(p), Debited(p), 0)
    ensures At(g, Credit(t, p), Idle, Debited(p), 0)
  {
    var seen := t[p.to].balance;
    First(g, t, Debited(p), Debited(p), 0, t, HaveTo(p, seen), 0);
    First(g, t, HaveTo(p, seen), Debited(p), 0, Credit(t, p), Idle, 0);
  }

  lemma SecondCredits(g: Race, p: Payment, t: Table)
    requires InTable(p) && At(g, t, Idle, Debited(p), 0)
    ensures At(g, Credit(t, p), Idle, Idle, 0)
  {
    var seen := t[p.to].balance;
    Second(g, t, Idle, Debited(p), 0, t, HaveTo(p, seen), 0);
    Second(g, t, Idle, HaveTo(p, seen), 0, Credit(t, p), Idle, 0);
  }

  /** And then both credit the receiver. */
  lemma BothCredit(g: Race, p: Payment)
    requires g.n >= 2 && g.job == Pay(p) && Payable(g.start, p)
    ensures At(g, Credit(Credit(Debit(g.start, p), p), p), Idle, Idle, 0)
  {
    BothDebit(g, p);
    FirstCredits(g, p, Debit(g.start, p));
    SecondCredits(g, p, Credit(Debit(g.start, p), p));
  }

  lemma {:induction false} CreditTotal(t: Table, p: Payment)
    requires TableOk(t) && InTable(p) && p.amount <= MAX_BALANCE
    ensures Total(Credit(t, p)) == Total(t) + p.amount
  {
    assert SlotOk(t, p.to);
    TotalUpdate(t, p.to, t[p.to].(balance := Wrap(t[p.to].balance + p.amount)));
  }

  /** Two offices at one payment make its amount out of nothing. */
  lemma PaymentRace(n: nat, t: Table, p: Payment) returns (s: State)
    requires n >= 2 && TableOk(t) && Payable(t, p)
    ensures Reached(n, t, s) && AllIdle(s) && s.deposited == 0 && Total(s.table) == Total(t) + p.amount
  {
    var paid := Credit(Debit(t, p), p);
    BothCredit(Race(n, t, Pay(p)), p);
    PaidTotal(t, p);
    CreditTotal(paid, p);
    s := Two(n, Credit(paid, p), Idle, Idle, 0);
  }

  lemma BothCreating(g: Race, d: Deposit)
    requires g.n >= 2 && g.job == Open(d) && Allowed(g.start, d)
    ensures At(g, g.start, Creating(d), Creating(d), 0)
  {
    Off(g.n, g.start, g.job);
    First(g, g.start, Idle, Idle, 0, g.start, Creating(d), 0);
    Second(g, g.start, Creating(d), Idle, 0, g.start, Creating(d), 0);
  }

  lemma BothName(g: Race, d: Deposit)
    requires g.n >= 2 && g.job == Open(d) && Allowed(g.start, d)
    ensures At(g, StoreId(g.start, d.id), Named(d), Named(d), 0)
  {
    var t := StoreId(g.start, d.id);
    BothCreating(g, d);
    First(g, g.start, Creating(d), Creating(d), 0, t, Named(d), 0);
    assert StoreId(t, d.id) == t;
    Second(g, t, Named(d), Creating(d), 0, t, Named(d), 0);
  }

  lemma BothStore(g: Race, d: Deposit)
    requires g.n >= 2 && g.job == Open(d) && Allowed(g.start, d)
    ensures At(g, StoreBalance(StoreId(g.start, d.id), d.id, d.balance), Idle, Idle, 2 * d.balance)
  {
    var t := StoreId(g.start, d.id);
    var t' := StoreBalance(t, d.id, d.balance);
    BothName(g, d);
    First(g, t, Named(d), Named(d), 0, t', Idle, d.balance);
    assert StoreBalance(t', d.id, d.balance) == t';
    Second(g, t', Idle, Named(d), d.balance, t', Idle, d.balance);
  }

  /** Two offices at one creation both answer RC_OK, and one deposit is lost. */
  lemma CreationRace(n: nat, t: Table, d: Deposit) returns (s: State)
    requires n >= 2 && TableOk(t) && Allowed(t, d)
    ensures Reached(n, t, s) && AllIdle(s) && s.deposited == 2 * d.balance && Total(s.table) == Total(t) + d.balance
  {
    BothStore(Race(n, t, Open(d)), d);
    NamedOk(t, d);
    BalanceOk(StoreId(t, d.id), d);
    s := Two(n, StoreBalance(StoreId(t, d.id), d.id, d.balance), Idle, Idle, 2 * d.balance);
  }

  /** An account that is not there yet can be opened. */
  lemma CanOpen(t: Table, id: word) returns (d: Deposit)
    requires 1 <= id < MAX_BANK_ACCOUNTS && !Exists(t, id)
    ensures d.id == id && d.balance > 0 && Allowed(t, d)
  {
    d := Deposit(id, 1, "password");
  }

  /** Without a lock on the accounts money is conserved on every run, account creations
      included, exactly when at most one office runs or nothing can be done to begin with. */
  lemma ConservesIff(n: nat, t: Table)
    requires TableOk(t)
    ensures Conserves(n, t) <==> n <= 1 || Frozen(t)
  {
    if n <= 1 || Frozen(t) {
      forall s: State | Reached(n, t, s) && AllIdle(s) ensures Total(s.table) == Total(t) + s.deposited {
        var steps :| After(Start(n, t), steps) == Some(s);
        if n <= 1 {
          AloneAlong(n, t, steps, s);
        } else {
          NothingHappens(n, t, steps, s);
        }
      }
    } else if p: Payment :| Payable(t, p) {
      var s := PaymentRace(n, t, p);
    } else {
      var id: word :| 1 <= id < MAX_BANK_ACCOUNTS && !Exists(t, id);
      var d := CanOpen(t, id);
      var s := CreationRace(n, t, d);
    }
  }

  /** From the server's own opening table: exactly with at most one office. */
  lemma OpeningConservesIff(n: nat, h: Hash, password: string, salt: string)
    ensures Conserves(n, InitialTable(h, password, salt)) <==> n <= 1
  {
    var t := InitialTable(h, password, salt);
    InitialOk(h, password, salt);
    ConservesIff(n, t);
    assert !Exists(t, 1);
  }
}
