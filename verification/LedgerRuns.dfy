/** Whole runs of the ledger: what any sequence of requests keeps, whoever sends them. */
module LedgerRuns {
  import opened Messages
  import opened Ledger
  import opened Bank

  /** A processed request and the salt drawn while processing it. */
  datatype Event = Event(req: Request, salt: string)

  ghost predicate AllAddressable(evs: seq<Event>) {
    forall k :: 0 <= k < |evs| ==> Addressable(evs[k].req)
  }

  ghost function Run(h: Hash, t: Table, evs: seq<Event>): Table
    requires AllAddressable(evs)
  {
    if evs == [] then t
    else var e := evs[|evs| - 1]; Effect(h, Run(h, t, evs[..|evs| - 1]), e.req, e.salt)
  }

  ghost function RunBooks(h: Hash, b: Books, evs: seq<Event>): Books {
    if evs == [] then b
    else var e := evs[|evs| - 1]; Serve(h, RunBooks(h, b, evs[..|evs| - 1]), e.req, e.salt).0
  }

  /** Every run of the table is a run of the reference bank. */
  lemma {:induction false} RunRefined(h: Hash, t: Table, evs: seq<Event>)
    requires TableOk(t) && AllAddressable(evs)
    ensures TableOk(Run(h, t, evs))
    ensures Abstract(Run(h, t, evs)) == RunBooks(h, Abstract(t), evs)
  {
    if evs != [] {
      var before, e := evs[..|evs| - 1], evs[|evs| - 1];
      RunRefined(h, t, before);
      RequestRefined(h, Run(h, t, before), e.req, e.salt, Reply(0, 0, 0, 0, 0));
    }
  }

  lemma {:induction false} RunConcat(h: Hash, t: Table, first: seq<Event>, then_: seq<Event>)
    requires AllAddressable(first) && AllAddressable(then_)
    ensures AllAddressable(first + then_)
    ensures Run(h, t, first + then_) == Run(h, Run(h, t, first), then_)
  {
    var all := first + then_;
    if then_ == [] {
      assert all == first;
    } else {
      assert all[..|all| - 1] == first + then_[..|then_| - 1];
      RunConcat(h, t, first, then_[..|then_| - 1]);
    }
  }

  // ---- One request

  /** A reply other than RC_OK to a listed operation leaves the table as it was. */
  lemma RefusedUnchanged(h: Hash, t: Table, req: Request, salt: string, stale: Reply)
    requires Addressable(req) && OpCode(req.args) <= OP_SHUTDOWN
    requires Acknowledge(h, t, req, stale).ret != RC_OK
    ensures Effect(h, t, req, salt) == t
  {
  }

  ghost predicate Opens(h: Hash, t: Table, req: Request, i: nat)
    requires Addressable(req)
  {
    req.args.CreateAccount? && req.args.id == i && Accepted(h, t, req) && FinalCode(h, t, req, RC_OTHER) == RC_OK
  }

  ghost predicate Pays(h: Hash, t: Table, req: Request)
    requires Addressable(req)
  {
    req.args.Transfer? && Accepted(h, t, req) && FinalCode(h, t, req, RC_OTHER) == RC_OK
  }

  /** How one request changes slot i: only a successful creation of i or a successful
      transfer from or to i touches it. */
  lemma SlotChange(h: Hash, t: Table, req: Request, salt: string, i: nat)
    requires TableOk(t) && Addressable(req) && i < MAX_BANK_ACCOUNTS
    ensures var after := Effect(h, t, req, salt);
      if Opens(h, t, req, i) then
        && i > 0 && t[i].id != i && t[i].balance == 0
        && after[i] == Account(i, h(req.args.password + salt), salt, req.args.balance)
      else
        && after[i].id == t[i].id && after[i].hash == t[i].hash && after[i].salt == t[i].salt
        && after[i].balance == t[i].balance
           + (if Pays(h, t, req) && req.args.to == i then req.args.amount else 0)
           - (if Pays(h, t, req) && req.header.accountId == i then req.args.amount else 0)
  {
    assert SlotOk(t, i);
    if Pays(h, t, req) {
      TransferExact(t, req.header.accountId, req.args.to, req.args.amount);
    }
  }

  // ---- Balances and history

  datatype Posting = Opening | Received | Sent

  ghost function Posted(kind: Posting, h: Hash, t: Table, req: Request, i: nat): nat
    requires Addressable(req)
  {
    match kind
    case Opening => if Opens(h, t, req, i) then req.args.balance else 0
    case Received => if Pays(h, t, req) && req.args.to == i then req.args.amount else 0
    case Sent => if Pays(h, t, req) && req.header.accountId == i then req.args.amount else 0
  }

  /** The sum, over the run, of the postings of one kind to account i. */
  ghost function History(kind: Posting, h: Hash, t: Table, evs: seq<Event>, i: nat): nat
    requires AllAddressable(evs)
  {
    if evs == [] then 0
    else
      var before := evs[..|evs| - 1];
      History(kind, h, t, before, i) + Posted(kind, h, Run(h, t, before), evs[|evs| - 1].req, i)
  }

  lemma {:induction false} BalanceAgreesWithHistory(h: Hash, t: Table, evs: seq<Event>, i: nat)
    requires TableOk(t) && AllAddressable(evs) && i < MAX_BANK_ACCOUNTS
    ensures Run(h, t, evs)[i].balance
         == t[i].balance + History(Opening, h, t, evs, i) + History(Received, h, t, evs, i)
            - History(Sent, h, t, evs, i)
    ensures Run(h, t, evs)[i].balance <= MAX_BALANCE
  {
    RunRefined(h, t, evs);
    assert SlotOk(Run(h, t, evs), i);
    if evs != [] {
      var before, e := evs[..|evs| - 1], evs[|evs| - 1];
      BalanceAgreesWithHistory(h, t, before, i);
      RunRefined(h, t, before);
      SlotChange(h, Run(h, t, before), e.req, e.salt, i);
    }
  }

  /** A successful balance or transfer reply reports what the history says of the caller. */
  lemma {:induction false} ReplyAgreesWithHistory(h: Hash, t: Table, evs: seq<Event>, e: Event, stale: Reply)
    requires TableOk(t) && AllAddressable(evs) && Addressable(e.req)
    requires e.req.args.CheckBalance? || e.req.args.Transfer?
    requires Acknowledge(h, Run(h, t, evs), e.req, stale).ret == RC_OK
    ensures e.req.header.accountId < MAX_BANK_ACCOUNTS && AllAddressable(evs + [e])
    ensures var i, all := e.req.header.accountId, evs + [e];
            Acknowledge(h, Run(h, t, evs), e.req, stale).payload
              == t[i].balance + History(Opening, h, t, all, i) + History(Received, h, t, all, i)
                 - History(Sent, h, t, all, i)
  {
    PayloadIsBalance(h, Run(h, t, evs), e.req, e.salt, stale);
    RunMore(h, t, evs, e);
    BalanceAgreesWithHistory(h, t, evs + [e], e.req.header.accountId);
  }

  lemma PayloadIsBalance(h: Hash, t: Table, req: Request, salt: string, stale: Reply)
    requires Addressable(req) && (req.args.CheckBalance? || req.args.Transfer?)
    requires Acknowledge(h, t, req, stale).ret == RC_OK
    ensures req.header.accountId < MAX_BANK_ACCOUNTS
    ensures Acknowledge(h, t, req, stale).payload == Effect(h, t, req, salt)[req.header.accountId].balance
  {
    assert Accepted(h, t, req);
    AcceptedInTable(h, t, req);
  }

  lemma {:induction false} RunMore(h: Hash, t: Table, evs: seq<Event>, e: Event)
    requires AllAddressable(evs) && Addressable(e.req)
    ensures AllAddressable(evs + [e]) && Run(h, t, evs + [e]) == Effect(h, Run(h, t, evs), e.req, e.salt)
  {
    assert (evs + [e])[..|evs|] == evs;
  }

  // ---- Conservation

  ghost function Total(slots: seq<Account>): nat {
    if slots == [] then 0 else Total(slots[..|slots| - 1]) + slots[|slots| - 1].balance
  }

  lemma {:induction false} TotalUpdate(slots: seq<Account>, i: nat, a: Account)
    requires i < |slots|
    ensures Total(slots[i := a]) == Total(slots) - slots[i].balance + a.balance
  {
    var n := |slots| - 1;
    if i == n {
      assert slots[i := a][..n] == slots[..n];
    } else {
      assert slots[i := a][..n] == slots[..n][i := a];
      TotalUpdate(slots[..n], i, a);
    }
  }

  /** The opening balances of the creations that succeeded. */
  ghost function Deposited(h: Hash, t: Table, evs: seq<Event>): nat
    requires AllAddressable(evs)
  {
    if evs == [] then 0
    else
      var before, req := evs[..|evs| - 1], evs[|evs| - 1].req;
      Deposited(h, t, before)
      + (if req.args.CreateAccount? && Opens(h, Run(h, t, before), req, req.args.id) then req.args.balance else 0)
  }

  lemma {:induction false} TotalChange(h: Hash, t: Table, req: Request, salt: string)
    requires TableOk(t) && Addressable(req)
    ensures Total(Effect(h, t, req, salt))
         == Total(t) + (if req.args.CreateAccount? && Opens(h, t, req, req.args.id) then req.args.balance else 0)
  {
    if req.args.CreateAccount? && Opens(h, t, req, req.args.id) {
      var id := req.args.id;
      assert SlotOk(t, id);
      TotalUpdate(t, id, Account(id, h(req.args.password + salt), salt, req.args.balance));
    } else if Pays(h, t, req) {
      var from, to, amount := req.header.accountId, req.args.to, req.args.amount;
      TransferExact(t, from, to, amount);
      if from != to {
        var debit := t[from].(balance := t[from].balance - amount);
        TotalUpdate(t, from, debit);
        TotalUpdate(t[from := debit], to, t[to].(balance := t[to].balance + amount));
      }
    }
  }

  /** Money enters only with new accounts and never leaves; the administrator holds none. */
  lemma {:induction false} Conservation(h: Hash, t: Table, evs: seq<Event>)
    requires TableOk(t) && AllAddressable(evs)
    ensures Total(Run(h, t, evs)) == Total(t) + Deposited(h, t, evs)
    ensures Run(h, t, evs)[ADMIN_ACCOUNT_ID].balance == 0
  {
    RunRefined(h, t, evs);
    assert SlotOk(Run(h, t, evs), ADMIN_ACCOUNT_ID);
    if evs != [] {
      var before, e := evs[..|evs| - 1], evs[|evs| - 1];
      Conservation(h, t, before);
      RunRefined(h, t, before);
      TotalChange(h, Run(h, t, before), e.req, e.salt);
    }
  }

  lemma {:induction false} TotalOfEmpty(slots: seq<Account>)
    requires forall i :: 0 <= i < |slots| ==> slots[i].balance == 0
    ensures Total(slots) == 0
  {
    if slots != [] {
      TotalOfEmpty(slots[..|slots| - 1]);
    }
  }

  // ---- Accounts and credentials

  /** A used slot stays used, and no run changes its hash or its salt. */
  lemma {:induction false} CredentialsKept(h: Hash, t: Table, evs: seq<Event>, i: nat)
    requires TableOk(t) && AllAddressable(evs) && i < MAX_BANK_ACCOUNTS && t[i].id == i
    ensures var after := Run(h, t, evs)[i]; after.id == i && after.hash == t[i].hash && after.salt == t[i].salt
  {
    if evs != [] {
      var before, e := evs[..|evs| - 1], evs[|evs| - 1];
      CredentialsKept(h, t, before, i);
      RunRefined(h, t, before);
      SlotChange(h, Run(h, t, before), e.req, e.salt, i);
    }
  }

  /** Whoever holds the password an account was created with is let in ever after; another
      password is let in exactly when its digest is the same. */
  lemma {:induction false} CreatorStaysWelcome(h: Hash, t: Table, create: Event, later: seq<Event>, hd: Header)
    requires TableOk(t) && Addressable(create.req) && AllAddressable(later)
    requires create.req.args.CreateAccount? && hd.accountId == create.req.args.id
    requires Opens(h, t, create.req, create.req.args.id)
    ensures var now := Run(h, Effect(h, t, create.req, create.salt), later);
            (ValidateUser(h, now, hd) == RC_OK)
                <==> (h(hd.password + create.salt) == h(create.req.args.password + create.salt))
  {
    var i := create.req.args.id;
    RequestRefined(h, t, create.req, create.salt, Reply(0, 0, 0, 0, 0));
    CredentialsKept(h, Effect(h, t, create.req, create.salt), later, i);
  }

  ghost predicate WithdrawsFrom(h: Hash, owner: Account, req: Request) {
    req.args.Transfer? && req.header.accountId == owner.id && PasswordMatches(h, owner, req.header.password)
  }

  /** The k-th request of the run is a transfer that went through. */
  ghost predicate PaidAt(h: Hash, t: Table, evs: seq<Event>, k: nat)
    requires AllAddressable(evs) && k < |evs|
  {
    Pays(h, Run(h, t, evs[..k]), evs[k].req)
  }

  /** The k-th request of the run is a creation of account i that went through. */
  ghost predicate OpenedAt(h: Hash, t: Table, evs: seq<Event>, i: nat, k: nat)
    requires AllAddressable(evs) && k < |evs|
  {
    Opens(h, Run(h, t, evs[..k]), evs[k].req, i)
  }

  lemma SameInPrefix(evs: seq<Event>, n: nat, k: nat)
    requires k < n <= |evs|
    ensures evs[..n][..k] == evs[..k] && evs[..n][k] == evs[k]
  {
  }

  /** A balance falls only through a transfer that its owner's password authorised, and that
      was accepted and debited it. */
  lemma {:induction false} FallsOnlyByOwner(h: Hash, t: Table, evs: seq<Event>, i: nat)
    requires TableOk(t) && AllAddressable(evs) && i < MAX_BANK_ACCOUNTS
    requires Run(h, t, evs)[i].balance < t[i].balance
    ensures t[i].id == i
    ensures exists k :: 0 <= k < |evs| && WithdrawsFrom(h, t[i], evs[k].req) && PaidAt(h, t, evs, k)
  {
    assert SlotOk(t, i);
    var n := |evs| - 1;
    var before, e := evs[..n], evs[n];
    if Run(h, t, before)[i].balance < t[i].balance {
      FallsOnlyByOwner(h, t, before, i);
      var k :| 0 <= k < n && WithdrawsFrom(h, t[i], before[k].req) && PaidAt(h, t, before, k);
      SameInPrefix(evs, n, k);
      assert PaidAt(h, t, evs, k);
    } else {
      RunRefined(h, t, before);
      CredentialsKept(h, t, before, i);
      SlotChange(h, Run(h, t, before), e.req, e.salt, i);
      assert PaidAt(h, t, evs, n);
    }
  }

  ghost predicate AdminCreates(h: Hash, admin: Account, e: Event, made: Account) {
    && e.req.args.CreateAccount? && e.req.args.id == made.id
    && e.req.header.accountId == ADMIN_ACCOUNT_ID && PasswordMatches(h, admin, e.req.header.password)
    && made.hash == h(e.req.args.password + e.salt) && made.salt == e.salt
  }

  /** An account appears only through a creation that the administrator's password authorised
      and that was accepted, and carries the digest of the password that creation named. */
  lemma {:induction false} AppearsOnlyByAdmin(h: Hash, t: Table, evs: seq<Event>, i: nat)
    requires TableOk(t) && AllAddressable(evs) && i < MAX_BANK_ACCOUNTS
    requires t[i].id != i && Run(h, t, evs)[i].id == i
    ensures exists k :: 0 <= k < |evs| && AdminCreates(h, t[ADMIN_ACCOUNT_ID], evs[k], Run(h, t, evs)[i])
                        && OpenedAt(h, t, evs, i, k)
  {
    assert SlotOk(t, 0) && SlotOk(t, i);
    var n := |evs| - 1;
    var before, e := evs[..n], evs[n];
    var then_ := Run(h, t, before);
    RunRefined(h, t, before);
    SlotChange(h, then_, e.req, e.salt, i);
    if then_[i].id == i {
      AppearsOnlyByAdmin(h, t, before, i);
      var k :| 0 <= k < n && AdminCreates(h, t[ADMIN_ACCOUNT_ID], before[k], then_[i]) && OpenedAt(h, t, before, i, k);
      SameInPrefix(evs, n, k);
      LastKeeps(h, t, evs, i);
      assert OpenedAt(h, t, evs, i, k);
    } else {
      CredentialsKept(h, t, before, 0);
      assert AdminCreates(h, t[ADMIN_ACCOUNT_ID], e, Run(h, t, evs)[i]) && OpenedAt(h, t, evs, i, n);
    }
  }

  /** The last request of a run leaves the credentials of a used slot alone. */
  lemma {:induction false} LastKeeps(h: Hash, t: Table, evs: seq<Event>, i: nat)
    requires TableOk(t) && AllAddressable(evs) && evs != [] && i < MAX_BANK_ACCOUNTS
    requires Run(h, t, evs[..|evs| - 1])[i].id == i
    ensures var was, is_ := Run(h, t, evs[..|evs| - 1])[i], Run(h, t, evs)[i];
            is_.id == was.id && is_.hash == was.hash && is_.salt == was.salt
  {
    var before, e := evs[..|evs| - 1], evs[|evs| - 1];
    RunRefined(h, t, before);
    SlotChange(h, Run(h, t, before), e.req, e.salt, i);
  }
}
