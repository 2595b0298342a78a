/** A reference bank: customers in a map, balances as natural numbers, no reply structure
    to reuse. The server's table functions refine it. */
module Bank {
  import opened Messages
  import opened Ledger

  datatype Customer = Customer(hash: string, salt: string, balance: nat)
  datatype Books = Books(adminHash: string, adminSalt: string, customers: map<nat, Customer>)

  /** What a client may rely on in a reply: a code, and an amount where one is reported. */
  datatype Answer = Answer(code: Option<word>, amount: Option<nat>)

  function Login(h: Hash, hash: string, salt: string, password: string): word {
    if h(password + salt) == hash then RC_OK else RC_LOGIN_FAIL
  }

  function AdminLogin(h: Hash, b: Books, hd: Header): word {
    if hd.accountId != ADMIN_ACCOUNT_ID then RC_OP_NALLOW
    else Login(h, b.adminHash, b.adminSalt, hd.password)
  }

  function CustomerLogin(h: Hash, b: Books, hd: Header): word {
    if hd.accountId == ADMIN_ACCOUNT_ID then RC_OP_NALLOW
    else if hd.accountId > MAX_BANK_ACCOUNTS then RC_OTHER
    else if hd.accountId !in b.customers then RC_ID_NOT_FOUND
    else Login(h, b.customers[hd.accountId].hash, b.customers[hd.accountId].salt, hd.password)
  }

  function Create(h: Hash, b: Books, hd: Header, id: nat, opening: nat, password: string, salt: string): (Books, word) {
    var login := AdminLogin(h, b, hd);
    if login != RC_OK then (b, login)
    else if id == 0 || id > MAX_BANK_ACCOUNTS then (b, RC_OTHER)
    else if id in b.customers then (b, RC_ID_IN_USE)
    else if opening == 0 || opening > MAX_BALANCE || |password| < MIN_PASSWORD_LEN || |password| > MAX_PASSWORD_LEN
            || ' ' in password then (b, RC_OTHER)
    else (b.(customers := b.customers[id := Customer(h(password + salt), salt, opening)]), RC_OK)
  }

  function BalanceOf(b: Books, id: nat): nat {
    if id in b.customers then b.customers[id].balance else 0
  }

  /** Sender and receiver settle at once: a transfer to oneself moves nothing. */
  function Settle(b: Books, from: nat, to: nat, amount: nat): Books
    requires from in b.customers && to in b.customers && amount <= b.customers[from].balance
  {
    if from == to then b
    else b.(customers := b.customers[from := b.customers[from].(balance := b.customers[from].balance - amount)]
                                    [to := b.customers[to].(balance := b.customers[to].balance + amount)])
  }

  function Pay(h: Hash, b: Books, hd: Header, to: nat, amount: nat): (Books, word, Option<nat>) {
    var login := CustomerLogin(h, b, hd);
    if login != RC_OK then (b, login, None)
    else if to == 0 then (b, RC_OTHER, Some(BalanceOf(b, to)))
    else if to !in b.customers then (b, RC_ID_IN_USE, Some(BalanceOf(b, to)))
    else if amount == 0 || amount > b.customers[hd.accountId].balance || amount + b.customers[to].balance > MAX_BALANCE
      then (b, RC_NO_FUNDS, Some(BalanceOf(b, to)))
    else var after := Settle(b, hd.accountId, to, amount); (after, RC_OK, Some(BalanceOf(after, hd.accountId)))
  }

  function Serve(h: Hash, b: Books, req: Request, salt: string): (Books, Answer) {
    match req.args
    case CreateAccount(id, opening, password) =>
      var (after, code) := Create(h, b, req.header, id, opening, password, salt);
      (after, Answer(Some(code), None))
    case CheckBalance =>
      var login := CustomerLogin(h, b, req.header);
      (b, Answer(Some(login), if login == RC_OK then Some(BalanceOf(b, req.header.accountId)) else None))
    case Transfer(to, amount) =>
      var (after, code, reported) := Pay(h, b, req.header, to, amount);
      (after, Answer(Some(code), reported))
    case Shutdown => (b, Answer(Some(AdminLogin(h, b, req.header)), None))
    case Unlisted(_) => (b, Answer(None, None))
  }

  /** Slot 0 is the administrator's and always empty of money; slot i holds id 0 and no
      money, or id i and at most MAX_BALANCE. */
  ghost predicate SlotOk(t: Table, i: nat)
    requires i < MAX_BANK_ACCOUNTS
  {
    (t[i].id == i && t[i].balance <= MAX_BALANCE && (i == 0 ==> t[i].balance == 0))
        || (t[i].id == 0 && t[i].balance == 0)
  }

  ghost predicate TableOk(t: Table) {
    forall i: nat :: i < MAX_BANK_ACCOUNTS ==> SlotOk(t, i)
  }

  ghost function AsCustomer(a: Account): Customer {
    Customer(a.hash, a.salt, a.balance)
  }

  ghost function Abstract(t: Table): Books {
    Books(t[0].hash, t[0].salt,
          map i: nat | 1 <= i < MAX_BANK_ACCOUNTS && t[i].id == i :: AsCustomer(t[i]))
  }

  /** The reply carries what the reference answers; words the reference leaves open may hold anything. */
  ghost predicate Carries(r: Reply, req: Request, a: Answer) {
    && r.op == OpCode(req.args)
    && r.length == REPLY_VALUE_SIZE
    && r.accountId == req.header.accountId
    && (a.code.Some? ==> r.ret == a.code.value)
    && (a.amount.Some? ==> r.payload == a.amount.value)
  }

  // ---- The checks in numbers

  /** Through which ids a request would index past the 4096 slots. */
  lemma AddressableIff(req: Request)
    ensures !Addressable(req) <==>
      || (req.args.CreateAccount? && req.args.id == 4096)
      || ((req.args.CheckBalance? || req.args.Transfer?) && req.header.accountId == 4096)
      || (req.args.Transfer? && req.args.to >= 4096)
  {
  }

  /** When an account is opened, and what the reply says when it is not. */
  lemma CreationDecided(t: Table, id: word, balance: word, password: string)
    requires id != 4096
    ensures var code := CreateCode(t, id, balance, password);
      && (code == 0 <==> 1 <= id < 4096 && t[id].id != id && 1 <= balance <= 1_000_000_000
                         && 8 <= |password| <= 20 && ' ' !in password)
      && (code == 6 <==> 1 <= id < 4096 && t[id].id == id)
      && (code != 0 && code != 6 ==> code == 11)
  {
  }

  /** When money is moved, and what the reply says when it is not. */
  lemma TransferDecided(t: Table, from: word, to: word, amount: word)
    requires TableOk(t) && from < 4096 && to < 4096
    ensures var code := TransferCode(t, from, to, amount);
      && (code == 0 <==> to != 0 && t[to].id == to && 1 <= amount <= t[from].balance
                         && amount + t[to].balance <= 1_000_000_000)
      && (code == 11 <==> to == 0)
      && (code == 6 <==> to != 0 && t[to].id != to)
      && (code != 0 && code != 11 && code != 6 ==> code == 9)
  {
    assert SlotOk(t, from) && SlotOk(t, to);
  }

  /** Who is let in as a customer and as the administrator, and what the reply says to others. */
  lemma LoginDecided(h: Hash, t: Table, hd: Header)
    ensures var code := ValidateAdmin(h, t, hd);
      && (code == 0 <==> hd.accountId == 0 && h(hd.password + t[0].salt) == t[0].hash)
      && (code == 5 <==> hd.accountId != 0)
      && (code != 0 && code != 5 ==> code == 4)
    ensures hd.accountId != 4096 ==>
      var code := ValidateUser(h, t, hd);
      var known := 1 <= hd.accountId < 4096 && t[hd.accountId].id == hd.accountId;
      && (code == 0 <==> known && h(hd.password + t[hd.accountId].salt) == t[hd.accountId].hash)
      && (code == 5 <==> hd.accountId == 0)
      && (code == 11 <==> hd.accountId > 4096)
      && (code == 7 <==> 1 <= hd.accountId < 4096 && !known)
      && (code != 0 && code != 5 && code != 11 && code != 7 ==> code == 4)
  {
  }

  // ---- One request

  lemma LoginRefined(h: Hash, t: Table, req: Request)
    requires TableOk(t) && Addressable(req)
    ensures ValidateAdmin(h, t, req.header) == AdminLogin(h, Abstract(t), req.header)
    ensures req.header.accountId != MAX_BANK_ACCOUNTS
        ==> ValidateUser(h, t, req.header) == CustomerLogin(h, Abstract(t), req.header)
  {
  }

  /** Within the bound on balances no 32-bit sum or difference of a transfer wraps. */
  lemma TransferExact(t: Table, from: word, to: word, amount: word)
    requires TableOk(t) && 1 <= from < MAX_BANK_ACCOUNTS && to < MAX_BANK_ACCOUNTS && t[from].id == from
    requires TransferCode(t, from, to, amount) == RC_OK
    ensures amount <= t[from].balance && amount + t[to].balance <= MAX_BALANCE && to >= 1 && t[to].id == to
    ensures TableOk(Moved(t, from, to, amount))
    ensures from == to ==> Moved(t, from, to, amount) == t
    ensures from != to ==>
      Moved(t, from, to, amount)
        == t[from := t[from].(balance := t[from].balance - amount)][to := t[to].(balance := t[to].balance + amount)]
  {
    assert SlotOk(t, from) && SlotOk(t, to);
    var moved := Moved(t, from, to, amount);
    if from == to {
      assert moved[from] == t[from];
      assert moved == t;
    }
    forall i: nat | i < MAX_BANK_ACCOUNTS ensures SlotOk(moved, i) {
      assert SlotOk(t, i);
    }
  }

  ghost predicate SumExact(amount: word, balance: word) {
    Wrap(amount + balance) == amount + balance
  }

  /** The receiver check is exact because the sender check comes first: within the sender's
      balance the 32-bit sum does not wrap; without that bound it can, for every receiver
      with money. */
  lemma ReceiverSumExact(t: Table, from: word, to: word, amount: word)
    requires TableOk(t) && from < MAX_BANK_ACCOUNTS && to < MAX_BANK_ACCOUNTS
    ensures amount <= t[from].balance ==> SumExact(amount, t[to].balance)
    ensures (forall any: word :: SumExact(any, t[to].balance)) <==> t[to].balance == 0
  {
    assert SlotOk(t, from) && SlotOk(t, to);
    if t[to].balance > 0 {
      assert !SumExact(0xFFFF_FFFF, t[to].balance);
    }
  }

  lemma TransferRefined(h: Hash, t: Table, req: Request)
    requires TableOk(t) && Addressable(req) && req.args.Transfer? && Accepted(h, t, req)
    ensures var (after, code, reported) := Pay(h, Abstract(t), req.header, req.args.to, req.args.amount);
            && code == TransferCode(t, req.header.accountId, req.args.to, req.args.amount)
            && reported == Some(Payload(h, t, req, 0))
            && after == Abstract(Effect(h, t, req, ""))
  {
    var from, to, amount := req.header.accountId, req.args.to, req.args.amount;
    LoginRefined(h, t, req);
    assert SlotOk(t, from) && SlotOk(t, to);
    if TransferCode(t, from, to, amount) == RC_OK {
      TransferExact(t, from, to, amount);
      var after := Pay(h, Abstract(t), req.header, to, amount).0;
      assert after.customers == Abstract(Moved(t, from, to, amount)).customers;
    }
  }

  lemma CreateRefined(h: Hash, t: Table, req: Request, salt: string)
    requires TableOk(t) && Addressable(req) && req.args.CreateAccount?
    ensures TableOk(Effect(h, t, req, salt))
    ensures var (after, code) :=
            Create(h, Abstract(t), req.header, req.args.id, req.args.balance, req.args.password, salt);
            code == FinalCode(h, t, req, RC_OTHER) && after == Abstract(Effect(h, t, req, salt))
  {
    LoginRefined(h, t, req);
    var id := req.args.id;
    var t' := Effect(h, t, req, salt);
    if Accepted(h, t, req) && FinalCode(h, t, req, RC_OTHER) == RC_OK {
      forall i: nat | i < MAX_BANK_ACCOUNTS ensures SlotOk(t', i) {
        assert SlotOk(t, i);
      }
      assert Abstract(t').customers
          == Abstract(t).customers[id := Customer(h(req.args.password + salt), salt, req.args.balance)];
    }
  }

  /** One request on the table is one request at the reference bank: same new state, and a
      reply that carries the reference's answer whatever the structure held before. */
  lemma RequestRefined(h: Hash, t: Table, req: Request, salt: string, stale: Reply)
    requires TableOk(t) && Addressable(req)
    ensures TableOk(Effect(h, t, req, salt))
    ensures var (after, answer) := Serve(h, Abstract(t), req, salt);
            after == Abstract(Effect(h, t, req, salt)) && Carries(Acknowledge(h, t, req, stale), req, answer)
  {
    LoginRefined(h, t, req);
    match req.args
    case CreateAccount(_, _, _) => CreateRefined(h, t, req, salt);
    case Transfer(to, amount) =>
      if Accepted(h, t, req) {
        TransferRefined(h, t, req);
        if TransferCode(t, req.header.accountId, to, amount) == RC_OK {
          TransferExact(t, req.header.accountId, to, amount);
        }
      }
    case _ =>
  }

  /** The return code of a reply is independent of the reused structure exactly when the
      operation is one of the listed ones. */
  lemma CodeFreshIffListed(h: Hash, t: Table, req: Request)
    requires Addressable(req)
    ensures (forall s1: Reply, s2: Reply :: Acknowledge(h, t, req, s1).ret == Acknowledge(h, t, req, s2).ret)
        <==> OpCode(req.args) <= OP_SHUTDOWN
  {
    if req.args.Unlisted? {
      var s1, s2 := Reply(0, 0, 0, RC_OK, 0), Reply(0, 0, 0, RC_OTHER, 0);
      assert Acknowledge(h, t, req, s1).ret != Acknowledge(h, t, req, s2).ret;
    }
  }

  /** The reported amount is independent of the reused structure exactly for balance and
      transfer requests that pass validation. */
  lemma AmountFreshIffReported(h: Hash, t: Table, req: Request)
    requires Addressable(req)
    ensures (forall s1: Reply, s2: Reply :: Acknowledge(h, t, req, s1).payload == Acknowledge(h, t, req, s2).payload)
        <==> Accepted(h, t, req) && OP_BALANCE <= OpCode(req.args) <= OP_TRANSFER
  {
    var s1, s2 := Reply(0, 0, 0, 0, 0), Reply(0, 0, 0, 0, 1);
    if Acknowledge(h, t, req, s1).payload == Acknowledge(h, t, req, s2).payload {
      assert Accepted(h, t, req);
    }
  }

  lemma InitialOk(h: Hash, password: string, salt: string)
    ensures TableOk(InitialTable(h, password, salt))
    ensures Abstract(InitialTable(h, password, salt)) == Books(h(password + salt), salt, map[])
  {
    var t := InitialTable(h, password, salt);
    forall i: nat | i < MAX_BANK_ACCOUNTS ensures SlotOk(t, i) {
    }
    assert Abstract(t).customers == map[];
  }
}
