/** The account table and what handling one request does to it: the validation and
    account functions of the server, with their checks in the order the code makes them. */
module Ledger {
  import opened Messages

  datatype Account = Account(id: word, hash: string, salt: string, balance: word)
  type Table = t: seq<Account> | |t| == MAX_BANK_ACCOUNTS witness seq(MAX_BANK_ACCOUNTS, _ => UNUSED)

  /** A slot of zero-initialised static storage. */
  const UNUSED := Account(0, "", "", 0)

  /** The digest of password followed by salt; any function of that string. */
  type Hash = string -> string

  predicate PasswordMatches(h: Hash, a: Account, password: string) {
    h(password + a.salt) == a.hash
  }

  /** The ids through which handling `req` indexes the table name slots that exist.
      The range checks admit 4096, which has none. */
  predicate Addressable(req: Request) {
    match req.args
    case CreateAccount(id, _, _) => id != MAX_BANK_ACCOUNTS
    case CheckBalance => req.header.accountId != MAX_BANK_ACCOUNTS
    case Transfer(to, _) => req.header.accountId != MAX_BANK_ACCOUNTS && to < MAX_BANK_ACCOUNTS
    case _ => true
  }

  function ValidateUser(h: Hash, t: Table, hd: Header): word
    requires hd.accountId != MAX_BANK_ACCOUNTS
  {
    if hd.accountId == ADMIN_ACCOUNT_ID then RC_OP_NALLOW
    else if !Between(1, hd.accountId, MAX_BANK_ACCOUNTS) then RC_OTHER
    else if hd.accountId != t[hd.accountId].id then RC_ID_NOT_FOUND
    else if !PasswordMatches(h, t[hd.accountId], hd.password) then RC_LOGIN_FAIL
    else RC_OK
  }

  function ValidateAdmin(h: Hash, t: Table, hd: Header): word {
    if hd.accountId != ADMIN_ACCOUNT_ID then RC_OP_NALLOW
    else if !PasswordMatches(h, t[hd.accountId], hd.password) then RC_LOGIN_FAIL
    else RC_OK
  }

  /** The return code validation leaves in the reply; an unlisted operation leaves the old one. */
  function ValidationCode(h: Hash, t: Table, req: Request, stale: word): word
    requires Addressable(req)
  {
    match req.args
    case CreateAccount(_, _, _) => ValidateAdmin(h, t, req.header)
    case Shutdown => ValidateAdmin(h, t, req.header)
    case CheckBalance => ValidateUser(h, t, req.header)
    case Transfer(_, _) => ValidateUser(h, t, req.header)
    case Unlisted(_) => stale
  }

  predicate Accepted(h: Hash, t: Table, req: Request)
    requires Addressable(req)
  {
    !req.args.Unlisted? && ValidationCode(h, t, req, RC_OTHER) == RC_OK
  }

  function CreateCode(t: Table, id: word, balance: word, password: string): word
    requires id != MAX_BANK_ACCOUNTS
  {
    if !Between(1, id, MAX_BANK_ACCOUNTS) then RC_OTHER
    else if id == t[id].id then RC_ID_IN_USE
    else if !Between(MIN_BALANCE, balance, MAX_BALANCE) then RC_OTHER
    else if !Between(MIN_PASSWORD_LEN, |password|, MAX_PASSWORD_LEN) then RC_OTHER
    else if ' ' in password then RC_OTHER
    else RC_OK
  }

  function TransferCode(t: Table, from: word, to: word, amount: word): word
    requires from < MAX_BANK_ACCOUNTS && to < MAX_BANK_ACCOUNTS
  {
    if !Between(1, to, MAX_BANK_ACCOUNTS) then RC_OTHER
    else if to != t[to].id then RC_ID_IN_USE
    else if !Between(MIN_BALANCE, amount, t[from].balance) then RC_NO_FUNDS
    else if !Between(MIN_BALANCE, Wrap(amount + t[to].balance), MAX_BALANCE) then RC_NO_FUNDS
    else RC_OK
  }

  /** Debit, then credit: with `from == to` the credit reads the debited slot. */
  function Moved(t: Table, from: word, to: word, amount: word): Table
    requires from < MAX_BANK_ACCOUNTS && to < MAX_BANK_ACCOUNTS
  {
    var debited := t[from := t[from].(balance := Wrap(t[from].balance - amount))];
    debited[to := debited[to].(balance := Wrap(debited[to].balance + amount))]
  }

  /** An accepted request has an id with a slot. */
  lemma AcceptedInTable(h: Hash, t: Table, req: Request)
    requires Addressable(req) && Accepted(h, t, req)
    ensures req.header.accountId < MAX_BANK_ACCOUNTS
  {
  }

  /** The return code of the whole request. */
  function FinalCode(h: Hash, t: Table, req: Request, stale: word): word
    requires Addressable(req)
  {
    if !Accepted(h, t, req) then ValidationCode(h, t, req, stale)
    else match req.args
      case CreateAccount(id, balance, password) => CreateCode(t, id, balance, password)
      case Transfer(to, amount) => TransferCode(t, req.header.accountId, to, amount)
      case _ => RC_OK
  }

  /** The table after the request; `salt` is the random salt drawn for a new account. */
  function Effect(h: Hash, t: Table, req: Request, salt: string): Table
    requires Addressable(req)
  {
    if !Accepted(h, t, req) || FinalCode(h, t, req, RC_OTHER) != RC_OK then t
    else match req.args
      case CreateAccount(id, balance, password) => t[id := Account(id, h(password + salt), salt, balance)]
      case Transfer(to, amount) => Moved(t, req.header.accountId, to, amount)
      case _ => t
  }

  /** The union word of the reply. A transfer stores the receiver's balance first and the
      sender's new balance only when it succeeds; other requests may leave the old word. */
  function Payload(h: Hash, t: Table, req: Request, stale: word): word
    requires Addressable(req)
  {
    if !Accepted(h, t, req) then stale
    else match req.args
      case CheckBalance => t[req.header.accountId].balance
      case Transfer(to, amount) =>
        if TransferCode(t, req.header.accountId, to, amount) == RC_OK
        then Moved(t, req.header.accountId, to, amount)[req.header.accountId].balance
        else t[to].balance
      case _ => stale
  }

  /** What the reply structure holds after the request, given what it held before. */
  function Acknowledge(h: Hash, t: Table, req: Request, stale: Reply): Reply
    requires Addressable(req)
  {
    Reply(OpCode(req.args), REPLY_VALUE_SIZE, req.header.accountId,
          FinalCode(h, t, req, stale.ret), Payload(h, t, req, stale.payload))
  }

  /** The start-up check cuts the password at the first space that follows another
      character and refuses it when that shortens it; leading spaces pass. */
  predicate ValidAdminPassword(password: string) {
    && Between(MIN_PASSWORD_LEN, |password|, MAX_PASSWORD_LEN)
    && forall i, j :: 0 <= i < j < |password| && password[j] == ' ' ==> password[i] == ' '
  }

  /** Spaces, and after them none. */
  ghost predicate SpacesThenWord(s: string, n: nat) {
    n <= |s| && (forall i :: 0 <= i < n ==> s[i] == ' ') && forall i :: n <= i < |s| ==> s[i] != ' '
  }

  lemma {:induction false} SpacesFirst(s: string) returns (n: nat)
    ensures n <= |s| && (forall i :: 0 <= i < n ==> s[i] == ' ') && (n < |s| ==> s[n] != ' ')
  {
    if s == "" || s[0] != ' ' {
      n := 0;
    } else {
      n := SpacesFirst(s[1..]);
      n := n + 1;
    }
  }

  /** The administrator's password is 8 to 20 characters, of which those from the first that is
      no space on are none. */
  lemma AdminPasswordDecided(password: string)
    ensures ValidAdminPassword(password) <==>
            8 <= |password| <= 20 && exists n: nat :: SpacesThenWord(password, n)
  {
    if ValidAdminPassword(password) {
      var n := SpacesFirst(password);
      assert SpacesThenWord(password, n);
    }
  }

  /** The table once the administrator's account exists. */
  function InitialTable(h: Hash, password: string, salt: string): Table {
    seq(MAX_BANK_ACCOUNTS, _ => UNUSED)[ADMIN_ACCOUNT_ID := Account(ADMIN_ACCOUNT_ID, h(password + salt), salt, 0)]
  }
}
