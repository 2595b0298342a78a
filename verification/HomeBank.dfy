/** The server's operations on its own data: the account array updated in place and replies
    written through a reused buffer. Each is proved against the table functions of `Ledger`. */
module HomeBank {
  import opened Messages
  import opened Ledger
  import opened LedgerRuns

  class ReplyBuffer {
    var op: word
    var length: word
    var accountId: word
    var ret: word
    var payload: word

    /** Storage as it comes: nothing is promised of the fields. */
    constructor () {
    }

    ghost function Value(): Reply
      reads this
    {
      Reply(op, length, accountId, ret, payload)
    }
  }

  class Accounts {
    const slots: array<Account>
    const hash: Hash

    ghost predicate Valid() {
      slots.Length == MAX_BANK_ACCOUNTS
    }

    ghost function Contents(): Table
      requires Valid()
      reads slots
    {
      slots[..]
    }

    constructor (hash: Hash)
      ensures Valid() && fresh(slots) && this.hash == hash
      ensures forall i :: 0 <= i < MAX_BANK_ACCOUNTS ==> Contents()[i] == UNUSED
    {
      this.hash := hash;
      slots := new Account[MAX_BANK_ACCOUNTS](_ => UNUSED);
    }

    /** Refuses the password without touching the table, or opens the administrator's account. */
    method CreateAdminAccount(password: string, salt: string) returns (ok: bool)
      requires Valid()
      modifies slots
      ensures ok <==> ValidAdminPassword(password)
      ensures Contents() == if ok
                            then old(Contents())[ADMIN_ACCOUNT_ID :=
                                Account(ADMIN_ACCOUNT_ID, hash(password + salt), salt, 0)]
                            else old(Contents())
    {
      if !Between(MIN_PASSWORD_LEN, |password|, MAX_PASSWORD_LEN) {
        return false;
      }
      var kept := CutAtSpace(password);
      if kept != |password| {
        return false;
      }
      slots[ADMIN_ACCOUNT_ID] := Account(ADMIN_ACCOUNT_ID, hash(password + salt), salt, 0);
      return true;
    }

    /** The length left after cutting at the first space that follows another character. */
    static method CutAtSpace(password: string) returns (kept: nat)
      ensures kept <= |password|
      ensures kept == |password|
         <==> forall i, j :: 0 <= i < j < |password| && password[j] == ' ' ==> password[i] == ' '
      ensures kept < |password| ==> password[kept] == ' '
    {
      var first := 0;
      while first < |password| && password[first] == ' '
        invariant 0 <= first <= |password| && forall i :: 0 <= i < first ==> password[i] == ' '
      {
        first := first + 1;
      }
      kept := first;
      while kept < |password| && password[kept] != ' '
        invariant first <= kept <= |password| && forall j :: first <= j < kept ==> password[j] != ' '
      {
        kept := kept + 1;
      }
    }

    method ValidateUser(hd: Header, reply: ReplyBuffer) returns (ok: bool)
      requires Valid() && hd.accountId != MAX_BANK_ACCOUNTS
      modifies reply`ret
      ensures reply.ret == Ledger.ValidateUser(hash, Contents(), hd)
      ensures ok <==> reply.ret == RC_OK
    {
      if hd.accountId == ADMIN_ACCOUNT_ID {
        reply.ret := RC_OP_NALLOW;
        return false;
      }
      if !Between(1, hd.accountId, MAX_BANK_ACCOUNTS) {
        reply.ret := RC_OTHER;
        return false;
      }
      if hd.accountId != slots[hd.accountId].id {
        reply.ret := RC_ID_NOT_FOUND;
        return false;
      }
      var digest := hash(hd.password + slots[hd.accountId].salt);
      if digest != slots[hd.accountId].hash {
        reply.ret := RC_LOGIN_FAIL;
        return false;
      }
      reply.ret := RC_OK;
      return true;
    }

    method ValidateAdmin(hd: Header, reply: ReplyBuffer) returns (ok: bool)
      requires Valid()
      modifies reply`ret
      ensures reply.ret == Ledger.ValidateAdmin(hash, Contents(), hd)
      ensures ok <==> reply.ret == RC_OK
    {
      if hd.accountId != ADMIN_ACCOUNT_ID {
        reply.ret := RC_OP_NALLOW;
        return false;
      }
      var digest := hash(hd.password + slots[hd.accountId].salt);
      if digest != slots[hd.accountId].hash {
        reply.ret := RC_LOGIN_FAIL;
        return false;
      }
      reply.ret := RC_OK;
      return true;
    }

    method ValidateRequest(req: Request, reply: ReplyBuffer) returns (ok: bool)
      requires Valid() && Addressable(req)
      modifies reply`ret
      ensures reply.ret == ValidationCode(hash, Contents(), req, old(reply.ret))
      ensures ok <==> Accepted(hash, Contents(), req)
    {
      match req.args
      case CreateAccount(_, _, _) => ok := ValidateAdmin(req.header, reply);
      case Shutdown => ok := ValidateAdmin(req.header, reply);
      case CheckBalance => ok := ValidateUser(req.header, reply);
      case Transfer(_, _) => ok := ValidateUser(req.header, reply);
      case Unlisted(_) => ok := false;
    }

    method CreateUserAccount(id: word, balance: word, password: string, salt: string, reply: ReplyBuffer)
      returns (failed: bool)
      requires Valid() && id != MAX_BANK_ACCOUNTS
      modifies slots, reply`ret
      ensures reply.ret == CreateCode(old(Contents()), id, balance, password)
      ensures failed <==> reply.ret != RC_OK
      ensures Contents() == if failed then old(Contents())
                            else old(Contents())[id := Account(id, hash(password + salt), salt, balance)]
    {
      failed := true;
      if !Between(1, id, MAX_BANK_ACCOUNTS) {
        reply.ret := RC_OTHER;
        return;
      }
      if id == slots[id].id {
        reply.ret := RC_ID_IN_USE;
        return;
      }
      if !Between(MIN_BALANCE, balance, MAX_BALANCE) {
        reply.ret := RC_OTHER;
        return;
      }
      if !Between(MIN_PASSWORD_LEN, |password|, MAX_PASSWORD_LEN) {
        reply.ret := RC_OTHER;
        return;
      }
      if ' ' in password {
        reply.ret := RC_OTHER;
        return;
      }
      slots[id] := slots[id].(id := id);
      slots[id] := slots[id].(balance := balance);
      slots[id] := slots[id].(salt := salt);
      slots[id] := slots[id].(hash := hash(password + salt));
      reply.ret := RC_OK;
      failed := false;
    }

    method CheckUserBalance(id: word, reply: ReplyBuffer)
      requires Valid() && id < MAX_BANK_ACCOUNTS
      modifies reply`ret, reply`payload
      ensures reply.ret == RC_OK && reply.payload == Contents()[id].balance
    {
      reply.payload := slots[id].balance;
      reply.ret := RC_OK;
    }

    method CreateUserTransfer(id: word, to: word, amount: word, reply: ReplyBuffer)
      requires Valid() && id < MAX_BANK_ACCOUNTS && to < MAX_BANK_ACCOUNTS
      modifies slots, reply`ret, reply`payload
      ensures reply.ret == TransferCode(old(Contents()), id, to, amount)
      ensures Contents() == if reply.ret == RC_OK then Moved(old(Contents()), id, to, amount) else old(Contents())
      ensures reply.payload == if reply.ret == RC_OK then Contents()[id].balance else Contents()[to].balance
    {
      reply.payload := slots[to].balance;
      if !Between(1, to, MAX_BANK_ACCOUNTS) {
        reply.ret := RC_OTHER;
        return;
      }
      if to != slots[to].id {
        reply.ret := RC_ID_IN_USE;
        return;
      }
      if !Between(MIN_BALANCE, amount, slots[id].balance) {
        reply.ret := RC_NO_FUNDS;
        return;
      }
      if !Between(MIN_BALANCE, Wrap(amount + slots[to].balance), MAX_BALANCE) {
        reply.ret := RC_NO_FUNDS;
        return;
      }
      slots[id] := slots[id].(balance := Wrap(slots[id].balance - amount));
      slots[to] := slots[to].(balance := Wrap(slots[to].balance + amount));
      reply.ret := RC_OK;
      reply.payload := slots[id].balance;
    }

    method AcknowledgeRequest(req: Request, salt: string, reply: ReplyBuffer)
      requires Valid() && Addressable(req)
      modifies slots, reply
      ensures Contents() == Effect(hash, old(Contents()), req, salt)
      ensures reply.Value() == Acknowledge(hash, old(Contents()), req, old(reply.Value()))
      ensures OpCode(req.args) <= OP_SHUTDOWN && reply.ret != RC_OK ==> Contents() == old(Contents())
    {
      reply.op := OpCode(req.args);
      reply.accountId := req.header.accountId;
      var ok := ValidateRequest(req, reply);
      if ok {
        match req.args
        case CreateAccount(id, balance, password) =>
          var failed := CreateUserAccount(id, balance, password, salt, reply);
        case CheckBalance => CheckUserBalance(req.header.accountId, reply);
        case Transfer(to, amount) => CreateUserTransfer(req.header.accountId, to, amount, reply);
        case _ =>
      }
      reply.length := REPLY_VALUE_SIZE;
      if OpCode(req.args) <= OP_SHUTDOWN && reply.ret != RC_OK {
        RefusedUnchanged(hash, old(Contents()), req, salt, old(reply.Value()));
      }
    }
  }
}
