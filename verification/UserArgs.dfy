/** The client's reading of its command line into a request. */
module UserArgs {
  import opened Messages
  import opened Text

  /** A request, or why none is built: a word of the last argument is missing, or a password is
      copied past its field. */
  datatype Parsed = Built(req: Request) | NoToken | TooLong

  predicate FitsField(password: string) {
    |password| <= MAX_PASSWORD_LEN
  }

  /** `held` is the operation and arguments the record happened to hold: an operation the
      client does not know leaves them. */
  function Parse(account: string, password: string, delay: string, op: string, extra: string, pid: int32,
                 held: Args): Parsed
  {
    var hd := Header(pid, Wrap(Atoi(account)), password, Wrap(Atoi(delay)));
    var words := Tokens(extra, ' ');
    var code := Atoi(op);
    if !FitsField(password) then TooLong
    else if code == OP_CREATE_ACCOUNT then
      if |words| < 3 then NoToken
      else if !FitsField(words[2]) then TooLong
      else Built(Request(hd, CreateAccount(Wrap(Atoi(words[0])), Wrap(Atoi(words[1])), words[2])))
    else if code == OP_BALANCE then Built(Request(hd, CheckBalance))
    else if code == OP_TRANSFER then
      if |words| < 2 then NoToken else Built(Request(hd, Transfer(Wrap(Atoi(words[0])), Wrap(Atoi(words[1])))))
    else if code == OP_SHUTDOWN then Built(Request(hd, Shutdown))
    else Built(Request(hd, held))
  }

  /** The last argument's next word, if there is one. */
  method NextWord(words: Tokenizer) returns (word: Option<string>)
    requires words.Valid()
    modifies words`pos, words.buffer
    ensures words.Valid()
    ensures word == None <==> Tokens(old(words.Rest()), ' ') == []
    ensures word.Some? ==> word.value == Tokens(old(words.Rest()), ' ')[0]
                           && Tokens(words.Rest(), ' ') == Tokens(old(words.Rest()), ' ')[1..]
  {
    ghost var all := Tokens(words.Rest(), ' ');
    var start := words.Next(' ');
    if start == None {
      return None;
    }
    var s := words.Copy(start.value, all[0]);
    return Some(s);
  }

  /** Reads the arguments, cutting the last one up in its buffer. A missing word or a password
      longer than its field ends the program: the C code passes a null pointer on, or copies
      past the field. */
  method GetRequest(account: string, password: string, delay: string, op: string, extra: array<char>, ghost end: nat,
                    pid: int32, held: Args) returns (parsed: Parsed)
    requires end < extra.Length && extra[end] == NUL && forall i :: 0 <= i < end ==> extra[i] != NUL
    modifies extra
    ensures parsed == Parse(account, password, delay, op, old(extra[..end]), pid, held)
  {
    if !FitsField(password) { return TooLong; }
    var hd := Header(pid, Wrap(Atoi(account)), password, Wrap(Atoi(delay)));
    var code := Atoi(op);
    var words := new Tokenizer(extra, end);
    assert words.Rest() == extra[..end];
    if code == OP_CREATE_ACCOUNT {
      var id := NextWord(words);
      if id == None { return NoToken; }
      var balance := NextWord(words);
      if balance == None { return NoToken; }
      var secret := NextWord(words);
      if secret == None { return NoToken; }
      if !FitsField(secret.value) { return TooLong; }
      parsed := Built(Request(hd, CreateAccount(Wrap(Atoi(id.value)), Wrap(Atoi(balance.value)), secret.value)));
    } else if code == OP_BALANCE {
      parsed := Built(Request(hd, CheckBalance));
    } else if code == OP_TRANSFER {
      var to := NextWord(words);
      if to == None { return NoToken; }
      var amount := NextWord(words);
      if amount == None { return NoToken; }
      parsed := Built(Request(hd, Transfer(Wrap(Atoi(to.value)), Wrap(Atoi(amount.value)))));
    } else if code == OP_SHUTDOWN {
      parsed := Built(Request(hd, Shutdown));
    } else {
      parsed := Built(Request(hd, held));
    }
  }

  // ---- What the arguments mean

  predicate Spaces(s: string) {
    forall i :: 0 <= i < |s| ==> s[i] == ' '
  }

  predicate Word(s: string) {
    s != "" && ' ' !in s
  }

  /** Nothing, or something that a space sets off. */
  predicate SetOff(s: string) {
    s == "" || s[0] == ' '
  }

  lemma DigitReads(k: nat)
    requires k < 10
    ensures Atoi([Digit(k)]) == k
  {
    AtoiOfDecimal(k);
    assert Decimal(k) == [Digit(k)];
  }

  lemma {:induction false} TwoWords(s0: string, w0: string, s1: string, w1: string, rest: string)
    requires Spaces(s0) && Word(w0) && Spaces(s1) && s1 != "" && Word(w1) && SetOff(rest)
    ensures Tokens(s0 + (w0 + (s1 + (w1 + rest))), ' ') == [w0, w1] + Tokens(rest, ' ')
  {
    FirstWord(s0, w0, s1 + (w1 + rest), ' ');
    FirstWord(s1, w1, rest, ' ');
    assert [w0] + ([w1] + Tokens(rest, ' ')) == [w0, w1] + Tokens(rest, ' ');
  }

  lemma {:induction false} ThreeWords(
    s0: string, w0: string, s1: string, w1: string, s2: string, w2: string, rest: string)
    requires Spaces(s0) && Word(w0) && Spaces(s1) && s1 != "" && Word(w1) && Spaces(s2) && s2 != "" && Word(w2)
    requires SetOff(rest)
    ensures Tokens(s0 + (w0 + (s1 + (w1 + (s2 + (w2 + rest))))), ' ') == [w0, w1, w2] + Tokens(rest, ' ')
  {
    TwoWords(s0, w0, s1, w1, s2 + (w2 + rest));
    FirstWord(s2, w2, rest, ' ');
    assert [w0, w1] + ([w2] + Tokens(rest, ' ')) == [w0, w1, w2] + Tokens(rest, ' ');
  }

  lemma {:induction false} TransferOfWords(
    account: string, password: string, delay: string, op: string, extra: string, words: seq<string>, pid: int32,
    held: Args)
    requires Atoi(op) == 2 && Tokens(extra, ' ') == words && 2 <= |words| && FitsField(password)
    ensures Parse(account, password, delay, op, extra, pid, held)
         == Built(Request(Header(pid, Wrap(Atoi(account)), password, Wrap(Atoi(delay))),
                          Transfer(Wrap(Atoi(words[0])), Wrap(Atoi(words[1])))))
  {
  }

  lemma {:induction false} CreationOfWords(
    account: string, password: string, delay: string, op: string, extra: string, words: seq<string>, pid: int32,
    held: Args)
    requires Atoi(op) == 0 && Tokens(extra, ' ') == words && 3 <= |words|
    requires FitsField(password) && FitsField(words[2])
    ensures Parse(account, password, delay, op, extra, pid, held)
         == Built(Request(Header(pid, Wrap(Atoi(account)), password, Wrap(Atoi(delay))),
                          CreateAccount(Wrap(Atoi(words[0])), Wrap(Atoi(words[1])), words[2])))
  {
  }

  /** Operation 2 with two words, whatever spaces are around them, is a transfer to the first of
      the second. */
  lemma {:induction false} TransferMeans(
    account: string, password: string, delay: string, s0: string, to: string, s1: string, amount: string, rest: string,
    pid: int32, held: Args)
    requires Spaces(s0) && Word(to) && Spaces(s1) && s1 != "" && Word(amount) && SetOff(rest) && FitsField(password)
    ensures Parse(account, password, delay, "2", s0 + (to + (s1 + (amount + rest))), pid, held)
         == Built(Request(Header(pid, Wrap(Atoi(account)), password, Wrap(Atoi(delay))),
                          Transfer(Wrap(Atoi(to)), Wrap(Atoi(amount)))))
  {
    var op := [Digit(2)];
    assert op == "2";
    DigitReads(2);
    var extra, words := s0 + (to + (s1 + (amount + rest))), [to, amount] + Tokens(rest, ' ');
    TwoWords(s0, to, s1, amount, rest);
    assert words[0] == to && words[1] == amount;
    TransferOfWords(account, password, delay, op, extra, words, pid, held);
  }

  /** Operation 0 with three words opens the first account with the second and the third. */
  lemma {:induction false} CreationMeans(
    account: string, password: string, delay: string, s0: string, id: string, s1: string, balance: string, s2: string,
    secret: string, rest: string, pid: int32, held: Args)
    requires Spaces(s0) && Word(id) && Spaces(s1) && s1 != "" && Word(balance) && Spaces(s2) && s2 != "" && Word(secret)
    requires SetOff(rest) && FitsField(password) && FitsField(secret)
    ensures Parse(account, password, delay, "0", s0 + (id + (s1 + (balance + (s2 + (secret + rest))))), pid, held)
         == Built(Request(Header(pid, Wrap(Atoi(account)), password, Wrap(Atoi(delay))),
                          CreateAccount(Wrap(Atoi(id)), Wrap(Atoi(balance)), secret)))
  {
    var op := [Digit(0)];
    assert op == "0";
    DigitReads(0);
    var extra := s0 + (id + (s1 + (balance + (s2 + (secret + rest)))));
    var words := [id, balance, secret] + Tokens(rest, ' ');
    ThreeWords(s0, id, s1, balance, s2, secret, rest);
    assert words[0] == id && words[1] == balance && words[2] == secret;
    CreationOfWords(account, password, delay, op, extra, words, pid, held);
  }

  /** Operations 1 and 3 need no words. */
  lemma {:induction false} WordlessMeans(account: string, password: string, delay: string, extra: string, pid: int32,
      held: Args)
    requires FitsField(password)
    ensures var hd := Header(pid, Wrap(Atoi(account)), password, Wrap(Atoi(delay)));
      && Parse(account, password, delay, "1", extra, pid, held) == Built(Request(hd, CheckBalance))
      && Parse(account, password, delay, "3", extra, pid, held) == Built(Request(hd, Shutdown))
  {
    DigitReads(1);
    DigitReads(3);
    assert "1" == [Digit(1)] && "3" == [Digit(3)];
  }

  // ---- Round trip

  function Extra(args: Args): string {
    match args
    case CreateAccount(id, balance, password) => Join([Decimal(id), Decimal(balance), password], ' ')
    case Transfer(to, amount) => Join([Decimal(to), Decimal(amount)], ' ')
    case _ => ""
  }

  predicate Readable(n: word) {
    n < 0x8000_0000
  }

  /** The numbers of the request are those the C number reader handles. */
  predicate NumbersReadable(req: Request) {
    && Readable(req.header.accountId) && Readable(req.header.delay)
    && match req.args
       case CreateAccount(id, balance, _) => Readable(id) && Readable(balance)
       case Transfer(to, amount) => Readable(to) && Readable(amount)
       case Unlisted(code) => Readable(code)
       case _ => true
  }

  /** What the client reads from a request written out as arguments. */
  function ReadBack(req: Request, held: Args): Parsed {
    Parse(Decimal(req.header.accountId), req.header.password, Decimal(req.header.delay), Decimal(OpCode(req.args)),
          Extra(req.args), req.header.pid, held)
  }

  lemma {:induction false} NumberReads(n: word)
    ensures Wrap(Atoi(Decimal(n))) == n
  {
    AtoiOfDecimal(n);
  }

  predicate OneWord(password: string) {
    password != "" && ' ' !in password
  }

  lemma CreateReads(req: Request, held: Args)
    requires req.args.CreateAccount? && FitsField(req.header.password)
    ensures ReadBack(req, held) == Built(req) <==> OneWord(req.args.password) && FitsField(req.args.password)
  {
    var parts := [Decimal(req.args.id), Decimal(req.args.balance), req.args.password];
    NumberReads(req.header.accountId);
    NumberReads(req.header.delay);
    AtoiOfDecimal(OP_CREATE_ACCOUNT);
    if OneWord(req.args.password) {
      TokensOfJoin(parts, ' ');
      NumberReads(req.args.id);
      NumberReads(req.args.balance);
    }
  }

  lemma TransferReads(req: Request, held: Args)
    requires req.args.Transfer? && FitsField(req.header.password)
    ensures ReadBack(req, held) == Built(req)
  {
    NumberReads(req.header.accountId);
    NumberReads(req.header.delay);
    AtoiOfDecimal(OP_TRANSFER);
    TokensOfJoin([Decimal(req.args.to), Decimal(req.args.amount)], ' ');
    NumberReads(req.args.to);
    NumberReads(req.args.amount);
  }

  /** What a request must be to be read back from the arguments it is written out as: passwords
      that fit their fields, for a new account one word, and for an operation the client does
      not know the one the record happened to hold. */
  predicate Writable(req: Request, held: Args) {
    && FitsField(req.header.password)
    && (req.args.CreateAccount? ==> OneWord(req.args.password) && FitsField(req.args.password))
    && (req.args.Unlisted? ==> held == req.args)
  }

  lemma ReadsBackIff(req: Request, held: Args)
    requires NumbersReadable(req)
    ensures ReadBack(req, held) == Built(req) <==> Writable(req, held)
  {
    NumberReads(req.header.accountId);
    NumberReads(req.header.delay);
    AtoiOfDecimal(OpCode(req.args));
    if !FitsField(req.header.password) {
    } else if req.args.CreateAccount? {
      CreateReads(req, held);
    } else if req.args.Transfer? {
      TransferReads(req, held);
    }
  }
}
