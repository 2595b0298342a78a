/** The packed records that requests and replies are on their FIFOs: one fixed layout with a
    union, written over whatever the structure held and read back by the other side. */
module Wire {
  import opened Messages

  type byte = x: int | 0 <= x < 256 witness 0

  const PASSWORD_SIZE: nat := 21
  const UNION_SIZE: nat := 29
  const REQUEST_SIZE: nat := 70
  const REPLY_SIZE: nat := 20

  // ---- Fields

  function WordBytes(w: word): (b: seq<byte>)
    ensures |b| == 4
  {
    [w % 256, (w / 0x100) % 256, (w / 0x1_0000) % 256, w / 0x100_0000]
  }

  function WordOf(b: seq<byte>): word
    requires |b| == 4
  {
    b[0] as int + 0x100 * (b[1] as int) + 0x1_0000 * (b[2] as int) + 0x100_0000 * (b[3] as int)
  }

  lemma LastDigit(x: nat)
    ensures x == x % 256 + 256 * (x / 256)
  {
  }

  lemma WordRoundTrip(w: word)
    ensures WordOf(WordBytes(w)) == w
  {
    var w1, w2, w3 := w / 0x100, w / 0x1_0000, w / 0x100_0000;
    assert w1 / 256 == w2 && w2 / 256 == w3;
    LastDigit(w);
    LastDigit(w1);
    LastDigit(w2);
  }

  lemma BytesRoundTrip(b: seq<byte>)
    requires |b| == 4
    ensures WordBytes(WordOf(b)) == b
  {
    var w := WordOf(b);
    var b1: int, b2: int, b3: int := b[1], b[2], b[3];
    assert w / 0x100 == b1 + 0x100 * b2 + 0x1_0000 * b3;
    assert w / 0x1_0000 == b2 + 0x100 * b3;
    assert w / 0x100_0000 == b3;
  }

  function Signed(w: word): int32 {
    if w < 0x8000_0000 then w else w - 0x1_0000_0000
  }

  /** A C string of one-byte characters. */
  predicate OneByteText(s: string) {
    forall i :: 0 <= i < |s| ==> 0 < s[i] as int < 256
  }

  /** One that fits a password field. */
  predicate FieldText(s: string) {
    |s| < PASSWORD_SIZE && OneByteText(s)
  }

  function TextBytes(s: string): (b: seq<byte>)
    requires OneByteText(s)
    ensures |b| == |s| && forall i :: 0 <= i < |b| ==> b[i] == s[i] as int
  {
    seq(|s|, i requires 0 <= i < |s| => s[i] as int)
  }

  /** Copying a string into a field leaves the bytes after its NUL. */
  function Field(s: string, old_: seq<byte>): (b: seq<byte>)
    requires FieldText(s) && |old_| == PASSWORD_SIZE
    ensures |b| == PASSWORD_SIZE
  {
    TextBytes(s) + [0] + old_[|s| + 1..]
  }

  function TextOf(b: seq<byte>): (s: string)
    ensures |s| <= |b| && forall i :: 0 <= i < |s| ==> b[i] == s[i] as int > 0
    ensures |s| < |b| ==> b[|s|] == 0
  {
    if b == [] || b[0] == 0 then [] else [b[0] as char] + TextOf(b[1..])
  }

  lemma {:induction false} TextOfText(s: string, rest: seq<byte>)
    requires OneByteText(s)
    ensures TextOf(TextBytes(s) + [0] + rest) == s
  {
    var b := TextBytes(s) + [0] + rest;
    if s != [] {
      TextOfText(s[1..], rest);
      assert TextBytes(s)[1..] == TextBytes(s[1..]);
      assert b[1..] == TextBytes(s[1..]) + [0] + rest;
    }
  }

  lemma FieldRoundTrip(s: string, old_: seq<byte>)
    requires FieldText(s) && |old_| == PASSWORD_SIZE
    ensures TextOf(Field(s, old_)) == s
  {
    TextOfText(s, old_[|s| + 1..]);
  }

  /** A field with a NUL in it is the copy of a string over itself. */
  lemma {:induction false} FieldOfText(b: seq<byte>)
    requires |b| == PASSWORD_SIZE && 0 in b
    ensures FieldText(TextOf(b)) && Field(TextOf(b), b) == b
  {
    var s := TextOf(b);
    assert |s| < |b|;
    assert b == b[..|s|] + [b[|s|]] + b[|s| + 1..];
    assert b[..|s|] == TextBytes(s);
  }

  // ---- Requests

  predicate Sendable(r: Request) {
    FieldText(r.header.password) && (r.args.CreateAccount? ==> FieldText(r.args.password))
  }

  function UnionBytes(args: Args, old_: seq<byte>): (b: seq<byte>)
    requires |old_| == UNION_SIZE && (args.CreateAccount? ==> FieldText(args.password))
    ensures |b| == UNION_SIZE
  {
    match args
    case CreateAccount(id, balance, password) => WordBytes(id) + WordBytes(balance) + Field(password, old_[8..])
    case Transfer(to, amount) => WordBytes(to) + WordBytes(amount) + old_[8..]
    case _ => old_
  }

  function ArgsOf(op: word, b: seq<byte>): Args
    requires |b| == UNION_SIZE
  {
    if op == OP_CREATE_ACCOUNT then CreateAccount(WordOf(b[..4]), WordOf(b[4..8]), TextOf(b[8..]))
    else if op == OP_BALANCE then CheckBalance
    else if op == OP_TRANSFER then Transfer(WordOf(b[..4]), WordOf(b[4..8]))
    else if op == OP_SHUTDOWN then Shutdown
    else Unlisted(op)
  }

  /** A request written into a record that held `old_`. The length word is never set. */
  function RequestBytes(r: Request, old_: seq<byte>): (b: seq<byte>)
    requires Sendable(r) && |old_| == REQUEST_SIZE
    ensures |b| == REQUEST_SIZE
  {
    WordBytes(OpCode(r.args)) + old_[4..8] + WordBytes(Wrap(r.header.pid)) + WordBytes(r.header.accountId)
    + Field(r.header.password, old_[16..37]) + WordBytes(r.header.delay) + UnionBytes(r.args, old_[41..])
  }

  function RequestOf(b: seq<byte>): Request
    requires |b| == REQUEST_SIZE
  {
    Request(Header(Signed(WordOf(b[8..12])), WordOf(b[12..16]), TextOf(b[16..37]), WordOf(b[37..41])),
            ArgsOf(WordOf(b[..4]), b[41..]))
  }

  lemma ArgsRoundTrip(args: Args, old_: seq<byte>)
    requires |old_| == UNION_SIZE && (args.CreateAccount? ==> FieldText(args.password))
    ensures ArgsOf(OpCode(args), UnionBytes(args, old_)) == args
  {
    var b := UnionBytes(args, old_);
    match args
    case CreateAccount(id, balance, password) =>
      assert b[..4] == WordBytes(id) && b[4..8] == WordBytes(balance) && b[8..] == Field(password, old_[8..]);
      WordRoundTrip(id);
      WordRoundTrip(balance);
      FieldRoundTrip(password, old_[8..]);
    case Transfer(to, amount) =>
      assert b[..4] == WordBytes(to) && b[4..8] == WordBytes(amount);
      WordRoundTrip(to);
      WordRoundTrip(amount);
    case _ =>
  }

  lemma RequestFields(r: Request, old_: seq<byte>)
    requires Sendable(r) && |old_| == REQUEST_SIZE
    ensures var b := RequestBytes(r, old_);
      && b[..4] == WordBytes(OpCode(r.args)) && b[4..8] == old_[4..8] && b[8..12] == WordBytes(Wrap(r.header.pid))
      && b[12..16] == WordBytes(r.header.accountId) && b[16..37] == Field(r.header.password, old_[16..37])
      && b[37..41] == WordBytes(r.header.delay) && b[41..] == UnionBytes(r.args, old_[41..])
  {
  }

  /** The little-endian number in the four bytes from `at` on. */
  function NumberAt(b: seq<byte>, at: nat): nat
    requires at + 4 <= |b|
  {
    b[at] as nat + 256 * (b[at + 1] as nat) + 65536 * (b[at + 2] as nat) + 16777216 * (b[at + 3] as nat)
  }

  /** The bytes from `at` on are the text and a NUL after it. */
  predicate TextAt(b: seq<byte>, at: nat, s: string) {
    at + |s| < |b| && b[at + |s|] == 0 && forall i :: 0 <= i < |s| ==> b[at + i] as int == s[i] as int
  }

  lemma NumberOfWord(b: seq<byte>, at: nat, w: word)
    requires at + 4 <= |b| && b[at..at + 4] == WordBytes(w)
    ensures NumberAt(b, at) == w
  {
    var part := b[at..at + 4];
    assert part[0] == b[at] && part[1] == b[at + 1] && part[2] == b[at + 2] && part[3] == b[at + 3];
    WordRoundTrip(w);
    assert NumberAt(b, at) == WordOf(part);
  }

  lemma TextOfField(b: seq<byte>, at: nat, s: string, old_: seq<byte>)
    requires FieldText(s) && |old_| == PASSWORD_SIZE && at + 21 <= |b| && b[at..at + 21] == Field(s, old_)
    ensures TextAt(b, at, s)
  {
    var part := b[at..at + 21];
    assert forall i :: 0 <= i < 21 ==> part[i] == b[at + i];
    assert part[|s|] == 0 && forall i :: 0 <= i < |s| ==> part[i] == s[i] as int;
  }

  /** Where a request's header is in its record. */
  lemma HeaderLayout(r: Request, old_: seq<byte>)
    requires Sendable(r) && |old_| == 70
    ensures var b, hd := RequestBytes(r, old_), r.header;
      && |b| == 70 && b[4..8] == old_[4..8]
      && NumberAt(b, 0) == (match r.args
                            case CreateAccount(_, _, _) => 0
                            case CheckBalance => 1
                            case Transfer(_, _) => 2
                            case Shutdown => 3
                            case Unlisted(code) => code)
      && NumberAt(b, 8) == (if hd.pid < 0 then hd.pid + 4294967296 else hd.pid) && NumberAt(b, 12) == hd.accountId
      && TextAt(b, 16, hd.password) && NumberAt(b, 37) == hd.delay
  {
    var b := RequestBytes(r, old_);
    RequestFields(r, old_);
    NumberOfWord(b, 0, OpCode(r.args));
    NumberOfWord(b, 8, Wrap(r.header.pid));
    NumberOfWord(b, 12, r.header.accountId);
    TextOfField(b, 16, r.header.password, old_[16..37]);
    NumberOfWord(b, 37, r.header.delay);
  }

  /** Where its arguments are: a creation's id, balance and password, a transfer's receiver and
      amount; the other operations leave the bytes there as they were. */
  lemma ArgumentLayout(r: Request, old_: seq<byte>)
    requires Sendable(r) && |old_| == 70
    ensures var b := RequestBytes(r, old_);
      match r.args
      case CreateAccount(id, balance, password) =>
        NumberAt(b, 41) == id && NumberAt(b, 45) == balance && TextAt(b, 49, password)
      case Transfer(to, amount) => NumberAt(b, 41) == to && NumberAt(b, 45) == amount && b[49..] == old_[49..]
      case _ => b[41..] == old_[41..]
  {
    var b := RequestBytes(r, old_);
    RequestFields(r, old_);
    match r.args
    case CreateAccount(id, balance, password) =>
      CreationLayout(b, id, balance, password, old_[41..]);
    case Transfer(to, amount) => TransferLayout(b, to, amount, old_);
    case _ =>
  }

  lemma CreationLayout(b: seq<byte>, id: word, balance: word, password: string, old_: seq<byte>)
    requires |b| == 70 && FieldText(password) && |old_| == 29
    requires b[41..] == UnionBytes(CreateAccount(id, balance, password), old_)
    ensures NumberAt(b, 41) == id && NumberAt(b, 45) == balance && TextAt(b, 49, password)
  {
    var u := b[41..];
    assert u == WordBytes(id) + WordBytes(balance) + Field(password, old_[8..]);
    assert b[41..45] == u[..4] == WordBytes(id) && b[45..49] == u[4..8] == WordBytes(balance);
    assert b[49..70] == u[8..] == Field(password, old_[8..]);
    NumberOfWord(b, 41, id);
    NumberOfWord(b, 45, balance);
    TextOfField(b, 49, password, old_[8..]);
  }

  lemma TransferLayout(b: seq<byte>, to: word, amount: word, old_: seq<byte>)
    requires |b| == |old_| == 70 && b[41..] == UnionBytes(Transfer(to, amount), old_[41..])
    ensures NumberAt(b, 41) == to && NumberAt(b, 45) == amount && b[49..] == old_[49..]
  {
    var u := b[41..];
    assert u == WordBytes(to) + WordBytes(amount) + old_[41..][8..];
    assert b[41..45] == u[..4] == WordBytes(to) && b[45..49] == u[4..8] == WordBytes(amount);
    assert b[49..] == u[8..] == old_[49..];
    NumberOfWord(b, 41, to);
    NumberOfWord(b, 45, amount);
  }

  /** A request is read back as it was written, whatever the record held before. */
  lemma RequestRoundTrip(r: Request, old_: seq<byte>)
    requires Sendable(r) && |old_| == REQUEST_SIZE
    ensures RequestOf(RequestBytes(r, old_)) == r
  {
    RequestFields(r, old_);
    HeaderRoundTrip(r.header, old_[16..37]);
    WordRoundTrip(OpCode(r.args));
    ArgsRoundTrip(r.args, old_[41..]);
  }

  lemma HeaderRoundTrip(hd: Header, old_: seq<byte>)
    requires FieldText(hd.password) && |old_| == PASSWORD_SIZE
    ensures Header(Signed(WordOf(WordBytes(Wrap(hd.pid)))), WordOf(WordBytes(hd.accountId)),
                   TextOf(Field(hd.password, old_)), WordOf(WordBytes(hd.delay))) == hd
  {
    WordRoundTrip(Wrap(hd.pid));
    WordRoundTrip(hd.accountId);
    FieldRoundTrip(hd.password, old_);
    WordRoundTrip(hd.delay);
  }

  /** A record whose password fields are ended, which for other operations than a creation is
      the header's alone. */
  predicate Ended(b: seq<byte>)
    requires |b| == REQUEST_SIZE
  {
    0 in b[16..37] && (WordOf(b[..4]) == OP_CREATE_ACCOUNT ==> 0 in b[49..])
  }

  lemma ArgsRewritten(op: word, b: seq<byte>)
    requires |b| == UNION_SIZE && (op == OP_CREATE_ACCOUNT ==> 0 in b[8..])
    ensures var args := ArgsOf(op, b);
      OpCode(args) == op && (args.CreateAccount? ==> FieldText(args.password)) && UnionBytes(args, b) == b
  {
    BytesRoundTrip(b[..4]);
    BytesRoundTrip(b[4..8]);
    assert b == b[..4] + b[4..8] + b[8..];
    if op == OP_CREATE_ACCOUNT {
      FieldOfText(b[8..]);
    }
  }

  lemma SameSegments(b: seq<byte>, c: seq<byte>)
    requires |b| == |c| == REQUEST_SIZE
    requires b[..4] == c[..4] && b[4..8] == c[4..8] && b[8..12] == c[8..12] && b[12..16] == c[12..16]
    requires b[16..37] == c[16..37] && b[37..41] == c[37..41] && b[41..] == c[41..]
    ensures b == c
  {
    assert b == b[..4] + b[4..8] + b[8..12] + b[12..16] + b[16..37] + b[37..41] + b[41..];
    assert c == c[..4] + c[4..8] + c[8..12] + c[12..16] + c[16..37] + c[37..41] + c[41..];
  }

  lemma SignedRoundTrip(w: word)
    ensures Wrap(Signed(w)) == w
  {
  }

  lemma HeaderRewritten(b: seq<byte>)
    requires |b| == REQUEST_SIZE && Ended(b)
    ensures var hd := RequestOf(b).header;
      && FieldText(hd.password) && Field(hd.password, b[16..37]) == b[16..37]
      && WordBytes(Wrap(hd.pid)) == b[8..12] && WordBytes(hd.accountId) == b[12..16] && WordBytes(hd.delay) == b[37..41]
  {
    SignedRoundTrip(WordOf(b[8..12]));
    BytesRoundTrip(b[8..12]);
    BytesRoundTrip(b[12..16]);
    BytesRoundTrip(b[37..41]);
    FieldOfText(b[16..37]);
  }

  lemma UnionRewritten(b: seq<byte>)
    requires |b| == REQUEST_SIZE && Ended(b)
    ensures var args := RequestOf(b).args;
      && (args.CreateAccount? ==> FieldText(args.password)) && UnionBytes(args, b[41..]) == b[41..]
      && WordBytes(OpCode(args)) == b[..4]
  {
    assert b[41..][8..] == b[49..];
    ArgsRewritten(WordOf(b[..4]), b[41..]);
    BytesRoundTrip(b[..4]);
  }

  /** Every such record is the record of the request read from it: writing that request over
      it changes nothing. So reading loses only what is never looked at. */
  lemma RecordRewritten(b: seq<byte>)
    requires |b| == REQUEST_SIZE && Ended(b)
    ensures Sendable(RequestOf(b)) && RequestBytes(RequestOf(b), b) == b
  {
    HeaderRewritten(b);
    UnionRewritten(b);
    RequestFields(RequestOf(b), b);
    SameSegments(b, RequestBytes(RequestOf(b), b));
  }

  // ---- A stream of requests

  /** What a FIFO holds after the records `olds`, overwritten with the requests, went in. */
  function StreamBytes(rs: seq<Request>, olds: seq<seq<byte>>): seq<byte>
    requires |rs| == |olds| && forall k :: 0 <= k < |rs| ==> Sendable(rs[k]) && |olds[k]| == REQUEST_SIZE
  {
    if rs == [] then [] else RequestBytes(rs[0], olds[0]) + StreamBytes(rs[1..], olds[1..])
  }

  /** What one read of a whole record after another makes of the bytes. */
  function StreamOf(b: seq<byte>): seq<Request>
    decreases |b|
  {
    if |b| < REQUEST_SIZE then [] else [RequestOf(b[..REQUEST_SIZE])] + StreamOf(b[REQUEST_SIZE..])
  }

  lemma {:induction false} StreamRoundTrip(rs: seq<Request>, olds: seq<seq<byte>>)
    requires |rs| == |olds| && forall k :: 0 <= k < |rs| ==> Sendable(rs[k]) && |olds[k]| == REQUEST_SIZE
    ensures StreamOf(StreamBytes(rs, olds)) == rs
  {
    if rs != [] {
      var first, rest := RequestBytes(rs[0], olds[0]), StreamBytes(rs[1..], olds[1..]);
      assert (first + rest)[..REQUEST_SIZE] == first && (first + rest)[REQUEST_SIZE..] == rest;
      RequestRoundTrip(rs[0], olds[0]);
      StreamRoundTrip(rs[1..], olds[1..]);
    }
  }

  // ---- Replies

  function ReplyBytes(r: Reply): (b: seq<byte>)
    ensures |b| == REPLY_SIZE
  {
    WordBytes(r.op) + WordBytes(r.length) + WordBytes(r.accountId) + WordBytes(r.ret) + WordBytes(r.payload)
  }

  function ReplyOf(b: seq<byte>): Reply
    requires |b| == REPLY_SIZE
  {
    Reply(WordOf(b[..4]), WordOf(b[4..8]), WordOf(b[8..12]), WordOf(b[12..16]), WordOf(b[16..]))
  }

  lemma FiveWords(v: seq<byte>, w: seq<byte>, x: seq<byte>, y: seq<byte>, z: seq<byte>)
    requires |v| == |w| == |x| == |y| == |z| == 4
    ensures var b := v + w + x + y + z;
      b[0..4] == v && b[4..8] == w && b[8..12] == x && b[12..16] == y && b[16..20] == z
  {
    var b := v + w + x + y + z;
    assert b[..8] == v + w && b[8..] == x + y + z;
    assert b[8..12] == b[8..][..4] && b[12..16] == b[8..][4..8] && b[16..20] == b[8..][8..12];
  }

  /** Where the words of a reply are: type, length of the value, and the value's account id,
      return code and amount. */
  lemma ReplyLayout(r: Reply)
    ensures var b := ReplyBytes(r);
      && |b| == 20 == 8 + REPLY_VALUE_SIZE
      && NumberAt(b, 0) == r.op && NumberAt(b, 4) == r.length && NumberAt(b, 8) == r.accountId
      && NumberAt(b, 12) == r.ret && NumberAt(b, 16) == r.payload
  {
    var b := ReplyBytes(r);
    FiveWords(WordBytes(r.op), WordBytes(r.length), WordBytes(r.accountId), WordBytes(r.ret), WordBytes(r.payload));
    NumberOfWord(b, 0, r.op);
    NumberOfWord(b, 4, r.length);
    NumberOfWord(b, 8, r.accountId);
    NumberOfWord(b, 12, r.ret);
    NumberOfWord(b, 16, r.payload);
  }

  /** Replies and reply records correspond one to one. */
  lemma ReplyRoundTrip(r: Reply, b: seq<byte>)
    requires |b| == REPLY_SIZE
    ensures ReplyOf(ReplyBytes(r)) == r && ReplyBytes(ReplyOf(b)) == b
  {
    var c := ReplyBytes(r);
    FiveWords(WordBytes(r.op), WordBytes(r.length), WordBytes(r.accountId), WordBytes(r.ret), WordBytes(r.payload));
    assert c[..4] == c[0..4] && c[16..] == c[16..20];
    WordRoundTrip(r.op);
    WordRoundTrip(r.length);
    WordRoundTrip(r.accountId);
    WordRoundTrip(r.ret);
    WordRoundTrip(r.payload);
    BytesRoundTrip(b[..4]);
    BytesRoundTrip(b[4..8]);
    BytesRoundTrip(b[8..12]);
    BytesRoundTrip(b[12..16]);
    BytesRoundTrip(b[16..]);
    assert b == b[..4] + b[4..8] + b[8..12] + b[12..16] + b[16..];
  }
}
