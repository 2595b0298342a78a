/** The request and reply records that clients and the server exchange, with the
    constants both sides share. Field widths are those of the C records: a `word`
    is an unsigned 32-bit integer and an `int32` a signed one. */
module Messages {
  type word = x: int | 0 <= x < 0x1_0000_0000 witness 0
  type int32 = x: int | -0x8000_0000 <= x < 0x8000_0000 witness 0

  // Operation codes. `Unlisted` requests carry any other code.
  const OP_CREATE_ACCOUNT: word := 0
  const OP_BALANCE: word := 1
  const OP_TRANSFER: word := 2
  const OP_SHUTDOWN: word := 3
  type unlisted = x: word | 4 <= x witness 4

  // Return codes, numbered as the C enumeration numbers them.
  const RC_OK: word := 0
  const RC_LOGIN_FAIL: word := 4
  const RC_OP_NALLOW: word := 5
  const RC_ID_IN_USE: word := 6
  const RC_ID_NOT_FOUND: word := 7
  const RC_NO_FUNDS: word := 9
  const RC_OTHER: word := 11

  const MAX_BANK_ACCOUNTS: nat := 4096
  const MIN_BALANCE: nat := 1
  const MAX_BALANCE: nat := 1_000_000_000
  const ADMIN_ACCOUNT_ID: nat := 0
  const MIN_PASSWORD_LEN: nat := 8
  const MAX_PASSWORD_LEN: nat := 20
  const REPLY_VALUE_SIZE: word := 12

  datatype Option<+T> = None | Some(value: T)

  datatype Header = Header(pid: int32, accountId: word, password: string, delay: word)

  /** The operation of a request together with the member of the union it selects. */
  datatype Args =
    | CreateAccount(id: word, balance: word, password: string)
    | CheckBalance
    | Transfer(to: word, amount: word)
    | Shutdown
    | Unlisted(code: unlisted)

  datatype Request = Request(header: Header, args: Args)

  /** `payload` is the one 32-bit word of the reply's union. */
  datatype Reply = Reply(op: word, length: word, accountId: word, ret: word, payload: word)

  /** A reply written to the channel of process `pid`, and the request it answers. */
  datatype Answered = Answered(req: Request, pid: int32, reply: Reply)

  function OpCode(args: Args): word {
    match args
    case CreateAccount(_, _, _) => OP_CREATE_ACCOUNT
    case CheckBalance => OP_BALANCE
    case Transfer(_, _) => OP_TRANSFER
    case Shutdown => OP_SHUTDOWN
    case Unlisted(code) => code
  }

  /** The result of a 32-bit unsigned operation whose exact value is `x`. */
  function Wrap(x: int): word {
    x % 0x1_0000_0000
  }

  predicate Between(low: int, x: int, high: int) {
    low <= x <= high
  }
}
