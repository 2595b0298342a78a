/** Every life of the server with one office, on any schedule: the office serves the requests
    in the order they were pushed, so what it leaves does not depend on the schedule, and main
    answers the shutdowns as on the opening table. */
module OneOfficeAlways {
  import opened Messages
  import opened Ledger
  import opened Bank
  import opened LedgerRuns
  import opened Serving
  import opened Offices
  import opened OfficesSafety
  import opened OfficesTheorems

  // ---- What main passes on and answers, with any number of offices

  /** The request main has read and is about to push. */
  ghost function Unpushed(m: MainPc): seq<Request> {
    if (m.Read? || m.Locked?) && !m.req.args.Shutdown? then [m.req] else []
  }

  /** The shutdown main has read and not answered yet. */
  ghost function Unanswered(m: MainPc): seq<Request> {
    if (m.Read? && m.req.args.Shutdown?) || InShutdown(m) then [m.req] else []
  }

  ghost function RequestsOf(answers: seq<Answered>): seq<Request> {
    if answers == [] then [] else RequestsOf(answers[..|answers| - 1]) + [answers[|answers| - 1].req]
  }

  lemma {:induction false} RequestsOfMore(answers: seq<Answered>, a: Answered)
    ensures RequestsOf(answers + [a]) == RequestsOf(answers) + [a.req]
  {
    assert (answers + [a])[..|answers|] == answers;
  }

  /** Main takes only requests with slots, and deals with them in the order it took them. */
  ghost predicate InOrder(s: State) {
    && AllSlotted(s.taken)
    && Select(s.taken, |s.taken|, false) == s.pushed + Unpushed(s.main)
    && Select(s.taken, |s.taken|, true) == RequestsOf(s.byMain) + Unanswered(s.main)
  }

  lemma {:induction false} SelectSame(a: seq<Request>, b: seq<Request>, n: nat, side: bool)
    requires n <= |a| && n <= |b| && a[..n] == b[..n]
    ensures Select(a, n, side) == Select(b, n, side)
  {
    if n > 0 {
      assert a[..n][n - 1] == b[..n][n - 1];
      assert a[..n - 1] == a[..n][..n - 1] && b[..n - 1] == b[..n][..n - 1];
      SelectSame(a, b, n - 1, side);
    }
  }

  lemma {:induction false} SelectMore(taken: seq<Request>, r: Request, side: bool)
    ensures Select(taken + [r], |taken| + 1, side)
         == Select(taken, |taken|, side) + (if r.args.Shutdown? == side then [r] else [])
  {
    var more := taken + [r];
    assert more[..|taken|] == taken[..|taken|];
    SelectSame(taken, more, |taken|, side);
  }

  /** One step of main, as far as its order goes. */
  ghost predicate OrderMoved(s: State, s': State, r: Request, a: Answered) {
    || (&& s'.taken == s.taken + [r] && Addressable(r) && s.main.Reading? && s'.main == Read(r)
        && s'.pushed == s.pushed && s'.byMain == s.byMain)
    || (&& s'.taken == s.taken && s'.pushed == s.pushed + [r] && s'.byMain == s.byMain
        && Unpushed(s.main) == [r] && Unpushed(s'.main) == [] && Unanswered(s.main) == Unanswered(s'.main))
    || (&& s'.taken == s.taken && s'.pushed == s.pushed && s'.byMain == s.byMain + [a]
        && Unanswered(s.main) == [a.req] && Unanswered(s'.main) == [] && Unpushed(s.main) == Unpushed(s'.main))
    || (&& s'.taken == s.taken && s'.pushed == s.pushed && s'.byMain == s.byMain
        && Unpushed(s.main) == Unpushed(s'.main) && Unanswered(s.main) == Unanswered(s'.main))
  }

  lemma OrderMove(c: Config, s: State, input: Request, garbage: Reply, waiter: nat)
    requires MainHandOk(s) && MainNext(c, s, input, garbage, waiter).Some?
    ensures var s' := MainNext(c, s, input, garbage, waiter).value;
            OrderMoved(s, s', if HasRequest(s.main) then s.main.req else input,
                       if |s'.byMain| > |s.byMain| then s'.byMain[|s.byMain|] else Answered(input, 0, garbage))
  {
    if s.main.Read? && s.main.req.args.Shutdown? {
    } else if s.main.Woke? {
    } else {
    }
  }

  lemma {:induction false} OrderByReading(taken: seq<Request>, r: Request, more: seq<Request>, side: bool,
                                          done: seq<Request>, held: seq<Request>)
    requires Select(taken, |taken|, side) == done + [] && more == taken + [r]
    requires held == if r.args.Shutdown? == side then [r] else []
    ensures Select(more, |more|, side) == done + held
  {
    SelectMore(taken, r, side);
    assert done + [] == done;
  }

  lemma SlottedMore(taken: seq<Request>, r: Request, more: seq<Request>)
    requires AllSlotted(taken) && Addressable(r) && more == taken + [r]
    ensures AllSlotted(more)
  {
  }

  lemma InOrderByReading(s: State, s': State, r: Request)
    requires InOrder(s) && s'.taken == s.taken + [r] && Addressable(r) && s.main.Reading? && s'.main == Read(r)
    requires s'.pushed == s.pushed && s'.byMain == s.byMain
    ensures InOrder(s')
  {
    SlottedMore(s.taken, r, s'.taken);
    OrderByReading(s.taken, r, s'.taken, false, s.pushed, Unpushed(s'.main));
    OrderByReading(s.taken, r, s'.taken, true, RequestsOf(s.byMain), Unanswered(s'.main));
  }

  lemma InOrderByPassing(s: State, s': State, r: Request)
    requires InOrder(s) && s'.taken == s.taken && s'.pushed == s.pushed + [r] && s'.byMain == s.byMain
    requires Unpushed(s.main) == [r] && Unpushed(s'.main) == [] && Unanswered(s.main) == Unanswered(s'.main)
    ensures InOrder(s')
  {
    assert s'.pushed + [] == s'.pushed;
  }

  lemma InOrderByAnswering(s: State, s': State, a: Answered)
    requires InOrder(s) && s'.taken == s.taken && s'.pushed == s.pushed && s'.byMain == s.byMain + [a]
    requires Unanswered(s.main) == [a.req] && Unanswered(s'.main) == [] && Unpushed(s.main) == Unpushed(s'.main)
    ensures InOrder(s')
  {
    RequestsOfMore(s.byMain, a);
    assert RequestsOf(s'.byMain) + [] == RequestsOf(s'.byMain);
  }

  lemma InOrderKept(s: State, s': State, r: Request, a: Answered)
    requires InOrder(s) && OrderMoved(s, s', r, a)
    ensures InOrder(s')
  {
    if |s'.taken| > |s.taken| {
      InOrderByReading(s, s', r);
    } else if |s'.pushed| > |s.pushed| {
      InOrderByPassing(s, s', r);
    } else if |s'.byMain| > |s.byMain| {
      InOrderByAnswering(s, s', a);
    }
  }

  /** Main's answers are those the opening table gives. */
  ghost predicate AnswersAsOpened(c: Config, s: State) {
    && (forall k :: 0 <= k < |s.byMain| ==> AnsweredAsOpened(c, s.byMain[k]))
    && (InShutdown(s.main) ==> ValidateAdmin(c.hash, OpeningTable(c), s.main.req.header) == s.main.buf.ret)
  }

  ghost predicate AnsweredAsOpened(c: Config, a: Answered) {
    a.reply.ret == ValidateAdmin(c.hash, OpeningTable(c), a.req.header)
  }

  /** No run of requests changes who the administrator is. */
  lemma AdminKept(c: Config, s: State, hd: Header)
    requires LedgerAgrees(c, s)
    ensures ValidateAdmin(c.hash, s.table, hd) == ValidateAdmin(c.hash, OpeningTable(c), hd)
  {
    InitialOk(c.hash, c.adminPassword, c.adminSalt);
    CredentialsKept(c.hash, OpeningTable(c), s.log, ADMIN_ACCOUNT_ID);
  }

  lemma AnswersKept(c: Config, s: State, input: Request, garbage: Reply, waiter: nat)
    requires AnswersAsOpened(c, s) && LedgerAgrees(c, s) && MainNext(c, s, input, garbage, waiter).Some?
    ensures AnswersAsOpened(c, MainNext(c, s, input, garbage, waiter).value)
  {
    if s.main.Read? {
      AdminKept(c, s, s.main.req.header);
      AnswersKeptReading(c, s, input, garbage, waiter);
    } else {
      AnswersKeptLater(c, s, input, garbage, waiter);
    }
  }

  lemma AnswersKeptReading(c: Config, s: State, input: Request, garbage: Reply, waiter: nat)
    requires AnswersAsOpened(c, s) && s.main.Read? && MainNext(c, s, input, garbage, waiter).Some?
    requires ValidateAdmin(c.hash, s.table, s.main.req.header)
             == ValidateAdmin(c.hash, OpeningTable(c), s.main.req.header)
    ensures AnswersAsOpened(c, MainNext(c, s, input, garbage, waiter).value)
  {
  }

  lemma AnswersKeptLater(c: Config, s: State, input: Request, garbage: Reply, waiter: nat)
    requires AnswersAsOpened(c, s) && !s.main.Read? && MainNext(c, s, input, garbage, waiter).Some?
    ensures AnswersAsOpened(c, MainNext(c, s, input, garbage, waiter).value)
  {
  }

  ghost predicate MainInOrder(c: Config, s: State) {
    InOrder(s) && AnswersAsOpened(c, s)
  }

  lemma InOrderByMain(c: Config, s: State, input: Request, garbage: Reply, waiter: nat)
    requires InOrder(s) && MainHandOk(s) && MainNext(c, s, input, garbage, waiter).Some?
    ensures InOrder(MainNext(c, s, input, garbage, waiter).value)
  {
    var s' := MainNext(c, s, input, garbage, waiter).value;
    OrderMove(c, s, input, garbage, waiter);
    InOrderKept(s, s', if HasRequest(s.main) then s.main.req else input,
                if |s'.byMain| > |s.byMain| then s'.byMain[|s.byMain|] else Answered(input, 0, garbage));
  }

  lemma MainInOrderKept(c: Config, s: State, step: Step)
    requires MainInOrder(c, s) && Basics(c, s) && Next(c, s, step).Some?
    ensures MainInOrder(c, Next(c, s, step).value)
  {
    var s' := Next(c, s, step).value;
    match step
    case MainStep(input, garbage, waiter) =>
      InOrderByMain(c, s, input, garbage, waiter);
      AnswersKept(c, s, input, garbage, waiter);
    case OfficeStep(i, salt) => OfficeFrame(c, s, i, salt);
    case Spurious(i) =>
  }

  // ---- What one office does

  ghost function Processed(log: seq<Event>): seq<Request> {
    if log == [] then [] else Processed(log[..|log| - 1]) + [log[|log| - 1].req]
  }

  ghost function Answering(log: seq<Event>, replies: seq<Reply>): seq<Answered>
    requires |log| == |replies|
  {
    if log == [] then []
    else
      var n := |log| - 1;
      Answering(log[..n], replies[..n]) + [Answered(log[n].req, log[n].req.header.pid, replies[n])]
  }

  ghost function Unserved(o: Office): seq<Request> {
    if o.pc.Popped? || o.pc.Working? then [o.pc.req] else []
  }

  ghost function Unsent(o: Office): seq<Answered> {
    if o.pc.Acked? then [Answered(o.pc.req, o.pc.req.header.pid, o.reply)] else []
  }

  ghost function LastReply(replies: seq<Reply>, stale: Reply): Reply {
    if replies == [] then stale else replies[|replies| - 1]
  }

  /** Each reply is what handling its request, after those before it, makes of the reply before. */
  ghost predicate Chained(c: Config, log: seq<Event>, replies: seq<Reply>, stale: Reply)
    requires |log| == |replies| && AllAddressable(log)
  {
    forall k :: 0 <= k < |log| ==> LinkAt(c, log, replies, stale, k)
  }

  ghost predicate LinkAt(c: Config, log: seq<Event>, replies: seq<Reply>, stale: Reply, k: nat)
    requires k < |log| == |replies| && AllAddressable(log)
  {
    replies[k] == Acknowledge(c.hash, Run(c.hash, OpeningTable(c), log[..k]), log[k].req,
        LastReply(replies[..k], stale))
  }

  /** The one office has processed what it popped, but for what is in its hand, and answered
      what it processed, but for what it is about to send. */
  ghost predicate Serial(c: Config, s: State, stale: Reply) {
    && |s.offices| == 1 && |s.log| == |s.replies| && AllAddressable(s.log)
    && s.popped == Processed(s.log) + Unserved(s.offices[0])
    && Answering(s.log, s.replies) == s.byOffices + Unsent(s.offices[0])
    && Chained(c, s.log, s.replies, stale) && s.offices[0].reply == LastReply(s.replies, stale)
  }

  lemma {:induction false} ProcessedMore(log: seq<Event>, replies: seq<Reply>, e: Event, r: Reply)
    requires |log| == |replies|
    ensures Processed(log + [e]) == Processed(log) + [e.req]
    ensures Answering(log + [e], replies + [r]) == Answering(log, replies) + [Answered(e.req, e.req.header.pid, r)]
  {
    assert (log + [e])[..|log|] == log && (replies + [r])[..|log|] == replies;
  }

  lemma {:induction false} ChainedMore(c: Config, log: seq<Event>, replies: seq<Reply>, stale: Reply, e: Event,
      r: Reply)
    requires |log| == |replies| && AllAddressable(log) && Chained(c, log, replies, stale) && Addressable(e.req)
    requires r == Acknowledge(c.hash, Run(c.hash, OpeningTable(c), log), e.req, LastReply(replies, stale))
    ensures Chained(c, log + [e], replies + [r], stale)
  {
    var longer, more := log + [e], replies + [r];
    forall k | 0 <= k < |longer| ensures LinkAt(c, longer, more, stale, k) {
      if k == |log| {
        assert longer[..k] == log && more[..k] == replies;
      } else {
        assert LinkAt(c, log, replies, stale, k);
        assert longer[..k] == log[..k] && more[..k] == replies[..k];
      }
    }
  }

  /** The office's state leaves what it serves and sends alone. */
  lemma SerialSame(c: Config, s: State, s': State, stale: Reply)
    requires Serial(c, s, stale) && |s'.offices| == 1
    requires s'.popped == s.popped && s'.byOffices == s.byOffices && s'.log == s.log && s'.replies == s.replies
    requires Unserved(s'.offices[0]) == Unserved(s.offices[0]) && Unsent(s'.offices[0]) == Unsent(s.offices[0])
    requires s'.offices[0].reply == s.offices[0].reply
    ensures Serial(c, s', stale)
  {
  }

  lemma SerialByArriving(c: Config, s: State, salt: string, stale: Reply)
    requires Serial(c, s, stale) && Arriving(s.offices[0].pc) && Arrive(c, s, 0).Some?
    ensures Serial(c, Arrive(c, s, 0).value, stale)
  {
    var s' := Arrive(c, s, 0).value;
    ArrivingFrame(c, s, 0, salt);
    IdleByArriving(c, s, 0, salt);
    ArrivingQuiet(c, s);
    SerialSame(c, s, s', stale);
  }

  lemma ArrivingQuiet(c: Config, s: State)
    requires |s.offices| == 1 && Arriving(s.offices[0].pc) && Arrive(c, s, 0).Some?
    ensures var o, o' := s.offices[0], Arrive(c, s, 0).value.offices[0];
            o'.reply == o.reply && Unserved(o') == Unserved(o) == [] && Unsent(o') == Unsent(o) == []
  {
  }

  lemma SerialByPopping(c: Config, s: State, salt: string, stale: Reply)
    requires Serial(c, s, stale) && s.offices[0].pc.Active? && HeadKept(s, s.offices[0].pc)
    requires Attend(c, s, 0, salt).Some?
    ensures Serial(c, Attend(c, s, 0, salt).value, stale)
  {
    assert Processed(s.log) + [] == Processed(s.log);
  }

  lemma SerialByWorking(c: Config, s: State, salt: string, stale: Reply)
    requires Serial(c, s, stale) && LedgerAgrees(c, s) && s.offices[0].pc.Working? && Attend(c, s, 0, salt).Some?
    ensures Serial(c, Attend(c, s, 0, salt).value, stale)
  {
    var s', req := Attend(c, s, 0, salt).value, s.offices[0].pc.req;
    var e, r := Event(req, salt), s'.offices[0].reply;
    ProcessedMore(s.log, s.replies, e, r);
    ChainedMore(c, s.log, s.replies, stale, e, r);
    assert Answering(s.log, s.replies) == s.byOffices;
    assert s'.popped == Processed(s'.log) + [];
  }

  lemma SerialBySending(c: Config, s: State, salt: string, stale: Reply)
    requires Serial(c, s, stale) && s.offices[0].pc.Acked? && Attend(c, s, 0, salt).Some?
    ensures Serial(c, Attend(c, s, 0, salt).value, stale)
  {
    var s' := Attend(c, s, 0, salt).value;
    assert s'.byOffices + [] == s'.byOffices;
  }

  /** The other steps of the office's work. */
  lemma SerialByRest(c: Config, s: State, salt: string, stale: Reply)
    requires Serial(c, s, stale) && !Arriving(s.offices[0].pc) && Attend(c, s, 0, salt).Some?
    requires !s.offices[0].pc.Active? && !s.offices[0].pc.Working? && !s.offices[0].pc.Acked?
    ensures Serial(c, Attend(c, s, 0, salt).value, stale)
  {
    RestQuiet(c, s, salt);
    SerialSame(c, s, Attend(c, s, 0, salt).value, stale);
  }

  lemma RestQuiet(c: Config, s: State, salt: string)
    requires |s.offices| == 1 && !Arriving(s.offices[0].pc) && Attend(c, s, 0, salt).Some?
    requires !s.offices[0].pc.Active? && !s.offices[0].pc.Working? && !s.offices[0].pc.Acked?
    ensures var s' := Attend(c, s, 0, salt).value;
      && |s'.offices| == 1 && s'.offices[0].reply == s.offices[0].reply
      && Unserved(s'.offices[0]) == Unserved(s.offices[0]) && Unsent(s'.offices[0]) == Unsent(s.offices[0]) == []
      && s'.popped == s.popped && s'.byOffices == s.byOffices && s'.log == s.log && s'.replies == s.replies
  {
  }

  lemma SerialByOffice(c: Config, s: State, salt: string, stale: Reply)
    requires Serial(c, s, stale) && LedgerAgrees(c, s) && HeadKept(s, s.offices[0].pc)
    requires OfficeNext(c, s, 0, salt).Some?
    ensures Serial(c, OfficeNext(c, s, 0, salt).value, stale)
  {
    var pc := s.offices[0].pc;
    if Arriving(pc) {
      SerialByArriving(c, s, salt, stale);
    } else if pc.Active? {
      SerialByPopping(c, s, salt, stale);
    } else if pc.Working? {
      SerialByWorking(c, s, salt, stale);
    } else if pc.Acked? {
      SerialBySending(c, s, salt, stale);
    } else {
      SerialByRest(c, s, salt, stale);
    }
  }

  lemma SerialByMain(c: Config, s: State, input: Request, garbage: Reply, waiter: nat, stale: Reply)
    requires Serial(c, s, stale) && MainNext(c, s, input, garbage, waiter).Some?
    ensures Serial(c, MainNext(c, s, input, garbage, waiter).value, stale)
  {
    MainFrame(c, s, input, garbage, waiter);
    SerialSame(c, s, MainNext(c, s, input, garbage, waiter).value, stale);
  }

  lemma SerialByWaking(c: Config, s: State, stale: Reply)
    requires Serial(c, s, stale) && s.offices[0].pc == Waiting
    ensures Serial(c, At(s, 0, WantBack), stale)
  {
    SerialSame(c, s, At(s, 0, WantBack), stale);
  }

  lemma SerialByOnly(c: Config, s: State, i: nat, salt: string, stale: Reply)
    requires Serial(c, s, stale) && LedgerAgrees(c, s) && Heads(s)
    requires i < |s.offices| && OfficeNext(c, s, i, salt).Some?
    ensures Serial(c, OfficeNext(c, s, i, salt).value, stale)
  {
    assert i == 0 && HeadKept(s, s.offices[0].pc);
    SerialByOffice(c, s, salt, stale);
  }

  lemma SerialKept(c: Config, s: State, step: Step, stale: Reply)
    requires Serial(c, s, stale) && LedgerAgrees(c, s) && Heads(s) && Next(c, s, step).Some?
    ensures Serial(c, Next(c, s, step).value, stale)
  {
    match step
    case MainStep(input, garbage, waiter) =>
      SerialByMain(c, s, input, garbage, waiter, stale);
    case OfficeStep(i, salt) =>
      SerialByOnly(c, s, i, salt, stale);
    case Spurious(i) => SerialByWaking(c, s, stale);
  }

  // ---- Every reachable state

  lemma InitInOrder(c: Config, s: State)
    requires Init(c, s)
    ensures MainInOrder(c, s) && (c.n == 1 ==> Serial(c, s, s.offices[0].reply))
  {
  }

  lemma {:induction false} InOrderAlong(c: Config, s: State, steps: seq<Step>, t: State)
    requires Inv(c, s) && MainInOrder(c, s) && Reaches(c, s, steps, t)
    ensures MainInOrder(c, t)
  {
    if steps != [] {
      var before := After(c, s, steps[..|steps| - 1]).value;
      InOrderAlong(c, s, steps[..|steps| - 1], before);
      InvAlong(c, s, steps[..|steps| - 1], before);
      MainInOrderKept(c, before, steps[|steps| - 1]);
    }
  }

  lemma {:induction false} SerialAlong(c: Config, s: State, steps: seq<Step>, t: State, stale: Reply)
    requires c.n == 1 && Inv(c, s) && Serial(c, s, stale) && Reaches(c, s, steps, t)
    ensures Serial(c, t, stale)
  {
    if steps != [] {
      var before := After(c, s, steps[..|steps| - 1]).value;
      SerialAlong(c, s, steps[..|steps| - 1], before, stale);
      InvAlong(c, s, steps[..|steps| - 1], before);
      SerialKept(c, before, steps[|steps| - 1], stale);
    }
  }

  /** With any number of offices main pushes the ordinary requests and answers the shutdowns in
      the order it read them, the latter as on the opening table. */
  lemma MainServesInOrder(c: Config, s: State)
    requires Reachable(c, s)
    ensures AllSlotted(s.taken) && Select(s.taken, |s.taken|, false) == s.pushed + Unpushed(s.main)
    ensures Select(s.taken, |s.taken|, true) == RequestsOf(s.byMain) + Unanswered(s.main)
    ensures forall k :: 0 <= k < |s.byMain| ==> AnsweredAsOpened(c, s.byMain[k])
  {
    var start, steps :| Init(c, start) && Reaches(c, start, steps, s);
    InitInv(c, start);
    InitInOrder(c, start);
    InOrderAlong(c, start, steps, s);
  }

  /** One office has at any moment processed a prefix of the pushed requests, in their order. */
  lemma ServesInOrder(c: Config, s: State) returns (stale: Reply)
    requires c.n == 1 && Reachable(c, s)
    ensures Serial(c, s, stale) && Processed(s.log) + Unserved(s.offices[0]) + s.queue == s.pushed
  {
    var start, steps :| Init(c, start) && Reaches(c, start, steps, s);
    InitInv(c, start);
    InitInOrder(c, start);
    stale := start.offices[0].reply;
    SerialAlong(c, start, steps, s, stale);
    PickedUpInOrder(c, s);
  }

  // ---- Every life

  function SaltsOf(log: seq<Event>): nat -> string {
    (k: nat) => if k < |log| then log[k].salt else ""
  }

  lemma {:induction false} ProcessedAt(log: seq<Event>, k: nat)
    requires k < |log|
    ensures |Processed(log)| == |log| && Processed(log)[k] == log[k].req
  {
    var n := |log| - 1;
    ProcessedLength(log);
    ProcessedLength(log[..n]);
    if k < n {
      ProcessedAt(log[..n], k);
    }
  }

  lemma {:induction false} ProcessedLength(log: seq<Event>)
    ensures |Processed(log)| == |log|
  {
    if log != [] {
      ProcessedLength(log[..|log| - 1]);
    }
  }

  lemma {:induction false} EventsAt(reqs: seq<Request>, salts: nat -> string, k: nat, j: nat)
    requires j < |reqs|
    ensures Events(reqs, salts, k)[j] == Event(reqs[j], salts(k + j))
  {
    if j > 0 {
      EventsAt(reqs[1..], salts, k + 1, j - 1);
    }
  }

  lemma {:induction false} EventsOfLog(log: seq<Event>)
    ensures |Processed(log)| == |log| && Events(Processed(log), SaltsOf(log), 0) == log
  {
    ProcessedLength(log);
    var evs := Events(Processed(log), SaltsOf(log), 0);
    forall j | 0 <= j < |log| ensures evs[j] == log[j] {
      ProcessedAt(log, j);
      EventsAt(Processed(log), SaltsOf(log), 0, j);
    }
  }

  lemma {:induction false} AnsweringAt(log: seq<Event>, replies: seq<Reply>, k: nat)
    requires k < |log| == |replies|
    ensures |Answering(log, replies)| == |log|
    ensures Answering(log, replies)[k] == Answered(log[k].req, log[k].req.header.pid, replies[k])
  {
    var n := |log| - 1;
    AnsweringLength(log, replies);
    AnsweringLength(log[..n], replies[..n]);
    if k < n {
      AnsweringAt(log[..n], replies[..n], k);
    }
  }

  lemma {:induction false} AnsweringLength(log: seq<Event>, replies: seq<Reply>)
    requires |log| == |replies|
    ensures |Answering(log, replies)| == |log|
  {
    if log != [] {
      AnsweringLength(log[..|log| - 1], replies[..|log| - 1]);
    }
  }

  ghost predicate Slotted(log: seq<Event>) {
    AllAddressable(log) && AllSlotted(Processed(log))
  }

  lemma LogSlotted(log: seq<Event>)
    requires AllAddressable(log)
    ensures Slotted(log)
  {
    ProcessedLength(log);
    forall k | 0 <= k < |log| ensures Addressable(Processed(log)[k]) {
      ProcessedAt(log, k);
    }
  }

  /** The chain of replies is the one of the office's loop. */
  lemma {:induction false} ReplyAt(c: Config, log: seq<Event>, replies: seq<Reply>, stale: Reply, j: nat)
    requires j < |log| == |replies| && Slotted(log) && Chained(c, log, replies, stale)
    ensures var sent := WorkOff(c.hash, OpeningTable(c), Processed(log), SaltsOf(log), 0, stale).1;
            |sent| == |log| && sent[j] == Answered(log[j].req, log[j].req.header.pid, replies[j])
  {
    EventsOfLog(log);
    ProcessedAt(log, j);
    assert LinkAt(c, log, replies, stale, j);
    WorkOffReplies(c.hash, OpeningTable(c), Processed(log), SaltsOf(log), 0, stale, j);
    if j > 0 {
      ReplyAt(c, log, replies, stale, j - 1);
      assert LastReply(replies[..j], stale) == replies[j - 1];
    }
  }

  lemma {:induction false} LogIsWorkOff(c: Config, log: seq<Event>, replies: seq<Reply>, stale: Reply)
    requires |log| == |replies| && Slotted(log) && Chained(c, log, replies, stale)
    ensures var left := WorkOff(c.hash, OpeningTable(c), Processed(log), SaltsOf(log), 0, stale);
            left.0 == Run(c.hash, OpeningTable(c), log) && left.1 == Answering(log, replies)
  {
    EventsOfLog(log);
    WorkOffIsRun(c.hash, OpeningTable(c), Processed(log), SaltsOf(log), 0, stale);
    AnsweringLength(log, replies);
    var sent := WorkOff(c.hash, OpeningTable(c), Processed(log), SaltsOf(log), 0, stale).1;
    var made := Answering(log, replies);
    forall j | 0 <= j < |made| ensures sent[j] == made[j] {
      ReplyAt(c, log, replies, stale, j);
      AnsweringAt(log, replies, j);
    }
    SameAnswers(sent, made);
  }

  lemma SameAnswers(a: seq<Answered>, b: seq<Answered>)
    requires |a| == |b| && forall j :: 0 <= j < |b| ==> a[j] == b[j]
    ensures a == b
  {
  }

  lemma SerialWhenClosed(c: Config, s: State, stale: Reply)
    requires Serial(c, s, stale) && s.offices[0].pc == Closed
    ensures s.popped == Processed(s.log) && s.byOffices == Answering(s.log, s.replies)
  {
  }

  lemma JoinedSerially(c: Config, t: State) returns (stale: Reply)
    requires c.n == 1 && Reachable(c, t) && t.main.Joined?
    ensures |t.log| == |t.replies| && Slotted(t.log) && Chained(c, t.log, t.replies, stale)
    ensures t.popped == t.pushed == Processed(t.log) && t.byOffices == Answering(t.log, t.replies)
    ensures t.table == Run(c.hash, OpeningTable(c), t.log)
  {
    stale := ServesInOrder(c, t);
    JoinedMeansDrained(c, t);
    ReachableInv(c, t);
    assert t.offices[0].pc == Closed;
    SerialWhenClosed(c, t, stale);
    LogSlotted(t.log);
  }

  lemma JoinedInOrder(c: Config, t: State)
    requires Reachable(c, t) && t.main.Joined?
    ensures AllSlotted(t.taken) && Select(t.taken, |t.taken|, false) == t.pushed
    ensures RequestsOf(t.byMain) == Select(t.taken, |t.taken|, true)
    ensures forall k :: 0 <= k < |t.byMain| ==> AnsweredAsOpened(c, t.byMain[k])
  {
    MainServesInOrder(c, t);
    assert t.pushed + [] == t.pushed && RequestsOf(t.byMain) + [] == RequestsOf(t.byMain);
  }

  /** However a server with one office was scheduled, when it has been joined its table and the
      replies of the office are those of working off, in order, the ordinary requests main read:
      they depend on nothing else but the salts drawn and what the reply structure held. */
  lemma EveryLifeServes(c: Config, t: State) returns (salts: nat -> string, stale: Reply)
    requires c.n == 1 && Reachable(c, t) && t.main.Joined?
    ensures AllSlotted(Select(t.taken, |t.taken|, false))
    ensures var left := WorkOff(c.hash, OpeningTable(c), Select(t.taken, |t.taken|, false), salts, 0, stale);
            t.table == left.0 && t.byOffices == left.1
    ensures RequestsOf(t.byMain) == Select(t.taken, |t.taken|, true)
    ensures forall k :: 0 <= k < |t.byMain| ==> AnsweredAsOpened(c, t.byMain[k])
  {
    stale := JoinedSerially(c, t);
    salts := SaltsOf(t.log);
    JoinedInOrder(c, t);
    LogIsWorkOff(c, t.log, t.replies, stale);
  }
}
