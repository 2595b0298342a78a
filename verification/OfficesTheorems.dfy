/** The main thread's dealings with its clients, and the safety theorems of the server. */
module OfficesTheorems {
  import opened Messages
  import opened Bank
  import opened LedgerRuns
  import opened Offices
  import opened OfficesSafety

  // ---- What main reads and answers

  ghost predicate HasRequest(m: MainPc) {
    m.Read? || m.Locked? || InShutdown(m)
  }

  /** Main has accepted a shutdown and not answered it yet. */
  ghost predicate InShutdown(m: MainPc) {
    m.Accepting? || m.Flagged? || m.Counted? || m.Woke?
  }

  ghost predicate Ended(m: MainPc) {
    m.Joining? || m.Joined?
  }

  ghost function MainHand(m: MainPc): multiset<Request> {
    if HasRequest(m) then multiset{m.req} else multiset{}
  }

  /** Every request read is on its way to the offices, answered by main, or in main's hand. */
  ghost predicate IntakeSplit(s: State) {
    multiset(s.taken) == multiset(s.pushed) + Requests(s.byMain) + MainHand(s.main)
  }

  /** Main's own replies answer shutdown requests, go to the process named in the request,
      and refuse; only the last one may accept, and then no request is read after it. */
  ghost predicate MainAnswersOk(s: State) {
    && (forall k :: 0 <= k < |s.byMain| ==> AnsweredByMain(s.byMain[k]))
    && (forall k :: 0 <= k < |s.byMain| ==> (s.byMain[k].reply.ret == RC_OK <==> Ended(s.main) && k == |s.byMain| - 1))
    && (Ended(s.main) ==> s.byMain != [] && s.taken != [] && s.taken[|s.taken| - 1] == s.byMain[|s.byMain| - 1].req)
  }

  ghost predicate AnsweredByMain(a: Answered) {
    a.req.args.Shutdown? && a.pid == a.req.header.pid && a.reply.op == OP_SHUTDOWN && a.reply.length == REPLY_VALUE_SIZE
  }

  ghost predicate MainHandOk(s: State) {
    && (HasRequest(s.main) ==> s.taken != [] && s.taken[|s.taken| - 1] == s.main.req)
    && (InShutdown(s.main) ==> s.main.req.args.Shutdown? && s.main.buf.ret == RC_OK)
    && (s.main.Locked? ==> !s.main.req.args.Shutdown?)
    && (forall k :: 0 <= k < |s.pushed| ==> !s.pushed[k].args.Shutdown?)
  }

  ghost predicate Intake(s: State) {
    IntakeSplit(s) && MainAnswersOk(s) && MainHandOk(s)
  }

  /** Main reads a request, passes one on, answers one, or keeps what it has. */
  ghost predicate IntakeMoved(s: State, s': State, r: Request, a: Answered) {
    || (&& !HasRequest(s.main) && HasRequest(s'.main) && s'.main.req == r
        && s'.taken == s.taken + [r] && s'.pushed == s.pushed && s'.byMain == s.byMain)
    || (&& HasRequest(s.main) && s.main.req == r && !HasRequest(s'.main)
        && s'.taken == s.taken && s'.pushed == s.pushed + [r] && s'.byMain == s.byMain)
    || (&& HasRequest(s.main) && s.main.req == a.req && !HasRequest(s'.main)
        && s'.taken == s.taken && s'.pushed == s.pushed && s'.byMain == s.byMain + [a])
    || (&& HasRequest(s.main) == HasRequest(s'.main) && (HasRequest(s.main) ==> s.main.req == s'.main.req)
        && s'.taken == s.taken && s'.pushed == s.pushed && s'.byMain == s.byMain)
  }

  lemma IntakeMove(c: Config, s: State, input: Request, garbage: Reply, waiter: nat)
    requires MainNext(c, s, input, garbage, waiter).Some?
    ensures var s' := MainNext(c, s, input, garbage, waiter).value;
            IntakeMoved(s, s', if HasRequest(s.main) then s.main.req else input,
                        if |s'.byMain| > |s.byMain| then s'.byMain[|s.byMain|] else Answered(input, 0, garbage))
  {
  }

  lemma IntakeSplitKept(s: State, s': State, r: Request, a: Answered)
    requires IntakeSplit(s) && IntakeMoved(s, s', r, a)
    ensures IntakeSplit(s')
  {
    var taken, pushed, byMain := multiset(s.taken), multiset(s.pushed), Requests(s.byMain);
    if |s'.taken| > |s.taken| {
      AppendOne(s.taken, r);
      MoveOne(taken, pushed, byMain, r);
    } else if |s'.pushed| > |s.pushed| {
      AppendOne(s.pushed, r);
      MoveOne(taken, pushed, byMain, r);
    } else if |s'.byMain| > |s.byMain| {
      AppendAnswer(s.byMain, a);
      MoveOne(taken, pushed, byMain, a.req);
    }
  }

  lemma AppendOne<T>(list: seq<T>, one: T)
    ensures multiset(list + [one]) == multiset(list) + multiset{one}
  {
  }

  /** Something is taken into the hand, or put from it to one side or the other. */
  lemma MoveOne<T>(all: multiset<T>, left: multiset<T>, right: multiset<T>, one: T)
    ensures all == left + right + multiset{} ==> all + multiset{one} == left + right + multiset{one}
    ensures all == left + right + multiset{one} ==> all == (left + multiset{one}) + right + multiset{}
    ensures all == left + right + multiset{one} ==> all == left + (right + multiset{one}) + multiset{}
  {
    if all == left + right + multiset{} {
      assert all == left + right;
    }
  }

  /** Main answers the shutdown it holds, accepting exactly when it ends, or answers nothing. */
  ghost predicate AnswerMoved(s: State, s': State, a: Answered) {
    || (&& s'.byMain == s.byMain + [a] && AnsweredByMain(a) && !Ended(s.main)
        && (a.reply.ret == RC_OK <==> Ended(s'.main))
        && s'.taken == s.taken && s.taken != [] && s.taken[|s.taken| - 1] == a.req)
    || (s'.byMain == s.byMain && (Ended(s'.main) <==> Ended(s.main)) && (Ended(s.main) ==> s'.taken == s.taken))
  }

  lemma AnswerMove(c: Config, s: State, input: Request, garbage: Reply, waiter: nat)
    requires MainHandOk(s) && MainNext(c, s, input, garbage, waiter).Some?
    ensures var s' := MainNext(c, s, input, garbage, waiter).value;
            AnswerMoved(s, s', if |s'.byMain| > |s.byMain| then s'.byMain[|s.byMain|] else Answered(input, 0, garbage))
  {
    if s.main.Read? && s.main.req.args.Shutdown? {
    } else if s.main.Woke? {
    } else {
    }
  }

  lemma MainAnswersOkKept(s: State, s': State, a: Answered)
    requires MainAnswersOk(s) && AnswerMoved(s, s', a)
    ensures MainAnswersOk(s')
  {
  }

  lemma MainHandOkKept(c: Config, s: State, input: Request, garbage: Reply, waiter: nat)
    requires MainHandOk(s) && MainNext(c, s, input, garbage, waiter).Some?
    ensures MainHandOk(MainNext(c, s, input, garbage, waiter).value)
  {
  }

  lemma IntakeKeptByMain(c: Config, s: State, input: Request, garbage: Reply, waiter: nat)
    requires Intake(s) && MainNext(c, s, input, garbage, waiter).Some?
    ensures Intake(MainNext(c, s, input, garbage, waiter).value)
  {
    var s' := MainNext(c, s, input, garbage, waiter).value;
    IntakeMove(c, s, input, garbage, waiter);
    AnswerMove(c, s, input, garbage, waiter);
    var a := if |s'.byMain| > |s.byMain| then s'.byMain[|s.byMain|] else Answered(input, 0, garbage);
    IntakeSplitKept(s, s', if HasRequest(s.main) then s.main.req else input, a);
    MainAnswersOkKept(s, s', a);
    MainHandOkKept(c, s, input, garbage, waiter);
  }

  lemma IntakeKeptIfFramed(s: State, s': State, i: nat)
    requires Intake(s) && Framed(s, s', i)
    ensures Intake(s')
  {
  }

  lemma IntakeKept(c: Config, s: State, step: Step)
    requires Intake(s) && Next(c, s, step).Some?
    ensures Intake(Next(c, s, step).value)
  {
    match step
    case MainStep(input, garbage, waiter) => IntakeKeptByMain(c, s, input, garbage, waiter);
    case OfficeStep(i, salt) =>
      OfficeFrame(c, s, i, salt);
      IntakeKeptIfFramed(s, Next(c, s, step).value, i);
    case Spurious(i) => IntakeKeptIfFramed(s, Next(c, s, step).value, i);
  }

  /** Main joins only closed offices. */
  ghost predicate Joins(s: State) {
    s.main.Joined? ==> AllClosed(s.offices)
  }

  lemma JoinsKept(c: Config, s: State, step: Step)
    requires Joins(s) && Next(c, s, step).Some?
    ensures Joins(Next(c, s, step).value)
  {
    if step.OfficeStep? {
      OfficeFrame(c, s, step.i, step.salt);
    }
  }

  // ---- The invariant

  /** What holds however offices use the queue. */
  ghost predicate Basics(c: Config, s: State) {
    && Locks(c, s) && Fifo(s) && ClosedEmpty(s) && Counts(s) && SentAsMade(s)
    && Labelled(s) && LedgerAgrees(c, s) && Intake(s) && Joins(s)
  }

  /** What holds besides as long as the queue is used by one thread at a time. */
  ghost predicate Shared(s: State) {
    Heads(s) && ExactlyOnce(s)
  }

  ghost predicate Inv(c: Config, s: State) {
    Basics(c, s) && (OneAtATime(c, s) ==> Shared(s))
  }

  lemma {:induction false} IdleTallies(os: seq<Office>)
    requires forall j :: 0 <= j < |os| ==> os[j].pc == Check
    ensures Sum(os, Busy) == 0 && Bag(os, InHand) == multiset{} && Bag(os, ReadyToSend) == multiset{}
  {
    if os != [] {
      IdleTallies(os[..|os| - 1]);
    }
  }

  lemma InitInv(c: Config, s: State)
    requires Init(c, s)
    ensures Inv(c, s)
  {
    IdleTallies(s.offices);
    InitLedger(c, s);
    InitIntake(c, s);
  }

  lemma InitLedger(c: Config, s: State)
    requires Init(c, s)
    ensures LedgerAgrees(c, s) && Labelled(s) && Locks(c, s)
  {
  }

  lemma InitIntake(c: Config, s: State)
    requires Init(c, s)
    ensures Intake(s) && Heads(s) && Fifo(s) && ClosedEmpty(s) && Joins(s)
  {
  }

  lemma BasicsKept(c: Config, s: State, step: Step)
    requires Basics(c, s) && Next(c, s, step).Some?
    ensures Basics(c, Next(c, s, step).value)
  {
    LocksKept(c, s, step);
    FifoKept(c, s, step);
    ClosedEmptyKept(c, s, step);
    CountsKept(c, s, step);
    SentAsMadeKept(c, s, step);
    LabelledKept(c, s, step);
    LedgerKept(c, s, step);
    IntakeKept(c, s, step);
    JoinsKept(c, s, step);
  }

  /** The flag is never taken back. */
  lemma FlagStays(c: Config, s: State, step: Step)
    requires Next(c, s, step).Some? && s.shutdown
    ensures Next(c, s, step).value.shutdown
  {
    if step.OfficeStep? {
      OfficeFrame(c, s, step.i, step.salt);
    }
  }

  lemma InvKept(c: Config, s: State, step: Step)
    requires Inv(c, s) && Next(c, s, step).Some?
    ensures Inv(c, Next(c, s, step).value)
  {
    BasicsKept(c, s, step);
    if OneAtATime(c, s) {
      HeadsKept(c, s, step);
      ExactlyOnceSame(c, s, step);
    } else {
      FlagStays(c, s, step);
    }
  }

  lemma {:induction false} InvAlong(c: Config, s: State, steps: seq<Step>, t: State)
    requires Inv(c, s) && Reaches(c, s, steps, t)
    ensures Inv(c, t)
  {
    if steps != [] {
      var before := After(c, s, steps[..|steps| - 1]).value;
      InvAlong(c, s, steps[..|steps| - 1], before);
      InvKept(c, before, steps[|steps| - 1]);
    }
  }

  lemma ReachableInv(c: Config, t: State)
    requires Reachable(c, t)
    ensures Inv(c, t)
  {
    var s, steps :| Init(c, s) && Reaches(c, s, steps, t);
    InitInv(c, s);
    InvAlong(c, s, steps, t);
  }

  // ---- Theorems about every reachable state

  /** Requests leave the queue in the order main pushed them, however the offices use it. */
  lemma PickedUpInOrder(c: Config, s: State)
    requires Reachable(c, s)
    ensures s.popped + s.queue == s.pushed
  {
    ReachableInv(c, s);
  }

  /** As long as one thread at a time uses the queue, a pushed request is queued, in one
      office's hand, or answered, and counted once. A copied head is still queued. */
  lemma PushedOnce(c: Config, s: State)
    requires OneAtATime(c, s) && Reachable(c, s)
    ensures multiset(s.pushed) == multiset(s.queue) + Bag(s.offices, InHand) + Requests(s.byOffices)
  {
    ReachableInv(c, s);
    assert multiset(s.popped + s.queue) == multiset(s.popped) + multiset(s.queue);
  }

  /** Only main holding the mutex and an office about to pop change the queue. */
  lemma QueueMoves(c: Config, s: State, step: Step)
    requires Next(c, s, step).Some? && Next(c, s, step).value.queue != s.queue
    ensures (step.MainStep? && s.main.Locked?) || (step.OfficeStep? && s.offices[step.i].pc.Active?)
  {
  }

  /** While an office uses the queue, no step of another thread changes the queue. */
  lemma QueueUndisturbed(c: Config, s: State, i: nat, step: Step)
    requires OneAtATime(c, s) && Reachable(c, s) && Next(c, s, step).Some?
    requires i < |s.offices| && Inside(s.offices[i].pc) && !(step.OfficeStep? && step.i == i)
    ensures Next(c, s, step).value.queue == s.queue
  {
    ReachableInv(c, s);
    LocksExclude(c, s);
    if Next(c, s, step).value.queue != s.queue {
      QueueMoves(c, s, step);
    }
  }

  /** The request an office copied is the one its own pop removes. */
  lemma PopsWhatItCopied(c: Config, s: State, i: nat, salt: string)
    requires OneAtATime(c, s) && Reachable(c, s) && i < |s.offices| && s.offices[i].pc.Active?
    ensures var r := OfficeNext(c, s, i, salt);
            && r.Some? && r.value.popped == s.popped + [s.offices[i].pc.req]
            && [s.offices[i].pc.req] + r.value.queue == s.queue
  {
    ReachableInv(c, s);
    assert HeadKept(s, s.offices[i].pc);
    PopsHead(c, s, i, salt);
  }

  lemma PopsHead(c: Config, s: State, i: nat, salt: string)
    requires i < |s.offices| && s.offices[i].pc.Active? && HeadKept(s, s.offices[i].pc)
    ensures var r := OfficeNext(c, s, i, salt);
            && r.Some? && r.value.popped == s.popped + [s.offices[i].pc.req]
            && [s.offices[i].pc.req] + r.value.queue == s.queue
  {
  }

  lemma {:induction false} SumBusyBound(os: seq<Office>)
    ensures Sum(os, Busy) <= |os|
  {
    if os != [] {
      SumBusyBound(os[..|os| - 1]);
    }
  }

  /** The active counter is the number of offices between their increment and decrement. */
  lemma CounterExact(c: Config, s: State)
    requires Reachable(c, s)
    ensures s.active == Sum(s.offices, Busy) && 0 <= s.active <= c.n
  {
    ReachableInv(c, s);
    SumBusyBound(s.offices);
  }

  /** The count main put in its shutdown reply stays there until the reply is sent. */
  ghost predicate Reporting(s: State, busy: word) {
    && (s.main.Counted? || s.main.Woke? || Ended(s.main))
    && (s.main.Counted? || s.main.Woke? ==> s.main.buf.payload == busy)
    && (Ended(s.main) ==> s.byMain != [] && s.byMain[|s.byMain| - 1].reply.payload == busy)
  }

  lemma {:induction false} ReportingAlong(c: Config, s: State, busy: word, steps: seq<Step>, t: State)
    requires Reporting(s, busy) && Reaches(c, s, steps, t)
    ensures Reporting(t, busy)
  {
    if steps != [] {
      var before, step := After(c, s, steps[..|steps| - 1]).value, steps[|steps| - 1];
      ReportingAlong(c, s, busy, steps[..|steps| - 1], before);
      ReportingKept(c, before, busy, step);
    }
  }

  lemma ReportingKept(c: Config, s: State, busy: word, step: Step)
    requires Reporting(s, busy) && Next(c, s, step).Some?
    ensures Reporting(Next(c, s, step).value, busy)
  {
    if step.OfficeStep? {
      OfficeFrame(c, s, step.i, step.salt);
    }
  }

  /** The reply to the accepted shutdown reports the offices busy when main read the counter. */
  lemma ShutdownReportsBusy(c: Config, s: State, count: Step, steps: seq<Step>, t: State)
    requires Reachable(c, s) && s.main.Flagged? && count.MainStep?
    requires Next(c, s, count).Some? && Reaches(c, Next(c, s, count).value, steps, t) && t.main.Joined?
    ensures |t.byMain| > 0 && t.byMain[|t.byMain| - 1].reply.payload == Wrap(Sum(s.offices, Busy))
    ensures c.n < 0x1_0000_0000 ==> t.byMain[|t.byMain| - 1].reply.payload == Sum(s.offices, Busy)
  {
    CounterExact(c, s);
    ReportingAlong(c, Next(c, s, count).value, Wrap(s.active), steps, t);
  }

  /** The concurrent server is the sequential bank serving the requests in the order they
      were processed: same table, and every reply sent carries the bank's answer. */
  lemma RefinesSequentialBank(c: Config, s: State)
    requires Reachable(c, s)
    ensures |s.log| == |s.replies| && AllAddressable(s.log) && TableOk(s.table)
    ensures Abstract(s.table) == RunBooks(c.hash, OpeningBooks(c), s.log)
    ensures forall k :: 0 <= k < |s.log| ==> Carries(s.replies[k], s.log[k].req, ReferenceAnswer(c, s.log, k))
    ensures Sends(s.byOffices) <= Made(s.log, s.replies)
  {
    ReachableInv(c, s);
    InitialOk(c.hash, c.adminPassword, c.adminSalt);
    RunRefined(c.hash, OpeningTable(c), s.log);
  }

  /** In every reachable state, with any number of offices and either use of the queue, money
      is what the successful creations brought in, the administrator has none, and each
      balance is at most MAX_BALANCE and agrees with the account's history. */
  lemma {:induction false} MoneyAlwaysAdds(c: Config, s: State, i: nat)
    requires Reachable(c, s) && i < MAX_BANK_ACCOUNTS
    ensures AllAddressable(s.log)
    ensures Total(s.table) == Deposited(c.hash, OpeningTable(c), s.log)
    ensures s.table[ADMIN_ACCOUNT_ID].balance == 0 && s.table[i].balance <= MAX_BALANCE
    ensures s.table[i].balance
         == History(Opening, c.hash, OpeningTable(c), s.log, i) + History(Received, c.hash, OpeningTable(c), s.log, i)
            - History(Sent, c.hash, OpeningTable(c), s.log, i)
  {
    ReachableInv(c, s);
    InitialOk(c.hash, c.adminPassword, c.adminSalt);
    TotalOfEmpty(OpeningTable(c));
    Conservation(c.hash, OpeningTable(c), s.log);
    BalanceAgreesWithHistory(c.hash, OpeningTable(c), s.log, i);
  }

  // ---- After the shutdown

  lemma {:induction false} ClosedTallies(os: seq<Office>)
    requires AllClosed(os)
    ensures Sum(os, Busy) == 0 && Bag(os, InHand) == multiset{} && Bag(os, ReadyToSend) == multiset{}
  {
    if os != [] {
      ClosedTallies(os[..|os| - 1]);
    }
  }

  /** Once the flag is set nothing more is read or pushed. */
  lemma {:induction false} IntakeStopped(c: Config, s: State, steps: seq<Step>, t: State)
    requires PastFlag(s.main) && Reaches(c, s, steps, t)
    ensures PastFlag(t.main) && t.taken == s.taken && t.pushed == s.pushed
  {
    if steps != [] {
      var before, step := After(c, s, steps[..|steps| - 1]).value, steps[|steps| - 1];
      IntakeStopped(c, s, steps[..|steps| - 1], before);
      if step.OfficeStep? {
        OfficeFrame(c, before, step.i, step.salt);
      }
    }
  }

  /** When every office has been joined the queue is empty (unless there were no offices),
      nobody is active, every reply made was sent, and each request read was answered by main
      or taken by an office, whichever way the offices used the queue. */
  lemma JoinedMeansDrained(c: Config, s: State)
    requires Reachable(c, s) && s.main.Joined?
    ensures s.active == 0 && (c.n > 0 ==> s.queue == [] && s.popped == s.pushed)
    ensures multiset(s.taken) == multiset(s.pushed) + Requests(s.byMain)
    ensures |s.log| == |s.replies| && Sends(s.byOffices) == Made(s.log, s.replies)
  {
    ReachableInv(c, s);
    ClosedTallies(s.offices);
    NothingMore(Made(s.log, s.replies), Bag(s.offices, ReadyToSend), Sends(s.byOffices));
    NothingMore(multiset(s.taken), MainHand(s.main), multiset(s.pushed) + Requests(s.byMain));
    if c.n > 0 {
      assert s.offices[0].pc == Closed;
      assert s.popped + s.queue == s.popped;
    }
  }

  lemma NothingMore<T>(all: multiset<T>, held: multiset<T>, done: multiset<T>)
    requires all == done + held && held == multiset{}
    ensures all == done
  {
  }

  /** And each request main read was answered exactly once, by the offices or by main, or is
      one of those left in the queue when there were no offices. */
  lemma EveryRequestAnswered(c: Config, s: State)
    requires Orderly(c) && Reachable(c, s) && s.main.Joined?
    ensures s.active == 0 && (c.n > 0 ==> s.queue == [])
    ensures multiset(s.pushed) == Requests(s.byOffices) + multiset(s.queue)
    ensures multiset(s.taken) == Requests(s.byMain) + Requests(s.byOffices) + multiset(s.queue)
    ensures |s.log| == |s.replies| && Sends(s.byOffices) == Made(s.log, s.replies)
  {
    PushedOnce(c, s);
    JoinedMeansDrained(c, s);
    ReachableInv(c, s);
    ClosedTallies(s.offices);
    Regroup(multiset(s.taken), multiset(s.pushed), Requests(s.byMain), multiset(s.queue), Requests(s.byOffices));
  }

  lemma Regroup<T>(taken: multiset<T>, pushed: multiset<T>, byMain: multiset<T>, queued: multiset<T>,
      byOffices: multiset<T>)
    requires pushed == queued + multiset{} + byOffices && taken == pushed + byMain
    ensures pushed == byOffices + queued && taken == byMain + byOffices + queued
  {
  }

  /** In every reachable state replies went to the processes the requests name, with the types
      the requests have; main refused every shutdown until it joined the offices, and the one
      it accepted is the last request it read. */
  lemma RepliesWellAddressed(c: Config, s: State)
    requires Reachable(c, s)
    ensures forall k :: 0 <= k < |s.byOffices| ==> Delivered(s.byOffices[k])
    ensures forall k :: 0 <= k < |s.byMain| ==> AnsweredByMain(s.byMain[k])
    ensures forall k :: 0 <= k < |s.byMain| ==>
              (s.byMain[k].reply.ret == RC_OK <==> Ended(s.main) && k == |s.byMain| - 1)
    ensures Ended(s.main) ==> s.byMain != [] && s.taken != [] && s.byMain[|s.byMain| - 1].req == s.taken[|s.taken| - 1]
  {
    ReachableInv(c, s);
  }
}
