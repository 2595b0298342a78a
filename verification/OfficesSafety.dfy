/** What every reachable state of the server keeps, for any number of offices and any
    interleaving of their steps. */
module OfficesSafety {
  import opened Messages
  import opened Ledger
  import opened Bank
  import opened LedgerRuns
  import opened Offices

  // ---- Sums over the offices

  ghost function Sum(os: seq<Office>, f: Office -> nat): nat {
    if os == [] then 0 else Sum(os[..|os| - 1], f) + f(os[|os| - 1])
  }

  ghost function Bag<T>(os: seq<Office>, f: Office -> multiset<T>): multiset<T> {
    if os == [] then multiset{} else Bag(os[..|os| - 1], f) + f(os[|os| - 1])
  }

  lemma {:induction false} SumUpdate(os: seq<Office>, f: Office -> nat, i: nat, o: Office)
    requires i < |os|
    ensures Sum(os[i := o], f) + f(os[i]) == Sum(os, f) + f(o)
  {
    var n := |os| - 1;
    if i == n {
      assert os[i := o][..n] == os[..n];
    } else {
      assert os[i := o][..n] == os[..n][i := o];
      SumUpdate(os[..n], f, i, o);
    }
  }

  lemma BagRegroup<T>(a: multiset<T>, b: multiset<T>, c: multiset<T>, d: multiset<T>, last: multiset<T>)
    requires a + b == c + d
    ensures (a + last) + b == (c + last) + d
  {
    assert (a + last) + b == (a + b) + last;
    assert (c + last) + d == (c + d) + last;
  }

  lemma {:induction false} BagUpdate<T>(os: seq<Office>, f: Office -> multiset<T>, i: nat, o: Office)
    requires i < |os|
    ensures Bag(os[i := o], f) + f(os[i]) == Bag(os, f) + f(o)
  {
    var n := |os| - 1;
    if i == n {
      assert os[i := o][..n] == os[..n];
    } else {
      assert os[i := o][..n] == os[..n][i := o];
      BagUpdate(os[..n], f, i, o);
      BagRegroup(Bag(os[..n][i := o], f), f(os[i]), Bag(os[..n], f), f(o), f(os[n]));
    }
  }

  lemma {:induction false} SumSame(os: seq<Office>, ps: seq<Office>, f: Office -> nat)
    requires |os| == |ps| && forall j :: 0 <= j < |os| ==> f(os[j]) == f(ps[j])
    ensures Sum(os, f) == Sum(ps, f)
  {
    if os != [] {
      SumSame(os[..|os| - 1], ps[..|ps| - 1], f);
    }
  }

  lemma {:induction false} BagSame<T>(os: seq<Office>, ps: seq<Office>, f: Office -> multiset<T>)
    requires |os| == |ps| && forall j :: 0 <= j < |os| ==> f(os[j]) == f(ps[j])
    ensures Bag(os, f) == Bag(ps, f)
  {
    if os != [] {
      BagSame(os[..|os| - 1], ps[..|ps| - 1], f);
    }
  }

  /** 1 from the increment of the active counter to its decrement. */
  ghost function Busy(o: Office): nat {
    if o.pc.Active? || o.pc.Popped? || o.pc.Working? || o.pc.Acked? || o.pc.Replied? then 1 else 0
  }

  /** The request an office has taken off the queue and not yet answered. */
  ghost function InHand(o: Office): multiset<Request> {
    if o.pc.Popped? || o.pc.Working? || o.pc.Acked? then multiset{o.pc.req} else multiset{}
  }

  /** The processed request an office has not yet answered, with the reply it will write. */
  ghost function ReadyToSend(o: Office): multiset<(Request, Reply)> {
    if o.pc.Acked? then multiset{(o.pc.req, o.reply)} else multiset{}
  }

  // ---- Projections of the history

  ghost function Requests(answers: seq<Answered>): multiset<Request> {
    if answers == [] then multiset{}
    else Requests(answers[..|answers| - 1]) + multiset{answers[|answers| - 1].req}
  }

  ghost function Sends(answers: seq<Answered>): multiset<(Request, Reply)> {
    if answers == [] then multiset{}
    else var a := answers[|answers| - 1]; Sends(answers[..|answers| - 1]) + multiset{(a.req, a.reply)}
  }

  ghost function Made(log: seq<Event>, replies: seq<Reply>): multiset<(Request, Reply)>
    requires |log| == |replies|
  {
    if log == [] then multiset{}
    else var n := |log| - 1; Made(log[..n], replies[..n]) + multiset{(log[n].req, replies[n])}
  }

  lemma {:induction false} AppendAnswer(answers: seq<Answered>, a: Answered)
    ensures Requests(answers + [a]) == Requests(answers) + multiset{a.req}
    ensures Sends(answers + [a]) == Sends(answers) + multiset{(a.req, a.reply)}
  {
    assert (answers + [a])[..|answers|] == answers;
  }

  lemma {:induction false} AppendMade(log: seq<Event>, replies: seq<Reply>, e: Event, r: Reply)
    requires |log| == |replies|
    ensures Made(log + [e], replies + [r]) == Made(log, replies) + multiset{(e.req, r)}
  {
    assert (log + [e])[..|log|] == log && (replies + [r])[..|log|] == replies;
  }

  // ---- The mutex

  /** The region in which an office uses the queue. */
  ghost predicate Inside(pc: Pc) {
    pc.Testing? || pc.ToWait? || pc.Woken? || pc.Fetching? || pc.Copied? || pc.Active? || pc.Popped?
  }

  ghost predicate MainInside(m: MainPc) {
    m.Locked? || m.Pushed? || m.Signalled?
  }

  ghost predicate PastFlag(m: MainPc) {
    m.Flagged? || m.Counted? || m.Woke? || m.Joining? || m.Joined?
  }

  /** An office at the head of its loop may still hold the mutex, coming back from a wait
      that found the queue empty. */
  ghost predicate MayHold(c: Config, pc: Pc) {
    Inside(pc) || pc.Check? || pc.WantLock? || (!c.guarded && pc.Closed?)
  }

  ghost predicate Locks(c: Config, s: State) {
    && |s.offices| == c.n
    && (s.shutdown <==> PastFlag(s.main))
    && (s.owner == MainThread <==> MainInside(s.main))
    && (forall i :: 0 <= i < c.n && Inside(s.offices[i].pc) ==> s.owner == Held(i) || (s.shutdown && !c.guarded))
    && (s.owner.Held? ==> s.owner.office < c.n && MayHold(c, s.offices[s.owner.office].pc))
  }

  lemma LocksKeptByMain(c: Config, s: State, input: Request, garbage: Reply, waiter: nat)
    requires Locks(c, s) && MainNext(c, s, input, garbage, waiter).Some?
    ensures Locks(c, MainNext(c, s, input, garbage, waiter).value)
  {
  }

  /** What an office's step leaves alone. */
  ghost predicate Framed(s: State, s': State, i: nat) {
    && |s'.offices| == |s.offices| && i < |s.offices| && s'.offices == s.offices[i := s'.offices[i]]
    && s'.main == s.main && s'.shutdown == s.shutdown
    && s'.taken == s.taken && s'.pushed == s.pushed && s'.byMain == s.byMain
  }

  lemma ArrivingFrame(c: Config, s: State, i: nat, salt: string)
    requires i < |s.offices| && Arriving(s.offices[i].pc) && Arrive(c, s, i).Some?
    ensures Framed(s, Arrive(c, s, i).value, i)
  {
  }

  lemma ServingFrame(c: Config, s: State, i: nat, salt: string)
    requires i < |s.offices| && !Arriving(s.offices[i].pc) && Attend(c, s, i, salt).Some?
    ensures Framed(s, Attend(c, s, i, salt).value, i)
  {
  }

  lemma OfficeFrame(c: Config, s: State, i: nat, salt: string)
    requires i < |s.offices| && OfficeNext(c, s, i, salt).Some?
    ensures Framed(s, OfficeNext(c, s, i, salt).value, i)
  {
    if Arriving(s.offices[i].pc) {
      ArrivingFrame(c, s, i, salt);
    } else {
      ServingFrame(c, s, i, salt);
    }
  }

  lemma LocksKeptByArriving(c: Config, s: State, i: nat, salt: string)
    requires Locks(c, s) && i < c.n && Arriving(s.offices[i].pc) && Arrive(c, s, i).Some?
    ensures Locks(c, Arrive(c, s, i).value)
  {
    OfficeFrame(c, s, i, salt);
  }

  lemma LocksKeptByServing(c: Config, s: State, i: nat, salt: string)
    requires Locks(c, s) && i < c.n && !Arriving(s.offices[i].pc) && Attend(c, s, i, salt).Some?
    ensures Locks(c, Attend(c, s, i, salt).value)
  {
    OfficeFrame(c, s, i, salt);
  }

  lemma LocksKept(c: Config, s: State, step: Step)
    requires Locks(c, s) && Next(c, s, step).Some?
    ensures Locks(c, Next(c, s, step).value)
  {
    match step
    case MainStep(input, garbage, waiter) => LocksKeptByMain(c, s, input, garbage, waiter);
    case OfficeStep(i, salt) => 
      if Arriving(s.offices[i].pc) {
        LocksKeptByArriving(c, s, i, salt);
      } else {
        LocksKeptByServing(c, s, i, salt);
      }
    case Spurious(i) =>
  }

  /** Either the documented rule holds in the drain, or there is nobody to share with. */
  ghost predicate Orderly(c: Config) {
    c.guarded || c.n <= 1
  }

  /** Up to the shutdown the code itself lets one thread at a time use the queue. */
  ghost predicate OneAtATime(c: Config, s: State) {
    Orderly(c) || !s.shutdown
  }

  /** At most one of main pushing and an office using the queue is inside at a time. */
  ghost predicate Exclusive(s: State) {
    && (forall i, j ::
          0 <= i < |s.offices| && 0 <= j < |s.offices| && Inside(s.offices[i].pc) && Inside(s.offices[j].pc) ==> i == j)
    && (MainInside(s.main) ==> forall i :: 0 <= i < |s.offices| ==> !Inside(s.offices[i].pc))
  }

  lemma LocksExclude(c: Config, s: State)
    requires Locks(c, s) && OneAtATime(c, s)
    ensures Exclusive(s)
  {
  }

  // ---- The queue

  /** The copied head is still the head; an office that found a request still sees one. */
  ghost predicate HeadKept(s: State, pc: Pc) {
    && (pc.Fetching? ==> s.queue != [])
    && (pc.Copied? || pc.Active? ==> s.queue != [] && s.queue[0] == pc.req)
  }

  ghost predicate Heads(s: State) {
    forall i :: 0 <= i < |s.offices| ==> HeadKept(s, s.offices[i].pc)
  }

  lemma HeadsKeptByMain(c: Config, s: State, input: Request, garbage: Reply, waiter: nat)
    requires Locks(c, s) && Heads(s) && MainNext(c, s, input, garbage, waiter).Some?
    ensures Heads(MainNext(c, s, input, garbage, waiter).value)
  {
  }

  lemma HeadsKeptByArriving(c: Config, s: State, i: nat, salt: string)
    requires Heads(s) && i < |s.offices| && Arriving(s.offices[i].pc) && Arrive(c, s, i).Some?
    ensures Heads(Arrive(c, s, i).value)
  {
    OfficeFrame(c, s, i, salt);
  }

  lemma HeadsKeptByServing(c: Config, s: State, i: nat, salt: string)
    requires Exclusive(s) && Heads(s) && i < |s.offices| && !Arriving(s.offices[i].pc) && Attend(c, s, i, salt).Some?
    ensures Heads(Attend(c, s, i, salt).value)
  {
    OfficeFrame(c, s, i, salt);
    assert HeadKept(s, s.offices[i].pc);
  }

  lemma HeadsKept(c: Config, s: State, step: Step)
    requires Locks(c, s) && OneAtATime(c, s) && Heads(s) && Next(c, s, step).Some?
    ensures Heads(Next(c, s, step).value)
  {
    LocksExclude(c, s);
    match step
    case MainStep(input, garbage, waiter) => HeadsKeptByMain(c, s, input, garbage, waiter);
    case OfficeStep(i, salt) =>
      if Arriving(s.offices[i].pc) {
        HeadsKeptByArriving(c, s, i, salt);
      } else {
        HeadsKeptByServing(c, s, i, salt);
      }
    case Spurious(i) =>
  }

  /** An office closes only after the flag and on an empty queue, which stays empty. */
  ghost predicate ClosedEmpty(s: State) {
    forall i :: 0 <= i < |s.offices| && s.offices[i].pc.Closed? ==> s.shutdown && s.queue == []
  }

  lemma ClosedEmptyKept(c: Config, s: State, step: Step)
    requires Locks(c, s) && ClosedEmpty(s) && Next(c, s, step).Some?
    ensures ClosedEmpty(Next(c, s, step).value)
  {
    match step
    case MainStep(input, garbage, waiter) => ClosedEmptyKeptByMain(c, s, input, garbage, waiter);
    case OfficeStep(i, salt) =>
      OfficeFrame(c, s, i, salt);
      QueueShrinks(c, s, i, salt);
    case Spurious(i) =>
  }

  lemma ClosedEmptyKeptByMain(c: Config, s: State, input: Request, garbage: Reply, waiter: nat)
    requires Locks(c, s) && ClosedEmpty(s) && MainNext(c, s, input, garbage, waiter).Some?
    ensures ClosedEmpty(MainNext(c, s, input, garbage, waiter).value)
  {
    MainFrame(c, s, input, garbage, waiter);
  }

  lemma QueueShrinks(c: Config, s: State, i: nat, salt: string)
    requires i < |s.offices| && OfficeNext(c, s, i, salt).Some?
    ensures var s' := OfficeNext(c, s, i, salt).value;
      && |s'.offices| == |s.offices| && |s'.queue| <= |s.queue|
      && (s'.offices[i].pc.Closed? ==> s'.shutdown && s'.queue == [])
  {
    if !Arriving(s.offices[i].pc) {
      QueueShrinksByServing(c, s, i, salt);
    }
  }

  lemma QueueShrinksByServing(c: Config, s: State, i: nat, salt: string)
    requires i < |s.offices| && !Arriving(s.offices[i].pc) && Attend(c, s, i, salt).Some?
    ensures var s' := Attend(c, s, i, salt).value;
      |s'.offices| == |s.offices| && |s'.queue| <= |s.queue| && !s'.offices[i].pc.Closed?
  {
  }

  ghost predicate Fifo(s: State) {
    s.popped + s.queue == s.pushed
  }

  lemma FifoKept(c: Config, s: State, step: Step)
    requires Fifo(s) && Next(c, s, step).Some?
    ensures Fifo(Next(c, s, step).value)
  {
    var s' := Next(c, s, step).value;
    if step.MainStep? && s.main.Locked? {
      assert s.popped + (s.queue + [s.main.req]) == (s.popped + s.queue) + [s.main.req];
    } else if step.OfficeStep? && s.offices[step.i].pc.Active? {
      assert s.popped + s.queue == (s.popped + [s.queue[0]]) + s.queue[1..];
    }
  }

  // ---- Counting

  ghost predicate Counts(s: State) {
    s.active == Sum(s.offices, Busy)
  }

  /** Every popped request is in exactly one office's hand or answered exactly once. */
  ghost predicate ExactlyOnce(s: State) {
    multiset(s.popped) == Bag(s.offices, InHand) + Requests(s.byOffices)
  }

  /** Every reply made is ready in one office or sent, unchanged. */
  ghost predicate SentAsMade(s: State) {
    |s.log| == |s.replies| && Made(s.log, s.replies) == Bag(s.offices, ReadyToSend) + Sends(s.byOffices)
  }

  /** Two offices that weigh the same in every tally. */
  ghost predicate SameTally(o: Office, o': Office) {
    Busy(o) == Busy(o') && InHand(o) == InHand(o') && ReadyToSend(o) == ReadyToSend(o')
  }

  ghost predicate SameHistory(s: State, s': State) {
    && s'.active == s.active && s'.popped == s.popped && s'.byOffices == s.byOffices
    && s'.log == s.log && s'.replies == s.replies
  }

  lemma TalliesKeptIdle(s: State, s': State)
    requires SameHistory(s, s') && |s'.offices| == |s.offices|
    requires forall j :: 0 <= j < |s.offices| ==> SameTally(s.offices[j], s'.offices[j])
    ensures Counts(s) ==> Counts(s')
    ensures ExactlyOnce(s) ==> ExactlyOnce(s')
    ensures SentAsMade(s) ==> SentAsMade(s')
  {
    SumSame(s.offices, s'.offices, Busy);
    BagSame(s.offices, s'.offices, InHand);
    BagSame(s.offices, s'.offices, ReadyToSend);
  }

  /** Main moves an office only by waking it. */
  lemma MainFrame(c: Config, s: State, input: Request, garbage: Reply, waiter: nat)
    requires MainNext(c, s, input, garbage, waiter).Some?
    ensures var s' := MainNext(c, s, input, garbage, waiter).value;
      && SameHistory(s, s') && s'.table == s.table && |s'.offices| == |s.offices|
      && forall j :: 0 <= j < |s.offices| ==> s'.offices[j] == s.offices[j] || s'.offices[j] == Wake(s.offices[j])
  {
  }

  lemma IdleByArriving(c: Config, s: State, i: nat, salt: string)
    requires i < |s.offices| && Arriving(s.offices[i].pc) && Arrive(c, s, i).Some?
    ensures var s' := Arrive(c, s, i).value;
      SameHistory(s, s') && s'.table == s.table && SameTally(s.offices[i], s'.offices[i])
  {
  }

  lemma CountsKeptByServing(c: Config, s: State, i: nat, salt: string)
    requires Counts(s) && i < |s.offices| && !Arriving(s.offices[i].pc) && Attend(c, s, i, salt).Some?
    ensures Counts(Attend(c, s, i, salt).value)
  {
    var s' := Attend(c, s, i, salt).value;
    OfficeFrame(c, s, i, salt);
    SumUpdate(s.offices, Busy, i, s'.offices[i]);
    assert s'.active + Busy(s.offices[i]) == s.active + Busy(s'.offices[i]);
  }

  /** What an office's step does to the requests in its hand and to the answered ones. */
  ghost predicate HandsMoved(s: State, s': State, i: nat)
    requires i < |s.offices| == |s'.offices|
  {
    var o := s.offices[i];
    && (if o.pc.Active? then s'.popped == s.popped + [o.pc.req] else s'.popped == s.popped)
    && (if o.pc.Acked? then s'.byOffices == s.byOffices + [Answered(o.pc.req, o.pc.req.header.pid, o.reply)]
        else s'.byOffices == s.byOffices)
    && (match o.pc
        case Active(req) => s'.offices[i].pc == Popped(req)
        case Popped(req) => s'.offices[i].pc == Working(req)
        case Working(req) => s'.offices[i].pc == Acked(req)
        case _ => InHand(s'.offices[i]) == multiset{})
  }

  lemma HandsMove(c: Config, s: State, i: nat, salt: string)
    requires i < |s.offices| && !Arriving(s.offices[i].pc) && Attend(c, s, i, salt).Some?
    requires s.offices[i].pc.Active? ==> HeadKept(s, s.offices[i].pc)
    ensures |Attend(c, s, i, salt).value.offices| == |s.offices| && HandsMoved(s, Attend(c, s, i, salt).value, i)
  {
  }

  lemma HandsBalance(s: State, s': State, i: nat)
    requires i < |s.offices| == |s'.offices| && HandsMoved(s, s', i)
    ensures multiset(s'.popped) + Requests(s.byOffices) + InHand(s.offices[i])
         == multiset(s.popped) + Requests(s'.byOffices) + InHand(s'.offices[i])
  {
    var o := s.offices[i];
    if o.pc.Active? {
      assert multiset(s'.popped) == multiset(s.popped) + multiset{o.pc.req};
    } else if o.pc.Acked? {
      AppendAnswer(s.byOffices, Answered(o.pc.req, o.pc.req.header.pid, o.reply));
    }
  }

  lemma ExactlyOnceKeptByServing(c: Config, s: State, i: nat, salt: string)
    requires i < |s.offices| && !Arriving(s.offices[i].pc) && Attend(c, s, i, salt).Some?
    requires s.offices[i].pc.Active? ==> HeadKept(s, s.offices[i].pc)
    ensures ExactlyOnce(Attend(c, s, i, salt).value) <==> ExactlyOnce(s)
  {
    var s' := Attend(c, s, i, salt).value;
    OfficeFrame(c, s, i, salt);
    BagUpdate(s.offices, InHand, i, s'.offices[i]);
    HandsMove(c, s, i, salt);
    HandsBalance(s, s', i);
    Balanced(multiset(s.popped), Bag(s.offices, InHand), Requests(s.byOffices), InHand(s.offices[i]),
             multiset(s'.popped), Bag(s'.offices, InHand), Requests(s'.byOffices), InHand(s'.offices[i]));
  }

  lemma Balanced<T>(all: multiset<T>, held: multiset<T>, done: multiset<T>, mine: multiset<T>,
                    all': multiset<T>, held': multiset<T>, done': multiset<T>, mine': multiset<T>)
    requires held' + mine == held + mine'
    requires all' + done + mine == all + done' + mine'
    ensures all' == held' + done' <==> all == held + done
  {
    forall x ensures all'[x] == (held' + done')[x] <==> all[x] == (held + done)[x] {
      assert (held' + mine)[x] == (held + mine')[x];
      assert (all' + done + mine)[x] == (all + done' + mine')[x];
    }
    assert all' == held' + done' <==> forall x :: all'[x] == (held' + done')[x];
    assert all == held + done <==> forall x :: all[x] == (held + done)[x];
  }

  ghost predicate RepliesMoved(s: State, s': State, i: nat, salt: string)
    requires i < |s.offices| == |s'.offices|
  {
    var o := s.offices[i];
    && (if o.pc.Working? then s'.log == s.log + [Event(o.pc.req, salt)]
        && s'.replies == s.replies + [s'.offices[i].reply]
        else s'.log == s.log && s'.replies == s.replies)
    && (if o.pc.Acked? then s'.byOffices == s.byOffices + [Answered(o.pc.req, o.pc.req.header.pid, o.reply)]
        else s'.byOffices == s.byOffices)
    && (if o.pc.Working? then s'.offices[i].pc == Acked(o.pc.req) else !s'.offices[i].pc.Acked?)
  }

  lemma RepliesMove(c: Config, s: State, i: nat, salt: string)
    requires i < |s.offices| && !Arriving(s.offices[i].pc) && Attend(c, s, i, salt).Some?
    ensures |Attend(c, s, i, salt).value.offices| == |s.offices|
            && RepliesMoved(s, Attend(c, s, i, salt).value, i, salt)
  {
  }

  lemma RepliesBalance(s: State, s': State, i: nat, salt: string)
    requires i < |s.offices| == |s'.offices| && |s.log| == |s.replies| && RepliesMoved(s, s', i, salt)
    ensures |s'.log| == |s'.replies|
    ensures Made(s'.log, s'.replies) + Sends(s.byOffices) + ReadyToSend(s.offices[i])
         == Made(s.log, s.replies) + Sends(s'.byOffices) + ReadyToSend(s'.offices[i])
  {
    var o := s.offices[i];
    if o.pc.Working? {
      AppendMade(s.log, s.replies, Event(o.pc.req, salt), s'.offices[i].reply);
    } else if o.pc.Acked? {
      AppendAnswer(s.byOffices, Answered(o.pc.req, o.pc.req.header.pid, o.reply));
    }
  }

  lemma SentAsMadeKeptByServing(c: Config, s: State, i: nat, salt: string)
    requires SentAsMade(s) && i < |s.offices| && !Arriving(s.offices[i].pc) && Attend(c, s, i, salt).Some?
    ensures SentAsMade(Attend(c, s, i, salt).value)
  {
    var s' := Attend(c, s, i, salt).value;
    OfficeFrame(c, s, i, salt);
    BagUpdate(s.offices, ReadyToSend, i, s'.offices[i]);
    RepliesMove(c, s, i, salt);
    RepliesBalance(s, s', i, salt);
    Balanced(Made(s.log, s.replies), Bag(s.offices, ReadyToSend), Sends(s.byOffices), ReadyToSend(s.offices[i]),
             Made(s'.log, s'.replies), Bag(s'.offices, ReadyToSend), Sends(s'.byOffices), ReadyToSend(s'.offices[i]));
  }

  /** Only an office fetching or serving a request moves a tally. */
  ghost predicate Tallying(s: State, step: Step) {
    step.OfficeStep? && step.i < |s.offices| && !Arriving(s.offices[step.i].pc)
  }

  lemma IdleStep(c: Config, s: State, step: Step)
    requires !Tallying(s, step) && Next(c, s, step).Some?
    ensures var s' := Next(c, s, step).value;
      && SameHistory(s, s') && |s'.offices| == |s.offices|
      && forall j :: 0 <= j < |s.offices| ==> SameTally(s.offices[j], s'.offices[j])
  {
    match step
    case MainStep(input, garbage, waiter) => MainFrame(c, s, input, garbage, waiter);
    case OfficeStep(i, salt) =>
      OfficeFrame(c, s, i, salt);
      IdleByArriving(c, s, i, salt);
    case Spurious(i) =>
  }

  lemma CountsKept(c: Config, s: State, step: Step)
    requires Counts(s) && Next(c, s, step).Some?
    ensures Counts(Next(c, s, step).value)
  {
    if Tallying(s, step) {
      CountsKeptByServing(c, s, step.i, step.salt);
    } else {
      IdleStep(c, s, step);
      TalliesKeptIdle(s, Next(c, s, step).value);
    }
  }

  lemma SentAsMadeKept(c: Config, s: State, step: Step)
    requires SentAsMade(s) && Next(c, s, step).Some?
    ensures SentAsMade(Next(c, s, step).value)
  {
    if Tallying(s, step) {
      SentAsMadeKeptByServing(c, s, step.i, step.salt);
    } else {
      IdleStep(c, s, step);
      TalliesKeptIdle(s, Next(c, s, step).value);
    }
  }

  /** The step does not pop another request than the one copied. */
  ghost predicate PopsRight(s: State, step: Step) {
    step.OfficeStep? && step.i < |s.offices| && s.offices[step.i].pc.Active? ==> HeadKept(s, s.offices[step.i].pc)
  }

  lemma ExactlyOnceSame(c: Config, s: State, step: Step)
    requires PopsRight(s, step) && Next(c, s, step).Some?
    ensures ExactlyOnce(Next(c, s, step).value) <==> ExactlyOnce(s)
  {
    if Tallying(s, step) {
      ExactlyOnceKeptByServing(c, s, step.i, step.salt);
    } else {
      IdleStep(c, s, step);
      TalliesKeptIdle(s, Next(c, s, step).value);
      TalliesKeptIdle(Next(c, s, step).value, s);
    }
  }

  // ---- The ledger

  ghost function OpeningTable(c: Config): Table {
    InitialTable(c.hash, c.adminPassword, c.adminSalt)
  }

  ghost function OpeningBooks(c: Config): Books {
    Books(c.hash(c.adminPassword + c.adminSalt), c.adminSalt, map[])
  }

  /** What the reference bank answers to the k-th processed request. */
  ghost function ReferenceAnswer(c: Config, log: seq<Event>, k: nat): Answer
    requires k < |log|
  {
    Serve(c.hash, RunBooks(c.hash, OpeningBooks(c), log[..k]), log[k].req, log[k].salt).1
  }

  ghost predicate InProgress(pc: Pc) {
    pc.Copied? || pc.Active? || pc.Popped? || pc.Working? || pc.Acked?
  }

  /** Requests under way have ids with slots; a reply ready to send is labelled for its request. */
  ghost predicate Labelled(s: State) {
    QueueLabelled(s) && OfficesLabelled(s)
  }

  ghost predicate QueueLabelled(s: State) {
    && (forall k :: 0 <= k < |s.queue| ==> Addressable(s.queue[k]))
    && (s.main.Read? || s.main.Locked? ==> Addressable(s.main.req))
  }

  ghost predicate OfficesLabelled(s: State) {
    && (forall i :: 0 <= i < |s.offices| ==> OfficeLabelled(s.offices[i]))
    && (forall k :: 0 <= k < |s.byOffices| ==> Delivered(s.byOffices[k]))
  }

  ghost predicate OfficeLabelled(o: Office) {
    (InProgress(o.pc) ==> Addressable(o.pc.req)) && (o.pc.Acked? ==> LabelledFor(o.reply, o.pc.req))
  }

  ghost predicate LabelledFor(r: Reply, req: Request) {
    r.op == OpCode(req.args) && r.length == REPLY_VALUE_SIZE && r.accountId == req.header.accountId
  }

  ghost predicate Delivered(a: Answered) {
    a.pid == a.req.header.pid && LabelledFor(a.reply, a.req)
  }

  lemma QueueLabelledByMain(c: Config, s: State, input: Request, garbage: Reply, waiter: nat)
    requires QueueLabelled(s) && MainNext(c, s, input, garbage, waiter).Some?
    ensures QueueLabelled(MainNext(c, s, input, garbage, waiter).value)
  {
  }

  lemma LabelledKeptByMain(c: Config, s: State, input: Request, garbage: Reply, waiter: nat)
    requires Labelled(s) && MainNext(c, s, input, garbage, waiter).Some?
    ensures Labelled(MainNext(c, s, input, garbage, waiter).value)
  {
    QueueLabelledByMain(c, s, input, garbage, waiter);
    MainFrame(c, s, input, garbage, waiter);
  }

  lemma LabelledKeptByArriving(c: Config, s: State, i: nat)
    requires Labelled(s) && i < |s.offices| && Arriving(s.offices[i].pc) && Arrive(c, s, i).Some?
    ensures Labelled(Arrive(c, s, i).value)
  {
  }

  lemma LabelledKeptByServing(c: Config, s: State, i: nat, salt: string)
    requires Labelled(s) && i < |s.offices| && !Arriving(s.offices[i].pc) && Attend(c, s, i, salt).Some?
    ensures Labelled(Attend(c, s, i, salt).value)
  {
    OfficeFrame(c, s, i, salt);
  }

  lemma LabelledKept(c: Config, s: State, step: Step)
    requires Labelled(s) && Next(c, s, step).Some?
    ensures Labelled(Next(c, s, step).value)
  {
    match step
    case MainStep(input, garbage, waiter) => LabelledKeptByMain(c, s, input, garbage, waiter);
    case OfficeStep(i, salt) =>
      if Arriving(s.offices[i].pc) {
        LabelledKeptByArriving(c, s, i);
      } else {
        LabelledKeptByServing(c, s, i, salt);
      }
    case Spurious(i) =>
  }

  /** The table is the run of the processed requests, and every reply made carries the
      reference bank's answer at that point of the run. */
  ghost predicate LedgerAgrees(c: Config, s: State) {
    && AllAddressable(s.log) && |s.log| == |s.replies|
    && s.table == Run(c.hash, OpeningTable(c), s.log)
    && forall k :: 0 <= k < |s.log| ==> Carries(s.replies[k], s.log[k].req, ReferenceAnswer(c, s.log, k))
  }

  /** A step either leaves the ledger alone or processes one addressable request. */
  ghost predicate LedgerMoved(c: Config, s: State, s': State, e: Event, stale: Reply) {
    || (s'.table == s.table && s'.log == s.log && s'.replies == s.replies)
    || (&& Addressable(e.req)
        && s'.table == Effect(c.hash, s.table, e.req, e.salt) && s'.log == s.log + [e]
        && s'.replies == s.replies + [Acknowledge(c.hash, s.table, e.req, stale)])
  }

  lemma LedgerMove(c: Config, s: State, i: nat, salt: string)
    requires i < |s.offices| && !Arriving(s.offices[i].pc) && Attend(c, s, i, salt).Some?
    ensures var o := s.offices[i];
            LedgerMoved(c, s, Attend(c, s, i, salt).value,
                Event(if o.pc.Working? then o.pc.req else Request(Header(0, 0, "", 0), CheckBalance), salt), o.reply)
  {
  }

  lemma LedgerKeptIfMoved(c: Config, s: State, s': State, e: Event, stale: Reply)
    requires LedgerAgrees(c, s) && LedgerMoved(c, s, s', e, stale)
    ensures LedgerAgrees(c, s')
  {
    if s'.log != s.log {
      var n := |s.log|;
      assert s'.log[..n] == s.log;
      InitialOk(c.hash, c.adminPassword, c.adminSalt);
      RunRefined(c.hash, OpeningTable(c), s.log);
      RequestRefined(c.hash, s.table, e.req, e.salt, stale);
      assert s'.log[n] == e;
      forall k | 0 <= k < |s'.log| ensures Carries(s'.replies[k], s'.log[k].req, ReferenceAnswer(c, s'.log, k)) {
        if k < n {
          assert s'.log[..k] == s.log[..k];
        }
      }
    }
  }

  lemma LedgerKept(c: Config, s: State, step: Step)
    requires LedgerAgrees(c, s) && Next(c, s, step).Some?
    ensures LedgerAgrees(c, Next(c, s, step).value)
  {
    var s' := Next(c, s, step).value;
    var e, stale := Event(Request(Header(0, 0, "", 0), CheckBalance), ""), Reply(0, 0, 0, 0, 0);
    match step
    case MainStep(input, garbage, waiter) =>
      MainFrame(c, s, input, garbage, waiter);
      LedgerKeptIfMoved(c, s, s', e, stale);
    case OfficeStep(i, salt) =>
      var o := s.offices[i];
      if Arriving(o.pc) {
        IdleByArriving(c, s, i, salt);
        LedgerKeptIfMoved(c, s, s', e, stale);
      } else {
        LedgerMove(c, s, i, salt);
        LedgerKeptIfMoved(c, s, s', Event(if o.pc.Working? then o.pc.req else e.req, salt), o.reply);
      }
    case Spurious(i) => LedgerKeptIfMoved(c, s, s', e, stale);
  }
}
