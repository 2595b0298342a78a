/** The server as a concurrent state machine: the main thread, any number of office threads,
    the mutex on the request queue, the condition variable and the account table. One step
    is one action of one thread; any thread may take the next one.

    `Config.guarded` chooses how offices use the queue once `shutdown` is set. The documented
    rule is that one thread at a time has access; with it an office at the head of its loop
    takes the mutex, and gives it back when it closes. Without it the offices run the code as
    written: they unlock the mutex and go on to the queue. Before the shutdown both are the code. */
module Offices {
  import opened Messages
  import opened Ledger
  import opened LedgerRuns

  datatype Config = Config(n: nat, guarded: bool, hash: Hash, adminPassword: string, adminSalt: string)

  /** Where the main thread is; `buf` is its reply structure. */
  datatype MainPc =
    | Reading
    | Read(req: Request)
    | Locked(req: Request)
    | Pushed
    | Signalled
    | Accepting(req: Request, buf: Reply)
    | Flagged(req: Request, buf: Reply)
    | Counted(req: Request, buf: Reply)
    | Woke(req: Request, buf: Reply)
    | Joining
    | Joined

  /** Where an office is in its loop. */
  datatype Pc =
    | Check                  // about to test the shutdown flag
    | WantLock               // in the lock call
    | Testing                // about to test for an empty queue
    | ToWait                 // found nothing to do and no shutdown, about to wait
    | Waiting                // in the wait set, mutex released
    | WantBack               // signalled, taking the mutex again
    | Woken                  // back from the wait
    | Fetching               // found a request
    | Copied(req: Request)   // copied the head
    | Active(req: Request)   // counted itself active
    | Popped(req: Request)   // dequeued
    | Working(req: Request)  // released the mutex
    | Acked(req: Request)    // processed; the reply is in the office's structure
    | Replied                // wrote the reply
    | Closed

  datatype Office = Office(pc: Pc, reply: Reply)
  datatype Holder = Nobody | MainThread | Held(office: nat)

  /** The fields from `taken` on record the history: what main read, pushed and answered
      itself, what offices popped, processed (with the reply made) and answered. */
  datatype State = State(
    main: MainPc, offices: seq<Office>, owner: Holder, shutdown: bool, active: int,
    queue: seq<Request>, table: Table,
    taken: seq<Request>, pushed: seq<Request>, byMain: seq<Answered>,
    popped: seq<Request>, log: seq<Event>, replies: seq<Reply>, byOffices: seq<Answered>)

  ghost predicate Init(c: Config, s: State) {
    && ValidAdminPassword(c.adminPassword)
    && s.main == Reading && |s.offices| == c.n && (forall i :: 0 <= i < c.n ==> s.offices[i].pc == Check)
    && s.owner == Nobody && !s.shutdown && s.active == 0 && s.queue == []
    && s.table == InitialTable(c.hash, c.adminPassword, c.adminSalt)
    && s.taken == s.pushed == s.popped == [] && s.byMain == s.byOffices == [] && s.log == [] && s.replies == []
  }

  /** A step names the thread that moves and what it draws from outside: the request main
      reads, the old contents of its reply structure, the waiter a signal wakes, a salt. */
  datatype Step =
    | MainStep(input: Request, garbage: Reply, waiter: nat)
    | OfficeStep(i: nat, salt: string)
    | Spurious(i: nat)

  function At(s: State, i: nat, pc: Pc): (r: State)
    requires i < |s.offices|
  {
    s.(offices := s.offices[i := s.offices[i].(pc := pc)])
  }

  function Wake(o: Office): Office {
    if o.pc == Waiting then o.(pc := WantBack) else o
  }

  function WakeAll(os: seq<Office>): (r: seq<Office>)
    ensures |r| == |os| && forall j :: 0 <= j < |os| ==> r[j] == Wake(os[j])
  {
    if os == [] then [] else WakeAll(os[..|os| - 1]) + [Wake(os[|os| - 1])]
  }

  predicate NoWaiter(os: seq<Office>) {
    forall j :: 0 <= j < |os| ==> os[j].pc != Waiting
  }

  predicate AllClosed(os: seq<Office>) {
    forall j :: 0 <= j < |os| ==> os[j].pc == Closed
  }

  function MainNext(c: Config, s: State, input: Request, garbage: Reply, waiter: nat): Option<State> {
    match s.main
    case Reading =>
      if Addressable(input) then Some(s.(main := Read(input), taken := s.taken + [input])) else None
    case Read(req) =>
      if !req.args.Shutdown? then
        if s.owner == Nobody then Some(s.(main := Locked(req), owner := MainThread)) else None
      else
        var buf := garbage.(ret := ValidateAdmin(c.hash, s.table, req.header));
        if buf.ret == RC_OK then Some(s.(main := Accepting(req, buf)))
        else Some(s.(main := Reading, byMain := s.byMain + [MainAnswer(req, buf)]))
    case Locked(req) => Some(s.(main := Pushed, queue := s.queue + [req], pushed := s.pushed + [req]))
    case Pushed =>
      if waiter < |s.offices| && s.offices[waiter].pc == Waiting then Some(At(s, waiter, WantBack).(main := Signalled))
      else if NoWaiter(s.offices) then Some(s.(main := Signalled))
      else None
    case Signalled => Some(s.(main := Reading, owner := Nobody))
    case Accepting(req, buf) => Some(s.(main := Flagged(req, buf), shutdown := true))
    case Flagged(req, buf) => Some(s.(main := Counted(req, buf.(payload := Wrap(s.active)))))
    case Counted(req, buf) => Some(s.(main := Woke(req, buf), offices := WakeAll(s.offices)))
    case Woke(req, buf) => Some(s.(main := Joining, byMain := s.byMain + [MainAnswer(req, buf)]))
    case Joining => if AllClosed(s.offices) then Some(s.(main := Joined)) else None
    case Joined => None
  }

  function MainAnswer(req: Request, buf: Reply): Answered {
    Answered(req, req.header.pid, buf.(op := OpCode(req.args), length := REPLY_VALUE_SIZE))
  }

  /** The part of the loop that takes the mutex and may wait. */
  predicate Arriving(pc: Pc) {
    pc.Check? || pc.WantLock? || pc.Testing? || pc.ToWait? || pc.Waiting? || pc.WantBack?
  }

  function Arrive(c: Config, s: State, i: nat): Option<State>
    requires i < |s.offices| && Arriving(s.offices[i].pc)
  {
    match s.offices[i].pc
    case Check =>
      if !s.shutdown then Some(At(s, i, WantLock))
      else if c.guarded then Some(At(s, i, WantLock).(owner := if s.owner == Held(i) then Nobody else s.owner))
      else Some(At(s, i, Testing).(owner := Nobody))
    case WantLock => if s.owner == Nobody then Some(At(s, i, Testing).(owner := Held(i))) else None
    case Testing =>
      if s.queue != [] then Some(At(s, i, Fetching))
      else if !s.shutdown then Some(At(s, i, ToWait))
      else if c.guarded then Some(At(s, i, Closed).(owner := Nobody))
      else Some(At(s, i, Closed))
    case ToWait => Some(At(s, i, Waiting).(owner := Nobody))
    case Waiting => None
    case WantBack => if s.owner == Nobody then Some(At(s, i, Woken).(owner := Held(i))) else None
  }

  /** The part that fetches a request, handles it and answers it. */
  function Attend(c: Config, s: State, i: nat, salt: string): Option<State>
    requires i < |s.offices| && !Arriving(s.offices[i].pc)
  {
    match s.offices[i].pc
    case Woken => if s.queue != [] then Some(At(s, i, Copied(s.queue[0]))) else Some(At(s, i, Check))
    case Fetching => if s.queue != [] then Some(At(s, i, Copied(s.queue[0]))) else Some(At(s, i, Check))
    case Copied(req) => Some(At(s, i, Active(req)).(active := s.active + 1))
    case Active(req) =>
      if s.queue == [] then None
      else Some(At(s, i, Popped(req)).(popped := s.popped + [s.queue[0]], queue := s.queue[1..]))
    case Popped(req) => Some(At(s, i, Working(req)).(owner := Nobody))
    case Working(req) =>
      if !Addressable(req) then None
      else
        var reply := Acknowledge(c.hash, s.table, req, s.offices[i].reply);
        Some(s.(offices := s.offices[i := Office(Acked(req), reply)], table := Effect(c.hash, s.table, req, salt),
                log := s.log + [Event(req, salt)], replies := s.replies + [reply]))
    case Acked(req) =>
      Some(At(s, i, Replied).(byOffices := s.byOffices + [Answered(req, req.header.pid, s.offices[i].reply)]))
    case Replied => Some(At(s, i, Check).(active := s.active - 1))
    case Closed => None
  }

  function OfficeNext(c: Config, s: State, i: nat, salt: string): Option<State>
    requires i < |s.offices|
  {
    if Arriving(s.offices[i].pc) then Arrive(c, s, i) else Attend(c, s, i, salt)
  }

  /** The state after a step, if the step is possible. */
  function Next(c: Config, s: State, step: Step): Option<State> {
    match step
    case MainStep(input, garbage, waiter) => MainNext(c, s, input, garbage, waiter)
    case OfficeStep(i, salt) => if i < |s.offices| then OfficeNext(c, s, i, salt) else None
    case Spurious(i) => if i < |s.offices| && s.offices[i].pc == Waiting then Some(At(s, i, WantBack)) else None
  }

  /** The state after a run of steps, if they are possible in this order. */
  function After(c: Config, s: State, steps: seq<Step>): Option<State> {
    if steps == [] then Some(s)
    else match After(c, s, steps[..|steps| - 1])
      case None => None
      case Some(before) => Next(c, before, steps[|steps| - 1])
  }

  ghost predicate Reaches(c: Config, s: State, steps: seq<Step>, t: State) {
    After(c, s, steps) == Some(t)
  }

  ghost predicate Reachable(c: Config, t: State) {
    exists s: State, steps: seq<Step> :: Init(c, s) && Reaches(c, s, steps, t)
  }

  lemma {:induction false} AfterConcat(c: Config, s: State, first: seq<Step>, mid: State, then_: seq<Step>)
    requires Reaches(c, s, first, mid)
    ensures After(c, s, first + then_) == After(c, mid, then_)
  {
    var all := first + then_;
    if then_ == [] {
      assert all == first;
    } else {
      assert all[..|all| - 1] == first + then_[..|then_| - 1];
      AfterConcat(c, s, first, mid, then_[..|then_| - 1]);
    }
  }
}
