/** The server with one office, from its start to its end: what it does on the linked queue and
    the account array is a run of the concurrent machine, in which the office first moves after
    the shutdown. So all that is proved of the machine's reachable states holds of it. */
module OneOffice {
  import opened Messages
  import opened Ledger
  import opened HomeBank
  import opened Serving
  import opened Offices
  import opened OfficesSafety
  import opened OfficesAsWritten

  // ---- Main's loop

  /** Main has taken `k` inputs, and the office has not moved. */
  ghost function Shelved(c: Config, inputs: seq<Request>, k: nat, answers: seq<Answered>, stale: Reply): State
    requires k <= |inputs|
  {
    State(Reading, [Office(Check, stale)], Nobody, false, 0, Select(inputs, k, false), OpeningTable(c),
          inputs[..k], Select(inputs, k, false), answers, [], [], [], [])
  }

  lemma MainRefuses(c: Config, s: State, a: Answered) returns (t: State)
    requires Reachable(c, s) && s.main == Reading && a.req.args.Shutdown?
    requires ShutdownAnswered(c.hash, s.table, a, a.req) && a.reply.ret != RC_OK
    ensures Reachable(c, t) && t == s.(taken := s.taken + [a.req], byMain := s.byMain + [a])
  {
    var step := MainStep(a.req, a.reply, 0);
    var s1 := s.(main := Read(a.req), taken := s.taken + [a.req]);
    Extend(c, s, step, s1);
    t := s1.(main := Reading, byMain := s.byMain + [a]);
    Extend(c, s1, step, t);
  }

  /** Some run brings main to where it has taken `k` inputs and given `answers`. */
  ghost predicate GetsTo(c: Config, inputs: seq<Request>, k: nat, answers: seq<Answered>, stale: Reply) {
    k <= |inputs| && Reachable(c, Shelved(c, inputs, k, answers, stale))
  }

  lemma TakesShutdown(c: Config, inputs: seq<Request>, k: nat, before: seq<Answered>, answers: seq<Answered>,
      stale: Reply)
    requires k < |inputs| && inputs[k].args.Shutdown? && GetsTo(c, inputs, k, before, stale)
    requires |answers| == |before| + 1 && answers[..|before|] == before
    requires ShutdownAnswered(c.hash, OpeningTable(c), answers[|before|], inputs[k])
             && answers[|before|].reply.ret != RC_OK
    ensures GetsTo(c, inputs, k + 1, answers, stale)
  {
    SelectNext(inputs, k + 1);
    assert inputs[..k + 1] == inputs[..k] + [inputs[k]];
    assert answers == before + [answers[|before|]];
    var t := MainRefuses(c, Shelved(c, inputs, k, before, stale), answers[|before|]);
  }

  lemma TakesOrdinary(c: Config, inputs: seq<Request>, k: nat, answers: seq<Answered>, stale: Reply)
    requires k < |inputs| && !inputs[k].args.Shutdown? && Addressable(inputs[k]) && GetsTo(c, inputs, k, answers, stale)
    ensures GetsTo(c, inputs, k + 1, answers, stale)
  {
    SelectNext(inputs, k + 1);
    assert inputs[..k + 1] == inputs[..k] + [inputs[k]];
    var t := MainPushes(c, Shelved(c, inputs, k, answers, stale), inputs[k]);
  }

  lemma ShelvedAtFirst(c: Config, inputs: seq<Request>, stale: Reply)
    requires c.n == 1 && ValidAdminPassword(c.adminPassword)
    ensures GetsTo(c, inputs, 0, [], stale)
  {
    var s := Shelved(c, inputs, 0, [], stale);
    assert Init(c, s) && Reaches(c, s, [], s);
  }

  /** The last of the answers is to the last input, when that is a shutdown. */
  lemma LastAnswer(c: Config, inputs: seq<Request>, k: nat, answers: seq<Answered>)
    requires 0 < k <= |inputs| && inputs[k - 1].args.Shutdown?
    requires AllAnswered(c.hash, OpeningTable(c), answers, Select(inputs, k, true))
    ensures answers != [] && ShutdownAnswered(c.hash, OpeningTable(c), answers[|answers| - 1], inputs[k - 1])
    ensures AllAnswered(c.hash, OpeningTable(c), answers[..|answers| - 1], Select(inputs, k - 1, true))
  {
    SelectNext(inputs, k);
  }

  lemma NoAnswer(c: Config, inputs: seq<Request>, k: nat, answers: seq<Answered>)
    requires 0 < k <= |inputs| && !inputs[k - 1].args.Shutdown?
    requires AllAnswered(c.hash, OpeningTable(c), answers, Select(inputs, k, true))
    ensures AllAnswered(c.hash, OpeningTable(c), answers, Select(inputs, k - 1, true))
  {
    SelectNext(inputs, k);
  }

  lemma {:induction false} TakesOne(c: Config, inputs: seq<Request>, k: nat, answers: seq<Answered>, stale: Reply)
    requires 0 < k <= |inputs| && Addressable(inputs[k - 1]) && !Stops(c.hash, OpeningTable(c), inputs[k - 1])
    requires AllAnswered(c.hash, OpeningTable(c), answers, Select(inputs, k, true))
    requires GetsTo(c, inputs, k - 1, AnswersBefore(inputs, k, answers), stale)
    ensures GetsTo(c, inputs, k, answers, stale)
  {
    var before := AnswersBefore(inputs, k, answers);
    if inputs[k - 1].args.Shutdown? {
      LastAnswer(c, inputs, k, answers);
      TakesShutdown(c, inputs, k - 1, before, answers, stale);
    } else {
      TakesOrdinary(c, inputs, k - 1, before, stale);
    }
  }

  /** Without the answer to the last input, if that has one. */
  ghost function AnswersBefore(inputs: seq<Request>, k: nat, answers: seq<Answered>): seq<Answered>
    requires 0 < k <= |inputs|
  {
    if inputs[k - 1].args.Shutdown? && answers != [] then answers[..|answers| - 1] else answers
  }

  lemma AnsweredBefore(c: Config, inputs: seq<Request>, k: nat, answers: seq<Answered>)
    requires 0 < k <= |inputs| && AllAnswered(c.hash, OpeningTable(c), answers, Select(inputs, k, true))
    ensures AllAnswered(c.hash, OpeningTable(c), AnswersBefore(inputs, k, answers), Select(inputs, k - 1, true))
  {
    if inputs[k - 1].args.Shutdown? {
      LastAnswer(c, inputs, k, answers);
    } else {
      NoAnswer(c, inputs, k, answers);
    }
  }

  /** Main takes any inputs of which none stops the server. */
  lemma {:induction false} Intakes(c: Config, inputs: seq<Request>, k: nat, answers: seq<Answered>, stale: Reply)
    requires c.n == 1 && ValidAdminPassword(c.adminPassword) && k <= |inputs| && AllSlotted(inputs)
    requires NoneStops(c.hash, OpeningTable(c), inputs, k)
    requires AllAnswered(c.hash, OpeningTable(c), answers, Select(inputs, k, true))
    ensures GetsTo(c, inputs, k, answers, stale)
  {
    if k == 0 {
      ShelvedAtFirst(c, inputs, stale);
    } else {
      AnsweredBefore(c, inputs, k, answers);
      Intakes(c, inputs, k - 1, AnswersBefore(inputs, k, answers), stale);
      TakesOne(c, inputs, k, answers, stale);
    }
  }

  /** Main accepts a shutdown and goes to join the offices. */
  lemma MainStops(c: Config, s: State, a: Answered) returns (t: State)
    requires Reachable(c, s) && s.main == Reading && a.req.args.Shutdown? && NoWaiter(s.offices)
    requires ShutdownAnswered(c.hash, s.table, a, a.req) && a.reply.ret == RC_OK && a.reply.payload == Wrap(s.active)
    ensures Reachable(c, t)
    ensures t == s.(main := Joining, shutdown := true, taken := s.taken + [a.req], byMain := s.byMain + [a])
  {
    var s1 := MainAccepts(c, s, a);
    var s2 := MainCounts(c, s1, a);
    t := s2.(main := Joining, byMain := s.byMain + [a]);
    Extend(c, s2, MainStep(a.req, a.reply, 0), t);
  }

  lemma MainAccepts(c: Config, s: State, a: Answered) returns (t: State)
    requires Reachable(c, s) && s.main == Reading && a.req.args.Shutdown?
    requires ShutdownAnswered(c.hash, s.table, a, a.req) && a.reply.ret == RC_OK
    ensures Reachable(c, t) && t == s.(main := Flagged(a.req, a.reply), shutdown := true, taken := s.taken + [a.req])
  {
    var step := MainStep(a.req, a.reply, 0);
    var s1 := s.(main := Read(a.req), taken := s.taken + [a.req]);
    Extend(c, s, step, s1);
    var s2 := s1.(main := Accepting(a.req, a.reply));
    Extend(c, s1, step, s2);
    t := s2.(main := Flagged(a.req, a.reply), shutdown := true);
    Extend(c, s2, step, t);
  }

  lemma MainCounts(c: Config, s: State, a: Answered) returns (t: State)
    requires Reachable(c, s) && s.main == Flagged(a.req, a.reply) && NoWaiter(s.offices)
             && a.reply.payload == Wrap(s.active)
    ensures Reachable(c, t) && t == s.(main := Woke(a.req, a.reply))
  {
    var step := MainStep(a.req, a.reply, 0);
    var s1 := s.(main := Counted(a.req, a.reply));
    Extend(c, s, step, s1);
    t := s1.(main := Woke(a.req, a.reply));
    NobodyWoken(s1.offices);
    Extend(c, s1, step, t);
  }

  lemma {:induction false} NobodyWoken(os: seq<Office>)
    requires NoWaiter(os)
    ensures WakeAll(os) == os
  {
  }

  // ---- The office's loop

  /** The office alone after the shutdown, at the head of its loop. */
  ghost predicate AtHead(c: Config, s: State) {
    && Reachable(c, s) && c.n == 1 && s.main == Joining && s.shutdown && s.owner == Nobody
    && |s.offices| == 1 && s.offices[0].pc == Check
  }

  /** It gets to the test of the queue, with the mutex or, as written, without. */
  lemma Arrives(c: Config, s: State) returns (t: State)
    requires AtHead(c, s)
    ensures Reachable(c, t) && t == At(s, 0, Testing).(owner := if c.guarded then Held(0) else Nobody)
  {
    var step := OfficeStep(0, "");
    if c.guarded {
      var s1 := At(s, 0, WantLock);
      Extend(c, s, step, s1);
      t := At(s1, 0, Testing).(owner := Held(0));
      Extend(c, s1, step, t);
    } else {
      t := At(s, 0, Testing);
      Extend(c, s, step, t);
    }
  }

  lemma Fetches(c: Config, s: State) returns (t: State)
    requires AtHead(c, s) && s.queue != []
    ensures Reachable(c, t) && t == At(s, 0, Copied(s.queue[0])).(owner := if c.guarded then Held(0) else Nobody)
  {
    var step := OfficeStep(0, "");
    var s1 := Arrives(c, s);
    var s2 := At(s1, 0, Fetching);
    Extend(c, s1, step, s2);
    t := At(s2, 0, Copied(s.queue[0]));
    Extend(c, s2, step, t);
  }

  lemma Takes(c: Config, s: State) returns (t: State)
    requires AtHead(c, s) && s.queue != []
    ensures Reachable(c, t)
    ensures t == At(s, 0, Working(s.queue[0]))
                   .(active := s.active + 1, popped := s.popped + [s.queue[0]], queue := s.queue[1..])
  {
    var s1 := Fetches(c, s);
    var s2 := OfficePops(c, s1, 0);
    t := At(s2, 0, Working(s.queue[0])).(owner := Nobody);
    Extend(c, s2, OfficeStep(0, ""), t);
  }

  /** One pass of the loop. */
  lemma Passes(c: Config, s: State, salt: string) returns (t: State)
    requires AtHead(c, s) && s.queue != [] && Addressable(s.queue[0])
    ensures AtHead(c, t) && t.queue == s.queue[1..] && t.active == s.active
    ensures t.taken == s.taken && t.pushed == s.pushed && t.byMain == s.byMain
    ensures var req := s.queue[0];
            var reply := Acknowledge(c.hash, s.table, req, s.offices[0].reply);
      && t.table == Effect(c.hash, s.table, req, salt) && t.offices[0].reply == reply
      && t.byOffices == s.byOffices + [Answered(req, req.header.pid, reply)]
  {
    var s1 := Takes(c, s);
    var s2 := OfficeHandles(c, s1, 0, salt);
    t := OfficeSends(c, s2, 0);
  }

  /** On the empty queue it closes. */
  lemma Closes(c: Config, s: State) returns (t: State)
    requires AtHead(c, s) && s.queue == []
    ensures Reachable(c, t) && t == At(s, 0, Closed)
  {
    var s1 := Arrives(c, s);
    t := At(s1, 0, Closed).(owner := Nobody);
    Extend(c, s1, OfficeStep(0, ""), t);
    assert t.offices == At(s, 0, Closed).offices;
  }

  lemma Chained<T>(before: seq<T>, one: T, rest: seq<T>)
    ensures (before + [one]) + rest == before + ([one] + rest)
  {
  }

  /** The office works off the queue and closes. */
  lemma {:induction false} WorksOff(c: Config, s: State, salts: nat -> string, k: nat) returns (t: State)
    requires AtHead(c, s) && AllSlotted(s.queue)
    ensures Reachable(c, t) && t.main == Joining && |t.offices| == 1 && t.offices[0].pc == Closed
    ensures t.taken == s.taken && t.pushed == s.pushed && t.byMain == s.byMain
    ensures var left := WorkOff(c.hash, s.table, s.queue, salts, k, s.offices[0].reply);
            t.table == left.0 && t.byOffices == s.byOffices + left.1
    decreases |s.queue|
  {
    if s.queue == [] {
      t := Closes(c, s);
    } else {
      var first := WorkOffFirst(c.hash, s.table, s.queue, salts, k, s.offices[0].reply);
      var s1 := Passes(c, s, salts(k));
      t := WorksOff(c, s1, salts, k + 1);
      Chained(s.byOffices, first, WorkOff(c.hash, s1.table, s1.queue, salts, k + 1, first.reply).1);
    }
  }

  // ---- The whole life

  /** The state in which a life of the server ends. */
  ghost predicate EndsAt(c: Config, t: State, read: seq<Request>, table: Table, answers: seq<Answered>,
                         sent: seq<Answered>)
  {
    && Reachable(c, t) && t.main.Joined? && t.taken == read && t.table == table
    && t.byMain == answers && t.byOffices == sent
  }

  /** Main's loop ends with the accepted shutdown, the office still at the head of its loop. */
  lemma TakesAll(c: Config, inputs: seq<Request>, k: nat, answers: seq<Answered>, last: Answered, stale: Reply)
      returns (t: State)
    requires c.n == 1 && ValidAdminPassword(c.adminPassword) && AllSlotted(inputs) && k < |inputs|
    requires NoneStops(c.hash, OpeningTable(c), inputs, k) && inputs[k].args.Shutdown?
    requires AllAnswered(c.hash, OpeningTable(c), answers, Select(inputs, k, true))
    requires ShutdownAnswered(c.hash, OpeningTable(c), last, inputs[k])
    requires last.reply.ret == RC_OK && last.reply.payload == Wrap(0)
    ensures AtHead(c, t) && t.table == OpeningTable(c) && t.offices[0].reply == stale
    ensures t.taken == inputs[..k] + [inputs[k]] && t.byMain == answers + [last] && t.byOffices == []
    ensures t.queue == t.pushed == Select(inputs, k, false)
  {
    Intakes(c, inputs, k, answers, stale);
    t := MainStops(c, Shelved(c, inputs, k, answers, stale), last);
  }

  /** What main's loop and the office's loop compute, some run of the machine reaches. */
  lemma LifeIsRun(c: Config, inputs: seq<Request>, taken: nat, answers: seq<Answered>, salts: nat -> string,
      stale: Reply)
      returns (t: State)
    requires c.n == 1 && ValidAdminPassword(c.adminPassword) && AllSlotted(inputs)
    requires StoppedBy(c.hash, OpeningTable(c), inputs, taken, answers, 0)
    requires AllAnswered(c.hash, OpeningTable(c), answers, Select(inputs, taken, true))
    requires AllSlotted(Select(inputs, taken, false))
    ensures var left := WorkOff(c.hash, OpeningTable(c), Select(inputs, taken, false), salts, 0, stale);
            EndsAt(c, t, inputs[..taken], left.0, answers, left.1) && t.pushed == Select(inputs, taken, false)
  {
    var k, m := taken - 1, |answers| - 1;
    SelectNext(inputs, taken);
    LastAnswer(c, inputs, taken, answers);
    assert inputs[..taken] == inputs[..k] + [inputs[k]];
    assert answers == answers[..m] + [answers[m]];
    var s := TakesAll(c, inputs, k, answers[..m], answers[m], stale);
    var s' := WorksOff(c, s, salts, 0);
    t := JoinsOffice(c, s', inputs[k]);
  }

  lemma JoinsOffice(c: Config, s: State, any: Request) returns (t: State)
    requires Reachable(c, s) && s.main == Joining && AllClosed(s.offices)
    ensures Reachable(c, t) && t == s.(main := Joined)
  {
    t := s.(main := Joined);
    Extend(c, s, MainStep(any, SOME_REPLY, 0), t);
  }

  /** A server with one office from its start to its end, on the account array and the linked
      queue. It starts exactly with a valid password; when a shutdown stops it, some run of the
      concurrent machine, with or without the documented rule, ends with the same requests
      read, the same table and the same replies, each to the same process in the same order. */
  method Live(c: Config, inputs: seq<Request>, salts: nat -> string, buffer: ReplyBuffer)
    returns (started: bool, taken: nat, stopped: bool, answers: seq<Answered>, sent: seq<Answered>, accounts: Accounts)
    requires c.n == 1 && |inputs| < 0x1_0000_0000 && AllSlotted(inputs)
    modifies buffer
    ensures accounts.Valid() && fresh(accounts.slots) && taken <= |inputs|
    ensures started <==> ValidAdminPassword(c.adminPassword)
    ensures stopped ==> started && exists t: State :: EndsAt(c, t, inputs[..taken], accounts.Contents(), answers, sent)
  {
    taken, stopped, answers, sent := 0, false, [], [];
    accounts := new Accounts(c.hash);
    started := accounts.CreateAdminAccount(c.adminPassword, c.adminSalt);
    if !started {
      return;
    }
    assert accounts.Contents() == OpeningTable(c);
    ghost var stale := buffer.Value();
    var server := new Server(accounts);
    taken, stopped, answers, sent := server.Serve(inputs, salts, buffer);
    if stopped {
      ghost var t := LifeIsRun(c, inputs, taken, answers, salts, stale);
      assert EndsAt(c, t, inputs[..taken], accounts.Contents(), answers, sent);
    }
  }
}
