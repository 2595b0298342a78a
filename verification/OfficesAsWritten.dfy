/** When exactly the server handles each pushed request once: with the documented rule for
    the drain, or with at most one office. Run as written, two offices can both copy one
    request and drop another. */
module OfficesAsWritten {
  import opened Messages
  import opened Ledger
  import opened LedgerRuns
  import opened Offices
  import opened OfficesSafety
  import opened OfficesTheorems

  const SOME_REPLY := Reply(0, 0, 0, 0, 0)

  lemma Extend(c: Config, s: State, step: Step, t: State)
    requires Reachable(c, s) && Next(c, s, step) == Some(t)
    ensures Reachable(c, t)
  {
    var start, steps :| Init(c, start) && Reaches(c, start, steps, s);
    assert (steps + [step])[..|steps|] == steps;
    assert Reaches(c, start, steps + [step], t);
  }

  ghost function Start(c: Config): State {
    State(Reading, seq(c.n, _ => Office(Check, SOME_REPLY)), Nobody, false, 0, [], OpeningTable(c),
          [], [], [], [], [], [], [])
  }

  lemma StartReachable(c: Config)
    requires ValidAdminPassword(c.adminPassword)
    ensures Init(c, Start(c)) && Reachable(c, Start(c))
  {
    assert Reaches(c, Start(c), [], Start(c));
  }

  /** Main reads an ordinary request and pushes it while no office waits. */
  lemma MainPushes(c: Config, s: State, r: Request) returns (t: State)
    requires Reachable(c, s) && s.main == Reading && s.owner == Nobody && NoWaiter(s.offices)
    requires Addressable(r) && !r.args.Shutdown?
    ensures Reachable(c, t)
    ensures t == s.(queue := s.queue + [r], pushed := s.pushed + [r], taken := s.taken + [r])
  {
    var step := MainStep(r, SOME_REPLY, |s.offices|);
    var s1 := s.(main := Read(r), taken := s.taken + [r]);
    Extend(c, s, step, s1);
    var s2 := s1.(main := Locked(r), owner := MainThread);
    Extend(c, s1, step, s2);
    var s3 := s2.(main := Pushed, queue := s.queue + [r], pushed := s.pushed + [r]);
    Extend(c, s2, step, s3);
    var s4 := s3.(main := Signalled);
    Extend(c, s3, step, s4);
    t := s4.(main := Reading, owner := Nobody);
    Extend(c, s4, step, t);
  }

  ghost function AdminShutdown(c: Config): Request {
    Request(Header(0, ADMIN_ACCOUNT_ID, c.adminPassword, 0), Shutdown)
  }

  /** Main reads the administrator's shutdown and sets the flag. */
  lemma MainFlags(c: Config, s: State) returns (t: State)
    requires Reachable(c, s) && s.main == Reading && s.table == OpeningTable(c)
    ensures Reachable(c, t) && t.main.Flagged?
    ensures t == s.(main := t.main, shutdown := true, taken := s.taken + [AdminShutdown(c)])
  {
    var r := AdminShutdown(c);
    var step := MainStep(r, SOME_REPLY, 0);
    var s1 := s.(main := Read(r), taken := s.taken + [r]);
    Extend(c, s, step, s1);
    var s2 := s1.(main := Accepting(r, SOME_REPLY.(ret := RC_OK)));
    Extend(c, s1, step, s2);
    t := s2.(main := Flagged(r, s2.main.buf), shutdown := true);
    Extend(c, s2, step, t);
  }

  /** As written, an office in the drain reaches the queue without the mutex. */
  lemma OfficeCopies(c: Config, s: State, i: nat) returns (t: State)
    requires Reachable(c, s) && !c.guarded && s.shutdown && s.queue != []
    requires i < |s.offices| && s.offices[i].pc == Check
    ensures Reachable(c, t)
    ensures t == At(s, i, Copied(s.queue[0])).(owner := Nobody)
  {
    var step := OfficeStep(i, "");
    var s1 := At(s, i, Testing).(owner := Nobody);
    Extend(c, s, step, s1);
    var s2 := At(s1, i, Fetching);
    Extend(c, s1, step, s2);
    t := At(s2, i, Copied(s.queue[0]));
    Extend(c, s2, step, t);
    assert t.offices == At(s, i, Copied(s.queue[0])).offices;
  }

  lemma OfficePops(c: Config, s: State, i: nat) returns (t: State)
    requires Reachable(c, s) && s.queue != [] && i < |s.offices| && s.offices[i].pc.Copied?
    ensures Reachable(c, t)
    ensures t == At(s, i, Popped(s.offices[i].pc.req))
                 .(active := s.active + 1, popped := s.popped + [s.queue[0]], queue := s.queue[1..])
  {
    var step, req := OfficeStep(i, ""), s.offices[i].pc.req;
    var s1 := At(s, i, Active(req)).(active := s.active + 1);
    Extend(c, s, step, s1);
    t := At(s1, i, Popped(req)).(popped := s.popped + [s.queue[0]], queue := s.queue[1..]);
    Extend(c, s1, step, t);
    assert t.offices == At(s, i, Popped(req)).offices;
  }

  /** An office processes a request it holds, with the salt drawn for it. */
  lemma OfficeHandles(c: Config, s: State, i: nat, salt: string) returns (t: State)
    requires Reachable(c, s) && i < |s.offices| && s.offices[i].pc.Working? && Addressable(s.offices[i].pc.req)
    ensures var req := s.offices[i].pc.req;
            var reply := Acknowledge(c.hash, s.table, req, s.offices[i].reply);
      && Reachable(c, t)
      && t == s.(offices := s.offices[i := Office(Acked(req), reply)], table := Effect(c.hash, s.table, req, salt),
                 log := s.log + [Event(req, salt)], replies := s.replies + [reply])
  {
    t := Attend(c, s, i, salt).value;
    Extend(c, s, OfficeStep(i, salt), t);
  }

  ghost function SentBy(o: Office): Answered
    requires o.pc.Acked?
  {
    Answered(o.pc.req, o.pc.req.header.pid, o.reply)
  }

  lemma OfficeWrites(c: Config, s: State, i: nat) returns (t: State)
    requires Reachable(c, s) && i < |s.offices| && s.offices[i].pc.Acked?
    ensures Reachable(c, t) && t == At(s, i, Replied).(byOffices := s.byOffices + [SentBy(s.offices[i])])
  {
    t := At(s, i, Replied).(byOffices := s.byOffices + [SentBy(s.offices[i])]);
    Extend(c, s, OfficeStep(i, ""), t);
  }

  lemma OfficeCountsOut(c: Config, s: State, i: nat) returns (t: State)
    requires Reachable(c, s) && i < |s.offices| && s.offices[i].pc.Replied?
    ensures Reachable(c, t) && t == At(s, i, Check).(active := s.active - 1)
  {
    t := At(s, i, Check).(active := s.active - 1);
    Extend(c, s, OfficeStep(i, ""), t);
  }

  /** It sends the reply and counts itself out. */
  lemma OfficeSends(c: Config, s: State, i: nat) returns (t: State)
    requires Reachable(c, s) && i < |s.offices| && s.offices[i].pc.Acked?
    ensures Reachable(c, t)
    ensures t == At(s, i, Check).(active := s.active - 1, byOffices := s.byOffices + [SentBy(s.offices[i])])
  {
    var s1 := OfficeWrites(c, s, i);
    t := OfficeCountsOut(c, s1, i);
    assert t.offices == At(s, i, Check).offices;
  }

  function Ask(pid: int32): Request {
    Request(Header(pid, 1, "", 0), CheckBalance)
  }

  /** Two requests queued and the shutdown set before any office moves. */
  lemma TwoQueued(c: Config) returns (t: State)
    requires ValidAdminPassword(c.adminPassword)
    ensures Reachable(c, t) && t.shutdown && t.queue == t.pushed == [Ask(1), Ask(2)] && t.popped == []
            && t.byOffices == []
    ensures t.offices == Start(c).offices
  {
    StartReachable(c);
    var s1 := MainPushes(c, Start(c), Ask(1));
    var s2 := MainPushes(c, s1, Ask(2));
    t := MainFlags(c, s2);
  }

  /** Two offices in the drain both hold the first of two requests; the second has left the
      queue and is in nobody's hand, nor is it answered. */
  lemma AsWrittenRepeats(c: Config) returns (t: State)
    requires !c.guarded && c.n >= 2 && ValidAdminPassword(c.adminPassword)
    ensures Reachable(c, t) && !ExactlyOnce(t)
    ensures t.pushed == t.popped == [Ask(1), Ask(2)] && t.queue == [] && t.byOffices == []
    ensures |t.offices| == c.n && t.offices[0].pc == t.offices[1].pc == Popped(Ask(1))
    ensures Bag(t.offices, InHand) == multiset{Ask(1), Ask(1)}
  {
    t := BothTake(c);
    TwoInHand(Start(c).offices, t.offices, Ask(1));
    assert Bag(t.offices, InHand)[Ask(1)] == 2 && multiset(t.popped)[Ask(1)] == 1;
  }

  /** Both copy the head before either pops. */
  lemma BothTake(c: Config) returns (t: State)
    requires !c.guarded && c.n >= 2 && ValidAdminPassword(c.adminPassword)
    ensures Reachable(c, t) && t.pushed == t.popped == [Ask(1), Ask(2)] && t.queue == [] && t.byOffices == []
    ensures var os := Start(c).offices;
      |t.offices| == c.n && t.offices == os[0 := os[0].(pc := Popped(Ask(1)))][1 := os[1].(pc := Popped(Ask(1)))]
  {
    var s1 := TwoQueued(c);
    var s2 := OfficeCopies(c, s1, 0);
    var s3 := OfficeCopies(c, s2, 1);
    var s4 := OfficePops(c, s3, 0);
    t := OfficePops(c, s4, 1);
    assert [Ask(1)] + [Ask(2)] == [Ask(1), Ask(2)];
  }

  lemma {:induction false} TwoInHand(os: seq<Office>, ps: seq<Office>, r: Request)
    requires |os| == |ps| >= 2 && forall j :: 0 <= j < |os| ==> os[j].pc == Check
    requires ps == os[0 := ps[0]][1 := ps[1]] && InHand(ps[0]) == InHand(ps[1]) == multiset{r}
    ensures Bag(ps, InHand) == multiset{r, r}
  {
    IdleTallies(os);
    OneInHand(os, 0, ps[0], multiset{});
    OneInHand(os[0 := ps[0]], 1, ps[1], multiset{r});
  }

  lemma {:induction false} OneInHand(os: seq<Office>, i: nat, o: Office, before: multiset<Request>)
    requires i < |os| && os[i].pc == Check && Bag(os, InHand) == before
    ensures Bag(os[i := o], InHand) == before + InHand(o)
  {
    BagUpdate(os, InHand, i, o);
    MoreInHand(Bag(os[i := o], InHand), InHand(os[i]), before + InHand(o));
  }

  lemma MoreInHand<T>(bag: multiset<T>, none: multiset<T>, all: multiset<T>)
    requires bag + none == all && none == multiset{}
    ensures bag == all
  {
  }

  /** Exactly-once handling on every run, for a server that starts: with the documented rule,
      or with at most one office, and in no other case. */
  lemma ExactlyOnceIff(c: Config)
    requires ValidAdminPassword(c.adminPassword)
    ensures (forall s: State :: Reachable(c, s) ==> ExactlyOnce(s)) <==> Orderly(c)
  {
    if Orderly(c) {
      forall s: State | Reachable(c, s) ensures ExactlyOnce(s) {
        ReachableInv(c, s);
      }
    } else {
      var t := AsWrittenRepeats(c);
    }
  }
}
