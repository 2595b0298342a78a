/** Who holds the mutex, and when before the shutdown no thread can move on its own. */
module OfficesStandstill {
  import opened Messages
  import opened Ledger
  import opened Offices
  import opened OfficesSafety
  import opened OfficesTheorems
  import opened OfficesAsWritten
  import opened OfficesDrainTheorems
  import opened OfficesSignals

  /** From the lock or the return from the wait up to the unlock an office has the mutex, and
      from the unlock on, while it handles and answers its request, it has not. */
  lemma MutexHeldBy(c: Config, s: State, i: nat)
    requires Reachable(c, s) && (c.guarded || !s.shutdown) && i < |s.offices|
    ensures var pc := s.offices[i].pc;
      && (pc == Testing || pc == ToWait || pc == Woken || pc == Fetching || pc.Copied? || pc.Active? || pc.Popped?
          ==> s.owner == Held(i))
      && (pc == Waiting || pc == WantBack || pc.Working? || pc.Acked? || pc == Replied || pc == Closed
          ==> s.owner != Held(i))
  {
    ReachableInv(c, s);
  }

  /** Nothing can happen but that a request comes in, or that an office wakes up by itself. */
  ghost predicate Standstill(c: Config, s: State) {
    forall step: Step :: Next(c, s, step).Some? ==> step.Spurious? || (step.MainStep? && s.main.Reading?)
  }

  /** Nothing is left to do: all offices wait, and main for the next request. */
  ghost predicate AtRest(s: State) {
    && s.main == Reading && s.owner == Nobody
    && (s.offices == [] || s.queue == [])
    && forall i :: 0 <= i < |s.offices| ==> s.offices[i].pc == Waiting
  }

  /** An office asks for the mutex it holds, the others sleep or ask for it too. */
  ghost predicate Relocked(s: State) {
    && (s.main.Reading? || (s.main.Read? && !s.main.req.args.Shutdown?))
    && (exists i :: 0 <= i < |s.offices| && s.offices[i].pc == WantLock && s.owner == Held(i))
    && forall i :: 0 <= i < |s.offices| ==>
         s.offices[i].pc == WantLock || s.offices[i].pc == WantBack || s.offices[i].pc == Waiting
  }

  /** Before the shutdown a thread stops for the mutex, for a signal or for a request, and for
      nothing else. */
  lemma OfficeGoesOn(c: Config, s: State, i: nat)
    requires Inv(c, s) && !s.shutdown && i < |s.offices| && s.offices[i].pc != Waiting
    requires s.offices[i].pc == WantLock || s.offices[i].pc == WantBack ==> s.owner == Nobody
    ensures OfficeNext(c, s, i, "").Some? && !Standstill(c, s)
  {
    assert HeadKept(s, s.offices[i].pc) && OfficeLabelled(s.offices[i]);
    assert Next(c, s, OfficeStep(i, "")) == OfficeNext(c, s, i, "");
  }

  lemma SomeWaiter(s: State) returns (waiter: nat)
    ensures NoWaiter(s.offices) || (waiter < |s.offices| && s.offices[waiter].pc == Waiting)
  {
    if NoWaiter(s.offices) {
      waiter := 0;
    } else {
      waiter :| 0 <= waiter < |s.offices| && s.offices[waiter].pc == Waiting;
    }
  }

  lemma MainEnabled(c: Config, s: State, input: Request, garbage: Reply, waiter: nat)
    requires s.main != Reading && !PastFlag(s.main)
    requires s.main.Read? && !s.main.req.args.Shutdown? ==> s.owner == Nobody
    requires s.main.Pushed? ==> NoWaiter(s.offices) || (waiter < |s.offices| && s.offices[waiter].pc == Waiting)
    ensures MainNext(c, s, input, garbage, waiter).Some?
  {
  }

  lemma MainGoesOn(c: Config, s: State) returns (step: Step)
    requires Inv(c, s) && !s.shutdown && s.main != Reading
    requires s.main.Read? && !s.main.req.args.Shutdown? ==> s.owner == Nobody
    ensures step.MainStep? && Next(c, s, step).Some? && !Standstill(c, s)
  {
    var waiter := 0;
    if s.main.Pushed? {
      waiter := SomeWaiter(s);
    }
    step := MainStep(Ask(0), SOME_REPLY, waiter);
    MainEnabled(c, s, Ask(0), SOME_REPLY, waiter);
    assert Next(c, s, step).Some?;
  }

  /** Whoever has the mutex goes on, but for an office that asks for it again. */
  lemma HolderAsksAgain(c: Config, s: State)
    requires Inv(c, s) && !s.shutdown && Standstill(c, s) && s.owner != Nobody
    ensures s.owner.Held? && s.owner.office < |s.offices| && s.offices[s.owner.office].pc == WantLock
  {
    if s.owner == MainThread {
      var step := MainGoesOn(c, s);
    } else if s.offices[s.owner.office].pc != WantLock {
      OfficeGoesOn(c, s, s.owner.office);
    }
  }

  lemma StillMeans(c: Config, s: State)
    requires Reachable(c, s) && !s.shutdown && Standstill(c, s)
    ensures AtRest(s) || Relocked(s)
  {
    ReachableInv(c, s);
    forall i | 0 <= i < |s.offices|
      ensures s.offices[i].pc == Waiting
              || (s.owner != Nobody && (s.offices[i].pc == WantLock || s.offices[i].pc == WantBack))
    {
      var pc := s.offices[i].pc;
      if pc != Waiting && (s.owner == Nobody || (pc != WantLock && pc != WantBack)) {
        OfficeGoesOn(c, s, i);
      }
    }
    if s.main != Reading && !(s.main.Read? && !s.main.req.args.Shutdown? && s.owner != Nobody) {
      var step := MainGoesOn(c, s);
    }
    if s.owner != Nobody {
      HolderAsksAgain(c, s);
    } else if s.offices != [] && s.queue != [] {
      SomebodyAwake(c, s);
    }
  }

  lemma StillWhen(c: Config, s: State, step: Step)
    requires (AtRest(s) || Relocked(s)) && Next(c, s, step).Some?
    ensures step.Spurious? || (step.MainStep? && s.main.Reading?)
  {
  }

  /** Before the shutdown the threads come to a standstill exactly when there is nothing to do,
      or when an office asks for the mutex it holds and all others sleep or ask for it too. */
  lemma StandstillIff(c: Config, s: State)
    requires Reachable(c, s) && !s.shutdown
    ensures Standstill(c, s) <==> AtRest(s) || Relocked(s)
  {
    if Standstill(c, s) {
      StillMeans(c, s);
    } else {
      var step: Step :| Next(c, s, step).Some? && !step.Spurious? && !(step.MainStep? && s.main.Reading?);
      if AtRest(s) || Relocked(s) {
        StillWhen(c, s, step);
      }
    }
  }

  /** Which it does, with any number of offices from two on. */
  lemma RelockHappens(c: Config) returns (t: State)
    requires c.n >= 2 && ValidAdminPassword(c.adminPassword)
    ensures Reachable(c, t) && !t.shutdown && Relocked(t) && t.queue == []
  {
    var s1 := RelockedEarly(c);
    var s2 := OfficeAnswers(c, s1, 1);
    t := OthersLock(c, s2, c.n);
  }
}
