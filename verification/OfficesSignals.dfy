/** Before the shutdown the signals suffice: while a request is queued, not all offices sleep. */
module OfficesSignals {
  import opened Messages
  import opened Offices
  import opened OfficesSafety
  import opened OfficesTheorems

  /** An office that decided to wait found the queue empty, and it stays so until it does. */
  ghost predicate WaitsOnEmpty(s: State) {
    !s.shutdown ==> forall i :: 0 <= i < |s.offices| && s.offices[i].pc == ToWait ==> s.queue == []
  }

  ghost predicate NotAllAsleep(s: State) {
    exists i :: 0 <= i < |s.offices| && s.offices[i].pc != Waiting
  }

  /** A queued request that main has signalled finds somebody awake. */
  ghost predicate WorkIsSeen(s: State) {
    !s.shutdown && s.queue != [] && !s.main.Pushed? && s.offices != [] ==> NotAllAsleep(s)
  }

  lemma WaitsOnEmptyByMain(c: Config, s: State, input: Request, garbage: Reply, waiter: nat)
    requires Locks(c, s) && WaitsOnEmpty(s) && MainNext(c, s, input, garbage, waiter).Some?
    ensures WaitsOnEmpty(MainNext(c, s, input, garbage, waiter).value)
  {
    MainFrame(c, s, input, garbage, waiter);
  }

  lemma WaitsOnEmptyByOffice(c: Config, s: State, i: nat, salt: string)
    requires WaitsOnEmpty(s) && i < |s.offices| && OfficeNext(c, s, i, salt).Some?
    ensures WaitsOnEmpty(OfficeNext(c, s, i, salt).value)
  {
    OfficeFrame(c, s, i, salt);
    QueueShrinks(c, s, i, salt);
    WaitsOnlyOnEmpty(c, s, i, salt);
  }

  lemma WaitsOnlyOnEmpty(c: Config, s: State, i: nat, salt: string)
    requires i < |s.offices| && OfficeNext(c, s, i, salt).Some?
    ensures var s' := OfficeNext(c, s, i, salt).value;
      && |s'.offices| == |s.offices|
      && (s'.offices[i].pc == ToWait ==> s.queue == [] && s'.queue == [])
      && (s'.offices[i].pc == Waiting ==> s.offices[i].pc == ToWait && s'.queue == s.queue)
  {
    if Arriving(s.offices[i].pc) {
      ArrivingFrame(c, s, i, salt);
    } else {
      ServingFrame(c, s, i, salt);
      ServingAwake(c, s, i, salt);
    }
  }

  lemma ServingAwake(c: Config, s: State, i: nat, salt: string)
    requires i < |s.offices| && !Arriving(s.offices[i].pc) && Attend(c, s, i, salt).Some?
    ensures var s' := Attend(c, s, i, salt).value;
      |s'.offices| == |s.offices| && s'.offices[i].pc != ToWait && s'.offices[i].pc != Waiting
  {
  }

  lemma WaitsOnEmptyKept(c: Config, s: State, step: Step)
    requires Locks(c, s) && WaitsOnEmpty(s) && Next(c, s, step).Some?
    ensures WaitsOnEmpty(Next(c, s, step).value)
  {
    match step
    case MainStep(input, garbage, waiter) => WaitsOnEmptyByMain(c, s, input, garbage, waiter);
    case OfficeStep(i, salt) => WaitsOnEmptyByOffice(c, s, i, salt);
    case Spurious(i) =>
  }

  lemma WorkIsSeenByMain(c: Config, s: State, input: Request, garbage: Reply, waiter: nat)
    requires WorkIsSeen(s) && MainNext(c, s, input, garbage, waiter).Some?
    ensures WorkIsSeen(MainNext(c, s, input, garbage, waiter).value)
  {
    var s' := MainNext(c, s, input, garbage, waiter).value;
    if s.main.Pushed? {
      if s.offices != [] {
        SignalReaches(c, s, input, garbage, waiter);
      }
    } else if !s'.shutdown && s'.queue != [] && !s'.main.Pushed? && s'.offices != [] {
      OfficesUntouched(c, s, input, garbage, waiter);
      var i :| 0 <= i < |s.offices| && s.offices[i].pc != Waiting;
      assert s'.offices[i].pc != Waiting;
    }
  }

  lemma OfficesUntouched(c: Config, s: State, input: Request, garbage: Reply, waiter: nat)
    requires MainNext(c, s, input, garbage, waiter).Some? && !s.main.Pushed?
    requires !MainNext(c, s, input, garbage, waiter).value.shutdown
    requires !MainNext(c, s, input, garbage, waiter).value.main.Pushed?
    ensures var s' := MainNext(c, s, input, garbage, waiter).value;
            s'.queue == s.queue && !s.shutdown && |s'.offices| == |s.offices|
            && forall i :: 0 <= i < |s.offices| && s.offices[i].pc != Waiting ==> s'.offices[i].pc != Waiting
  {
  }

  /** The signal wakes one office if any sleeps. */
  lemma SignalReaches(c: Config, s: State, input: Request, garbage: Reply, waiter: nat)
    requires s.main.Pushed? && s.offices != [] && MainNext(c, s, input, garbage, waiter).Some?
    ensures NotAllAsleep(MainNext(c, s, input, garbage, waiter).value)
  {
    var s' := MainNext(c, s, input, garbage, waiter).value;
    if waiter < |s.offices| && s.offices[waiter].pc == Waiting {
      assert s'.offices[waiter].pc == WantBack;
    } else {
      assert s'.offices[0].pc != Waiting;
    }
  }

  lemma WorkIsSeenByOffice(c: Config, s: State, i: nat, salt: string)
    requires WorkIsSeen(s) && WaitsOnEmpty(s) && i < |s.offices| && OfficeNext(c, s, i, salt).Some?
    ensures WorkIsSeen(OfficeNext(c, s, i, salt).value)
  {
    var s' := OfficeNext(c, s, i, salt).value;
    OfficeFrame(c, s, i, salt);
    WaitsOnlyOnEmpty(c, s, i, salt);
    if !s'.shutdown && s'.queue != [] {
      assert s'.offices[i].pc != Waiting;
    }
  }

  lemma WorkIsSeenKept(c: Config, s: State, step: Step)
    requires WorkIsSeen(s) && WaitsOnEmpty(s) && Next(c, s, step).Some?
    ensures WorkIsSeen(Next(c, s, step).value)
  {
    match step
    case MainStep(input, garbage, waiter) => WorkIsSeenByMain(c, s, input, garbage, waiter);
    case OfficeStep(i, salt) => WorkIsSeenByOffice(c, s, i, salt);
    case Spurious(i) => assert Next(c, s, step).value.offices[i].pc == WantBack;
  }

  lemma {:induction false} SignalsAlong(c: Config, s: State, steps: seq<Step>, t: State)
    requires Inv(c, s) && WorkIsSeen(s) && WaitsOnEmpty(s) && Reaches(c, s, steps, t)
    ensures WorkIsSeen(t) && WaitsOnEmpty(t)
  {
    if steps != [] {
      var before := After(c, s, steps[..|steps| - 1]).value;
      SignalsAlong(c, s, steps[..|steps| - 1], before);
      InvAlong(c, s, steps[..|steps| - 1], before);
      WaitsOnEmptyKept(c, before, steps[|steps| - 1]);
      WorkIsSeenKept(c, before, steps[|steps| - 1]);
    }
  }

  /** Before the shutdown, with a request queued and main not between its push and its signal,
      some office neither sleeps nor is about to. */
  lemma SomebodyAwake(c: Config, s: State)
    requires Reachable(c, s) && !s.shutdown && s.queue != [] && !s.main.Pushed? && c.n > 0
    ensures exists i :: 0 <= i < |s.offices| && s.offices[i].pc != Waiting && s.offices[i].pc != ToWait
  {
    var start, steps :| Init(c, start) && Reaches(c, start, steps, s);
    InitInv(c, start);
    ReachableInv(c, s);
    SignalsAlong(c, start, steps, s);
    var i :| 0 <= i < |s.offices| && s.offices[i].pc != Waiting;
    assert s.offices[i].pc != ToWait;
  }
}
