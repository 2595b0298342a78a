/** The drain as the code has it, without the mutex around the queue. It can end badly in three
    ways: an office sleeps through the broadcast; an office closes with the mutex, or asks for
    it twice, while another is in its lock call; two offices count on the same last request and
    the second pops an empty queue. `Peaceful` tells from one state whether any schedule can
    still come to that. */
module OfficesUnguardedDrain {
  import opened Offices
  import opened OfficesSafety
  import opened OfficesDrain

  /** In a lock call: the one at the head of the loop, or the one that ends a wait. */
  ghost predicate Stopped(pc: Pc) {
    pc.WantLock? || pc.WantBack?
  }

  ghost predicate Asleep(pc: Pc) {
    pc.ToWait? || pc.Waiting?
  }

  ghost predicate Running(pc: Pc) {
    !Stopped(pc) && !Asleep(pc) && !pc.Closed?
  }

  /** Bound to pop. */
  ghost predicate Committed(pc: Pc) {
    pc.Copied? || pc.Active?
  }

  /** With a request queued, on the way to a pop with no unlock before it. */
  ghost predicate BeforePop(pc: Pc) {
    pc.Testing? || pc.Woken? || pc.Fetching? || Committed(pc)
  }

  ghost function IsStopped(o: Office): nat {
    if Stopped(o.pc) then 1 else 0
  }

  ghost function IsAtHead(o: Office): nat {
    if o.pc.WantLock? then 1 else 0
  }

  ghost function IsRunning(o: Office): nat {
    if Running(o.pc) then 1 else 0
  }

  /** How many offices are in a lock call, how many of those at the head of the loop, and how
      many are running. */
  datatype Crowd = Crowd(stopped: nat, atHead: nat, running: nat)

  ghost function CrowdOf(s: State): Crowd {
    Crowd(Sum(s.offices, IsStopped), Sum(s.offices, IsAtHead), Sum(s.offices, IsRunning))
  }

  ghost predicate NoneAsleep(s: State) {
    forall i :: 0 <= i < |s.offices| ==> !Asleep(s.offices[i].pc)
  }

  ghost predicate NoneCommitted(s: State) {
    forall i :: 0 <= i < |s.offices| ==> !Committed(s.offices[i].pc)
  }

  ghost predicate RunnersBeforePop(s: State) {
    forall i :: 0 <= i < |s.offices| && Running(s.offices[i].pc) ==> BeforePop(s.offices[i].pc)
  }

  /** An office that passes an unlock before it closes. */
  ghost predicate WillUnlock(s: State, i: nat)
    requires i < |s.offices|
  {
    Running(s.offices[i].pc) && !s.offices[i].pc.Testing?
  }

  /** The mutex is free or will be. */
  ghost predicate Freed(s: State) {
    s.owner == Nobody || exists i :: 0 <= i < |s.offices| && WillUnlock(s, i)
  }

  /** On the empty queue: nobody is bound to pop it, and every lock call returns. An office
      that locks at the head of the loop closes with the mutex, so it must be the only one. */
  ghost predicate PeacefulEmpty(s: State) {
    var w := CrowdOf(s);
    NoneCommitted(s) && (w.stopped == 0 || (Freed(s) && (w.stopped == 1 || w.atHead == 0)))
  }

  /** With requests queued two running offices can count on the same last one. So there is
      one office; or the last request is fetched before the mutex is given on. */
  ghost predicate PeacefulLaden(s: State) {
    var w := CrowdOf(s);
    || w.stopped + w.running == 0
    || (w.stopped + w.running == 1 && (w.stopped == 1 ==> s.owner == Nobody))
    || (|s.queue| == 1 && w.running == 1 && s.owner != Nobody && RunnersBeforePop(s)
        && (w.stopped == 1 || w.atHead == 0))
    || (|s.queue| == 1 && w.running == 0 && s.owner == Nobody && (w.stopped == 2 || w.atHead == 0))
  }

  ghost predicate Peaceful(s: State) {
    NoneAsleep(s) && if s.queue == [] then PeacefulEmpty(s) else PeacefulLaden(s)
  }

  // ---- Counting offices

  lemma {:induction false} SumAt(os: seq<Office>, f: Office -> nat, i: nat)
    requires i < |os|
    ensures f(os[i]) <= Sum(os, f)
  {
    if i < |os| - 1 {
      SumAt(os[..|os| - 1], f, i);
    }
  }

  lemma {:induction false} SumAtTwo(os: seq<Office>, f: Office -> nat, i: nat, j: nat)
    requires i < j < |os|
    ensures f(os[i]) + f(os[j]) <= Sum(os, f)
  {
    if j < |os| - 1 {
      SumAtTwo(os[..|os| - 1], f, i, j);
    } else {
      SumAt(os[..j], f, i);
    }
  }

  lemma {:induction false} SumWitness(os: seq<Office>, f: Office -> nat) returns (i: nat)
    requires Sum(os, f) > 0
    ensures i < |os| && f(os[i]) > 0
  {
    i := |os| - 1;
    if f(os[i]) == 0 {
      i := SumWitness(os[..|os| - 1], f);
    }
  }

  lemma {:induction false} SumOrdered(os: seq<Office>)
    ensures Sum(os, IsAtHead) <= Sum(os, IsStopped)
  {
    if os != [] {
      SumOrdered(os[..|os| - 1]);
    }
  }

  /** With one office running, any two that run are the same. */
  lemma OnlyRunner(s: State, i: nat, j: nat)
    requires i < |s.offices| && j < |s.offices| && Running(s.offices[i].pc) && Running(s.offices[j].pc)
    requires CrowdOf(s).running <= 1
    ensures i == j
  {
    if i < j {
      SumAtTwo(s.offices, IsRunning, i, j);
    } else if j < i {
      SumAtTwo(s.offices, IsRunning, j, i);
    }
  }

  // ---- One step of one office

  /** What office i does when it moves. */
  ghost predicate Moved(s: State, s': State, i: nat)
    requires i < |s.offices| == |s'.offices|
  {
    var pc, pc' := s.offices[i].pc, s'.offices[i].pc;
    && !pc.Closed? && (pc.WantLock? ==> pc'.Testing?) && (pc.WantBack? ==> pc'.Woken?)
    && (Stopped(pc) ==> s.owner == Nobody && s'.owner == Held(i))
    && (Asleep(pc) ==> Asleep(pc'))
    && (Running(pc) ==> (Running(pc') || (pc'.Closed? && pc.Testing? && s.queue == [])))
    && (Running(pc) ==> s'.owner == if pc.Check? || pc.Popped? then Nobody else s.owner)
    && (pc'.Testing? ==> pc.Check? || pc.WantLock?)
    && (if pc.Active? then s.queue != [] && s'.queue == s.queue[1..] else s'.queue == s.queue)
    && (Running(pc) && Committed(pc') ==> s.queue != [] || pc.Copied?)
    && (pc.Copied? ==> pc'.Active? && pc'.req == pc.req) && (pc'.Active? ==> pc.Copied?)
    && (pc'.Copied? ==> s.queue != [] && pc'.req == s.queue[0])
    && (Running(pc) && !pc.Active? && BeforePop(pc) && s.queue != [] ==> BeforePop(pc'))
    && (Running(pc) && !pc.Check? && !BeforePop(pc) ==> !BeforePop(pc'))
    && (pc.Active? ==> pc'.Popped?)
  }

  lemma ArrivingMoved(c: Config, s: State, i: nat)
    requires !c.guarded && s.shutdown && i < |s.offices| && Arriving(s.offices[i].pc) && Arrive(c, s, i).Some?
    ensures |Arrive(c, s, i).value.offices| == |s.offices| && Moved(s, Arrive(c, s, i).value, i)
  {
  }

  lemma ServingMoved(c: Config, s: State, i: nat, salt: string)
    requires i < |s.offices| && !Arriving(s.offices[i].pc) && Attend(c, s, i, salt).Some?
    ensures |Attend(c, s, i, salt).value.offices| == |s.offices| && Moved(s, Attend(c, s, i, salt).value, i)
  {
  }

  /** A step of the unguarded drain moves one office, and the crowd by that office. */
  ghost predicate OfficeMoved(s: State, s': State, i: nat) {
    && |s'.offices| == |s.offices| && i < |s.offices| && s'.offices == s.offices[i := s'.offices[i]]
    && Moved(s, s', i)
    && var w, w', o, o' := CrowdOf(s), CrowdOf(s'), s.offices[i], s'.offices[i];
       && w'.stopped + IsStopped(o) == w.stopped + IsStopped(o')
       && w'.atHead + IsAtHead(o) == w.atHead + IsAtHead(o')
       && w'.running + IsRunning(o) == w.running + IsRunning(o')
  }

  lemma OfficeMoves(c: Config, s: State, i: nat, salt: string)
    requires !c.guarded && s.shutdown && i < |s.offices| && OfficeNext(c, s, i, salt).Some?
    ensures OfficeMoved(s, OfficeNext(c, s, i, salt).value, i)
  {
    var s' := OfficeNext(c, s, i, salt).value;
    OfficeFrame(c, s, i, salt);
    SumUpdate(s.offices, IsStopped, i, s'.offices[i]);
    SumUpdate(s.offices, IsAtHead, i, s'.offices[i]);
    SumUpdate(s.offices, IsRunning, i, s'.offices[i]);
    if Arriving(s.offices[i].pc) {
      ArrivingMoved(c, s, i);
    } else {
      ServingMoved(c, s, i, salt);
    }
  }

  /** A running office can move, unless it is to pop an empty queue; one in a lock call can
      when the mutex is free. */
  lemma CanMove(c: Config, s: State, i: nat)
    requires i < |s.offices| && OfficeLabelled(s.offices[i])
    requires (Running(s.offices[i].pc) && (s.offices[i].pc.Active? ==> s.queue != []))
          || (Stopped(s.offices[i].pc) && s.owner == Nobody)
    ensures OfficeNext(c, s, i, "").Some? && Next(c, s, OfficeStep(i, "")) == OfficeNext(c, s, i, "")
  {
  }

  // ---- Peace is kept

  lemma EmptyKept(s: State, s': State, i: nat)
    requires s.queue == [] && NoneAsleep(s) && PeacefulEmpty(s) && OfficeMoved(s, s', i)
    ensures Peaceful(s')
  {
    SumAt(s.offices, IsStopped, i);
    SumAt(s.offices, IsAtHead, i);
    assert !Committed(s.offices[i].pc) && !Committed(s'.offices[i].pc);
    assert s'.queue == [];
    forall j | 0 <= j < |s'.offices| ensures !Asleep(s'.offices[j].pc) && !Committed(s'.offices[j].pc) {
      assert !Asleep(s.offices[j].pc) && !Committed(s.offices[j].pc);
    }
    if CrowdOf(s').stopped > 0 {
      FreedKept(s, s', i);
    }
  }

  lemma FreedKept(s: State, s': State, i: nat)
    requires Freed(s) && OfficeMoved(s, s', i) && (Running(s.offices[i].pc) || s.offices[i].pc.WantBack?)
    ensures Freed(s')
  {
    if s'.owner != Nobody {
      if s.offices[i].pc.WantBack? || WillUnlock(s, i) {
        assert WillUnlock(s', i);
      } else {
        var j :| 0 <= j < |s.offices| && WillUnlock(s, j);
        assert WillUnlock(s', j);
      }
    }
  }


  /** Two offices do not both count on the last request. */
  lemma LastPopped(s: State, s': State, i: nat)
    requires |s.queue| == 1 && NoneAsleep(s) && PeacefulLaden(s) && OfficeMoved(s, s', i) && s'.queue == []
    ensures PeacefulEmpty(s')
  {
    assert s.offices[i].pc.Active?;
    SumAt(s.offices, IsRunning, i);
    assert WillUnlock(s', i);
    forall j | 0 <= j < |s'.offices| ensures !Committed(s'.offices[j].pc) {
      if j != i && Committed(s.offices[j].pc) {
        OnlyRunner(s, i, j);
      }
    }
  }

  lemma RunnerStaysBeforePop(s: State, s': State, i: nat)
    requires s.queue != [] && OfficeMoved(s, s', i) && s'.queue != [] && NoneAsleep(s)
    requires Stopped(s.offices[i].pc) ==> CrowdOf(s).running == 0
    requires Running(s.offices[i].pc) ==> CrowdOf(s).running == 1 && BeforePop(s.offices[i].pc) && |s.queue| == 1
    ensures RunnersBeforePop(s')
  {
    forall j | 0 <= j < |s'.offices| && Running(s'.offices[j].pc) ensures BeforePop(s'.offices[j].pc) {
      if j != i {
        SumAt(s.offices, IsRunning, j);
        OnlyRunner(s, i, j);
      }
    }
  }

  lemma LadenKept(s: State, s': State, i: nat)
    requires s.queue != [] && NoneAsleep(s) && PeacefulLaden(s) && OfficeMoved(s, s', i)
    ensures Peaceful(s')
  {
    SumAt(s.offices, IsStopped, i);
    SumAt(s.offices, IsRunning, i);
    SumAt(s.offices, IsAtHead, i);
    SumOrdered(s.offices);
    forall j | 0 <= j < |s'.offices| ensures !Asleep(s'.offices[j].pc) {
      assert !Asleep(s.offices[j].pc);
    }
    if s'.queue == [] {
      LastPopped(s, s', i);
    } else if CrowdOf(s).stopped + CrowdOf(s).running > 1 {
      RunnerStaysBeforePop(s, s', i);
    }
  }

  /** Steps of main no longer touch the offices, the mutex or the queue. */
  lemma SamePeace(s: State, s': State)
    requires s'.offices == s.offices && s'.owner == s.owner && s'.queue == s.queue
    ensures Peaceful(s') <==> Peaceful(s)
  {
    assert NoneAsleep(s') <==> NoneAsleep(s);
    assert NoneCommitted(s') <==> NoneCommitted(s);
    assert RunnersBeforePop(s') <==> RunnersBeforePop(s);
    assert Freed(s') <==> Freed(s) by {
      assert forall i :: 0 <= i < |s.offices| ==> (WillUnlock(s', i) <==> WillUnlock(s, i));
    }
  }

  lemma PeaceKept(c: Config, s: State, step: Step)
    requires !c.guarded && s.shutdown && PastBroadcast(s.main) && Peaceful(s) && Next(c, s, step).Some?
    ensures Peaceful(Next(c, s, step).value)
  {
    var s' := Next(c, s, step).value;
    match step
    case MainStep(_, _, _) =>
      PastBroadcastKept(c, s, step);
      SamePeace(s, s');
    case OfficeStep(i, salt) => PeaceByOffice(c, s, i, salt);
    case Spurious(i) =>
  }

  /** Whatever main does meanwhile. */
  lemma PeaceByOffice(c: Config, s: State, i: nat, salt: string)
    requires !c.guarded && s.shutdown && Peaceful(s) && i < |s.offices| && OfficeNext(c, s, i, salt).Some?
    ensures Peaceful(OfficeNext(c, s, i, salt).value)
  {
    var s' := OfficeNext(c, s, i, salt).value;
    OfficeMoves(c, s, i, salt);
    if s.queue == [] {
      EmptyKept(s, s', i);
    } else {
      LadenKept(s, s', i);
    }
  }

  // ---- Peace ends well

  lemma RunnerMoves(c: Config, s: State, i: nat)
    requires i < |s.offices| && Running(s.offices[i].pc) && Labelled(s)
    requires s.queue == [] ==> !s.offices[i].pc.Active?
    ensures Next(c, s, OfficeStep(i, "")).Some? && !Stuck(c, s)
  {
    assert OfficeLabelled(s.offices[i]);
    CanMove(c, s, i);
  }

  lemma LockerMoves(c: Config, s: State, i: nat)
    requires i < |s.offices| && Stopped(s.offices[i].pc) && Labelled(s) && s.owner == Nobody
    ensures Next(c, s, OfficeStep(i, "")).Some? && !Stuck(c, s)
  {
    assert OfficeLabelled(s.offices[i]);
    CanMove(c, s, i);
  }

  /** At peace somebody can move until all offices are joined. */
  lemma PeaceProgress(c: Config, s: State)
    requires !c.guarded && Labelled(s) && PastBroadcast(s.main) && Peaceful(s) && !s.main.Joined?
    ensures !Stuck(c, s)
  {
    if i :| 0 <= i < |s.offices| && Running(s.offices[i].pc) {
      RunnerMoves(c, s, i);
    } else if i :| 0 <= i < |s.offices| && Stopped(s.offices[i].pc) {
      SumAt(s.offices, IsStopped, i);
      if CrowdOf(s).running > 0 {
        var j := SumWitness(s.offices, IsRunning);
        assert false;
      }
      LockerMoves(c, s, i);
    } else {
      forall j | 0 <= j < |s.offices| ensures s.offices[j].pc == Closed {
        assert !Asleep(s.offices[j].pc);
      }
      MainProgress(c, s);
    }
  }

  lemma ClosedIsPeaceful(s: State)
    requires AllClosed(s.offices)
    ensures Peaceful(s)
  {
    if CrowdOf(s).stopped > 0 {
      var i := SumWitness(s.offices, IsStopped);
      assert false;
    }
    if CrowdOf(s).running > 0 {
      var i := SumWitness(s.offices, IsRunning);
      assert false;
    }
  }

  // ---- Without peace some schedule stays without it

  /** The step a hostile scheduler takes: any that keeps the trouble there is. */
  ghost predicate Hostile(c: Config, s: State, step: Step) {
    !step.Spurious? && Next(c, s, step).Some? && !Peaceful(Next(c, s, step).value)
  }

  lemma StillAsleep(c: Config, s: State, i: nat, step: Step)
    requires !c.guarded && s.shutdown && PastBroadcast(s.main) && i < |s.offices| && Asleep(s.offices[i].pc)
    requires Next(c, s, step).Some? && !step.Spurious?
    ensures Hostile(c, s, step)
  {
    var s' := Next(c, s, step).value;
    match step
    case MainStep(_, _, _) =>
      PastBroadcastKept(c, s, step);
      assert Asleep(s'.offices[i].pc);
    case OfficeStep(j, salt) =>
      OfficeMoves(c, s, j, salt);
      assert Asleep(s'.offices[i].pc);
  }

  /** An office bound to pop the empty queue never gets past that. */
  lemma StillCommitted(c: Config, s: State, i: nat, step: Step)
    requires !c.guarded && s.shutdown && PastBroadcast(s.main) && s.queue == []
    requires i < |s.offices| && Committed(s.offices[i].pc) && Next(c, s, step).Some? && !step.Spurious?
    ensures Hostile(c, s, step)
  {
    var s' := Next(c, s, step).value;
    match step
    case MainStep(_, _, _) =>
      PastBroadcastKept(c, s, step);
      assert Committed(s'.offices[i].pc);
    case OfficeStep(j, salt) =>
      OfficeMoves(c, s, j, salt);
      assert Committed(s'.offices[i].pc);
  }

  /** While the mutex is held and every running office has only the test of the empty queue
      before it, offices close around the ones in lock calls. */
  lemma StillLockedOut(c: Config, s: State, step: Step)
    requires !c.guarded && s.shutdown && PastBroadcast(s.main) && s.queue == []
    requires !Freed(s) && CrowdOf(s).stopped > 0 && NoneAsleep(s) && Next(c, s, step).Some? && !step.Spurious?
    ensures Hostile(c, s, step)
  {
    var s' := Next(c, s, step).value;
    match step
    case MainStep(_, _, _) =>
      PastBroadcastKept(c, s, step);
      SamePeace(s, s');
    case OfficeStep(i, salt) =>
      OfficeMoves(c, s, i, salt);
      assert !Asleep(s.offices[i].pc) && !WillUnlock(s, i);
      assert !Freed(s') by {
        forall j | 0 <= j < |s'.offices| ensures !WillUnlock(s', j) {
          assert !WillUnlock(s, j);
        }
      }
  }

  /** With several offices in lock calls, one of them at the head of its loop, that one can be
      the first to get the mutex after all others have closed. */
  lemma ManyAtLock(c: Config, s: State) returns (step: Step)
    requires !c.guarded && s.shutdown && Labelled(s) && s.queue == [] && NoneCommitted(s) && NoneAsleep(s) && Freed(s)
    requires CrowdOf(s).stopped > 1 && CrowdOf(s).atHead > 0
    ensures Hostile(c, s, step)
  {
    if i :| 0 <= i < |s.offices| && Running(s.offices[i].pc) {
      RunnerMoves(c, s, i);
      step := OfficeStep(i, "");
      OfficeMoves(c, s, i, "");
    } else {
      var i := SumWitness(s.offices, IsAtHead);
      LockerMoves(c, s, i);
      step := OfficeStep(i, "");
      OfficeMoves(c, s, i, "");
      var s' := Next(c, s, step).value;
      assert !Freed(s');
    }
  }

  lemma EmptyTrouble(c: Config, s: State, any: Step) returns (step: Step)
    requires !c.guarded && s.shutdown && PastBroadcast(s.main) && Labelled(s) && s.queue == [] && NoneAsleep(s)
    requires !PeacefulEmpty(s) && Next(c, s, any).Some? && !any.Spurious?
    ensures Hostile(c, s, step)
  {
    step := any;
    if !NoneCommitted(s) {
      var i :| 0 <= i < |s.offices| && Committed(s.offices[i].pc);
      StillCommitted(c, s, i, any);
    } else if !Freed(s) {
      StillLockedOut(c, s, any);
    } else {
      step := ManyAtLock(c, s);
    }
  }

  /** Two running offices and a request: both can get to count on the last one. */
  lemma TwoRunning(c: Config, s: State) returns (step: Step)
    requires !c.guarded && s.shutdown && Labelled(s) && s.queue != [] && CrowdOf(s).running >= 2
    ensures Hostile(c, s, step)
  {
    if i :| 0 <= i < |s.offices| && Running(s.offices[i].pc) && !s.offices[i].pc.Active? {
      RunnerMoves(c, s, i);
      step := OfficeStep(i, "");
      OfficeMoves(c, s, i, "");
    } else {
      var i := SumWitness(s.offices, IsRunning);
      RunnerMoves(c, s, i);
      step := OfficeStep(i, "");
      OfficeMoves(c, s, i, "");
      var s' := Next(c, s, step).value;
      if s'.queue == [] {
        var j := AnotherRunner(s, i);
        assert Committed(s'.offices[j].pc);
      }
    }
  }

  lemma AnotherRunner(s: State, i: nat) returns (j: nat)
    requires i < |s.offices| && CrowdOf(s).running >= 2
    ensures j < |s.offices| && j != i && Running(s.offices[j].pc)
  {
    var os := s.offices[i := s.offices[i].(pc := Closed)];
    SumUpdate(s.offices, IsRunning, i, os[i]);
    j := SumWitness(os, IsRunning);
  }

  /** One office runs with requests queued while others are in lock calls: unless it fetches
      the only request before it gives up the mutex, a second one joins it. */
  lemma RunnerAmongStopped(c: Config, s: State) returns (step: Step)
    requires !c.guarded && s.shutdown && Labelled(s) && s.queue != [] && !PeacefulLaden(s)
    requires CrowdOf(s).running == 1 && CrowdOf(s).stopped > 0
    ensures Hostile(c, s, step)
  {
    if s.owner == Nobody {
      var i := SumWitness(s.offices, IsStopped);
      LockerMoves(c, s, i);
      step := OfficeStep(i, "");
      OfficeMoves(c, s, i, "");
    } else {
      var i := SumWitness(s.offices, IsRunning);
      RunnerMoves(c, s, i);
      step := OfficeStep(i, "");
      OfficeMoves(c, s, i, "");
      RunnerMeetsTrouble(s, Next(c, s, step).value, i);
    }
  }

  lemma RunnerMeetsTrouble(s: State, s': State, i: nat)
    requires s.queue != [] && !PeacefulLaden(s) && s.owner != Nobody
    requires CrowdOf(s).running == 1 && CrowdOf(s).stopped > 0
    requires OfficeMoved(s, s', i) && Running(s.offices[i].pc)
    ensures !Peaceful(s')
  {
    if s.offices[i].pc.Active? {
      assert !BeforePop(s'.offices[i].pc);
      if |s.queue| == 1 {
        OneRunnerBeforePop(s, i);
      }
    } else if s'.owner != Nobody && |s.queue| == 1 && !BeforePop(s.offices[i].pc) {
      assert !BeforePop(s'.offices[i].pc);
    } else if BeforePop(s.offices[i].pc) && |s.queue| == 1 {
      OneRunnerBeforePop(s, i);
    }
  }

  lemma OneRunnerBeforePop(s: State, i: nat)
    requires i < |s.offices| && Running(s.offices[i].pc) && BeforePop(s.offices[i].pc) && CrowdOf(s).running == 1
    ensures RunnersBeforePop(s)
  {
    forall j | 0 <= j < |s.offices| && Running(s.offices[j].pc) ensures BeforePop(s.offices[j].pc) {
      OnlyRunner(s, i, j);
    }
  }

  lemma {:induction false} ComingBack(os: seq<Office>) returns (i: nat)
    requires Sum(os, IsAtHead) < Sum(os, IsStopped)
    ensures i < |os| && os[i].pc.WantBack?
  {
    i := |os| - 1;
    if !os[i].pc.WantBack? {
      i := ComingBack(os[..|os| - 1]);
    }
  }

  /** No office runs, and the mutex is free for any of several in lock calls. */
  lemma ManyAtQueue(c: Config, s: State) returns (step: Step)
    requires !c.guarded && s.shutdown && Labelled(s) && s.queue != [] && !PeacefulLaden(s)
    requires CrowdOf(s).running == 0 && CrowdOf(s).stopped > 1 && s.owner == Nobody
    ensures Hostile(c, s, step)
  {
    var i;
    if CrowdOf(s).atHead == 1 {
      i := ComingBack(s.offices);
    } else {
      i := SumWitness(s.offices, IsStopped);
    }
    LockerMoves(c, s, i);
    step := OfficeStep(i, "");
    OfficeMoves(c, s, i, "");
  }

  /** Nobody runs and the mutex is held for good: only main moves. */
  lemma AllLockedOut(c: Config, s: State, step: Step)
    requires !c.guarded && s.shutdown && PastBroadcast(s.main) && NoneAsleep(s) && !Peaceful(s)
    requires CrowdOf(s).running == 0 && s.owner != Nobody && Next(c, s, step).Some? && !step.Spurious?
    ensures Hostile(c, s, step)
  {
    match step
    case MainStep(_, _, _) =>
      PastBroadcastKept(c, s, step);
      SamePeace(s, Next(c, s, step).value);
    case OfficeStep(i, salt) =>
      OfficeMoves(c, s, i, salt);
      SumAt(s.offices, IsRunning, i);
      assert false;
  }

  lemma LadenTrouble(c: Config, s: State, any: Step) returns (step: Step)
    requires !c.guarded && s.shutdown && PastBroadcast(s.main) && Labelled(s) && s.queue != [] && NoneAsleep(s)
    requires !PeacefulLaden(s) && Next(c, s, any).Some? && !any.Spurious?
    ensures Hostile(c, s, step)
  {
    var w := CrowdOf(s);
    if w.running >= 2 {
      step := TwoRunning(c, s);
    } else if w.running == 1 {
      step := RunnerAmongStopped(c, s);
    } else if s.owner != Nobody {
      step := any;
      AllLockedOut(c, s, any);
    } else {
      step := ManyAtQueue(c, s);
    }
  }

  /** Where there is no peace and something can still move, something can move without making
      peace. */
  lemma Trouble(c: Config, s: State) returns (step: Step)
    requires !c.guarded && s.shutdown && PastBroadcast(s.main) && Labelled(s) && !Peaceful(s) && !Stuck(c, s)
    ensures Hostile(c, s, step)
  {
    var any: Step :| Next(c, s, any).Some? && !any.Spurious?;
    if !NoneAsleep(s) {
      var i :| 0 <= i < |s.offices| && Asleep(s.offices[i].pc);
      step := any;
      StillAsleep(c, s, i, any);
    } else if s.queue == [] {
      step := EmptyTrouble(c, s, any);
    } else {
      step := LadenTrouble(c, s, any);
    }
  }
}
