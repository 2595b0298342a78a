/** When the drain always ends with all offices joined, for the documented rule and for the
    code as written, and the runs on which it does not. */
module OfficesDrainTheorems {
  import opened Messages
  import opened Ledger
  import opened Offices
  import opened OfficesSafety
  import opened OfficesTheorems
  import opened OfficesAsWritten
  import opened OfficesDrain
  import opened OfficesGuardedDrain
  import opened OfficesUnguardedDrain

  ghost predicate Finishable(c: Config, s: State) {
    if c.guarded then Drainable(s) else Peaceful(s)
  }

  lemma FinishableKept(c: Config, s: State, step: Step)
    requires Reachable(c, s) && PastBroadcast(s.main) && Finishable(c, s) && Next(c, s, step).Some?
    ensures Finishable(c, Next(c, s, step).value)
  {
    ReachableInv(c, s);
    if c.guarded {
      DrainableKept(c, s, step);
    } else {
      PeaceKept(c, s, step);
    }
  }

  /** From a finishable state of the drain some thread can move until all offices are joined. */
  lemma Progress(c: Config, s: State)
    requires Reachable(c, s) && PastBroadcast(s.main) && Finishable(c, s) && !s.main.Joined?
    ensures !Stuck(c, s)
  {
    ReachableInv(c, s);
    if c.guarded {
      DrainableProgress(c, s);
    } else {
      PeaceProgress(c, s);
    }
  }

  /** From any other state a scheduler can go on without making the end reachable. */
  lemma NoProgress(c: Config, s: State) returns (step: Step)
    requires Reachable(c, s) && PastBroadcast(s.main) && !Finishable(c, s) && !Stuck(c, s)
    ensures Next(c, s, step).Some? && !step.Spurious? && !Finishable(c, Next(c, s, step).value)
  {
    ReachableInv(c, s);
    if c.guarded {
      step :| Next(c, s, step).Some? && !step.Spurious?;
      UndrainableStays(c, s, step);
    } else {
      step := Trouble(c, s);
    }
  }

  lemma JoinedIsFinishable(c: Config, s: State)
    requires Reachable(c, s) && s.main.Joined?
    ensures Finishable(c, s)
  {
    ReachableInv(c, s);
    ClosedIsPeaceful(s);
  }

  lemma {:induction false} FinishableAlong(c: Config, s: State, steps: seq<Step>, t: State)
    requires Reachable(c, s) && PastBroadcast(s.main) && Finishable(c, s) && Reaches(c, s, steps, t)
    ensures Reachable(c, t) && PastBroadcast(t.main) && Finishable(c, t)
  {
    if steps != [] {
      var before, step := After(c, s, steps[..|steps| - 1]).value, steps[|steps| - 1];
      FinishableAlong(c, s, steps[..|steps| - 1], before);
      FinishableKept(c, before, step);
      PastBroadcastKept(c, before, step);
      Extend(c, before, step, t);
    }
  }

  lemma StepFirst(c: Config, s: State, step: Step, rest: seq<Step>, t: State)
    requires Next(c, s, step).Some? && Reaches(c, Next(c, s, step).value, rest, t)
    ensures Reaches(c, s, [step] + rest, t)
  {
    assert [step][..0] == [];
    assert Reaches(c, s, [step], Next(c, s, step).value);
    AfterConcat(c, s, [step], Next(c, s, step).value, rest);
  }

  /** A run that goes on as long as it can and does not end well. */
  lemma {:induction false} BadRun(c: Config, s: State) returns (steps: seq<Step>, t: State)
    requires Reachable(c, s) && PastBroadcast(s.main) && !Finishable(c, s)
    ensures Reaches(c, s, steps, t) && Quiet(steps) && Stuck(c, t) && !t.main.Joined?
    decreases Measure(s)
  {
    if Stuck(c, s) {
      steps, t := [], s;
      if s.main.Joined? {
        JoinedIsFinishable(c, s);
      }
    } else {
      var step := NoProgress(c, s);
      ReachableNearer(c, s, step);
      PastBroadcastKept(c, s, step);
      steps, t := BadRun(c, Next(c, s, step).value);
      StepFirst(c, s, step, steps, t);
      steps := [step] + steps;
    }
  }

  /** From the broadcast on every schedule ends with all offices joined exactly when the state
      is finishable: under the documented rule when no office is lost, as written at peace. */
  lemma DrainFinishesIff(c: Config, s: State)
    requires Reachable(c, s) && PastBroadcast(s.main)
    ensures AlwaysFinishes(c, s) <==> if c.guarded then Drainable(s) else Peaceful(s)
  {
    if Finishable(c, s) {
      forall steps: seq<Step>, t: State | Reaches(c, s, steps, t) && Quiet(steps) && Stuck(c, t)
        ensures t.main.Joined?
      {
        FinishableAlong(c, s, steps, t);
        if !t.main.Joined? {
          Progress(c, t);
        }
      }
    } else {
      var steps, t := BadRun(c, s);
    }
  }

  lemma {:induction false} SumOfOne(os: seq<Office>, f: Office -> nat)
    requires |os| == 1
    ensures Sum(os, f) == f(os[0])
  {
    assert os[..0] == [];
    assert Sum(os[..0], f) == 0;
  }

  lemma PeaceAlone(c: Config, s: State)
    requires |s.offices| == 1 && Locks(c, s) && HeadKept(s, s.offices[0].pc) && PastBroadcast(s.main)
    ensures Peaceful(s) <==> !Lost(s, 0)
  {
    SumOfOne(s.offices, IsStopped);
    SumOfOne(s.offices, IsAtHead);
    SumOfOne(s.offices, IsRunning);
    var pc := s.offices[0].pc;
    if Asleep(pc) {
      assert !NoneAsleep(s);
    } else if Stopped(pc) {
      assert CrowdOf(s) == Crowd(1, IsAtHead(s.offices[0]), 0);
      assert Freed(s) <==> s.owner == Nobody;
    } else {
      assert CrowdOf(s).stopped == 0;
    }
  }

  /** One office run as written loses its way as one under the documented rule does. */
  lemma AloneAlike(c: Config, s: State)
    requires c.n <= 1 && Reachable(c, s) && PastBroadcast(s.main)
    ensures AlwaysFinishes(c, s) <==> Drainable(s)
  {
    DrainFinishesIff(c, s);
    if !c.guarded {
      ReachableInv(c, s);
      FinishableAlone(c, s);
    }
  }

  lemma FinishableAlone(c: Config, s: State)
    requires c.n <= 1 && Locks(c, s) && Heads(s) && PastBroadcast(s.main)
    ensures Peaceful(s) <==> Drainable(s)
  {
    if c.n == 0 {
      ClosedIsPeaceful(s);
    } else {
      PeaceAlone(c, s);
    }
  }

  // ---- Runs that do not finish

  lemma BroadcastAfter(c: Config, s: State) returns (t: State)
    requires Reachable(c, s) && s.main.Flagged?
    ensures Reachable(c, t) && t.main.Woke? && t.offices == WakeAll(s.offices)
    ensures t.owner == s.owner && t.queue == s.queue && t.shutdown == s.shutdown && t.popped == s.popped
  {
    var main := MainStep(Ask(0), SOME_REPLY, 0);
    var s1 := s.(main := Counted(s.main.req, s.main.buf.(payload := Wrap(s.active))));
    Extend(c, s, main, s1);
    t := s1.(main := Woke(s1.main.req, s1.main.buf), offices := WakeAll(s1.offices));
    Extend(c, s1, main, t);
  }

  /** Main looks at no office between the flag and the broadcast: one that had found neither
      request nor shutdown goes to sleep after it. For any number of offices. */
  lemma BroadcastMissed(c: Config) returns (t: State)
    requires c.n >= 1 && ValidAdminPassword(c.adminPassword)
    ensures Reachable(c, t) && PastBroadcast(t.main) && !AlwaysFinishes(c, t)
    ensures |t.offices| == c.n && t.offices[0].pc == ToWait
  {
    StartReachable(c);
    var s1 := OfficeLocks(c, Start(c), 0);
    var s2 := At(s1, 0, ToWait);
    Extend(c, s1, OfficeStep(0, ""), s2);
    var s3 := MainFlags(c, s2);
    t := BroadcastAfter(c, s3);
    assert Lost(t, 0) && Asleep(t.offices[0].pc);
    DrainFinishesIff(c, t);
  }

  lemma OfficeLocks(c: Config, s: State, i: nat) returns (t: State)
    requires Reachable(c, s) && !s.shutdown && s.owner == Nobody
    requires i < |s.offices| && s.offices[i].pc == Check
    ensures Reachable(c, t) && t == At(s, i, Testing).(owner := Held(i))
  {
    var s1 := At(s, i, WantLock);
    Extend(c, s, OfficeStep(i, ""), s1);
    t := At(s1, i, Testing).(owner := Held(i));
    Extend(c, s1, OfficeStep(i, ""), t);
    assert t.offices == At(s, i, Testing).offices;
  }

  /** Offices 1 to k - 1 begin their lock calls. */
  lemma {:induction false} OthersLock(c: Config, s: State, k: nat) returns (t: State)
    requires Reachable(c, s) && !s.shutdown && k <= |s.offices| && forall j :: 1 <= j < k ==> s.offices[j].pc == Check
    ensures Reachable(c, t) && t == s.(offices := t.offices) && |t.offices| == |s.offices|
    ensures forall j :: 1 <= j < k ==> t.offices[j].pc == WantLock
    ensures forall j :: 0 <= j < |s.offices| && (j == 0 || j >= k) ==> t.offices[j] == s.offices[j]
  {
    if k <= 1 {
      t := s;
    } else {
      var before := OthersLock(c, s, k - 1);
      t := At(before, k - 1, WantLock);
      Extend(c, before, OfficeStep(k - 1, ""), t);
    }
  }

  /** As written, an office that found the queue empty and the flag set closes with the mutex;
      the others are in their lock calls and never return. None of them is lost before. */
  lemma ClosesHolding(c: Config) returns (t: State)
    requires !c.guarded && c.n >= 2 && ValidAdminPassword(c.adminPassword)
    ensures Reachable(c, t) && PastBroadcast(t.main) && Drainable(t) && !AlwaysFinishes(c, t)
    ensures |t.offices| == c.n && t.offices[0].pc == Testing && t.owner == Held(0) && t.queue == []
  {
    StartReachable(c);
    var s1 := OfficeLocks(c, Start(c), 0);
    var s2 := OthersLock(c, s1, c.n);
    var s3 := MainFlags(c, s2);
    t := BroadcastAfter(c, s3);
    HeldByCloser(t);
    DrainFinishesIff(c, t);
  }

  lemma HeldByCloser(s: State)
    requires |s.offices| >= 2 && s.owner == Held(0) && s.queue == []
    requires s.offices[0].pc == Testing && forall j :: 1 <= j < |s.offices| ==> s.offices[j].pc == WantLock
    ensures Drainable(s) && !Peaceful(s)
  {
    SumAt(s.offices, IsStopped, 1);
    assert !Freed(s);
  }

  /** As written, two offices count on the last request; the second pops an empty queue. */
  lemma LastRequestTwice(c: Config) returns (t: State)
    requires !c.guarded && c.n >= 2 && ValidAdminPassword(c.adminPassword)
    ensures Reachable(c, t) && PastBroadcast(t.main) && Drainable(t) && !AlwaysFinishes(c, t)
    ensures |t.offices| == c.n && t.offices[1].pc == Copied(Ask(1)) && t.popped == [Ask(1)] && t.queue == []
  {
    var s1 := OneQueued(c);
    var s2 := OfficeCopies(c, s1, 0);
    var s3 := OfficeCopies(c, s2, 1);
    t := OfficePops(c, s3, 0);
    BoundToEmpty(c, t, 1);
  }

  /** One request queued, and the shutdown set and broadcast before any office moves. */
  lemma OneQueued(c: Config) returns (t: State)
    requires ValidAdminPassword(c.adminPassword)
    ensures Reachable(c, t) && t.shutdown && PastBroadcast(t.main) && t.queue == [Ask(1)] && t.popped == []
    ensures t.offices == Start(c).offices
  {
    StartReachable(c);
    var s1 := MainPushes(c, Start(c), Ask(1));
    var s2 := MainFlags(c, s1);
    t := BroadcastAfter(c, s2);
    assert t.offices == Start(c).offices;
    assert t.popped == s1.popped;
  }

  lemma BoundToEmpty(c: Config, s: State, i: nat)
    requires !c.guarded && Reachable(c, s) && PastBroadcast(s.main) && s.queue == []
    requires i < |s.offices| && Committed(s.offices[i].pc)
    ensures !AlwaysFinishes(c, s)
  {
    DrainFinishesIff(c, s);
  }

  lemma OfficeWaits(c: Config, s: State, i: nat) returns (t: State)
    requires Reachable(c, s) && !s.shutdown && s.queue == [] && s.owner == Nobody
    requires i < |s.offices| && s.offices[i].pc == Check
    ensures Reachable(c, t) && t == At(s, i, Waiting)
  {
    var step := OfficeStep(i, "");
    var s1 := At(s, i, WantLock);
    Extend(c, s, step, s1);
    var s2 := At(s1, i, Testing).(owner := Held(i));
    Extend(c, s1, step, s2);
    var s3 := At(s2, i, ToWait);
    Extend(c, s2, step, s3);
    t := At(s3, i, Waiting).(owner := Nobody);
    Extend(c, s3, step, t);
    assert t.offices == At(s, i, Waiting).offices;
  }

  /** Main reads an ordinary request, pushes it and wakes the waiter `w`. */
  lemma MainWakes(c: Config, s: State, r: Request, w: nat) returns (t: State)
    requires Reachable(c, s) && s.main == Reading && s.owner == Nobody && Addressable(r) && !r.args.Shutdown?
    requires w < |s.offices| && s.offices[w].pc == Waiting
    ensures Reachable(c, t)
    ensures t == At(s, w, WantBack).(queue := s.queue + [r], pushed := s.pushed + [r], taken := s.taken + [r])
  {
    var step := MainStep(r, SOME_REPLY, w);
    var s1 := s.(main := Read(r), taken := s.taken + [r]);
    Extend(c, s, step, s1);
    var s2 := s1.(main := Locked(r), owner := MainThread);
    Extend(c, s1, step, s2);
    var s3 := s2.(main := Pushed, queue := s.queue + [r], pushed := s.pushed + [r]);
    Extend(c, s2, step, s3);
    var s4 := At(s3, w, WantBack).(main := Signalled);
    Extend(c, s3, step, s4);
    t := s4.(main := Reading, owner := Nobody);
    Extend(c, s4, step, t);
  }

  lemma OfficeFetches(c: Config, s: State, i: nat) returns (t: State)
    requires Reachable(c, s) && !s.shutdown && s.queue != [] && s.owner == Nobody
    requires i < |s.offices| && s.offices[i].pc == Check
    ensures Reachable(c, t) && t == At(s, i, Copied(s.queue[0])).(owner := Held(i))
  {
    var step := OfficeStep(i, "");
    var s1 := At(s, i, WantLock);
    Extend(c, s, step, s1);
    var s2 := At(s1, i, Testing).(owner := Held(i));
    Extend(c, s1, step, s2);
    var s3 := At(s2, i, Fetching);
    Extend(c, s2, step, s3);
    t := At(s3, i, Copied(s.queue[0]));
    Extend(c, s3, step, t);
    assert t.offices == At(s, i, Copied(s.queue[0])).offices;
  }

  /** Another office takes the one request in the queue before the woken one is back. */
  lemma OfficeTakes(c: Config, s: State, i: nat) returns (t: State)
    requires Reachable(c, s) && !s.shutdown && |s.queue| == 1 && s.owner == Nobody
    requires i < |s.offices| && s.offices[i].pc == Check
    ensures Reachable(c, t) && t.queue == [] && t.owner == Nobody && !t.shutdown && t.main == s.main
            && t.table == s.table
    ensures |t.offices| == |s.offices| && t.offices[i].pc == Working(s.queue[0])
    ensures forall j :: 0 <= j < |s.offices| && j != i ==> t.offices[j] == s.offices[j]
  {
    var s1 := OfficeFetches(c, s, i);
    var s2 := OfficePops(c, s1, i);
    t := At(s2, i, Working(s.queue[0])).(owner := Nobody);
    Extend(c, s2, OfficeStep(i, ""), t);
  }

  lemma OfficeRelocks(c: Config, s: State, i: nat) returns (t: State)
    requires Reachable(c, s) && !s.shutdown && s.queue == [] && s.owner == Nobody
    requires i < |s.offices| && s.offices[i].pc == WantBack
    ensures Reachable(c, t) && t == At(s, i, WantLock).(owner := Held(i))
  {
    var step := OfficeStep(i, "");
    var s1 := At(s, i, Woken).(owner := Held(i));
    Extend(c, s, step, s1);
    var s2 := At(s1, i, Check);
    Extend(c, s1, step, s2);
    t := At(s2, i, WantLock);
    Extend(c, s2, step, t);
    assert t.offices == At(s, i, WantLock).offices;
  }

  /** An office answers a request it holds, and is back at the head of its loop. */
  lemma OfficeAnswers(c: Config, s: State, i: nat) returns (t: State)
    requires Reachable(c, s) && i < |s.offices| && s.offices[i].pc.Working? && Addressable(s.offices[i].pc.req)
    ensures Reachable(c, t) && t.table == Effect(c.hash, s.table, s.offices[i].pc.req, "")
    ensures t.queue == s.queue && t.owner == s.owner && t.shutdown == s.shutdown && t.main == s.main
    ensures |t.offices| == |s.offices| && t.offices[i].pc == Check
    ensures forall j :: 0 <= j < |s.offices| && j != i ==> t.offices[j] == s.offices[j]
  {
    var s1 := OfficeHandles(c, s, i, "");
    t := OfficeSends(c, s1, i);
  }

  /** With two offices the other way to get lost happens too: one is woken for a request the
      other has taken, and asks for the mutex it holds; the others are in their lock calls. */
  lemma RelockCaught(c: Config) returns (t: State)
    requires c.n >= 2 && ValidAdminPassword(c.adminPassword)
    ensures Reachable(c, t) && PastBroadcast(t.main) && !AlwaysFinishes(c, t)
    ensures |t.offices| == c.n && t.offices[0].pc == WantLock && t.owner == Held(0)
  {
    var s1 := RelockedEarly(c);
    var s2 := OfficeAnswers(c, s1, 1);
    var s3 := OthersLock(c, s2, c.n);
    var s4 := MainFlags(c, s3);
    t := BroadcastAfter(c, s4);
    AllInLockCalls(t);
    DrainFinishesIff(c, t);
  }

  /** Before the shutdown: office 0 asks for the mutex it holds, office 1 serves the request
      that woke it, the others are at the head of their loops. */
  lemma RelockedEarly(c: Config) returns (t: State)
    requires c.n >= 2 && ValidAdminPassword(c.adminPassword)
    ensures Reachable(c, t) && !t.shutdown && t.main == Reading && t.table == OpeningTable(c)
    ensures |t.offices| == c.n && t.offices[0].pc == WantLock && t.owner == Held(0) && t.queue == []
    ensures t.offices[1].pc == Working(Ask(1)) && forall j :: 2 <= j < c.n ==> t.offices[j].pc == Check
  {
    StartReachable(c);
    var s1 := OfficeWaits(c, Start(c), 0);
    var s2 := MainWakes(c, s1, Ask(1), 0);
    var s3 := OfficeTakes(c, s2, 1);
    t := OfficeRelocks(c, s3, 0);
  }

  lemma AllInLockCalls(s: State)
    requires |s.offices| >= 2 && s.owner == Held(0) && s.queue == []
    requires forall j :: 0 <= j < |s.offices| ==> s.offices[j].pc == WantLock
    ensures !Drainable(s) && !Peaceful(s)
  {
    assert Lost(s, 0);
    SumAt(s.offices, IsStopped, 0);
    assert !Freed(s);
  }
}
