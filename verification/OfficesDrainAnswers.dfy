/** When the drain not only ends with all offices joined but has each pushed request answered
    exactly once, told from one state after the flag is set, in every configuration. */
module OfficesDrainAnswers {
  import opened Messages
  import opened Offices
  import opened OfficesSafety
  import opened OfficesTheorems
  import opened OfficesDrain
  import opened OfficesUnguardedDrain
  import opened OfficesDrainTheorems
  import opened OfficesShutdown

  // ---- As written: while one office runs, the head it copied stays

  /** A copied head is still the head. */
  ghost predicate HeadsMatch(s: State) {
    forall i :: 0 <= i < |s.offices| && Committed(s.offices[i].pc) ==> HeadKept(s, s.offices[i].pc)
  }

  /** Two offices that both took the head of a queue keep running as long as it is not empty. */
  ghost predicate FewMatch(s: State) {
    s.queue != [] && CrowdOf(s).running <= 1 ==> HeadsMatch(s)
  }

  lemma {:induction false} WakeRunning(os: seq<Office>)
    ensures Sum(WakeAll(os), IsRunning) == Sum(os, IsRunning)
  {
    if os != [] {
      var n := |os| - 1;
      WakeRunning(os[..n]);
      assert WakeAll(os)[..n] == WakeAll(os[..n]);
    }
  }

  lemma FewMatchByMain(s: State, s': State)
    requires FewMatch(s) && s'.queue == s.queue && (s'.offices == s.offices || s'.offices == WakeAll(s.offices))
    ensures FewMatch(s')
  {
    WakeRunning(s.offices);
    forall i | 0 <= i < |s'.offices| && Committed(s'.offices[i].pc) && HeadsMatch(s)
      ensures HeadKept(s', s'.offices[i].pc)
    {
      assert s'.offices[i] == s.offices[i];
      assert HeadKept(s, s.offices[i].pc);
    }
  }

  lemma FewMatchByOffice(s: State, s': State, i: nat)
    requires FewMatch(s) && OfficeMoved(s, s', i)
    ensures FewMatch(s')
  {
    if s'.queue != [] && CrowdOf(s').running <= 1 {
      SumAt(s.offices, IsRunning, i);
      forall j | 0 <= j < |s'.offices| && Committed(s'.offices[j].pc) ensures HeadKept(s', s'.offices[j].pc) {
        if j == i {
          MoverMatches(s, s', i);
        } else {
          OtherMatches(s, s', i, j);
        }
      }
    }
  }

  lemma MoverMatches(s: State, s': State, i: nat)
    requires FewMatch(s) && OfficeMoved(s, s', i) && s'.queue != [] && CrowdOf(s').running <= 1
    requires Committed(s'.offices[i].pc)
    ensures HeadKept(s', s'.offices[i].pc)
  {
    if s.offices[i].pc.Copied? {
      assert HeadKept(s, s.offices[i].pc);
    }
  }

  lemma OtherMatches(s: State, s': State, i: nat, j: nat)
    requires FewMatch(s) && OfficeMoved(s, s', i) && s'.queue != [] && CrowdOf(s').running <= 1
    requires j < |s.offices| && j != i && Committed(s.offices[j].pc)
    ensures HeadKept(s', s.offices[j].pc)
  {
    SumAt(s.offices, IsRunning, j);
    if Running(s.offices[i].pc) {
      OnlyRunner(s, i, j);
    }
    assert HeadKept(s, s.offices[j].pc);
  }

  lemma FewMatchKept(c: Config, s: State, step: Step)
    requires !c.guarded && s.shutdown && PastFlag(s.main) && FewMatch(s) && Next(c, s, step).Some?
    ensures FewMatch(Next(c, s, step).value)
  {
    var s' := Next(c, s, step).value;
    match step
    case MainStep(input, garbage, waiter) =>
      MainNearer(c, s, input, garbage, waiter);
      FewMatchByMain(s, s');
    case OfficeStep(i, salt) =>
      OfficeMoves(c, s, i, salt);
      FewMatchByOffice(s, s', i);
    case Spurious(i) =>
      SumUpdate(s.offices, IsRunning, i, s'.offices[i]);
      SpuriousMatches(s, s', i);
  }

  lemma SpuriousMatches(s: State, s': State, i: nat)
    requires FewMatch(s) && i < |s.offices| == |s'.offices| && s'.offices == s.offices[i := s'.offices[i]]
             && s'.queue == s.queue
    requires !Committed(s'.offices[i].pc) && CrowdOf(s').running == CrowdOf(s).running
    ensures FewMatch(s')
  {
    forall j | 0 <= j < |s'.offices| && Committed(s'.offices[j].pc) && HeadsMatch(s)
      ensures HeadKept(s', s'.offices[j].pc)
    {
      assert HeadKept(s, s.offices[j].pc);
    }
  }

  lemma FlagSet(c: Config, s: State, input: Request, garbage: Reply, waiter: nat)
    requires !s.shutdown && MainNext(c, s, input, garbage, waiter).Some?
             && MainNext(c, s, input, garbage, waiter).value.shutdown
    ensures var s' := MainNext(c, s, input, garbage, waiter).value; s'.offices == s.offices && s'.queue == s.queue
  {
  }

  /** The flag is set in a state in which every copied head is the head. */
  lemma FlagMatches(c: Config, s: State, step: Step)
    requires Inv(c, s) && !s.shutdown && Next(c, s, step).Some? && Next(c, s, step).value.shutdown
    ensures FewMatch(Next(c, s, step).value)
  {
    var s' := Next(c, s, step).value;
    match step {
      case MainStep(input, garbage, waiter) => FlagSet(c, s, input, garbage, waiter);
      case OfficeStep(i, salt) => OfficeFrame(c, s, i, salt);
      case Spurious(i) =>
    }
    forall i | 0 <= i < |s'.offices| && Committed(s'.offices[i].pc) ensures HeadKept(s', s'.offices[i].pc) {
      assert HeadKept(s, s.offices[i].pc);
    }
  }

  lemma {:induction false} FewMatchAlong(c: Config, s: State, steps: seq<Step>, t: State)
    requires !c.guarded && Inv(c, s) && !s.shutdown && Reaches(c, s, steps, t)
    ensures t.shutdown ==> FewMatch(t)
  {
    if steps != [] {
      var before, step := After(c, s, steps[..|steps| - 1]).value, steps[|steps| - 1];
      FewMatchAlong(c, s, steps[..|steps| - 1], before);
      InvAlong(c, s, steps[..|steps| - 1], before);
      if before.shutdown {
        FewMatchKept(c, before, step);
      } else if t.shutdown {
        FlagMatches(c, before, step);
      }
    }
  }

  lemma ReachableFewMatch(c: Config, t: State)
    requires !c.guarded && Reachable(c, t) && t.shutdown
    ensures FewMatch(t)
  {
    var s, steps :| Init(c, s) && Reaches(c, s, steps, t);
    InitInv(c, s);
    FewMatchAlong(c, s, steps, t);
  }

  // ---- A finishable drain pops what it copied

  lemma FinishablePopsRight(c: Config, s: State, step: Step)
    requires Reachable(c, s) && PastFlag(s.main) && Finishable(c, Seen(s)) && Next(c, s, step).Some?
    ensures PopsRight(s, step)
  {
    ReachableInv(c, s);
    if step.OfficeStep? && s.offices[step.i].pc.Active? {
      if c.guarded {
        assert HeadKept(s, s.offices[step.i].pc);
      } else {
        ReachableFewMatch(c, s);
        PeacefulPopsRight(s, step.i);
      }
    }
  }

  lemma SeenRunning(s: State)
    ensures CrowdOf(Seen(s)).running == CrowdOf(s).running && Seen(s).queue == s.queue
  {
    WakeRunning(s.offices);
  }

  lemma PeacefulFewRun(s: State)
    requires Peaceful(s) && s.queue != []
    ensures CrowdOf(s).running <= 1
  {
  }

  lemma PeacefulPopsRight(s: State, i: nat)
    requires FewMatch(s) && Peaceful(Seen(s)) && s.queue != [] && i < |s.offices| && s.offices[i].pc.Active?
    ensures HeadKept(s, s.offices[i].pc)
  {
    SeenRunning(s);
    PeacefulFewRun(Seen(s));
    assert HeadsMatch(s);
    assert Committed(s.offices[i].pc);
  }

  /** So what is answered once stays so, and what is not is never made good. */
  lemma {:induction false} OnceSameAlong(c: Config, s: State, steps: seq<Step>, t: State)
    requires Reachable(c, s) && PastFlag(s.main) && Finishable(c, Seen(s)) && Reaches(c, s, steps, t)
    ensures ExactlyOnce(t) <==> ExactlyOnce(s)
  {
    if steps != [] {
      var before, step := After(c, s, steps[..|steps| - 1]).value, steps[|steps| - 1];
      OnceSameAlong(c, s, steps[..|steps| - 1], before);
      SeenAlong(c, s, steps[..|steps| - 1], before);
      FinishablePopsRight(c, before, step);
      ExactlyOnceSame(c, before, step);
    }
  }

  // ---- Every schedule answers every request

  ghost predicate AllAnswered(s: State) {
    s.main.Joined? && multiset(s.pushed) == Requests(s.byOffices) + multiset(s.queue)
  }

  /** Every run that goes on as long as it can ends with all offices joined and each pushed
      request answered exactly once, or left in the queue of a server without offices. */
  ghost predicate AlwaysAnswers(c: Config, s: State) {
    forall steps: seq<Step>, t: State :: Reaches(c, s, steps, t) && Quiet(steps) && Stuck(c, t) ==> AllAnswered(t)
  }

  /** Some run goes on until nothing more can happen. */
  lemma {:induction false} RunToTheEnd(c: Config, s: State) returns (steps: seq<Step>, t: State)
    requires Reachable(c, s) && PastFlag(s.main)
    ensures Reaches(c, s, steps, t) && Quiet(steps) && Stuck(c, t)
    decreases Measure(s)
  {
    if Stuck(c, s) {
      steps, t := [], s;
    } else {
      var step: Step :| Next(c, s, step).Some? && !step.Spurious?;
      ReachableNearer(c, s, step);
      steps, t := RunToTheEnd(c, Next(c, s, step).value);
      StepFirst(c, s, step, steps, t);
      steps := [step] + steps;
    }
  }

  lemma CancelBag<T>(a: multiset<T>, b: multiset<T>, more: multiset<T>)
    ensures a + more == b + more <==> a == b
  {
    if a + more == b + more {
      assert a == (a + more) - more && b == (b + more) - more;
    }
  }

  /** When all offices are joined, exactly once means all answered. */
  lemma OnceIsAnswered(c: Config, t: State)
    requires Reachable(c, t) && t.main.Joined?
    ensures ExactlyOnce(t) <==> AllAnswered(t)
  {
    ReachableInv(c, t);
    ClosedTallies(t.offices);
    NoneHeld(Bag(t.offices, InHand), Requests(t.byOffices));
    assert multiset(t.pushed) == multiset(t.popped + t.queue) == multiset(t.popped) + multiset(t.queue);
    CancelBag(multiset(t.popped), Requests(t.byOffices), multiset(t.queue));
  }

  lemma NoneHeld<T>(held: multiset<T>, done: multiset<T>)
    requires held == multiset{}
    ensures held + done == done
  {
  }

  /** From the flag on every schedule ends with all offices joined and each pushed request
      answered exactly once, in every configuration, exactly when every schedule finishes and
      no request has been taken twice or lost by then. */
  lemma DrainAnswersIff(c: Config, s: State)
    requires Reachable(c, s) && PastFlag(s.main)
    ensures AlwaysAnswers(c, s) <==> AlwaysFinishes(c, s) && ExactlyOnce(s)
  {
    FinishesIff(c, s);
    if AlwaysFinishes(c, s) && ExactlyOnce(s) {
      forall steps: seq<Step>, t: State | Reaches(c, s, steps, t) && Quiet(steps) && Stuck(c, t)
        ensures AllAnswered(t)
      {
        OnceSameAlong(c, s, steps, t);
        SeenAlong(c, s, steps, t);
        OnceIsAnswered(c, t);
      }
    } else if AlwaysAnswers(c, s) {
      assert AlwaysFinishes(c, s);
      var steps, t := RunToTheEnd(c, s);
      OnceSameAlong(c, s, steps, t);
      SeenAlong(c, s, steps, t);
      OnceIsAnswered(c, t);
    }
  }
}
