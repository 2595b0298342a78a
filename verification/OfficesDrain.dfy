/** The drain after an accepted shutdown, whether or not the documented rule for the queue is
    followed: every step brings it nearer its end, so it ends one way or another. What it means
    that it always ends well, with all offices joined. */
module OfficesDrain {
  import opened Messages
  import opened Offices
  import opened OfficesSafety
  import opened OfficesTheorems
  import opened OfficesAsWritten

  // ---- The measure

  ghost function Rank(o: Office): nat {
    match o.pc
    case Closed => 0
    case Active(_) => 1
    case Copied(_) => 2
    case Fetching => 3
    case Testing => 4
    case WantLock => 5
    case Check => 6
    case Woken => 7
    case Replied => 7
    case WantBack => 8
    case Acked(_) => 8
    case Working(_) => 9
    case Waiting => 9
    case ToWait => 10
    case Popped(_) => 10
  }

  ghost function MainRank(m: MainPc): nat {
    match m
    case Flagged(_, _) => 4
    case Counted(_, _) => 3
    case Woke(_, _) => 2
    case Joining => 1
    case _ => 0
  }

  /** 1 for an office that has seen a request in the queue and not fetched it yet. */
  ghost function Hopeful(o: Office): nat {
    if o.pc.Fetching? then 1 else 0
  }

  /** A queued request pays for the trip of the office that takes it and, in case it was the
      last one, for the ways back of the offices that had seen it too. */
  ghost function Measure(s: State): nat {
    Fare(s) * |s.queue| + (if s.queue == [] then 4 * Sum(s.offices, Hopeful) else 0)
    + Sum(s.offices, Rank) + MainRank(s.main)
  }

  ghost function Fare(s: State): nat {
    10 + 4 * |s.offices|
  }

  lemma {:induction false} WakeRank(os: seq<Office>)
    ensures Sum(WakeAll(os), Rank) <= Sum(os, Rank) && Sum(WakeAll(os), Hopeful) == Sum(os, Hopeful)
  {
    if os != [] {
      var n := |os| - 1;
      WakeRank(os[..n]);
      assert WakeAll(os)[..n] == WakeAll(os[..n]);
    }
  }

  lemma {:induction false} HopefulBound(os: seq<Office>)
    ensures Sum(os, Hopeful) <= |os|
  {
    if os != [] {
      HopefulBound(os[..|os| - 1]);
    }
  }

  lemma ArrivingNearer(c: Config, s: State, i: nat)
    requires s.shutdown && i < |s.offices| && Arriving(s.offices[i].pc) && Arrive(c, s, i).Some?
    ensures var s' := Arrive(c, s, i).value;
      && |s'.offices| == |s.offices| && s'.queue == s.queue && Rank(s'.offices[i]) < Rank(s.offices[i])
      && (s.queue == [] ==> Hopeful(s'.offices[i]) == 0)
  {
  }

  lemma PoppingNearer(c: Config, s: State, i: nat, salt: string)
    requires i < |s.offices| && s.offices[i].pc.Active? && Attend(c, s, i, salt).Some?
    ensures var s' := Attend(c, s, i, salt).value;
      && |s'.offices| == |s.offices| && Hopeful(s'.offices[i]) == 0
      && s.queue != [] && s'.queue == s.queue[1..] && Rank(s'.offices[i]) <= Rank(s.offices[i]) + 9
  {
  }

  lemma ServingNearer(c: Config, s: State, i: nat, salt: string)
    requires i < |s.offices| && !Arriving(s.offices[i].pc) && !s.offices[i].pc.Active? && Attend(c, s, i, salt).Some?
    ensures var s' := Attend(c, s, i, salt).value;
      && |s'.offices| == |s.offices| && Hopeful(s'.offices[i]) == 0 && s'.queue == s.queue
      && Rank(s'.offices[i]) < Rank(s.offices[i]) + (if s.queue == [] then 4 * Hopeful(s.offices[i]) else 0)
  {
  }

  lemma OneFareLess(fare: nat, n: nat)
    requires n > 0
    ensures fare * n == fare * (n - 1) + fare
  {
  }

  lemma OfficeNearer(c: Config, s: State, i: nat, salt: string)
    requires s.shutdown && i < |s.offices| && OfficeNext(c, s, i, salt).Some?
    ensures Measure(OfficeNext(c, s, i, salt).value) < Measure(s)
  {
    var s' := OfficeNext(c, s, i, salt).value;
    OfficeFrame(c, s, i, salt);
    SumUpdate(s.offices, Rank, i, s'.offices[i]);
    SumUpdate(s.offices, Hopeful, i, s'.offices[i]);
    if Arriving(s.offices[i].pc) {
      ArrivingNearer(c, s, i);
    } else if s.offices[i].pc.Active? {
      PoppingNearer(c, s, i, salt);
      HopefulBound(s'.offices);
      OneFareLess(Fare(s), |s.queue|);
    } else {
      ServingNearer(c, s, i, salt);
    }
  }

  lemma MainNearer(c: Config, s: State, input: Request, garbage: Reply, waiter: nat)
    requires PastFlag(s.main) && MainNext(c, s, input, garbage, waiter).Some?
    ensures var s' := MainNext(c, s, input, garbage, waiter).value;
            s'.queue == s.queue && MainRank(s'.main) < MainRank(s.main) && PastFlag(s'.main)
                && s'.shutdown == s.shutdown
            && (s'.offices == s.offices || s'.offices == WakeAll(s.offices))
  {
  }

  lemma NearerByMain(s: State, s': State)
    requires s'.queue == s.queue && MainRank(s'.main) < MainRank(s.main) && |s'.offices| == |s.offices|
    requires Sum(s'.offices, Rank) <= Sum(s.offices, Rank) && Sum(s'.offices, Hopeful) == Sum(s.offices, Hopeful)
    ensures Measure(s') < Measure(s)
  {
    assert Fare(s') == Fare(s);
  }

  /** Every step of the drain, by whichever thread, lowers the measure, also when offices use
      the queue side by side. */
  lemma StepNearer(c: Config, s: State, step: Step)
    requires s.shutdown && PastFlag(s.main) && Next(c, s, step).Some?
    ensures Measure(Next(c, s, step).value) < Measure(s)
    ensures Next(c, s, step).value.shutdown && PastFlag(Next(c, s, step).value.main)
  {
    var s' := Next(c, s, step).value;
    match step
    case MainStep(input, garbage, waiter) =>
      MainNearer(c, s, input, garbage, waiter);
      WakeRank(s.offices);
      NearerByMain(s, s');
    case OfficeStep(i, salt) =>
      OfficeFrame(c, s, i, salt);
      OfficeNearer(c, s, i, salt);
    case Spurious(i) =>
      SumUpdate(s.offices, Rank, i, s'.offices[i]);
      SumUpdate(s.offices, Hopeful, i, s'.offices[i]);
  }

  lemma ReachableNearer(c: Config, s: State, step: Step)
    requires Reachable(c, s) && PastFlag(s.main) && Next(c, s, step).Some?
    ensures var s' := Next(c, s, step).value;
            Reachable(c, s') && PastFlag(s'.main) && Measure(s') < Measure(s)
  {
    ReachableInv(c, s);
    Extend(c, s, step, Next(c, s, step).value);
    StepNearer(c, s, step);
  }

  /** No run of the drain is longer than its measure, whatever the scheduler does. */
  lemma {:induction false} DrainBounded(c: Config, s: State, steps: seq<Step>, t: State)
    requires Reachable(c, s) && PastFlag(s.main) && Reaches(c, s, steps, t)
    ensures Reachable(c, t) && PastFlag(t.main) && |steps| + Measure(t) <= Measure(s)
  {
    if steps != [] {
      var before := After(c, s, steps[..|steps| - 1]).value;
      DrainBounded(c, s, steps[..|steps| - 1], before);
      ReachableNearer(c, before, steps[|steps| - 1]);
    }
  }

  // ---- Whether it finishes

  /** Nothing but a spurious wakeup, which no thread may count on, can happen. */
  ghost predicate Stuck(c: Config, s: State) {
    forall step: Step :: Next(c, s, step).Some? ==> step.Spurious?
  }

  ghost predicate Quiet(steps: seq<Step>) {
    forall k :: 0 <= k < |steps| ==> !steps[k].Spurious?
  }

  /** Every run that goes on as long as it can ends with all offices joined. */
  ghost predicate AlwaysFinishes(c: Config, s: State) {
    forall steps: seq<Step>, t: State :: Reaches(c, s, steps, t) && Quiet(steps) && Stuck(c, t) ==> t.main.Joined?
  }

  /** Main has sent its last signal. */
  ghost predicate PastBroadcast(m: MainPc) {
    m.Woke? || Ended(m)
  }

  lemma PastBroadcastKept(c: Config, s: State, step: Step)
    requires PastBroadcast(s.main) && Next(c, s, step).Some?
    ensures PastBroadcast(Next(c, s, step).value.main)
    ensures step.MainStep? ==>
      var s' := Next(c, s, step).value; s'.offices == s.offices && s'.owner == s.owner && s'.queue == s.queue
  {
    if step.OfficeStep? {
      OfficeFrame(c, s, step.i, step.salt);
    }
  }

  lemma MainProgress(c: Config, s: State)
    requires PastBroadcast(s.main) && !s.main.Joined? && AllClosed(s.offices)
    ensures !Stuck(c, s)
  {
    assert Next(c, s, MainStep(Ask(0), SOME_REPLY, 0)).Some?;
  }
}
