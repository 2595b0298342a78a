/** The drain from the moment the flag is set: main has its broadcast still before it, and an
    office asleep on the empty queue counts on it. */
module OfficesShutdown {
  import opened Messages
  import opened Offices
  import opened OfficesSafety
  import opened OfficesTheorems
  import opened OfficesAsWritten
  import opened OfficesDrain
  import opened OfficesGuardedDrain
  import opened OfficesUnguardedDrain
  import opened OfficesDrainTheorems

  ghost predicate BeforeBroadcast(m: MainPc) {
    m.Flagged? || m.Counted?
  }

  ghost function Woken(s: State): State {
    s.(offices := WakeAll(s.offices))
  }

  /** What the offices are taken for: before the broadcast, as it will find them. */
  ghost function Seen(s: State): State {
    if PastBroadcast(s.main) then s else Woken(s)
  }

  /** Main's broadcast puts every waiting office at the mutex, and moves no other. */
  lemma BroadcastWakes(c: Config, s: State, input: Request, garbage: Reply, waiter: nat)
    requires s.main.Counted?
    ensures var r := Next(c, s, MainStep(input, garbage, waiter));
      && r.Some? && r.value.main.Woke? && |r.value.offices| == |s.offices|
      && r.value.owner == s.owner && r.value.queue == s.queue
      && forall i :: 0 <= i < |s.offices| ==>
           r.value.offices[i] == if s.offices[i].pc == Waiting then s.offices[i].(pc := WantBack) else s.offices[i]
  {
  }

  lemma SameFinishable(c: Config, s: State, s': State)
    requires s'.offices == s.offices && s'.owner == s.owner && s'.queue == s.queue
    ensures Finishable(c, s') <==> Finishable(c, s)
  {
    SameDrainable(s, s');
    SamePeace(s, s');
  }

  lemma WakeUpdate(os: seq<Office>, i: nat, o: Office)
    requires i < |os| && o.pc != Waiting
    ensures WakeAll(os[i := o]) == WakeAll(os)[i := o]
  {
  }

  lemma WokenTwice(os: seq<Office>, i: nat)
    requires i < |os| && os[i].pc == Waiting
    ensures WakeAll(os[i := os[i].(pc := WantBack)]) == WakeAll(os)
  {
  }

  /** An office that does not go to sleep moves the same whether the others are woken or not. */
  lemma WokenByArriving(c: Config, s: State, i: nat)
    requires i < |s.offices| && Arriving(s.offices[i].pc) && s.offices[i].pc != ToWait && Arrive(c, s, i).Some?
    ensures var s' := Arrive(c, s, i).value;
      && s'.offices == s.offices[i := s'.offices[i]] && s'.offices[i].pc != Waiting && s.offices[i].pc != Waiting
      && Arrive(c, Woken(s), i) == Some(s'.(offices := WakeAll(s.offices)[i := s'.offices[i]]))
  {
  }

  /** Serving does not look at the other offices. */
  ghost predicate Answering(pc: Pc) {
    pc.Working? || pc.Acked? || pc.Replied?
  }

  lemma FetchingAmong(c: Config, s: State, i: nat, salt: string, os: seq<Office>)
    requires i < |s.offices| == |os| && os[i] == s.offices[i]
    requires !Arriving(s.offices[i].pc) && !Answering(s.offices[i].pc) && Attend(c, s, i, salt).Some?
    ensures var s' := Attend(c, s, i, salt).value;
      && s'.offices == s.offices[i := s'.offices[i]] && s'.offices[i].pc != Waiting
      && Attend(c, s.(offices := os), i, salt) == Some(s'.(offices := os[i := s'.offices[i]]))
  {
  }

  lemma AnsweringAmong(c: Config, s: State, i: nat, salt: string, os: seq<Office>)
    requires i < |s.offices| == |os| && os[i] == s.offices[i]
    requires !Arriving(s.offices[i].pc) && Answering(s.offices[i].pc) && Attend(c, s, i, salt).Some?
    ensures var s' := Attend(c, s, i, salt).value;
      && s'.offices == s.offices[i := s'.offices[i]] && s'.offices[i].pc != Waiting
      && Attend(c, s.(offices := os), i, salt) == Some(s'.(offices := os[i := s'.offices[i]]))
  {
  }

  lemma WokenByServing(c: Config, s: State, i: nat, salt: string)
    requires i < |s.offices| && !Arriving(s.offices[i].pc) && Attend(c, s, i, salt).Some?
    ensures var s' := Attend(c, s, i, salt).value;
      && s'.offices == s.offices[i := s'.offices[i]] && s'.offices[i].pc != Waiting
      && Attend(c, Woken(s), i, salt) == Some(s'.(offices := WakeAll(s.offices)[i := s'.offices[i]]))
  {
    if Answering(s.offices[i].pc) {
      AnsweringAmong(c, s, i, salt, WakeAll(s.offices));
    } else {
      FetchingAmong(c, s, i, salt, WakeAll(s.offices));
    }
  }

  lemma WokenByOffice(c: Config, s: State, i: nat, salt: string)
    requires i < |s.offices| && s.offices[i].pc != ToWait && OfficeNext(c, s, i, salt).Some?
    ensures OfficeNext(c, Woken(s), i, salt) == Some(Woken(OfficeNext(c, s, i, salt).value))
  {
    var s' := OfficeNext(c, s, i, salt).value;
    if Arriving(s.offices[i].pc) {
      WokenByArriving(c, s, i);
    } else {
      WokenByServing(c, s, i, salt);
    }
    WakeUpdate(s.offices, i, s'.offices[i]);
  }

  lemma FinishableByOffice(c: Config, s: State, i: nat, salt: string)
    requires s.shutdown && Finishable(c, s) && i < |s.offices| && OfficeNext(c, s, i, salt).Some?
    ensures Finishable(c, OfficeNext(c, s, i, salt).value)
  {
    if c.guarded {
      DrainableByOffice(c, s, i, salt);
    } else {
      PeaceByOffice(c, s, i, salt);
    }
  }

  lemma NobodyAboutToWait(c: Config, s: State, i: nat)
    requires Finishable(c, s) && i < |s.offices|
    ensures s.offices[i].pc != ToWait && s.offices[i].pc != Waiting
  {
    assert c.guarded ==> !Lost(s, i);
  }

  /** Main's own steps up to the broadcast. */
  lemma MainBroadcasts(c: Config, s: State, input: Request, garbage: Reply, waiter: nat)
    requires BeforeBroadcast(s.main)
    ensures var r := MainNext(c, s, input, garbage, waiter);
      && r.Some? && (r.value.main.Counted? || r.value.main.Woke?) && r.value.shutdown == s.shutdown
      && (Finishable(c, Seen(r.value)) <==> Finishable(c, Seen(s)))
  {
    var s' := MainNext(c, s, input, garbage, waiter).value;
    SameFinishable(c, Seen(s), Seen(s'));
  }

  lemma SeenKept(c: Config, s: State, step: Step)
    requires Reachable(c, s) && BeforeBroadcast(s.main) && Finishable(c, Seen(s)) && Next(c, s, step).Some?
    ensures Finishable(c, Seen(Next(c, s, step).value))
  {
    match step
    case MainStep(input, garbage, waiter) => MainBroadcasts(c, s, input, garbage, waiter);
    case OfficeStep(i, salt) =>
      ReachableInv(c, s);
      SeenByOffice(c, s, i, salt);
    case Spurious(i) =>
      WokenTwice(s.offices, i);
      SameFinishable(c, Woken(s), Woken(At(s, i, WantBack)));
  }

  lemma SeenByOffice(c: Config, s: State, i: nat, salt: string)
    requires s.shutdown && BeforeBroadcast(s.main) && Finishable(c, Woken(s))
    requires i < |s.offices| && OfficeNext(c, s, i, salt).Some?
    ensures Finishable(c, Seen(OfficeNext(c, s, i, salt).value))
  {
    NobodyAboutToWait(c, Woken(s), i);
    OfficeFrame(c, s, i, salt);
    WokenByOffice(c, s, i, salt);
    FinishableByOffice(c, Woken(s), i, salt);
  }

  lemma {:induction false} SeenAlong(c: Config, s: State, steps: seq<Step>, t: State)
    requires Reachable(c, s) && PastFlag(s.main) && Finishable(c, Seen(s)) && Reaches(c, s, steps, t)
    ensures Reachable(c, t) && PastFlag(t.main) && Finishable(c, Seen(t))
  {
    if steps != [] {
      var before, step := After(c, s, steps[..|steps| - 1]).value, steps[|steps| - 1];
      SeenAlong(c, s, steps[..|steps| - 1], before);
      ReachableNearer(c, before, step);
      if PastBroadcast(before.main) {
        FinishableKept(c, before, step);
        PastBroadcastKept(c, before, step);
      } else {
        SeenKept(c, before, step);
      }
    }
  }

  /** Main can go on to the broadcast at once, and leave the trouble there is. */
  lemma {:induction false} EarlyBadRun(c: Config, s: State) returns (steps: seq<Step>, t: State)
    requires Reachable(c, s) && PastFlag(s.main) && !Finishable(c, Seen(s))
    ensures Reaches(c, s, steps, t) && Quiet(steps) && Stuck(c, t) && !t.main.Joined?
    decreases Measure(s)
  {
    if PastBroadcast(s.main) {
      steps, t := BadRun(c, s);
    } else {
      var step := MainStep(Ask(0), SOME_REPLY, 0);
      MainBroadcasts(c, s, Ask(0), SOME_REPLY, 0);
      ReachableNearer(c, s, step);
      steps, t := EarlyBadRun(c, Next(c, s, step).value);
      StepFirst(c, s, step, steps, t);
      steps := [step] + steps;
    }
  }

  /** At any time after the flag is set, every schedule ends with all offices joined exactly
      when the offices, as the broadcast finds or has found them, are finishable. */
  lemma FinishesIff(c: Config, s: State)
    requires Reachable(c, s) && PastFlag(s.main)
    ensures AlwaysFinishes(c, s) <==> Finishable(c, Seen(s))
  {
    if Finishable(c, Seen(s)) {
      forall steps: seq<Step>, t: State | Reaches(c, s, steps, t) && Quiet(steps) && Stuck(c, t)
        ensures t.main.Joined?
      {
        SeenAlong(c, s, steps, t);
        EndsJoined(c, t);
      }
    } else {
      var steps, t := EarlyBadRun(c, s);
    }
  }

  lemma MainNotStuck(c: Config, s: State)
    requires BeforeBroadcast(s.main)
    ensures !Stuck(c, s)
  {
    MainBroadcasts(c, s, Ask(0), SOME_REPLY, 0);
    assert Next(c, s, MainStep(Ask(0), SOME_REPLY, 0)).Some?;
  }

  lemma EndsJoined(c: Config, t: State)
    requires Reachable(c, t) && PastFlag(t.main) && Finishable(c, Seen(t)) && Stuck(c, t)
    ensures t.main.Joined?
  {
    if BeforeBroadcast(t.main) {
      MainNotStuck(c, t);
    } else if !t.main.Joined? {
      Progress(c, t);
    }
  }

  /** The state `t` is `s` with the waiting offices at the mutex instead. */
  ghost predicate SameButAwake(s: State, t: State) {
    && |t.offices| == |s.offices| && t.owner == s.owner && t.queue == s.queue
    && forall i :: 0 <= i < |s.offices| ==>
         t.offices[i] == if s.offices[i].pc == Waiting then s.offices[i].(pc := WantBack) else s.offices[i]
  }

  /** From the flag on, before the broadcast: under the documented rule every schedule ends
      with all offices joined exactly when none is about to wait or asks for the mutex it
      holds, though any may be asleep; as written, when with the sleepers awake there is peace. */
  lemma ShutdownFinishesIff(c: Config, s: State, t: State)
    requires Reachable(c, s) && BeforeBroadcast(s.main) && SameButAwake(s, t)
    ensures var none := forall i :: 0 <= i < |s.offices| ==>
              s.offices[i].pc != ToWait && !(s.offices[i].pc == WantLock && s.owner == Held(i));
            c.guarded ==> (AlwaysFinishes(c, s) <==> none)
    ensures !c.guarded ==> (AlwaysFinishes(c, s) <==> Peaceful(t))
  {
    FinishesIff(c, s);
    assert t.offices == WakeAll(s.offices);
    SameFinishable(c, Woken(s), t);
    if c.guarded {
      AwakeDrainable(s, t);
    }
  }

  lemma AwakeDrainable(s: State, t: State)
    requires SameButAwake(s, t)
    ensures Drainable(t)
       <==> forall i :: 0 <= i < |s.offices| ==>
              s.offices[i].pc != ToWait && !(s.offices[i].pc == WantLock && s.owner == Held(i))
  {
    forall i | 0 <= i < |s.offices|
      ensures Lost(t, i) <==> s.offices[i].pc == ToWait || (s.offices[i].pc == WantLock && s.owner == Held(i))
    {
    }
  }
}
