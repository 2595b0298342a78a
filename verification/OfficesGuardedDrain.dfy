/** The drain under the documented rule: the offices that never come back are those that wait,
    are about to wait, or ask for the mutex they hold, and they stay so. */
module OfficesGuardedDrain {
  import opened Offices
  import opened OfficesSafety
  import opened OfficesTheorems
  import opened OfficesDrain

  ghost predicate Lost(s: State, i: nat)
    requires i < |s.offices|
  {
    s.offices[i].pc == ToWait || s.offices[i].pc == Waiting || (s.offices[i].pc == WantLock && s.owner == Held(i))
  }

  /** No office waits, is about to wait, or asks for a mutex it holds. */
  ghost predicate Drainable(s: State) {
    forall i :: 0 <= i < |s.offices| ==> !Lost(s, i)
  }

  /** In the drain an office loses its way only by a wait it had already begun. */
  lemma ArrivingNotLost(c: Config, s: State, i: nat)
    requires c.guarded && s.shutdown && i < |s.offices| && Arriving(s.offices[i].pc) && Arrive(c, s, i).Some?
             && !Lost(s, i)
    ensures var s' := Arrive(c, s, i).value;
            |s'.offices| == |s.offices| && !Lost(s', i)
                && (s'.owner == s.owner || s'.owner == Nobody || s'.owner == Held(i))
  {
  }

  lemma ServingNotLost(c: Config, s: State, i: nat, salt: string)
    requires i < |s.offices| && !Arriving(s.offices[i].pc) && Attend(c, s, i, salt).Some?
    ensures var s' := Attend(c, s, i, salt).value;
            && |s'.offices| == |s.offices|
                && !(s'.offices[i].pc.ToWait? || s'.offices[i].pc.Waiting? || s'.offices[i].pc.WantLock?)
            && (s'.owner == s.owner || s'.owner == Nobody)
  {
  }

  lemma DrainableKept(c: Config, s: State, step: Step)
    requires c.guarded && s.shutdown && PastBroadcast(s.main) && Drainable(s) && Next(c, s, step).Some?
    ensures Drainable(Next(c, s, step).value)
  {
    match step
    case MainStep(_, _, _) =>
      PastBroadcastKept(c, s, step);
      SameDrainable(s, Next(c, s, step).value);
    case OfficeStep(i, salt) => DrainableByOffice(c, s, i, salt);
    case Spurious(i) => assert Lost(s, i);
  }

  lemma SameDrainable(s: State, s': State)
    requires s'.offices == s.offices && s'.owner == s.owner
    ensures Drainable(s') <==> Drainable(s)
  {
    assert forall i :: 0 <= i < |s.offices| ==> (Lost(s', i) <==> Lost(s, i));
  }

  /** Whatever main does meanwhile. */
  lemma DrainableByOffice(c: Config, s: State, i: nat, salt: string)
    requires c.guarded && s.shutdown && Drainable(s) && i < |s.offices| && OfficeNext(c, s, i, salt).Some?
    ensures Drainable(OfficeNext(c, s, i, salt).value)
  {
    var s' := OfficeNext(c, s, i, salt).value;
    OfficeFrame(c, s, i, salt);
    assert !Lost(s, i);
    if Arriving(s.offices[i].pc) {
      ArrivingNotLost(c, s, i);
    } else {
      ServingNotLost(c, s, i, salt);
    }
    forall j | 0 <= j < |s'.offices| ensures !Lost(s', j) {
      assert !Lost(s, j);
    }
  }

  /** A lost office stays lost while nothing signals. */
  lemma LostStays(c: Config, s: State, i: nat, step: Step)
    requires c.guarded && Locks(c, s) && PastBroadcast(s.main) && i < |s.offices| && Lost(s, i)
    requires Next(c, s, step).Some? && !step.Spurious?
    ensures i < |Next(c, s, step).value.offices| && Lost(Next(c, s, step).value, i)
  {
    if step.MainStep? {
      PastBroadcastKept(c, s, step);
    } else {
      var s' := Next(c, s, step).value;
      OfficeFrame(c, s, step.i, step.salt);
      if step.i != i && s.offices[i].pc == WantLock {
        HeldStays(c, s, i, step.i, step.salt);
      }
    }
  }

  lemma HeldStays(c: Config, s: State, i: nat, j: nat, salt: string)
    requires c.guarded && Locks(c, s) && i != j && i < |s.offices| && j < |s.offices| && s.owner == Held(i)
    requires OfficeNext(c, s, j, salt).Some?
    ensures OfficeNext(c, s, j, salt).value.owner == s.owner
  {
  }

  lemma UndrainableStays(c: Config, s: State, step: Step)
    requires c.guarded && Locks(c, s) && PastBroadcast(s.main) && !Drainable(s) && Next(c, s, step).Some?
             && !step.Spurious?
    ensures !Drainable(Next(c, s, step).value)
  {
    var i :| 0 <= i < |s.offices| && Lost(s, i);
    LostStays(c, s, i, step);
  }

  /** Any office that is neither closed nor lost can move when the mutex is free or its own. */
  lemma CanMove(c: Config, s: State, i: nat)
    requires i < |s.offices| && !Lost(s, i) && !s.offices[i].pc.Closed? && HeadKept(s, s.offices[i].pc)
    requires OfficeLabelled(s.offices[i])
    requires s.owner == Nobody || (s.owner == Held(i) && (Inside(s.offices[i].pc) || s.offices[i].pc.Check?))
    ensures OfficeNext(c, s, i, "").Some?
  {
  }

  lemma OfficeProgress(c: Config, s: State, i: nat)
    requires i < |s.offices| && Drainable(s) && Heads(s) && Labelled(s) && !s.offices[i].pc.Closed?
    requires s.owner == Nobody || (s.owner == Held(i) && MayHold(c, s.offices[i].pc))
    ensures !Stuck(c, s)
  {
    assert !Lost(s, i) && HeadKept(s, s.offices[i].pc) && OfficeLabelled(s.offices[i]);
    CanMove(c, s, i);
    assert Next(c, s, OfficeStep(i, "")).Some?;
  }

  /** With no office lost somebody can move until all offices are joined. */
  lemma DrainableProgress(c: Config, s: State)
    requires c.guarded && Inv(c, s) && PastBroadcast(s.main) && Drainable(s) && !s.main.Joined?
    ensures !Stuck(c, s)
  {
    if s.owner.Held? {
      OfficeProgress(c, s, s.owner.office);
    } else if i :| 0 <= i < |s.offices| && s.offices[i].pc != Closed {
      OfficeProgress(c, s, i);
    } else {
      MainProgress(c, s);
    }
  }
}
