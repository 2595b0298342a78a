/** The loops of the server on its real data: main reading requests while no office moves,
    and an office emptying the queue after the shutdown with nobody beside it, on the linked
    queue and the account array. `OneOffice` shows that together they are a run of the
    concurrent server. */
module Serving {
  import opened Messages
  import opened Ledger
  import opened LedgerRuns
  import opened RequestQueue
  import opened HomeBank

  /** The shutdowns among the first `n` inputs, or the other requests among them, in order. */
  ghost function Select(inputs: seq<Request>, n: nat, shutdowns: bool): (r: seq<Request>)
    requires n <= |inputs|
    ensures |r| <= n
  {
    if n == 0 then []
    else Select(inputs, n - 1, shutdowns) + (if inputs[n - 1].args.Shutdown? == shutdowns then [inputs[n - 1]] else [])
  }

  lemma AppendOne(reqs: seq<Request>, req: Request)
    ensures multiset(reqs + [req]) == multiset(reqs) + multiset{req}
  {
  }

  /** A request that goes to one of two sides keeps the balance. */
  lemma SplitMore(all: seq<Request>, side: seq<Request>, other: seq<Request>, req: Request)
    requires multiset(all) == multiset(side) + multiset(other)
    ensures multiset(all + [req]) == multiset(side + [req]) + multiset(other)
  {
    AppendOne(all, req);
    AppendOne(side, req);
  }

  /** The last input goes to one side; the other stays as it was. */
  lemma SelectNext(inputs: seq<Request>, n: nat)
    requires 0 < n <= |inputs|
    ensures var side := inputs[n - 1].args.Shutdown?;
      && Select(inputs, n, side) == Select(inputs, n - 1, side) + [inputs[n - 1]]
      && Select(inputs, n, !side) == Select(inputs, n - 1, !side)
  {
    var side := inputs[n - 1].args.Shutdown?;
    assert Select(inputs, n - 1, !side) + [] == Select(inputs, n - 1, !side);
  }

  lemma {:induction false} SelectSplits(inputs: seq<Request>, n: nat, side: bool)
    requires n <= |inputs|
    ensures multiset(inputs[..n]) == multiset(Select(inputs, n, side)) + multiset(Select(inputs, n, !side))
  {
    if n > 0 {
      var to := inputs[n - 1].args.Shutdown?;
      assert inputs[..n] == inputs[..n - 1] + [inputs[n - 1]];
      SelectSplits(inputs, n - 1, to);
      SelectNext(inputs, n);
      SplitMore(inputs[..n - 1], Select(inputs, n - 1, to), Select(inputs, n - 1, !to), inputs[n - 1]);
    }
  }

  lemma {:induction false} SelectAddressable(inputs: seq<Request>, n: nat, shutdowns: bool)
    requires n <= |inputs| && AllSlotted(inputs)
    ensures AllSlotted(Select(inputs, n, shutdowns))
  {
    if n > 0 {
      SelectAddressable(inputs, n - 1, shutdowns);
    }
  }

  ghost predicate AllSlotted(reqs: seq<Request>) {
    forall k :: 0 <= k < |reqs| ==> Addressable(reqs[k])
  }

  // ---- Main's loop

  /** A shutdown request the administrator's password authorises. */
  ghost predicate Stops(h: Hash, t: Table, req: Request) {
    req.args.Shutdown? && ValidateAdmin(h, t, req.header) == RC_OK
  }

  /** None of the first `n` inputs stops the server. */
  ghost predicate NoneStops(h: Hash, t: Table, inputs: seq<Request>, n: nat)
    requires n <= |inputs|
  {
    n > 0 ==> NoneStops(h, t, inputs, n - 1) && !Stops(h, t, inputs[n - 1])
  }

  /** The last input taken is the first that stops the server, and its answer reports `active`. */
  ghost predicate StoppedBy(h: Hash, t: Table, inputs: seq<Request>, taken: nat, answers: seq<Answered>, active: int) {
    && 0 < taken <= |inputs| && Stops(h, t, inputs[taken - 1]) && NoneStops(h, t, inputs, taken - 1)
    && answers != [] && answers[|answers| - 1].reply.payload == Wrap(active)
  }

  ghost predicate ShutdownAnswered(h: Hash, t: Table, a: Answered, req: Request) {
    && a.req == req && a.pid == req.header.pid && a.reply.op == OP_SHUTDOWN && a.reply.length == REPLY_VALUE_SIZE
    && a.reply.ret == ValidateAdmin(h, t, req.header)
  }

  ghost predicate AllAnswered(h: Hash, t: Table, answers: seq<Answered>, reqs: seq<Request>) {
    |answers| == |reqs| && forall k :: 0 <= k < |reqs| ==> ShutdownAnswered(h, t, answers[k], reqs[k])
  }

  /** The first `n` inputs are dealt with: the last of them is answered last, or queued last. */
  ghost predicate DealtWith(h: Hash, t: Table, inputs: seq<Request>, n: nat, was: seq<Request>,
                            queued: seq<Request>, answers: seq<Answered>)
    requires n <= |inputs|
  {
    if n == 0 then queued == was && answers == []
    else if inputs[n - 1].args.Shutdown? then
      && answers != [] && ShutdownAnswered(h, t, answers[|answers| - 1], inputs[n - 1])
      && DealtWith(h, t, inputs, n - 1, was, queued, answers[..|answers| - 1])
    else
      && queued != [] && queued[|queued| - 1] == inputs[n - 1]
      && DealtWith(h, t, inputs, n - 1, was, queued[..|queued| - 1], answers)
  }

  lemma AnsweredMore(h: Hash, t: Table, answers: seq<Answered>, reqs: seq<Request>, req: Request)
    requires answers != [] && AllAnswered(h, t, answers[..|answers| - 1], reqs)
    requires ShutdownAnswered(h, t, answers[|answers| - 1], req)
    ensures AllAnswered(h, t, answers, reqs + [req])
  {
    var before := answers[..|answers| - 1];
    assert forall k :: 0 <= k < |before| ==> answers[k] == before[k];
  }

  lemma QueuedMore(was: seq<Request>, before: seq<Request>, queued: seq<Request>, req: Request)
    requires queued != [] && queued[|queued| - 1] == req && queued[..|queued| - 1] == was + before
    ensures queued == was + (before + [req])
  {
    assert queued == queued[..|queued| - 1] + [req];
  }

  /** So main queued the ordinary requests in order, and answered the shutdowns in order. */
  lemma {:induction false} DealtWithMeans(h: Hash, t: Table, inputs: seq<Request>, n: nat, was: seq<Request>,
                                          queued: seq<Request>, answers: seq<Answered>)
    requires n <= |inputs| && DealtWith(h, t, inputs, n, was, queued, answers)
    ensures queued == was + Select(inputs, n, false)
    ensures AllAnswered(h, t, answers, Select(inputs, n, true))
  {
    if n == 0 {
    } else if inputs[n - 1].args.Shutdown? {
      DealtWithMeans(h, t, inputs, n - 1, was, queued, answers[..|answers| - 1]);
      AnsweredMore(h, t, answers, Select(inputs, n - 1, true), inputs[n - 1]);
    } else {
      DealtWithMeans(h, t, inputs, n - 1, was, queued[..|queued| - 1], answers);
      QueuedMore(was, Select(inputs, n - 1, false), queued, inputs[n - 1]);
    }
  }

  // ---- An office's loop

  /** What is left to an office that has made `k` passes and holds `reqs` in the queue: the
      table it will leave and the replies it will send. */
  ghost function WorkOff(h: Hash, t: Table, reqs: seq<Request>, salts: nat -> string, k: nat, stale: Reply)
      : (Table, seq<Answered>)
    requires AllSlotted(reqs)
    decreases |reqs|
  {
    if reqs == [] then (t, [])
    else
      var reply := Acknowledge(h, t, reqs[0], stale);
      var (after, rest) := WorkOff(h, Effect(h, t, reqs[0], salts(k)), reqs[1..], salts, k + 1, reply);
      (after, [Answered(reqs[0], reqs[0].header.pid, reply)] + rest)
  }

  /** After `sent`, what is left leads to `whole`. */
  ghost predicate OnCourse(whole: (Table, seq<Answered>), sent: seq<Answered>, h: Hash, t: Table, reqs: seq<Request>,
                           salts: nat -> string, stale: Reply)
    requires AllSlotted(reqs)
  {
    var left := WorkOff(h, t, reqs, salts, |sent|, stale);
    whole.0 == left.0 && whole.1 == sent + left.1
  }

  lemma {:induction false} OnCourseAtEnds(h: Hash, t: Table, reqs: seq<Request>, salts: nat -> string, stale: Reply,
                       whole: (Table, seq<Answered>), sent: seq<Answered>)
    requires AllSlotted(reqs)
    ensures OnCourse(WorkOff(h, t, reqs, salts, 0, stale), [], h, t, reqs, salts, stale)
    ensures reqs == [] && OnCourse(whole, sent, h, t, reqs, salts, stale) ==> whole == (t, sent)
  {
    assert sent + [] == sent;
  }

  lemma OnCourseKept(whole: (Table, seq<Answered>), sent: seq<Answered>, h: Hash, t: Table, reqs: seq<Request>,
                     salts: nat -> string, stale: Reply, reply: Reply)
    requires AllSlotted(reqs) && reqs != [] && OnCourse(whole, sent, h, t, reqs, salts, stale)
    requires reply == Acknowledge(h, t, reqs[0], stale)
    ensures OnCourse(whole, sent + [Answered(reqs[0], reqs[0].header.pid, reply)], h,
            Effect(h, t, reqs[0], salts(|sent|)),
                     reqs[1..], salts, reply)
  {
    var rest := WorkOff(h, Effect(h, t, reqs[0], salts(|sent|)), reqs[1..], salts, |sent| + 1, reply).1;
    var answer := Answered(reqs[0], reqs[0].header.pid, reply);
    assert sent + ([answer] + rest) == (sent + [answer]) + rest;
  }

  /** The processed requests with the salts drawn for them from pass `k` on. */
  ghost function Events(reqs: seq<Request>, salts: nat -> string, k: nat): (r: seq<Event>)
    ensures |r| == |reqs|
    ensures AllSlotted(reqs) ==> AllAddressable(r)
  {
    if reqs == [] then [] else [Event(reqs[0], salts(k))] + Events(reqs[1..], salts, k + 1)
  }

  lemma {:induction false} RunOne(h: Hash, t: Table, e: Event, rest: seq<Event>)
    requires Addressable(e.req) && AllAddressable(rest)
    ensures AllAddressable([e] + rest) && Run(h, t, [e] + rest) == Run(h, Effect(h, t, e.req, e.salt), rest)
  {
    RunConcat(h, t, [e], rest);
    assert [e][..0] == [];
    assert Run(h, t, []) == t;
    assert Run(h, t, [e]) == Effect(h, t, e.req, e.salt);
  }

  /** The table is that of the run of the requests in order; reply j goes to the process its
      request names and says what handling it at that point makes of the reply before. */
  lemma {:induction false} WorkOffIsRun(h: Hash, t: Table, reqs: seq<Request>, salts: nat -> string, k: nat,
      stale: Reply)
    requires AllSlotted(reqs)
    ensures WorkOff(h, t, reqs, salts, k, stale).0 == Run(h, t, Events(reqs, salts, k))
    ensures |WorkOff(h, t, reqs, salts, k, stale).1| == |reqs|
    decreases |reqs|
  {
    if reqs != [] {
      WorkOffIsRun(h, Effect(h, t, reqs[0], salts(k)), reqs[1..], salts, k + 1, Acknowledge(h, t, reqs[0], stale));
      RunOne(h, t, Event(reqs[0], salts(k)), Events(reqs[1..], salts, k + 1));
    }
  }

  /** Reply j goes to the process request j names, and is what handling that request at its
      place in the run makes of the reply before. */
  ghost predicate RepliedInTurn(h: Hash, t: Table, reqs: seq<Request>, evs: seq<Event>, sent: seq<Answered>,
      stale: Reply, j: nat)
    requires |evs| == |reqs| == |sent| && j < |reqs| && AllSlotted(reqs) && AllAddressable(evs)
  {
    sent[j] == Answered(reqs[j], reqs[j].header.pid,
                        Acknowledge(h, Run(h, t, evs[..j]), reqs[j], if j == 0 then stale else sent[j - 1].reply))
  }

  lemma RepliedLater(h: Hash, t: Table, reqs: seq<Request>, e: Event, evs: seq<Event>, first: Answered,
      sent: seq<Answered>,
                     stale: Reply, j: nat)
    requires |evs| + 1 == |reqs| == |sent| + 1 && 0 < j < |reqs| && AllSlotted(reqs) && AllAddressable(evs)
             && Addressable(e.req)
    requires RepliedInTurn(h, Effect(h, t, e.req, e.salt), reqs[1..], evs, sent, first.reply, j - 1)
    ensures AllAddressable([e] + evs) && RepliedInTurn(h, t, reqs, [e] + evs, [first] + sent, stale, j)
  {
    RunShifted(h, t, e, evs, j);
  }

  lemma {:induction false} WorkOffReplies(h: Hash, t: Table, reqs: seq<Request>, salts: nat -> string, k: nat,
      stale: Reply, j: nat)
    requires AllSlotted(reqs) && j < |reqs|
    ensures |WorkOff(h, t, reqs, salts, k, stale).1| == |reqs|
    ensures RepliedInTurn(h, t, reqs, Events(reqs, salts, k), WorkOff(h, t, reqs, salts, k, stale).1, stale, j)
    decreases |reqs|
  {
    WorkOffIsRun(h, t, reqs, salts, k, stale);
    var first := WorkOffFirst(h, t, reqs, salts, k, stale);
    if j > 0 {
      var t1, more, e := Effect(h, t, reqs[0], salts(k)), reqs[1..], Event(reqs[0], salts(k));
      WorkOffReplies(h, t1, more, salts, k + 1, first.reply, j - 1);
      RepliedLater(h, t, reqs, e, Events(more, salts, k + 1), first,
          WorkOff(h, t1, more, salts, k + 1, first.reply).1, stale, j);
    }
  }

  /** The first reply, and those left after the first pass. */
  lemma WorkOffFirst(h: Hash, t: Table, reqs: seq<Request>, salts: nat -> string, k: nat, stale: Reply)
      returns (first: Answered)
    requires AllSlotted(reqs) && reqs != []
    ensures first == Answered(reqs[0], reqs[0].header.pid, Acknowledge(h, t, reqs[0], stale))
    ensures WorkOff(h, t, reqs, salts, k, stale).0
         == WorkOff(h, Effect(h, t, reqs[0], salts(k)), reqs[1..], salts, k + 1, first.reply).0
    ensures WorkOff(h, t, reqs, salts, k, stale).1
         == [first] + WorkOff(h, Effect(h, t, reqs[0], salts(k)), reqs[1..], salts, k + 1, first.reply).1
    ensures Events(reqs, salts, k) == [Event(reqs[0], salts(k))] + Events(reqs[1..], salts, k + 1)
    ensures Run(h, t, []) == t
  {
    first := Answered(reqs[0], reqs[0].header.pid, Acknowledge(h, t, reqs[0], stale));
  }

  lemma {:induction false} RunShifted(h: Hash, t: Table, e: Event, rest: seq<Event>, j: nat)
    requires Addressable(e.req) && AllAddressable(rest) && 0 < j <= |rest| + 1
    ensures AllAddressable(([e] + rest)[..j])
    ensures Run(h, t, ([e] + rest)[..j]) == Run(h, Effect(h, t, e.req, e.salt), rest[..j - 1])
  {
    assert ([e] + rest)[..j] == [e] + rest[..j - 1];
    RunOne(h, t, e, rest[..j - 1]);
  }

  class Server {
    const accounts: Accounts
    const queue: Queue
    var shutdown: bool
    var active: int

    ghost predicate Valid()
      reads this, queue, queue.spine
    {
      accounts.Valid() && queue.Valid()
    }

    constructor (accounts: Accounts)
      requires accounts.Valid()
      ensures Valid() && this.accounts == accounts && fresh(queue)
      ensures queue.contents == [] && queue.spine == [] && !shutdown && active == 0
    {
      this.accounts := accounts;
      this.queue := new Queue();
      shutdown, active := false, 0;
    }

    /** Main's treatment of one shutdown request; an accepted one sets the flag and reports
        the active offices. */
    method AnswerShutdown(req: Request) returns (ok: bool, answer: Answered)
      requires Valid() && req.args.Shutdown?
      modifies this`shutdown
      ensures Valid() && shutdown == (old(shutdown) || ok)
      ensures ok <==> Stops(accounts.hash, accounts.Contents(), req)
      ensures ShutdownAnswered(accounts.hash, accounts.Contents(), answer, req)
      ensures ok ==> answer.reply.payload == Wrap(active)
    {
      var buf := new ReplyBuffer();
      ok := accounts.ValidateRequest(req, buf);
      if ok {
        shutdown := true;
        buf.payload := Wrap(active);
      }
      buf.op := OpCode(req.args);
      buf.length := REPLY_VALUE_SIZE;
      answer := Answered(req, req.header.pid, Reply(buf.op, buf.length, buf.accountId, buf.ret, buf.payload));
    }

    /** Main's loop over what arrives: answer shutdowns, stop at the first accepted one, and
        push the rest. `stopped` says whether an accepted shutdown came. */
    method ReadRequests(inputs: seq<Request>) returns (taken: nat, stopped: bool, answers: seq<Answered>)
      requires Valid() && !shutdown
      modifies this`shutdown, queue, if queue.front == null then {} else {queue.last}
      ensures Valid() && shutdown == stopped
      ensures taken <= |inputs| && (!stopped ==> taken == |inputs|)
      ensures stopped ==> taken > 0 && Stops(accounts.hash, old(accounts.Contents()), inputs[taken - 1])
      ensures NoneStops(accounts.hash, old(accounts.Contents()), inputs, if stopped then taken - 1 else taken)
      ensures DealtWith(accounts.hash, old(accounts.Contents()), inputs, taken,
                        old(queue.contents), queue.contents, answers)
      ensures stopped ==> answers != [] && answers[|answers| - 1].reply.payload == Wrap(active)
    {
      taken, stopped, answers := 0, false, [];
      ghost var h, t, was := accounts.hash, accounts.Contents(), queue.contents;
      while taken < |inputs|
        invariant taken <= |inputs| && Valid() && !shutdown && accounts.Contents() == t
        invariant NoneStops(h, t, inputs, taken)
        invariant DealtWith(h, t, inputs, taken, was, queue.contents, answers)
        invariant queue.front != null ==>
                    (old(queue.front) != null && queue.last == old(queue.last)) || fresh(queue.last)
      {
        var req := inputs[taken];
        taken := taken + 1;
        if req.args.Shutdown? {
          var answer;
          ghost var before := answers;
          stopped, answer := AnswerShutdown(req);
          answers := answers + [answer];
          assert answers[..|answers| - 1] == before;
          if stopped {
            return;
          }
        } else {
          ghost var before := queue.contents;
          queue.Push(req);
          assert queue.contents[..|queue.contents| - 1] == before;
        }
      }
    }

    /** One pass of an office's loop: take the head, handle it, answer it. */
    method HandleNext(salt: string, buffer: ReplyBuffer) returns (answer: Answered)
      requires Valid() && queue.contents != [] && Addressable(queue.contents[0])
      modifies this`active, queue, accounts.slots, buffer
      ensures Valid() && active == old(active) && queue.contents == old(queue.contents)[1..]
      ensures accounts.Contents() == Effect(accounts.hash, old(accounts.Contents()), old(queue.contents)[0], salt)
      ensures answer.req == old(queue.contents)[0] && answer.pid == answer.req.header.pid
      ensures answer.reply == buffer.Value()
           == Acknowledge(accounts.hash, old(accounts.Contents()), answer.req, old(buffer.Value()))
    {
      var next := queue.Front();
      active := active + 1;
      queue.Pop();
      accounts.AcknowledgeRequest(next, salt, buffer);
      answer := Answered(next, next.header.pid,
                       Reply(buffer.op, buffer.length, buffer.accountId, buffer.ret, buffer.payload));
      active := active - 1;
    }

    /** An office's loop with the queue to itself after the shutdown: it answers every queued
        request in order, from one reply structure, and closes on the empty queue. `salts`
        supplies the salt drawn at each pass. */
    method WorkOffQueue(salts: nat -> string, buffer: ReplyBuffer) returns (sent: seq<Answered>)
      requires Valid() && |queue.contents| < 0x1_0000_0000 && AllSlotted(queue.contents)
      modifies this`active, queue, accounts.slots, buffer
      ensures Valid() && active == old(active) && queue.contents == []
      ensures (accounts.Contents(), sent)
           == WorkOff(accounts.hash, old(accounts.Contents()), old(queue.contents), salts, 0, old(buffer.Value()))
    {
      sent := [];
      ghost var h := accounts.hash;
      ghost var whole := WorkOff(h, accounts.Contents(), queue.contents, salts, 0, buffer.Value());
      OnCourseAtEnds(h, accounts.Contents(), queue.contents, salts, buffer.Value(), whole, sent);
      while true
        invariant Valid() && active == old(active) && |queue.contents| < 0x1_0000_0000 && AllSlotted(queue.contents)
        invariant OnCourse(whole, sent, h, accounts.Contents(), queue.contents, salts, buffer.Value())
        decreases |queue.contents|
      {
        var done := queue.Empty();
        if done {
          break;
        }
        ghost var t, reqs, stale := accounts.Contents(), queue.contents, buffer.Value();
        var answer := HandleNext(salts(|sent|), buffer);
        OnCourseKept(whole, sent, h, t, reqs, salts, stale, answer.reply);
        sent := sent + [answer];
      }
      OnCourseAtEnds(h, accounts.Contents(), queue.contents, salts, buffer.Value(), whole, sent);
    }

    /** A server's life when the offices only start after the accepted shutdown: the requests
        read are, each once, those main answered and those the office answered. */
    method Serve(inputs: seq<Request>, salts: nat -> string, buffer: ReplyBuffer)
      returns (taken: nat, stopped: bool, answers: seq<Answered>, sent: seq<Answered>)
      requires Valid() && !shutdown && queue.contents == [] && |inputs| < 0x1_0000_0000 && AllSlotted(inputs)
      modifies this, queue, accounts.slots, buffer
      ensures taken <= |inputs| && stopped == shutdown
      ensures multiset(inputs[..taken])
              == multiset(Select(inputs, taken, true)) + multiset(Select(inputs, taken, false))
      ensures AllAnswered(accounts.hash, old(accounts.Contents()), answers, Select(inputs, taken, true))
      ensures AllSlotted(Select(inputs, taken, false))
      ensures stopped ==> StoppedBy(accounts.hash, old(accounts.Contents()), inputs, taken, answers, old(active))
      ensures stopped ==>
        && Valid() && queue.contents == [] && active == old(active)
        && (accounts.Contents(), sent)
             == WorkOff(accounts.hash, old(accounts.Contents()), Select(inputs, taken, false), salts, 0,
                 old(buffer.Value()))
    {
      sent := [];
      taken, stopped, answers := ReadRequests(inputs);
      DealtWithMeans(accounts.hash, old(accounts.Contents()), inputs, taken, [], queue.contents, answers);
      assert queue.contents == [] + Select(inputs, taken, false) == Select(inputs, taken, false);
      SelectSplits(inputs, taken, true);
      SelectAddressable(inputs, taken, false);
      if stopped {
        sent := WorkOffQueue(salts, buffer);
      }
    }
  }
}
