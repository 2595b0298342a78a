# A model of the home-banking server and of the directory analyser

The Dafny files model two programs of the repository: the multi-threaded home-banking server
of `project2` with the client's request building and the records between them, and the
directory traversal and command line of `project1`. The whole is verified by
`dafny verify --verification-time-limit 0 dfyconfig.toml`.

## How the model is built

- `Messages`, `Ledger`: the records, and what handling one request does to the account table,
  with the checks in the order of the code and 32-bit unsigned arithmetic written out.
- `Bank`, `LedgerRuns`: an independent reference bank (a map of customers, unbounded balances,
  no reply structure to reuse) that the table refines, and the laws of whole runs.
- `HomeBank`, `RequestQueue`, `Serving`: the imperative code. The account array is updated in
  place, replies are written through a reused structure, the queue is a linked list of
  allocated nodes; main's loop and the loop of an office alone with the queue run on them.
- `Offices`, `OfficesSafety`, `OfficesTheorems`, `OfficesAsWritten`: the server as a state machine
  with any number of offices and any interleaving. A program counter per office and for main, the
  owner of `queue_mut`, the wait set, the shutdown flag, the queue, the table and the active counter
  are state; steps are single actions of single threads.
- `OfficesDrain`, `OfficesGuardedDrain`, `OfficesUnguardedDrain`, `OfficesDrainTheorems`,
  `OfficesShutdown`, `OfficesDrainAnswers`: the drain after the shutdown, from the flag on, under the
  documented rule for the queue and as the code has it.
- `OfficesSignals`, `OfficesStandstill`: before the shutdown, that no request is slept over, and exactly
  when no thread can move.
- `OneOffice`, `OneOfficeAlways`: the imperative code of a whole life of the server with one office
  is a run of that state machine; and every run of it with one office, on any schedule, leaves what
  working off the ordinary requests in order leaves.
- `UnlockedAccounts`: transfers and account creations with each load of an id or a balance that a
  check or an update uses, and each store of one, a step of its own.
- `Wire`, `Text`, `UserArgs`: the packed records, in-place tokenising, decimal numbers, and the
  client's reading of its arguments.
- `ForensicArgs`: the analyser's command line, its option loop and its hash names.
- `DirectoryTree`, `Listing`, `AnalyserRuns`: an arbitrary finite directory tree and the paths a
  listing of it is to report; the traversal, with one path buffer edited in place and a copied
  buffer per forked child, and where each process ends; and the whole analyser on a directory.

## Where the code falls short of its design

The model follows the code. These properties are false of it in general; each is proved together
with the exact condition under which it holds.

- Exactly-once handling. After the shutdown the code releases `queue_mut` and goes on to the queue
  (project2/server.c:122-125), against the rule of project2/report.md:21 that one thread at a time
  uses it. `Config.guarded` selects the documented rule for the drain. Each pushed request is
  handled once on every run if and only if the documented rule is followed or there is at most one
  office: `OfficesAsWritten.ExactlyOnceIff`. Up to the shutdown the code's own locking is enough for
  any number of offices: `PushedOnce`, `QueueUndisturbed` and `PopsWhatItCopied` hold there without
  the rule. The counter, the refinement of the sequential bank and the money need no such condition
  at any time, nor, with `pop` as one step, does the order of pick-up.
- Finishing the drain. The flag is set and the broadcast sent without `queue_mut`, so an office
  between its test of the flag and its wait sleeps through the broadcast (`BroadcastMissed`); and an
  office woken for a request another one took locks the mutex it already holds (`RelockCaught`).
  As written there are two more ways: an office that closes at project2/server.c:130 keeps the mutex
  it locked at line 120 from the offices in their lock calls (`ClosesHolding`), and two offices can
  count on the last request, the second popping an empty queue (`LastRequestTwice`). From the
  broadcast on every schedule ends with all offices joined, under the documented rule, if and only
  if no office is in the first two positions (`Drainable`), and as written if and only if the state
  is `Peaceful`, a condition on who is asleep, in a lock call or running, on the owner of the mutex
  and on the queue: `OfficesDrainTheorems.DrainFinishesIff`. From the flag on, before the broadcast,
  the same holds of the state with its waiting offices awake, for the broadcast wakes every one:
  `OfficesShutdown.BroadcastWakes`, `ShutdownFinishesIff`. With one office the two conditions agree:
  `AloneAlike`. Either way the drain stops after boundedly many steps: `OfficesDrain.DrainBounded`.
  And from the flag on every schedule has each pushed request answered exactly once if and only
  if every schedule finishes and no request was taken twice or lost by then:
  `OfficesDrainAnswers.DrainAnswersIff`.
- Going on before the shutdown. A queued request that was signalled always finds an office awake
  (`OfficesSignals.SomebodyAwake`). But an office woken for a request another one took can stop the
  whole server, asking for the mutex it holds (`OfficesStandstill.RelockHappens`). No thread can move
  before the shutdown if and only if there is nothing to do, or an office asks for the mutex it holds
  and all others sleep or ask for it too: `StandstillIff`.
- Conservation of money. No lock protects the accounts (project2/server.c:158-159, 274-275, 345-346).
  With loads and stores as steps, and account creations among the requests, money is conserved on
  every run from the server's opening table if and only if at most one office runs, and from any
  table if and only if at most one office runs or no transfer would be accepted and no account is
  left to open: `UnlockedAccounts.OpeningConservesIff`, `ConservesIff`. Everywhere else handling a
  request is one atomic step, which is literally so for one office and an assumption for several.
- Completeness of the traversal. A process of the analyser ends at a log it cannot open
  (project1/forensic.c:37-40), a directory it cannot open (242-245), a file `stat` cannot find
  (124-127), and an output file that is not there to print to (417); the program ends before it
  lists at a hash name it does not know (433-437). The log has a name only with logging and
  LOGFILENAME set (402-406), but an output file needs it too (255-257, 275-278). Every path to be
  reported is reported if and only if the hash names are known, the output opens, there is no log
  call or the log has a name and opens, every reported file is found and every directory on the way
  opens; or there is nothing to report: `AnalyserRuns.AnalyseDirectory`, with the failing inputs
  `UnknownNameStops`, `AcceptedAndSilent`, `LinkToNothingStops`. Without the first
  three nothing is reported at all; in no case is anything else reported, or anything twice.
- The return code of a reply. An operation code outside the enumeration leaves the old code in the
  reused structure: `Bank.CodeFreshIffListed`.
- Reading a request back from arguments. Passwords must fit their fields of 20 characters, a new
  account's password must be one non-empty word, and an operation the client does not know leaves
  what the record held: `UserArgs.ReadsBackIff`.
- Reading the analyser's options. Values must fit their fields of 64 characters, and the whole
  command line the buffer it is copied to: `ForensicArgs.ReadsExactly`, `AcceptedExactly`. A longer
  output name would run over the hash names: `NamesKeptIff`.

Other readings of the code:

- The range checks admit account id 4096, for which the table has no slot (project2/server.h:10,
  project2/server.c:243, 323, 370), and line 320 reads the receiver's slot before any check.
  `Ledger.Addressable` keeps to ids that have slots.
- Return codes are those the code gives, not the priority order of project2/types.h:17. A transfer
  to an unknown account answers `RC_ID_IN_USE`; the codes for equal accounts and for too high a
  balance are never produced; a transfer may leave its sender with 0.
- The start-up check of the administrator's password lets leading spaces pass
  (project2/server.c:460-464).
- The digest is any function of password followed by salt. Creation and validation quote the shell
  command differently (project2/server.c:282-286, 383-387); passwords without characters special to
  the shell are meant.
- An office's lock, increment and unlock of `counter_mut` is one step, as is its decrement: nothing
  else happens under that mutex.
- A copy past the end of its buffer ends the program, where C leaves open what happens.
- The option `-h` or `-o` in last place takes the directory for its value, and `-h -h` is accepted.
- With no offices at all nothing that was pushed is answered; `OfficesTheorems.EveryRequestAnswered`
  says so through what stays in the queue.

## Model

| member | source | states |
|---|---|---|
| Bank.RequestRefined | project2/server.c:186-217 | handling a request on the table is serving it at the reference bank: same new state, and a reply that carries the bank's answer whatever the reused structure held |
| Bank.CodeFreshIffListed | project2/server.c:219-237 | the return code is independent of the reused structure exactly for the four listed operations |
| Bank.AmountFreshIffReported | project2/server.c:192-213 | the reported amount is independent of it exactly for balance and transfer requests that pass validation |
| Bank.TransferExact | project2/server.c:318-351 | for an accepted transfer the subtraction does not underflow and the sum does not wrap, bounds are kept, and a transfer to oneself changes nothing |
| Bank.ReceiverSumExact | project2/server.c:334-343 | after the sender check the 32-bit sum of the receiver check is exact; without it that holds only for receivers with no money |
| Bank.CreateRefined | project2/server.c:239-307 | an account creation keeps the table's invariant and is the reference bank's creation, code and state |
| Bank.LoginRefined | project2/server.c:361-449 | both validations answer as the reference bank's logins |
| Bank.CreationDecided | project2/server.c:239-307 | in numbers: a creation is answered 0 iff the id is 1 to 4095 and free, the balance 1 to 10^9 and the password 8 to 20 characters without a space; 6 iff the id is taken; else 11 |
| Bank.TransferDecided | project2/server.c:318-351 | in numbers: a transfer is answered 0 iff the receiver exists, the sender has the amount, at least 1, and the receiver stays within 10^9; 11, 6 and 9 exactly for receiver 0, a receiver unknown, and the amounts |
| Bank.LoginDecided | project2/server.c:361-449 | in numbers: who is let in as a customer and as the administrator, and which of 5, 11, 7 and 4 others are told |
| Bank.AddressableIff | project2/server.c:243-375 | the requests kept out of the model are those that index the table at 4096 or past it |
| Bank.InitialOk | project2/server.c:451-493 | the opening table holds the administrator without money and no customers |
| LedgerRuns.RunRefined | project2/server.c:158-165 | any run of requests on the table keeps the invariant and is the reference bank's run |
| LedgerRuns.SlotChange | project2/server.c:239-351 | a slot changes only by a successful creation of it or a successful transfer from or to it, by exactly these amounts |
| LedgerRuns.BalanceAgreesWithHistory | project2/server.c:309-351 | over any run a balance is the old one plus openings and receipts less payments, and at most MAX_BALANCE |
| LedgerRuns.ReplyAgreesWithHistory | project2/server.c:309-351 | a successful balance or transfer reply reports exactly the caller's history |
| LedgerRuns.Conservation | project2/server.c:274-275 | over any run the sum of balances grows by the openings of successful creations and by nothing else; the administrator's stays 0 |
| LedgerRuns.CredentialsKept | project2/server.c:273-300 | a used slot stays used and its hash and salt never change |
| LedgerRuns.CreatorStaysWelcome | project2/server.c:361-409 | after any later run a password is let in exactly when its digest is that of the password the account was created with |
| LedgerRuns.FallsOnlyByOwner | project2/server.c:318-351 | a balance falls over a run only if a transfer of its owner with the matching password is in it that was accepted where it stands |
| LedgerRuns.AppearsOnlyByAdmin | project2/server.c:239-307 | an account appears over a run only by a creation with the administrator's password that was accepted where it stands, and carries that creation's digest and salt |
| UnlockedAccounts.ConservesIff | project2/server.c:274-346 | with unlocked loads and stores, transfers and creations, the balances add up to the opening total and the successful deposits on every run iff at most one office runs or nothing can be done |
| UnlockedAccounts.OpeningConservesIff | project2/server.c:451-493 | from the server's opening table: iff at most one office runs |
| UnlockedAccounts.PaidAlone | project2/server.c:318-346 | uninterrupted, the loads and stores of a transfer are the transfer of the table functions, refused or made |
| UnlockedAccounts.OpenedAlone | project2/server.c:239-275 | uninterrupted, those of a creation put in id and balance iff its checks pass |
| UnlockedAccounts.PaymentRace | project2/server.c:334-346 | two offices at one payment make its amount out of nothing |
| UnlockedAccounts.CreationRace | project2/server.c:246-275 | two offices at one creation both succeed and one deposit is lost |
| Ledger.AdminPasswordDecided | project2/server.c:451-464 | the administrator's password is accepted iff it is 8 to 20 characters, any spaces first and none after |
| HomeBank.Accounts.CreateAdminAccount | project2/server.c:451-493 | accepts exactly the valid passwords, and opens slot 0 or touches nothing |
| HomeBank.Accounts.CutAtSpace | project2/server.c:460-464 | the password is kept whole exactly when no space follows another character |
| HomeBank.Accounts.ValidateUser | project2/server.c:361-410 | writes the code of the customer login and returns whether it is RC_OK |
| HomeBank.Accounts.ValidateAdmin | project2/server.c:412-449 | writes the code of the administrator login and returns whether it is RC_OK |
| HomeBank.Accounts.ValidateRequest | project2/server.c:219-237 | picks the login by operation; an unlisted operation is refused and leaves the old code |
| HomeBank.Accounts.CreateUserAccount | project2/server.c:239-307 | the code of the first failing check and an unchanged table, or RC_OK and the new slot |
| HomeBank.Accounts.CheckUserBalance | project2/server.c:309-316 | reports the balance |
| HomeBank.Accounts.CreateUserTransfer | project2/server.c:318-351 | the code, the table and the reported balance of a transfer, also when it fails |
| HomeBank.Accounts.AcknowledgeRequest | project2/server.c:186-217 | the whole table and the whole reply structure after one request; a listed operation answered with another code than RC_OK leaves the table as it was |
| RequestQueue.Queue.constructor | project2/queue.c:3-7 | a new queue is empty |
| RequestQueue.Queue.Init | project2/queue.c:3-7 | empties the queue |
| RequestQueue.Queue.Front | project2/queue.c:9-11 | the first request |
| RequestQueue.Queue.Pop | project2/queue.c:13-19 | drops the first request; popping the only node leaves `last` at it |
| RequestQueue.Queue.Push | project2/queue.c:21-35 | appends; on an empty queue the stale `last` is not written through |
| RequestQueue.Queue.Empty | project2/queue.c:37-39 | true iff the count of nodes is a multiple of 2^32, so exact below that |
| Serving.Server.AnswerShutdown | project2/server.c:45-76 | sets the flag iff the administrator's password matches, and answers with the code and, if accepted, the active count |
| Serving.Server.ReadRequests | project2/server.c:39-89 | reads up to the first accepted shutdown, answering shutdowns and pushing the rest in order |
| Serving.DealtWithMeans | project2/server.c:39-89 | the queue grew by the ordinary requests in order; the shutdowns were answered in order |
| Serving.Server.HandleNext | project2/server.c:138-178 | one pass takes the head, handles it, answers the process it names, and leaves the counter as it was |
| Serving.Server.WorkOffQueue | project2/server.c:138-178 | the fetch, answer and count part of an office's loop, alone with the queue, empties it and leaves the table and replies of the recursive specification |
| Serving.WorkOffIsRun | project2/server.c:116-179 | that table is the run of the queued requests in order, with one reply each |
| Serving.WorkOffReplies | project2/server.c:158-168 | each of those replies goes to the process its request names and handles the request at its place in the run |
| Serving.Server.Serve | project2/server.c:39-95 | main's loop up to the accepted shutdown, then the office's: the requests read are, each once, those main and the office answered |
| OneOffice.LifeIsRun | project2/server.c:39-179 | what main's loop and then the office's loop compute, table and replies, some run of the concurrent machine with one office reaches |
| OneOfficeAlways.MainServesInOrder | project2/server.c:39-88 | with any number of offices main pushes the ordinary requests and answers the shutdowns in the order it read them, the latter as on the opening table |
| OneOfficeAlways.ServesInOrder | project2/server.c:116-179 | in every reachable state one office has processed a prefix of the pushed requests, in order, with each reply made from the one before |
| OneOfficeAlways.EveryLifeServes | project2/server.c:39-179 | every joined state of one office, on any schedule, has the table and replies of working off the ordinary requests in order, and the shutdowns answered in order |
| OneOffice.Live | project2/server.c:21-105 | from the start with the administrator's password to the joined office, on the account array and the linked queue: the end of some run of the concurrent machine |
| OfficesTheorems.PickedUpInOrder | project2/server.c:77-88 | in every reachable state, with each pop one step, popped followed by queued is pushed |
| OfficesTheorems.PushedOnce | project2/server.c:77-88 | up to the shutdown, and after it with the documented rule or one office: as multisets pushed is queued, in hand and answered |
| OfficesTheorems.QueueUndisturbed | project2/server.c:138-156 | up to the shutdown, and after it with the documented rule or one office: while an office uses the queue no step of another thread changes it |
| OfficesTheorems.PopsWhatItCopied | project2/server.c:139-153 | up to the shutdown, and after it with the documented rule or one office: the request an office copied is the one its pop removes |
| OfficesTheorems.CounterExact | project2/server.c:145-150 | in every reachable state of every configuration the active counter is the number of offices between increment and decrement, within 0 and the number of offices |
| OfficesTheorems.ShutdownReportsBusy | project2/server.c:353-358 | the accepted shutdown's reply, however late it is sent, carries the number of offices busy when main read the counter |
| OfficesTheorems.RefinesSequentialBank | project2/server.c:158-165 | the table is that of the reference bank serving the processed requests in order, and every reply made and sent carries its answer there |
| OfficesTheorems.MoneyAlwaysAdds | project2/server.c:254-346 | in every reachable state the balances add up to the successful openings, are bounded, and agree with history |
| OfficesTheorems.IntakeStopped | project2/server.c:353-358 | once the flag is set nothing more is read or pushed |
| OfficesTheorems.JoinedMeansDrained | project2/server.c:91-95 | with each pop one step: when all offices are joined the queue is empty, nobody is active, all that was pushed was popped and every reply made was sent |
| OfficesTheorems.EveryRequestAnswered | project2/server.c:91-95 | with the documented rule or one office, each request read was then answered exactly once |
| OfficesTheorems.RepliesWellAddressed | project2/server.c:57-76 | replies go to the process named, with the request's type; main refuses every shutdown but the last, which is the last request read |
| OfficesAsWritten.AsWrittenRepeats | project2/server.c:122-156 | as written, two offices in the drain both hold the first of two requests; the second is popped, unanswered and in nobody's hand |
| OfficesAsWritten.ExactlyOnceIff | project2/server.c:116-179 | every popped request is in one hand or answered once, on every run, iff the documented rule holds or there is at most one office |
| OfficesSignals.SomebodyAwake | project2/server.c:79-134 | before the shutdown, with a request queued and signalled, some office neither sleeps nor is about to |
| OfficesStandstill.MutexHeldBy | project2/server.c:116-179 | up to the shutdown, and after it with the documented rule: which positions of an office have the mutex and which do not |
| OfficesStandstill.StandstillIff | project2/server.c:79-179 | before the shutdown no thread can move iff nothing is left to do, or an office asks for the mutex it holds and all others sleep or ask for it |
| OfficesStandstill.RelockHappens | project2/server.c:118-138 | for any two or more offices the latter can happen |
| OfficesDrain.StepNearer | project2/server.c:116-179 | after the flag every step of every thread lowers an explicit measure of queue, offices and main, also when offices use the queue side by side |
| OfficesDrain.DrainBounded | project2/server.c:91-95 | so no run of the drain is longer than the measure, in any configuration |
| OfficesDrainTheorems.Progress | project2/server.c:116-179 | from a state without a lost office, or at peace, some thread can move until all offices are joined |
| OfficesUnguardedDrain.PeaceKept | project2/server.c:116-179 | as written, no step of the drain ends peace |
| OfficesUnguardedDrain.Trouble | project2/server.c:116-179 | as written, where there is no peace and something can move, something can move without making peace |
| OfficesDrainTheorems.DrainFinishesIff | project2/server.c:53-179 | from the broadcast on every schedule ends with all offices joined iff, under the documented rule, no office waits, is about to wait, or asks for the mutex it holds; as written, iff the state is peaceful |
| OfficesShutdown.BroadcastWakes | project2/server.c:54-55 | main's broadcast puts every waiting office to the mutex and leaves the other offices, the queue and the mutex alone |
| OfficesShutdown.ShutdownFinishesIff | project2/server.c:53-179 | from the flag to the broadcast every schedule ends with all offices joined iff, under the documented rule, no office is about to wait or asks for the mutex it holds, while offices may wait; as written, iff the state with its waiting offices awake is peaceful |
| OfficesShutdown.FinishesIff | project2/server.c:53-179 | the same from any state after the flag: iff the state, with the broadcast counted as made, is one the drain can finish from |
| OfficesDrainTheorems.AloneAlike | project2/server.c:116-179 | with at most one office the two conditions agree |
| OfficesDrainAnswers.DrainAnswersIff | project2/server.c:53-179 | from the flag on every schedule ends with all offices joined and each pushed request answered once iff every schedule finishes and none was taken twice or lost by then |
| OfficesDrainTheorems.BroadcastMissed | project2/server.c:128-134 | for any number of offices, one that looked at the flag before it was set can miss the broadcast, and some schedule does not finish |
| OfficesDrainTheorems.RelockCaught | project2/server.c:118-138 | for any two or more offices, one woken for a taken request asks for the mutex it holds while the others are in their lock calls |
| OfficesDrainTheorems.ClosesHolding | project2/server.c:118-130 | as written, an office closes with the mutex while the others are in their lock calls, though none was lost |
| OfficesDrainTheorems.LastRequestTwice | project2/server.c:138-153 | as written, two offices count on the last request and the second is to pop an empty queue |
| Wire.RequestRoundTrip | project2/types.h:72-116 | a request written into any record is read back as it was, whatever the record held |
| Wire.RecordRewritten | project2/types.h:72-116 | a record with ended password fields is unchanged by writing the request read from it over it |
| Wire.HeaderLayout | project2/types.h:72-77 | the operation code, process, account, password and delay of a request at their places, each number in the order of its bytes; the length field is left as it was |
| Wire.ArgumentLayout | project2/types.h:82-94 | account id, balance and password of a creation at 41, 45 and 49, receiver and amount of a transfer at 41 and 45; what the operation has no field for is left as it was |
| Wire.ReplyLayout | project2/types.h:127-175 | the five words of a reply at 0, 4, 8, 12 and 16 of 20 bytes |
| Wire.StreamRoundTrip | project2/server.c:550-557 | a stream of request records splits back into the requests written |
| Wire.ReplyRoundTrip | project2/types.h:127-175 | replies and reply records correspond one to one |
| Text.TokensOfJoin | project2/user.c:129-141 | tokenising undoes joining with the delimiter |
| Text.TokensApart | project2/user.c:129-141 | a delimiter anywhere, also first, last or doubled, only separates |
| Text.TokensWhole | project2/user.c:129-141 | a string without the delimiter is its only token |
| Text.Tokenizer.Next | project2/user.c:129-141 | returns the next token's place in the buffer, ended in place, and leaves earlier tokens alone |
| Text.AtoiOfDecimal | project2/user.c:111-136 | reading a printed number gives the number |
| Text.AtoiReads | project2/user.c:111-136 | of blanks, a sign, digits and anything after them the reader makes what the digits are worth, with the sign |
| UserArgs.GetRequest | project2/user.c:104-165 | builds the request the arguments say, an unknown operation leaving what the record held; or fails on a missing word or a password past its field |
| UserArgs.TransferMeans | project2/user.c:147-157 | operation 2 with two words, whatever spaces are around them, is a transfer to the first of the second |
| UserArgs.CreationMeans | project2/user.c:124-142 | operation 0 with three words opens the first account with the second and the third |
| UserArgs.WordlessMeans | project2/user.c:143-162 | operations 1 and 3 are the balance and the shutdown, whatever the last argument says |
| UserArgs.ReadsBackIff | project2/user.c:110-164 | a request written out as arguments is read back iff its passwords fit their fields, a new account's is one non-empty word, and an unknown operation is the one the record held |
| ForensicArgs.ReadCommandLine | project1/forensic.c:333-396 | refuses too few or many words, a call for help and a line past its buffer, and else reads the options |
| ForensicArgs.AcceptedExactly | project1/forensic.c:333-396 | a command line is accepted iff it has a directory and at most six words before it, asks for no help, fits, and spells some options; it then sets what they say |
| ForensicArgs.ReadOptions | project1/forensic.c:358-396 | the option loop computes the recursive specification, refusals and values past their fields included |
| ForensicArgs.ReadsExactly | project1/forensic.c:358-396 | an argument list is accepted iff it spells some options with values that fit, in any order, and then sets exactly what they say |
| ForensicArgs.RefusesExactly | project1/forensic.c:358-396 | the option loop refuses, and for which reason, exactly lists that spell options up to a -h or -o without a value of its own, an unknown option, or a value past its field |
| ForensicArgs.RefusedBecause | project1/forensic.c:333-396 | the same for the whole command line: too few words, too many, a call for help, a line past 64 characters, then the options |
| ForensicArgs.NamesKeptIff | project1/utils.h:58-62 | after the copies the hash names are still there iff the output name fits its field, or goes on with the same names |
| ForensicArgs.ReadHashNames | project1/forensic.c:422-439 | the name loop sets the flags of the comma list's tokens, or refuses |
| ForensicArgs.FlagsMean | project1/forensic.c:426-437 | a list is accepted iff every name is known, and sets exactly the flags of the names listed |
| ForensicArgs.NamesReadBack | project1/forensic.c:422-439 | any comma list of known names is read as the names it lists |
| DirectoryTree.AddressesExact | project1/forensic.c:248-293 | the files the traversal is to reach are exactly those with no directory on the way, without the recursive flag, or none named "." or ".." with it; none twice |
| DirectoryTree.PathIsNames | project1/forensic.c:262-267 | such a path is the directory's, with or without a trailing slash, and each name on the way after one slash |
| DirectoryTree.ExpectedIsPaths | project1/forensic.c:248-293 | the reports to be made are, as a multiset, the paths of those files |
| Listing.Extend | project1/forensic.c:262-267 | appends a name to the path in the buffer, with one slash, with or without a trailing one |
| Listing.Analyse | project1/forensic.c:274-291 | signals, finds, logs and reports the file at the path in the buffer and restores the directory's path; or ends the process at the first of these that fails |
| Listing.Enter | project1/forensic.c:251-271 | signals a sub-directory and lists it in a child with its own buffer, or passes over it; or ends at a failing log call |
| Listing.ListDir | project1/forensic.c:233-298 | over a process and all forked children reports and logs what the specification `ListedDir` says, ends early iff an entry ends it or the directory does not open, and otherwise leaves the buffer as it was |
| Listing.CompleteIff | project1/forensic.c:233-298 | of that, nothing but the expected paths is reported and none twice; all are iff log and output do not fail, the directory opens and the tree is whole, or there are none |
| Listing.OwnInOrder | project1/forensic.c:248-291 | a process reports the files of its own directory in their order, up to where it ends |
| Listing.DirsSignalled | project1/forensic.c:255-257 | with an output, a log and a tree of which everything is there, one directory signal is logged for each directory entered, at any depth |
| Listing.EndsWithoutLog | project1/forensic.c:255-278 | with an output and no log a process ends iff it comes to a file, or with the recursive flag to a directory other than "." and ".." |
| Listing.LoggedAsReported | project1/forensic.c:287-288 | with a log and an output the paths logged are the paths reported, each as often, whatever is missing |
| Listing.SignalledAsReported | project1/forensic.c:275-278 | with an output file and a whole tree one signal is logged for each path reported |
| AnalyserRuns.AnalyseDirectory | project1/forensic.c:402-461 | as options and environment start it, only expected paths are reported, none twice; all are iff `Completes`; none if the hash names, the log or the output fail |
| AnalyserRuns.UnknownNameStops | project1/forensic.c:422-439 | `-h foo` is an accepted command line that reports nothing of a directory with a file |
| AnalyserRuns.AcceptedAndSilent | project1/forensic.c:358-418 | nor does `-o out` alone, whatever can be opened, nor `-v -o out` with an output that cannot be, however well the log can |
| AnalyserRuns.LinkToNothingStops | project1/forensic.c:123-127 | a link to nothing among the files leaves the report incomplete |

## Left out

- Creation, opening, permissions and removal of the FIFOs, delays, console output and the logs of
  server and client: operating-system plumbing and formatting; kept are "request read" and "reply sent".
- The random salt is an arbitrary string; a shutdown reply's account id, which the code never sets,
  is arbitrary too.
- An unlock of `queue_mut` by a thread that does not hold it, in the drain as written, makes the mutex
  free, and a pop of an empty queue never completes; the pthread and C standards leave both undefined.
- In the drain as written, the test of the queue at project2/server.c:138 and the copy of its head at
  line 140 are one step.
- Fairness before the shutdown: that a request is served in the end, rather than that something can
  move, is not stated; the code leaves who gets the mutex to the scheduler.
- Freed nodes of the queue are nodes no longer in it; reuse of their storage is not modelled.
- Listing.ListDir: output buffers copied by a fork, the delivery of signals and interrupts are not
  modelled; paths are assumed to fit the path buffer, forks to succeed, the tree to stay as it is,
  and a file that opens once to open each time.
- Listing.Analyse: what `stat` finds is taken to be described without fail; the buffers for shell
  commands in project1/forensic.c:129-133, 181-184 are too small for what is appended to them.
- OfficesTheorems.PickedUpInOrder: takes `pop` as one step; offices racing inside it in the drain as
  written (project2/queue.c:13-19) are not modelled.
- OfficesTheorems.JoinedMeansDrained: takes `pop` as one step, likewise.
- OfficesDrainTheorems.DrainFinishesIff: takes `pop` as one step, likewise, and assumes that writing
  a reply returns; the open at project2/server.c:541 waits until the client has opened its end.
- UserArgs.ReadsBackIff: numbers of 2^31 and more are undefined in the C number reader and kept out.
- UnlockedAccounts.ConservesIff: loads that only fill a reply (project2/server.c:320, 348), logins and
  the storing of salt and digest move no money and are not among its steps.
- Serving.Server.WorkOffQueue: the lock, the wait and the flag are not in it; `OneOffice.LifeIsRun`
  and `OneOfficeAlways.EveryLifeServes` show the same table and replies on some and on every run of
  the machine that has them.
- Serving.Server.Serve: one schedule of one office; the same two lemmas cover the others.
- File information, hashing of files, and the single-file case of the analyser's main program:
  shelling out and printing.
- The client's printing of replies: a flat switch.
