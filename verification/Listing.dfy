/** The directory traversal: one path buffer edited in place, a forked child with its own
    copy of it for every sub-directory, and a log that reads the buffer through the command. A
    process ends at the first thing that fails it: a log it cannot open, a directory it cannot
    open, a file it cannot find, an output it cannot print to. */
module Listing {
  import opened Text
  import opened DirectoryTree

  // ---- What a process makes of its entries

  datatype Flags = Flags(recursive: bool, toFile: bool, logging: bool)

  /** The flags, whether the file named for the log can be opened, and whether there is an
      output to print to. */
  datatype Setting = Setting(flags: Flags, logOpens: bool, outputOpens: bool)

  datatype LogLine = DirSignal | FileSignal | Analysed(path: string)

  /** What processes reported and logged: this one in order, its children and theirs together. */
  datatype Report =
    Report(mine: seq<string>, myLog: seq<LogLine>, others: multiset<string>, othersLog: multiset<LogLine>)

  const NO_REPORT := Report([], [], multiset{}, multiset{})

  function AllOf(r: Report): multiset<string> {
    multiset(r.mine) + r.others
  }

  function AllLogOf(r: Report): multiset<LogLine> {
    multiset(r.myLog) + r.othersLog
  }

  /** Nothing about the log or the output ends a process. */
  predicate Sound(s: Setting) {
    s.outputOpens && (s.logOpens || !(s.flags.toFile || s.flags.logging))
  }

  /** The process that comes to this entry ends there. */
  predicate EndsAt(e: Entry, s: Setting) {
    if e.File? then !e.found || !s.outputOpens || ((s.flags.toFile || s.flags.logging) && !s.logOpens)
    else Entered(e, s.flags.recursive) && s.flags.toFile && !s.logOpens
  }

  ghost predicate Ended(entries: seq<Entry>, s: Setting) {
    exists k :: 0 <= k < |entries| && EndsAt(entries[k], s)
  }

  /** The lines a process logs for one entry: with an output file a signal for every file and
      for every directory entered, with logging the path of every file found. */
  function LinesOf(path: string, e: Entry, s: Setting): seq<LogLine> {
    if !s.logOpens then []
    else if e.File? then
      (if s.flags.toFile then [FileSignal] else [])
      + (if s.flags.logging && e.found then [Analysed(Below(path, e.name))] else [])
    else if Entered(e, s.flags.recursive) && s.flags.toFile then [DirSignal]
    else []
  }

  /** A child's report joins those of the other children. */
  function Joined(r: Report, own: seq<string>, lines: seq<LogLine>, below: Report): Report {
    Report(r.mine + own, r.myLog + lines, r.others + AllOf(below), r.othersLog + AllLogOf(below))
  }

  /** The entry's own path, if the process reports it. */
  function OwnOf(path: string, e: Entry, s: Setting): seq<string> {
    if e.File? && !EndsAt(e, s) then [Below(path, e.name)] else []
  }

  /** What a process that lists `entries` reports and logs, with all its children, up to the
      entry at which it ends. */
  ghost function Listed(path: string, entries: seq<Entry>, s: Setting): Report
    decreases entries, 0
  {
    if entries == [] then NO_REPORT
    else
      var n := |entries| - 1;
      var before := Listed(path, entries[..n], s);
      if Ended(entries[..n], s) then before
      else
        var e := entries[n];
        Joined(before, OwnOf(path, e, s), LinesOf(path, e, s), ListedBelow(path, e, s))
  }

  ghost function ListedBelow(path: string, e: Entry, s: Setting): Report
    decreases e, 1
  {
    if Entered(e, s.flags.recursive) && !EndsAt(e, s) && e.opens then Listed(Below(path, e.name), e.entries, s)
    else NO_REPORT
  }

  lemma EndedLonger(entries: seq<Entry>, s: Setting, n: nat)
    requires n <= |entries| && Ended(entries[..n], s)
    ensures Ended(entries, s)
  {
    var k :| 0 <= k < n && EndsAt(entries[..n][k], s);
    assert EndsAt(entries[k], s);
  }

  lemma {:induction false} EndedStep(path: string, entries: seq<Entry>, s: Setting)
    requires entries != [] && Ended(entries[..|entries| - 1], s)
    ensures Listed(path, entries, s) == Listed(path, entries[..|entries| - 1], s)
  {
  }

  /** What comes after the entry at which a process ends makes no difference. */
  lemma {:induction false} EndedStays(path: string, entries: seq<Entry>, s: Setting, n: nat, listed: Report)
    requires n <= |entries| && Ended(entries[..n], s) && Listed(path, entries[..n], s) == listed
    ensures Ended(entries, s) && Listed(path, entries, s) == listed
  {
    EndedLonger(entries, s, n);
    if n == |entries| {
      assert entries[..n] == entries;
    } else {
      var before := entries[..|entries| - 1];
      assert before[..n] == entries[..n];
      EndedStays(path, before, s, n, listed);
      EndedStep(path, entries, s);
    }
  }

  // ---- Reported against what is to be reported

  lemma AppendBag<T>(a: seq<T>, b: seq<T>)
    ensures multiset(a + b) == multiset(a) + multiset(b)
  {
  }

  lemma GatherBag<T>(mine: multiset<T>, others: multiset<T>, more: multiset<T>, below: multiset<T>)
    ensures (mine + more) + (others + below) == (mine + others) + (more + below)
  {
  }

  lemma JoinedAll(r: Report, own: seq<string>, lines: seq<LogLine>, below: Report)
    ensures AllOf(Joined(r, own, lines, below)) == AllOf(r) + (multiset(own) + AllOf(below))
    ensures AllLogOf(Joined(r, own, lines, below)) == AllLogOf(r) + (multiset(lines) + AllLogOf(below))
  {
    AppendBag(r.mine, own);
    AppendBag(r.myLog, lines);
    GatherBag(multiset(r.mine), r.others, multiset(own), AllOf(below));
    GatherBag(multiset(r.myLog), r.othersLog, multiset(lines), AllLogOf(below));
  }

  /** What is reported of one entry, by the process that comes to it and below. */
  ghost function HeardOf(path: string, e: Entry, s: Setting): multiset<string> {
    multiset(OwnOf(path, e, s)) + AllOf(ListedBelow(path, e, s))
  }

  lemma {:induction false} HeardNext(path: string, entries: seq<Entry>, s: Setting)
    requires entries != []
    ensures var n := |entries| - 1;
            var before := AllOf(Listed(path, entries[..n], s));
            AllOf(Listed(path, entries, s)) == if Ended(entries[..n], s) then before
                else before + HeardOf(path, entries[n], s)
  {
    var n := |entries| - 1;
    var e := entries[n];
    JoinedAll(Listed(path, entries[..n], s), OwnOf(path, e, s), LinesOf(path, e, s), ListedBelow(path, e, s));
  }

  /** Of one entry what is below it, or itself. */
  lemma {:induction false} HeardOfIs(path: string, e: Entry, s: Setting)
    ensures HeardOf(path, e, s)
         == if e.File? && !EndsAt(e, s) then multiset{Below(path, e.name)} else AllOf(ListedBelow(path, e, s))
  {
  }

  lemma SubBag<T>(a: multiset<T>, b: multiset<T>, c: multiset<T>, d: multiset<T>)
    requires a <= c && b <= d
    ensures a <= c + d && a + b <= c + d
  {
  }

  /** Nothing is reported that is not to be reported, and nothing twice. */
  lemma {:induction false} HeardAtMost(path: string, entries: seq<Entry>, s: Setting)
    ensures AllOf(Listed(path, entries, s)) <= Expected(path, entries, s.flags.recursive)
    decreases entries
  {
    if entries != [] {
      var n := |entries| - 1;
      var e := entries[n];
      HeardAtMost(path, entries[..n], s);
      HeardNext(path, entries, s);
      HeardOfIs(path, e, s);
      if Entered(e, s.flags.recursive) {
        HeardAtMost(Below(path, e.name), e.entries, s);
      }
      SubBag(AllOf(Listed(path, entries[..n], s)), HeardOf(path, e, s),
             Expected(path, entries[..n], s.flags.recursive), ExpectedOf(path, e, s.flags.recursive));
    }
  }

  /** If the log or the output fails every process, none reports anything. */
  lemma {:induction false} UnsoundIsSilent(path: string, entries: seq<Entry>, s: Setting)
    requires !Sound(s)
    ensures AllOf(Listed(path, entries, s)) == multiset{}
    decreases entries
  {
    if entries != [] {
      var n := |entries| - 1;
      var e := entries[n];
      UnsoundIsSilent(path, entries[..n], s);
      HeardNext(path, entries, s);
      HeardOfIs(path, e, s);
      if Entered(e, s.flags.recursive) {
        UnsoundIsSilent(Below(path, e.name), e.entries, s);
      }
    }
  }

  lemma {:induction false} WholeNotEnded(entries: seq<Entry>, s: Setting)
    requires Sound(s) && Whole(entries, s.flags.recursive)
    ensures !Ended(entries, s)
  {
    forall k | 0 <= k < |entries| ensures !EndsAt(entries[k], s) {
      assert WholeEntry(entries[k], s.flags.recursive);
    }
  }

  lemma {:induction false} WholeIsHeard(path: string, entries: seq<Entry>, s: Setting)
    requires Sound(s) && Whole(entries, s.flags.recursive)
    ensures AllOf(Listed(path, entries, s)) == Expected(path, entries, s.flags.recursive)
    decreases entries
  {
    if entries != [] {
      var n := |entries| - 1;
      WholeLast(entries, s.flags.recursive);
      WholeIsHeard(path, entries[..n], s);
      WholeNotEnded(entries[..n], s);
      HeardNext(path, entries, s);
      WholeEntryHeard(path, entries[n], s);
    }
  }

  lemma {:induction false} WholeEntryHeard(path: string, e: Entry, s: Setting)
    requires Sound(s) && WholeEntry(e, s.flags.recursive)
    ensures HeardOf(path, e, s) == ExpectedOf(path, e, s.flags.recursive)
    decreases e, 0
  {
    HeardOfIs(path, e, s);
    if Entered(e, s.flags.recursive) {
      if NoFiles(e.entries, s.flags.recursive) {
        NoFilesExpected(Below(path, e.name), e.entries, s.flags.recursive);
        HeardAtMost(Below(path, e.name), e.entries, s);
      } else {
        WholeIsHeard(Below(path, e.name), e.entries, s);
      }
    }
  }

  lemma SmallerBag<T>(a: multiset<T>, b: multiset<T>, c: multiset<T>, d: multiset<T>)
    requires |a| <= |c| && |b| <= |d| && (|a| < |c| || |b| < |d|)
    ensures |a + b| < |c + d|
  {
  }

  lemma SubBagSize<T>(a: multiset<T>, c: multiset<T>)
    requires a <= c
    ensures |a| <= |c|
  {
    assert c == a + (c - a);
  }

  /** Where a file cannot be found, or a directory on the way to one not opened, something is
      missing. */
  lemma {:induction false} BrokenIsMissed(path: string, entries: seq<Entry>, s: Setting)
    requires Sound(s) && !Whole(entries, s.flags.recursive)
    ensures |AllOf(Listed(path, entries, s))| < |Expected(path, entries, s.flags.recursive)|
    decreases entries
  {
    var n := |entries| - 1;
    var e := entries[n];
    var before, after := AllOf(Listed(path, entries[..n], s)), HeardOf(path, e, s);
    var all, last := Expected(path, entries[..n], s.flags.recursive), ExpectedOf(path, e, s.flags.recursive);
    WholeLast(entries, s.flags.recursive);
    HeardNext(path, entries, s);
    HeardAtMost(path, entries[..n], s);
    SubBagSize(before, all);
    EntryAtMost(path, e, s);
    if !Whole(entries[..n], s.flags.recursive) {
      BrokenIsMissed(path, entries[..n], s);
    } else {
      WholeNotEnded(entries[..n], s);
      BrokenEntryMissed(path, e, s);
    }
    SmallerBag(before, after, all, last);
    SmallerBag(before, multiset{}, all, last);
  }

  lemma {:induction false} EntryAtMost(path: string, e: Entry, s: Setting)
    ensures |HeardOf(path, e, s)| <= |ExpectedOf(path, e, s.flags.recursive)|
  {
    HeardOfIs(path, e, s);
    if Entered(e, s.flags.recursive) {
      HeardAtMost(Below(path, e.name), e.entries, s);
      SubBagSize(AllOf(Listed(Below(path, e.name), e.entries, s)),
          Expected(Below(path, e.name), e.entries, s.flags.recursive));
    }
  }

  lemma {:induction false} BrokenEntryMissed(path: string, e: Entry, s: Setting)
    requires Sound(s) && !WholeEntry(e, s.flags.recursive)
    ensures |HeardOf(path, e, s)| < |ExpectedOf(path, e, s.flags.recursive)|
    decreases e, 0
  {
    HeardOfIs(path, e, s);
    if Entered(e, s.flags.recursive) {
      NoFilesExpected(Below(path, e.name), e.entries, s.flags.recursive);
      if e.opens {
        BrokenIsMissed(Below(path, e.name), e.entries, s);
      }
    }
  }

  /** A directory is reported completely exactly when nothing fails the processes at its files,
      and they and the directories on the way are there; or when there is nothing to report. */
  lemma {:induction false} CompleteIff(path: string, e: Entry, s: Setting)
    requires e.Dir?
    ensures AllOf(ListedDir(path, e, s)) == Expected(path, e.entries, s.flags.recursive)
       <==> (Sound(s) && e.opens && Whole(e.entries, s.flags.recursive)) || NoFiles(e.entries, s.flags.recursive)
    ensures AllOf(ListedDir(path, e, s)) <= Expected(path, e.entries, s.flags.recursive)
    ensures !Sound(s) ==> AllOf(ListedDir(path, e, s)) == multiset{}
  {
    HeardAtMost(path, e.entries, s);
    NoFilesExpected(path, e.entries, s.flags.recursive);
    if !Sound(s) {
      UnsoundIsSilent(path, e.entries, s);
    } else if Whole(e.entries, s.flags.recursive) {
      WholeIsHeard(path, e.entries, s);
    } else {
      BrokenIsMissed(path, e.entries, s);
    }
  }

  /** The report of the process that lists the directory `e`, at `path`. */
  ghost function ListedDir(path: string, e: Entry, s: Setting): Report
    requires e.Dir?
  {
    if e.opens then Listed(path, e.entries, s) else NO_REPORT
  }

  /** The files of the directory itself, in the order of its entries. */
  ghost function Direct(path: string, entries: seq<Entry>): seq<string> {
    if entries == [] then []
    else
      var n := |entries| - 1;
      Direct(path, entries[..n]) + (if entries[n].File? then [Below(path, entries[n].name)] else [])
  }

  /** A process reports the files of its own directory in their order, up to where it ends. */
  lemma {:induction false} OwnInOrder(path: string, entries: seq<Entry>, s: Setting)
    ensures Listed(path, entries, s).mine <= Direct(path, entries)
    ensures !Ended(entries, s) ==> Listed(path, entries, s).mine == Direct(path, entries)
  {
    if entries != [] {
      var n := |entries| - 1;
      OwnInOrder(path, entries[..n], s);
      if Ended(entries[..n], s) {
        EndedLonger(entries, s, n);
        EndedStep(path, entries, s);
      } else {
        OwnNext(path, entries, s);
        assert entries[..|entries|] == entries;
        NotEndedYet(entries, s, n);
      }
    }
  }

  lemma {:induction false} OwnNext(path: string, entries: seq<Entry>, s: Setting)
    requires entries != [] && !Ended(entries[..|entries| - 1], s)
    ensures var n := |entries| - 1;
            Listed(path, entries, s).mine == Listed(path, entries[..n], s).mine + OwnOf(path, entries[n], s)
  {
  }

  // ---- Logged against reported

  ghost function LoggedOf(path: string, e: Entry, s: Setting): multiset<LogLine> {
    multiset(LinesOf(path, e, s)) + AllLogOf(ListedBelow(path, e, s))
  }

  lemma {:induction false} LoggedNext(path: string, entries: seq<Entry>, s: Setting)
    requires entries != []
    ensures var n := |entries| - 1;
            var before := AllLogOf(Listed(path, entries[..n], s));
            AllLogOf(Listed(path, entries, s)) == if Ended(entries[..n], s) then before
                else before + LoggedOf(path, entries[n], s)
  {
    var n := |entries| - 1;
    var e := entries[n];
    JoinedAll(Listed(path, entries[..n], s), OwnOf(path, e, s), LinesOf(path, e, s), ListedBelow(path, e, s));
  }

  lemma LinesCounted(path: string, e: Entry, s: Setting, p: string)
    requires s.logOpens
    ensures multiset(LinesOf(path, e, s))[Analysed(p)]
         == if s.flags.logging && e.File? && e.found && p == Below(path, e.name) then 1 else 0
    ensures multiset(LinesOf(path, e, s))[FileSignal] == if s.flags.toFile && e.File? then 1 else 0
    ensures multiset(LinesOf(path, e, s))[DirSignal] == if s.flags.toFile && Entered(e, s.flags.recursive) then 1 else 0
  {
    if e.File? && s.flags.toFile && s.flags.logging && e.found {
      assert LinesOf(path, e, s) == [FileSignal, Analysed(Below(path, e.name))];
    } else if e.File? && s.flags.logging && e.found {
      assert LinesOf(path, e, s) == [Analysed(Below(path, e.name))];
    } else if e.File? && s.flags.toFile {
      assert LinesOf(path, e, s) == [FileSignal];
    }
  }

  /** With a log and an output the paths logged are those reported, each as often, whatever
      files and directories are missing. */
  lemma {:induction false} LoggedAsReported(path: string, entries: seq<Entry>, s: Setting, p: string)
    requires s.flags.logging && s.logOpens && s.outputOpens
    ensures AllLogOf(Listed(path, entries, s))[Analysed(p)] == AllOf(Listed(path, entries, s))[p]
    decreases entries
  {
    if entries != [] {
      var n := |entries| - 1;
      var e := entries[n];
      HeardNext(path, entries, s);
      LoggedNext(path, entries, s);
      LoggedAsReported(path, entries[..n], s, p);
      EntryLogged(path, e, s, p);
    }
  }

  lemma EntryLogged(path: string, e: Entry, s: Setting, p: string)
    requires s.flags.logging && s.logOpens && s.outputOpens
    ensures LoggedOf(path, e, s)[Analysed(p)] == HeardOf(path, e, s)[p]
    decreases e, 0
  {
    LinesCounted(path, e, s, p);
    HeardOfIs(path, e, s);
    if Entered(e, s.flags.recursive) && e.opens {
      LoggedAsReported(Below(path, e.name), e.entries, s, p);
    }
  }

  /** With an output file, one signal is logged for each path reported when all are there. */
  lemma {:induction false} SignalledAsReported(path: string, entries: seq<Entry>, s: Setting)
    requires s.flags.toFile && Sound(s) && Whole(entries, s.flags.recursive)
    ensures AllLogOf(Listed(path, entries, s))[FileSignal] == |Expected(path, entries, s.flags.recursive)|
    decreases entries
  {
    if entries != [] {
      var n := |entries| - 1;
      WholeLast(entries, s.flags.recursive);
      WholeNotEnded(entries[..n], s);
      LoggedNext(path, entries, s);
      SignalledAsReported(path, entries[..n], s);
      EntrySignalled(path, entries[n], s);
    }
  }

  lemma {:induction false} EntrySignalled(path: string, e: Entry, s: Setting)
    requires s.flags.toFile && Sound(s) && WholeEntry(e, s.flags.recursive)
    ensures LoggedOf(path, e, s)[FileSignal] == |ExpectedOf(path, e, s.flags.recursive)|
    decreases e, 1
  {
    LinesCounted(path, e, s, "");
    if Entered(e, s.flags.recursive) {
      SignalledBelow(path, e, s);
    }
  }

  lemma {:induction false} SignalledBelow(path: string, e: Entry, s: Setting)
    requires s.flags.toFile && Sound(s) && WholeEntry(e, s.flags.recursive) && Entered(e, s.flags.recursive)
    ensures AllLogOf(ListedBelow(path, e, s))[FileSignal] == |ExpectedOf(path, e, s.flags.recursive)|
    decreases e, 0
  {
    var p := Below(path, e.name);
    if NoFiles(e.entries, s.flags.recursive) {
      NoFilesExpected(p, e.entries, s.flags.recursive);
      NoFilesNoSignal(p, e.entries, s);
    } else {
      SignalledAsReported(p, e.entries, s);
    }
  }

  /** With an output file, one signal is logged for each directory below, when all is there. */
  lemma {:induction false} DirsSignalled(path: string, entries: seq<Entry>, s: Setting)
    requires s.flags.toFile && Sound(s) && AllThere(entries, s.flags.recursive)
    ensures AllLogOf(Listed(path, entries, s))[DirSignal] == DirsIn(entries, s.flags.recursive)
    decreases entries
  {
    if entries != [] {
      var n := |entries| - 1;
      assert entries[n] in entries && forall e :: e in entries[..n] ==> e in entries;
      AllThereIsWhole(entries[..n], s.flags.recursive);
      WholeNotEnded(entries[..n], s);
      LoggedNext(path, entries, s);
      DirsSignalled(path, entries[..n], s);
      DirSignalled(path, entries[n], s);
    }
  }

  lemma {:induction false} DirSignalled(path: string, e: Entry, s: Setting)
    requires s.flags.toFile && Sound(s)
    requires Entered(e, s.flags.recursive) ==> e.opens && AllThere(e.entries, s.flags.recursive)
    ensures LoggedOf(path, e, s)[DirSignal] == DirsOf(e, s.flags.recursive)
    decreases e, 1
  {
    LinesCounted(path, e, s, "");
    if Entered(e, s.flags.recursive) {
      DirsSignalled(Below(path, e.name), e.entries, s);
    }
  }

  /** With an output file and no log, a process ends exactly if it comes to a file or to a
      directory it is to enter. */
  lemma EndsWithoutLog(entries: seq<Entry>, s: Setting)
    requires s.flags.toFile && !s.logOpens
    ensures Ended(entries, s) <==> exists k :: 0 <= k < |entries| && ComesTo(entries[k], s.flags.recursive)
  {
    assert forall k :: 0 <= k < |entries| ==> (EndsAt(entries[k], s) <==> ComesTo(entries[k], s.flags.recursive));
  }

  ghost predicate ComesTo(e: Entry, recursive: bool) {
    e.File? || (recursive && e.name != "." && e.name != "..")
  }

  lemma {:induction false} NoFilesNoSignal(path: string, entries: seq<Entry>, s: Setting)
    requires s.logOpens && NoFiles(entries, s.flags.recursive)
    ensures AllLogOf(Listed(path, entries, s))[FileSignal] == 0
    decreases entries
  {
    if entries != [] {
      var n := |entries| - 1;
      var e := entries[n];
      NoFilesLast(entries, s.flags.recursive);
      LoggedNext(path, entries, s);
      NoFilesNoSignal(path, entries[..n], s);
      LinesCounted(path, e, s, "");
      if Entered(e, s.flags.recursive) {
        NoFilesNoSignal(Below(path, e.name), e.entries, s);
      }
    }
  }

  // ---- The buffer

  ghost predicate Holds(b: array<char>, s: string)
    reads b
  {
    |s| < b.Length && b[..|s|] == s && b[|s|] == NUL && NUL !in s
  }

  /** `strcpy` to offset `at`. */
  method CopyTo(b: array<char>, at: nat, name: string)
    requires at + |name| < b.Length
    modifies b
    ensures b[..at] == old(b[..at]) && b[at..at + |name|] == name && b[at + |name|] == NUL
  {
    var i := 0;
    while i < |name|
      invariant i <= |name| && b[..at] == old(b[..at]) && b[at..at + i] == name[..i]
    {
      b[at + i] := name[i];
      i := i + 1;
    }
    b[at + |name|] := NUL;
  }

  /** Appends an entry's name to the path of `len` characters in the buffer. */
  method Extend(b: array<char>, len: nat, name: string)
    requires 0 < len <= b.Length && Holds(b, b[..len]) && NUL !in name && |Below(b[..len], name)| < b.Length
    modifies b
    ensures Holds(b, Below(old(b[..len]), name)) && b[..len] == old(b[..len])
  {
    ghost var path := b[..len];
    if b[len - 1] != '/' {
      b[len] := '/';
      CopyTo(b, len + 1, name);
      assert b[..len + 1] == path + "/";
    } else {
      CopyTo(b, len, name);
    }
  }

  /** The C string in a buffer. */
  method Read(b: array<char>, ghost text: string) returns (s: string)
    requires Holds(b, text)
    ensures s == text
  {
    s := [];
    var i := 0;
    while b[i] != NUL
      invariant i <= |text| && s == text[..i]
      decreases |text| - i
    {
      assert b[i] == text[i];
      s := s + [b[i]];
      i := i + 1;
    }
  }

  // ---- The processes

  /** The analyser's command: the path buffer that the traversal edits, and its setting. */
  class Command {
    const directory: array<char>
    const setting: Setting

    constructor (directory: array<char>, setting: Setting)
      ensures this.directory == directory && this.setting == setting
    {
      this.directory := directory;
      this.setting := setting;
    }

    /** The child's command: a fork copies the buffer. */
    method Fork() returns (child: Command)
      ensures child.setting == setting
      ensures fresh(child.directory) && child.directory[..] == directory[..]
    {
      var copy := new char[directory.Length](i requires 0 <= i < directory.Length reads directory => directory[i]);
      child := new Command(copy, setting);
    }
  }

  lemma {:induction false} FitsOne(path: string, entries: seq<Entry>, i: nat, recursive: bool, size: nat)
    requires i < |entries| && Fits(path, entries, recursive, size)
    ensures Fits(path, [entries[i]], recursive, size)
  {
    assert entries[i] in entries;
  }

  /** The process is still there after `i` entries, with this report. */
  ghost predicate SoFar(r: Report, text: string, entries: seq<Entry>, s: Setting, i: nat)
    requires i <= |entries|
  {
    !Ended(entries[..i], s) && r == Listed(text, entries[..i], s)
  }

  lemma {:induction false} SoFarAtEnds(text: string, entries: seq<Entry>, s: Setting, r: Report)
    ensures SoFar(NO_REPORT, text, entries, s, 0)
    ensures SoFar(r, text, entries, s, |entries|) <==> !Ended(entries, s) && r == Listed(text, entries, s)
  {
    assert entries[..|entries|] == entries;
  }

  /** After one more entry it goes on, or ends with what there then is. */
  lemma {:induction false} ListingOne(r: Report, after: Report, text: string, entries: seq<Entry>, s: Setting, i: nat)
    requires i < |entries| && SoFar(r, text, entries, s, i)
    requires var e := entries[i];
             after == Joined(r, OwnOf(text, e, s), LinesOf(text, e, s), ListedBelow(text, e, s))
    ensures EndsAt(entries[i], s) ==> Ended(entries, s) && after == Listed(text, entries, s)
    ensures !EndsAt(entries[i], s) ==> SoFar(after, text, entries, s, i + 1)
  {
    NotEndedYet(entries, s, i);
    ListedMore(text, entries, s, i);
    if EndsAt(entries[i], s) {
      EndedStays(text, entries, s, i + 1, after);
    }
  }

  /** Comes to one file: signals it, puts its name on the buffer, looks the path there up, logs
      it when the command says so, reports it, and takes the name off again. What fails ends
      the process, with what it has logged by then. */
  method Analyse(path: array<char>, command: Command, len: nat, file: Entry, r: Report, ghost text: string)
    returns (after: Report, exited: bool)
    requires path == command.directory && file.File? && len == |text| > 0 && Holds(path, text)
    requires NUL !in file.name && |Below(text, file.name)| < path.Length
    modifies path
    ensures exited <==> EndsAt(file, command.setting)
    ensures !exited ==> Holds(path, text)
    ensures after == Joined(r, OwnOf(text, file, command.setting), LinesOf(text, file, command.setting), NO_REPORT)
  {
    after, exited := r, true;
    if command.setting.flags.toFile {
      if !command.setting.logOpens {
        return;
      }
      after := after.(myLog := after.myLog + [FileSignal]);
    }
    Extend(path, len, file.name);
    if !file.found {
      return;
    }
    var analysed := Read(path, Below(text, file.name));
    if command.setting.flags.logging {
      if !command.setting.logOpens {
        return;
      }
      var logged := Read(command.directory, Below(text, file.name));
      after := after.(myLog := after.myLog + [Analysed(logged)]);
    }
    if !command.setting.outputOpens {
      return;
    }
    after := after.(mine := after.mine + [analysed]);
    path[len] := NUL;
    exited := false;
  }

  lemma JoinedNothing(r: Report)
    ensures Joined(r, [], [], NO_REPORT) == r
  {
    assert r.others + multiset{} == r.others && r.othersLog + multiset{} == r.othersLog;
  }

  lemma NotEndedYet(entries: seq<Entry>, s: Setting, i: nat)
    requires i < |entries| && !Ended(entries[..i], s)
    ensures Ended(entries[..i + 1], s) <==> EndsAt(entries[i], s)
  {
    if EndsAt(entries[i], s) {
      assert EndsAt(entries[..i + 1][i], s);
    } else {
      var longer := entries[..i + 1];
      forall k | 0 <= k < |longer| ensures !EndsAt(longer[k], s) {
        assert k < i ==> !EndsAt(entries[..i][k], s);
      }
    }
  }

  /** The report after one more entry. */
  lemma {:induction false} ListedMore(path: string, entries: seq<Entry>, s: Setting, i: nat)
    requires i < |entries| && !Ended(entries[..i], s)
    ensures Listed(path, entries[..i + 1], s)
         == Joined(Listed(path, entries[..i], s), OwnOf(path, entries[i], s), LinesOf(path, entries[i], s),
                   ListedBelow(path, entries[i], s))
  {
    assert entries[..i + 1][..i] == entries[..i];
  }

  /** Comes to one directory: signals it and lists it in a child, if the listing goes there. */
  method Enter(path: array<char>, command: Command, len: nat, dir: Entry, r: Report, ghost text: string)
    returns (after: Report, exited: bool)
    requires path == command.directory && dir.Dir? && len == |text| > 0 && Holds(path, text)
    requires Entered(dir, command.setting.flags.recursive) ==>
      && NUL !in dir.name && |Below(text, dir.name)| < path.Length
      && (dir.opens ==> Fits(Below(text, dir.name), dir.entries, command.setting.flags.recursive, path.Length))
    ensures exited <==> EndsAt(dir, command.setting)
    ensures after == Joined(r, [], LinesOf(text, dir, command.setting), ListedBelow(text, dir, command.setting))
    decreases dir, 2
  {
    after, exited := r, false;
    JoinedNothing(r);
    if Dot(dir.name) || !command.setting.flags.recursive {
      return;
    }
    var lines: seq<LogLine> := [];
    if command.setting.flags.toFile {
      if !command.setting.logOpens {
        exited := true;
        return;
      }
      lines := [DirSignal];
    }
    var child := command.Fork();
    Extend(child.directory, len, dir.name);
    var below, childExited := ListDir(child.directory, child, dir, Below(text, dir.name));
    after := Joined(r, [], lines, below);
  }

  /** Comes to one entry, whichever it is. */
  method Visit(path: array<char>, command: Command, len: nat, e: Entry, r: Report, ghost text: string)
    returns (after: Report, exited: bool)
    requires path == command.directory && len == |text| > 0 && Holds(path, text)
    requires Fits(text, [e], command.setting.flags.recursive, path.Length)
    modifies path
    ensures exited <==> EndsAt(e, command.setting)
    ensures !exited ==> Holds(path, text)
    ensures after == Joined(r, OwnOf(text, e, command.setting), LinesOf(text, e, command.setting),
                            ListedBelow(text, e, command.setting))
    decreases e, 3
  {
    assert e in [e];
    if e.Dir? {
      after, exited := Enter(path, command, len, e, r, text);
    } else {
      after, exited := Analyse(path, command, len, e, r, text);
    }
  }

  /** Lists the directory `dir` whose path `text` the command's buffer holds. What this process
      and every child report and log is `ListedDir`, of which `CompleteIff` tells when it is all
      there is to report. If the process does not end early the buffer is left as it was. */
  method ListDir(path: array<char>, command: Command, dir: Entry, ghost text: string) returns (r: Report, exited: bool)
    requires path == command.directory && dir.Dir? && text != [] && Holds(path, text)
    requires dir.opens ==> Fits(text, dir.entries, command.setting.flags.recursive, path.Length)
    modifies path
    ensures r == ListedDir(text, dir, command.setting)
    ensures exited <==> !dir.opens || Ended(dir.entries, command.setting)
    ensures !exited ==> Holds(path, text)
    decreases dir, 1
  {
    var len := Length(path, text);
    if !dir.opens {
      return NO_REPORT, true;
    }
    r, exited := ListEntries(path, command, len, dir, text);
  }

  /** The loop over the entries of an open directory. */
  method ListEntries(path: array<char>, command: Command, len: nat, dir: Entry, ghost text: string)
    returns (r: Report, exited: bool)
    requires path == command.directory && dir.Dir? && len == |text| > 0 && Holds(path, text)
    requires Fits(text, dir.entries, command.setting.flags.recursive, path.Length)
    modifies path
    ensures r == Listed(text, dir.entries, command.setting)
    ensures exited <==> Ended(dir.entries, command.setting)
    ensures !exited ==> Holds(path, text)
    decreases dir, 0
  {
    ghost var entries, setting := dir.entries, command.setting;
    r, exited := NO_REPORT, false;
    SoFarAtEnds(text, entries, setting, r);
    var i := 0;
    while i < |dir.entries|
      invariant i <= |entries| && Holds(path, text) && SoFar(r, text, entries, setting, i)
    {
      ghost var before := r;
      FitsOne(text, entries, i, setting.flags.recursive, path.Length);
      r, exited := Visit(path, command, len, dir.entries[i], r, text);
      ListingOne(before, r, text, entries, setting, i);
      if exited {
        return;
      }
      i := i + 1;
    }
    SoFarAtEnds(text, entries, setting, r);
  }

  /** `strlen`. */
  method Length(b: array<char>, ghost text: string) returns (n: nat)
    requires Holds(b, text)
    ensures n == |text|
  {
    var s := Read(b, text);
    n := |s|;
  }
}
