/** The analyser on a directory, from its options and what the environment gives it to the
    reports of all its processes, and exactly when those are complete. */
module AnalyserRuns {
  import opened Messages
  import opened Text
  import opened DirectoryTree
  import opened Listing
  import opened ForensicArgs

  /** What the environment says: the value of LOGFILENAME, and which files can be opened for
      appending and for writing. */
  datatype Environment = Environment(logName: Option<string>, appends: string -> bool, writes: string -> bool)

  /** A name that fits its field and can be opened; the empty name names no file. */
  predicate LogOpens(name: string, env: Environment) {
    name != "" && |name| <= MAX_FILE_NAME && env.appends(name)
  }

  /** The log has a name only if logging was asked for and the environment gives one. */
  predicate LogNamed(options: Options, env: Environment) {
    options.logging && env.logName.Some?
  }

  /** If anything is to be logged, it is to a log that has a name and opens. */
  predicate LogUsable(options: Options, env: Environment) {
    options.toFile || options.logging ==>
      && options.logging && env.logName.Some?
      && var name := env.logName.value; name != "" && |name| <= 64 && env.appends(name)
  }

  predicate OutputUsable(options: Options, env: Environment) {
    options.toFile ==> env.writes(options.outfile)
  }

  predicate NamesKnown(options: Options) {
    forall name :: name in Tokens(options.hashNames, ',') ==> name == "md5" || name == "sha1" || name == "sha256"
  }

  /** What the options and the environment must be for anything to be reported. */
  predicate Ready(options: Options, env: Environment) {
    NamesKnown(options) && LogUsable(options, env) && OutputUsable(options, env)
  }

  /** What the options, the environment and the directory must be for all of it to be. */
  ghost predicate Completes(options: Options, env: Environment, dir: Entry)
    requires dir.Dir?
  {
    || (Ready(options, env) && dir.opens && Whole(dir.entries, options.recursive))
    || NoFiles(dir.entries, options.recursive)
  }

  /** The hash names, read in a buffer of their own. */
  method NamesAccepted(options: Options) returns (known: bool)
    requires NUL !in options.hashNames
    ensures known <==> NamesKnown(options)
  {
    var list := options.hashNames;
    var buffer := new char[|list| + 1](i requires 0 <= i <= |list| => if i < |list| then list[i] else NUL);
    assert buffer[..|list|] == list;
    var hashes := ReadHashNames(buffer, |list|);
    ghost var names := Tokens(list, ',');
    FlagsMean(NO_HASHES, names);
    assert forall k :: 0 <= k < |names| ==> names[k] in names;
    known := hashes.Ok?;
  }

  function SettingOf(options: Options, env: Environment): Setting {
    Setting(Flags(options.recursive, options.toFile, options.logging),
            LogNamed(options, env) && LogOpens(env.logName.value, env),
            !options.toFile || env.writes(options.outfile))
  }

  /** What is reported is no more than is to be, and all of it exactly when `Completes`. */
  ghost predicate Justified(reports: multiset<string>, options: Options, env: Environment, dir: Entry, text: string)
    requires dir.Dir?
  {
    && reports <= Expected(text, dir.entries, options.recursive)
    && (reports == Expected(text, dir.entries, options.recursive) <==> Completes(options, env, dir))
    && (!Ready(options, env) ==> reports == multiset{})
  }

  lemma SilenceJustified(options: Options, env: Environment, dir: Entry, text: string)
    requires dir.Dir? && !Ready(options, env)
    ensures Justified(AllOf(NO_REPORT), options, env, dir, text)
  {
    NoFilesExpected(text, dir.entries, options.recursive);
  }

  lemma ListingJustified(options: Options, env: Environment, dir: Entry, text: string)
    requires dir.Dir? && NamesKnown(options)
    ensures Justified(AllOf(ListedDir(text, dir, SettingOf(options, env))), options, env, dir, text)
  {
    assert Sound(SettingOf(options, env)) <==> Ready(options, env);
    CompleteIff(text, dir, SettingOf(options, env));
  }

  /** The analyser on a directory. With logging and a name for the log it logs its command line
      first, and ends if it cannot; it opens the output; it ends at a hash name it does not
      know; and then it lists the directory. Over all processes only paths to be reported are
      reported, none twice; all of them are exactly when `Completes`. */
  method AnalyseDirectory(path: array<char>, options: Options, env: Environment, dir: Entry, ghost text: string)
    returns (r: Report, exited: bool)
    requires dir.Dir? && text != [] && Holds(path, text) && NUL !in options.hashNames
    requires dir.opens ==> Fits(text, dir.entries, options.recursive, path.Length)
    modifies path
    ensures Justified(AllOf(r), options, env, dir, text)
  {
    r, exited := NO_REPORT, true;
    var name := "";
    if LogNamed(options, env) {
      name := env.logName.value;
      if !LogOpens(name, env) {
        SilenceJustified(options, env, dir, text);
        return;
      }
    }
    var outputOpens := !options.toFile || env.writes(options.outfile);
    var known := NamesAccepted(options);
    if !known {
      SilenceJustified(options, env, dir, text);
      return;
    }
    var flags := Flags(options.recursive, options.toFile, options.logging);
    var command := new Command(path, Setting(flags, LogOpens(name, env), outputOpens));
    r, exited := ListDir(path, command, dir, text);
    ListingJustified(options, env, dir, text);
  }

  // ---- Command lines that report nothing of a directory with a file

  ghost predicate HasFile(dir: Entry) {
    dir.Dir? && exists e :: e in dir.entries && e.File?
  }

  lemma NotReady(options: Options, env: Environment, dir: Entry)
    requires HasFile(dir) && !Ready(options, env)
    ensures !Completes(options, env, dir)
  {
  }

  /** An unknown hash name: the command line is accepted, and the program ends before it lists. */
  lemma UnknownNameStops(env: Environment, dir: Entry)
    requires HasFile(dir)
    ensures CommandLine(["forensic", "-h", "foo", "dir"]) == Ok(NO_OPTIONS.(hashing := true, hashNames := "foo"))
    ensures !Completes(NO_OPTIONS.(hashing := true, hashNames := "foo"), env, dir)
  {
    var options := NO_OPTIONS.(hashing := true, hashNames := "foo");
    assert Kept(["forensic", "-h", "foo", "dir"]) == "forensic -h foo dir " by {
      KeptFour("forensic", "-h", "foo", "dir");
    }
    assert ["forensic", "-h", "foo", "dir"][1..3] == ["-h", "foo"];
    assert ["-h", "foo"][2..] == [];
    TokensOfJoin(["foo"], ',');
    assert "foo" in Tokens(options.hashNames, ',') && !Known("foo");
    NotReady(options, env, dir);
  }

  lemma KeptFour(a: string, b: string, c: string, d: string)
    ensures Kept([a, b, c, d]) == a + " " + b + " " + c + " " + d + " "
  {
    assert [a, b, c, d][..3] == [a, b, c] && [a, b, c][..2] == [a, b] && [a, b][..1] == [a] && [a][..0] == [];
    assert Kept([a]) == a + " ";
    assert Kept([a, b]) == Kept([a]) + b + " ";
    assert Kept([a, b, c]) == Kept([a, b]) + c + " ";
  }

  /** An output that cannot be opened, however well the log can: the first file is printed to
      no stream. */
  lemma OutputMustOpen(options: Options, env: Environment, dir: Entry)
    requires HasFile(dir) && options.toFile && !env.writes(options.outfile)
    ensures !Completes(options, env, dir)
  {
    NotReady(options, env, dir);
  }

  /** An output file without logging, or logging without a name for the log: the log has no
      name, whatever can be opened. */
  lemma OutputNeedsLog(options: Options, env: Environment, dir: Entry)
    requires HasFile(dir) && (options.toFile || options.logging) && !LogNamed(options, env)
    ensures !Completes(options, env, dir)
  {
    NotReady(options, env, dir);
  }

  /** Such command lines are accepted: an output file alone, with any environment, and an output
      file that cannot be written to, with the best of logs. */
  lemma AcceptedAndSilent(env: Environment, dir: Entry)
    requires HasFile(dir)
    ensures var c := CommandLine(["forensic", "-o", "out", "dir"]);
            c.Ok? && !Completes(c.value, env, dir)
    ensures var c := CommandLine(["forensic", "-v", "-o", "out", "dir"]);
            c.Ok? && c.value.logging && (!env.writes("out") ==> !Completes(c.value, env, dir))
  {
    var quiet, logged := ["forensic", "-o", "out", "dir"], ["forensic", "-v", "-o", "out", "dir"];
    KeptFour("forensic", "-o", "out", "dir");
    assert logged[..4] == ["forensic", "-v", "-o", "out"];
    KeptFour("forensic", "-v", "-o", "out");
    assert Kept(logged) == Kept(logged[..4]) + "dir" + " ";
    assert quiet[1..3] == ["-o", "out"] && ["-o", "out"][2..] == [];
    assert logged[1..4] == ["-v", "-o", "out"] && ["-v", "-o", "out"][1..] == ["-o", "out"];
    var alone, both := NO_OPTIONS.(toFile := true, outfile := "out"),
      NO_OPTIONS.(logging := true, toFile := true, outfile := "out");
    assert Scan(["-o", "out"], "dir", NO_OPTIONS) == Ok(alone);
    assert Scan(["-v", "-o", "out"], "dir", NO_OPTIONS) == Ok(both);
    OutputNeedsLog(alone, env, dir);
    if !env.writes("out") {
      OutputMustOpen(both, env, dir);
    }
  }

  /** A link to nothing among the files ends the process that comes to it. */
  lemma LinkToNothingStops(options: Options, env: Environment, dir: Entry, e: Entry)
    requires dir.Dir? && e in dir.entries && e.File? && !e.found
    ensures !Completes(options, env, dir)
  {
    assert !WholeEntry(e, options.recursive);
  }
}
