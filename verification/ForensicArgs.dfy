/** The command line of the directory analyser: the copy it keeps of it, its option loop and
    its hash-name loop. */
module ForensicArgs {
  import opened Messages
  import opened Text

  datatype Options = Options(recursive: bool, hashing: bool, hashNames: string, toFile: bool, outfile: string,
      logging: bool)

  const NO_OPTIONS := Options(false, false, "", false, "", false)

  /** Why the program ends. `TooLong` stands for a copy past the end of its buffer. */
  datatype Refusal = TooFew | TooMany | Help | NeedsValue | UnknownOption | TooLong

  /** The characters a name field or the copied command line has room for. */
  const MAX_FILE_NAME: nat := 64

  datatype Outcome<T> = Ok(value: T) | Refused(why: Refusal)

  predicate TakenForOption(value: string, first: string) {
    value == first || value == "-v" || value == "-r"
  }

  /** The options left to read are `args`; the last argument, `dir`, follows them and serves as
      the value of an option that has none of its own. The check on `-v` never refuses. */
  function Scan(args: seq<string>, dir: string, c: Options): Outcome<Options>
    decreases |args|
  {
    if args == [] then Ok(c)
    else
      var value := if |args| > 1 then args[1] else dir;
      var rest := if |args| > 1 then args[2..] else [];
      if args[0] == "-r" then Scan(args[1..], dir, c.(recursive := true))
      else if args[0] == "-h" then
        if TakenForOption(value, "-o") then Refused(NeedsValue)
        else if |value| > MAX_FILE_NAME then Refused(TooLong)
        else Scan(rest, dir, c.(hashing := true, hashNames := value))
      else if args[0] == "-o" then
        if TakenForOption(value, "-h") then Refused(NeedsValue)
        else if |value| > MAX_FILE_NAME then Refused(TooLong)
        else Scan(rest, dir, c.(toFile := true, outfile := value))
      else if args[0] == "-v" then Scan(args[1..], dir, c.(logging := true))
      else Refused(UnknownOption)
  }

  /** The option loop; `argv` ends with the directory. */
  method ReadOptions(argv: seq<string>) returns (r: Outcome<Options>)
    requires |argv| >= 2
    ensures r == Scan(argv[1..|argv| - 1], argv[|argv| - 1], NO_OPTIONS)
  {
    var c := NO_OPTIONS;
    ghost var dir := argv[|argv| - 1];
    ghost var whole := Scan(argv[1..|argv| - 1], dir, c);
    var i := 1;
    while i < |argv| - 1
      invariant 1 <= i <= |argv|
      invariant whole == Scan(if i < |argv| then argv[i..|argv| - 1] else [], dir, c)
    {
      ghost var left := argv[i..|argv| - 1];
      assert left[1..] == argv[i + 1..|argv| - 1];
      assert |left| > 1 ==> left[1] == argv[i + 1] && left[2..] == argv[i + 2..|argv| - 1];
      if argv[i] == "-r" {
        c := c.(recursive := true);
      } else if argv[i] == "-h" {
        c := c.(hashing := true);
        i := i + 1;
        if TakenForOption(argv[i], "-o") {
          return Refused(NeedsValue);
        }
        if |argv[i]| > MAX_FILE_NAME {
          return Refused(TooLong);
        }
        c := c.(hashNames := argv[i]);
      } else if argv[i] == "-o" {
        c := c.(toFile := true);
        i := i + 1;
        if TakenForOption(argv[i], "-h") {
          return Refused(NeedsValue);
        }
        if |argv[i]| > MAX_FILE_NAME {
          return Refused(TooLong);
        }
        c := c.(outfile := argv[i]);
      } else if argv[i] == "-v" {
        c := c.(logging := true);
      } else {
        return Refused(UnknownOption);
      }
      i := i + 1;
    }
    r := Ok(c);
  }

  // ---- What the option loop accepts

  datatype Choice = Recurse | Hash(names: string) | Output(file: string) | Log

  predicate Valued(o: Choice) {
    o.Hash? || o.Output?
  }

  predicate ChoiceOk(o: Choice) {
    match o
    case Hash(names) => names != "-o" && names != "-v" && names != "-r" && |names| <= 64
    case Output(file) => file != "-h" && file != "-v" && file != "-r" && |file| <= 64
    case _ => true
  }

  predicate ChoicesOk(os: seq<Choice>) {
    forall k :: 0 <= k < |os| ==> ChoiceOk(os[k])
  }

  function Written(o: Choice): seq<string> {
    match o
    case Recurse => ["-r"]
    case Hash(names) => ["-h", names]
    case Output(file) => ["-o", file]
    case Log => ["-v"]
  }

  function WrittenAll(os: seq<Choice>): seq<string> {
    if os == [] then [] else Written(os[0]) + WrittenAll(os[1..])
  }

  function Chosen(c: Options, o: Choice): Options {
    match o
    case Recurse => c.(recursive := true)
    case Hash(names) => c.(hashing := true, hashNames := names)
    case Output(file) => c.(toFile := true, outfile := file)
    case Log => c.(logging := true)
  }

  /** Every choice takes effect; of two values for one option the later stands. */
  function ChosenAll(c: Options, os: seq<Choice>): Options
    decreases |os|
  {
    if os == [] then c else ChosenAll(Chosen(c, os[0]), os[1..])
  }

  /** `args` spells the choices, or all of them but the last one's value, which is `dir`. */
  ghost predicate Spells(args: seq<string>, dir: string, os: seq<Choice>) {
    ChoicesOk(os) && (args == WrittenAll(os) || (os != [] && Valued(os[|os| - 1]) && args + [dir] == WrittenAll(os)))
  }

  lemma {:induction false} ScanOne(args: seq<string>, dir: string, c: Options, o: Choice)
    requires ChoiceOk(o) && |Written(o)| <= |args| && args[..|Written(o)|] == Written(o)
    ensures Scan(args, dir, c) == Scan(args[|Written(o)|..], dir, Chosen(c, o))
  {
    assert args[0] == Written(o)[0];
    if Valued(o) {
      assert args[1] == Written(o)[1];
    }
  }

  lemma {:induction false} ScanLast(args: seq<string>, dir: string, c: Options, o: Choice)
    requires ChoiceOk(o) && Valued(o) && args + [dir] == Written(o)
    ensures Scan(args, dir, c) == Ok(Chosen(c, o))
  {
    assert |args| == 1 && (args + [dir])[0] == args[0] && (args + [dir])[1] == dir;
  }

  lemma TakeFirst(whole: seq<string>, first: seq<string>, rest: seq<string>)
    requires whole == first + rest
    ensures whole[..|first|] == first && whole[|first|..] == rest
  {
  }

  lemma SpellsRest(args: seq<string>, dir: string, os: seq<Choice>)
    requires Spells(args, dir, os) && os != [] && !(|os| == 1 && args + [dir] == Written(os[0]))
    ensures |Written(os[0])| <= |args| && args[..|Written(os[0])|] == Written(os[0])
    ensures Spells(args[|Written(os[0])|..], dir, os[1..])
  {
    if args == WrittenAll(os) {
      TakeFirst(args, Written(os[0]), WrittenAll(os[1..]));
    } else {
      SpellsRestShort(args, dir, os);
    }
  }

  lemma {:induction false} SomethingWritten(os: seq<Choice>)
    requires os != []
    ensures WrittenAll(os) != []
  {
  }

  lemma {:induction false} SpellsRestShort(args: seq<string>, dir: string, os: seq<Choice>)
    requires os != [] && ChoicesOk(os) && Valued(os[|os| - 1]) && args + [dir] == WrittenAll(os)
    requires !(|os| == 1 && args + [dir] == Written(os[0]))
    ensures var first := Written(os[0]);
      |first| <= |args| && args[..|first|] == first && Spells(args[|first|..], dir, os[1..])
  {
    var first, rest, tail := Written(os[0]), os[1..], WrittenAll(os[1..]);
    assert args + [dir] == first + tail;
    assert rest != [] by {
      assert first + [] == first;
    }
    SomethingWritten(rest);
    assert |first| <= |args|;
    TakeFirst(args + [dir], first, tail);
    assert args[|first|..] + [dir] == tail;
    assert args[..|first|] == first;
    assert rest[|rest| - 1] == os[|os| - 1];
  }

  /** Any options in any order are read as what they say. */
  lemma {:induction false} SpelledIsRead(args: seq<string>, dir: string, c: Options, os: seq<Choice>)
    requires Spells(args, dir, os)
    ensures Scan(args, dir, c) == Ok(ChosenAll(c, os))
    decreases |os|
  {
    if os == [] {
    } else if |os| == 1 && args + [dir] == Written(os[0]) {
      assert Valued(os[0]) by {
        assert WrittenAll(os[1..]) == [];
        assert WrittenAll(os) == Written(os[0]) + [];
      }
      ScanLast(args, dir, c, os[0]);
      assert ChosenAll(Chosen(c, os[0]), os[1..]) == Chosen(c, os[0]);
    } else {
      SpellsRest(args, dir, os);
      ScanOne(args, dir, c, os[0]);
      SpelledIsRead(args[|Written(os[0])|..], dir, Chosen(c, os[0]), os[1..]);
    }
  }

  /** The choice a list that is read begins with. */
  function FirstChoice(args: seq<string>, dir: string): Choice
    requires args != []
  {
    var value := if |args| > 1 then args[1] else dir;
    if args[0] == "-r" then Recurse else if args[0] == "-h" then Hash(value)
    else if args[0] == "-o" then Output(value) else Log
  }

  lemma {:induction false} FirstChoiceRead(args: seq<string>, dir: string, c: Options)
    requires args != [] && Scan(args, dir, c).Ok?
    ensures ChoiceOk(FirstChoice(args, dir))
    ensures var o := FirstChoice(args, dir);
      if Valued(o) && |args| == 1 then args + [dir] == Written(o)
      else |Written(o)| <= |args| && args[..|Written(o)|] == Written(o)
  {
  }

  lemma SpellsMore(args: seq<string>, dir: string, o: Choice, rest: seq<Choice>)
    requires ChoiceOk(o) && |Written(o)| <= |args| && args[..|Written(o)|] == Written(o)
    requires Spells(args[|Written(o)|..], dir, rest)
    ensures Spells(args, dir, [o] + rest)
  {
    var left := args[|Written(o)|..];
    assert ([o] + rest)[1..] == rest;
    assert args == Written(o) + left;
    if left != WrittenAll(rest) {
      assert args + [dir] == Written(o) + (left + [dir]);
    }
  }

  /** What is read was spelled by some options. */
  lemma {:induction false} ReadIsSpelled(args: seq<string>, dir: string, c: Options) returns (os: seq<Choice>)
    requires Scan(args, dir, c).Ok?
    ensures Spells(args, dir, os)
    decreases |args|
  {
    if args == [] {
      return [];
    }
    var o := FirstChoice(args, dir);
    FirstChoiceRead(args, dir, c);
    if Valued(o) && |args| == 1 {
      assert [o][1..] == [];
      assert WrittenAll([o]) == Written(o) + [];
      return [o];
    }
    ScanOne(args, dir, c, o);
    var rest := ReadIsSpelled(args[|Written(o)|..], dir, Chosen(c, o));
    SpellsMore(args, dir, o, rest);
    return [o] + rest;
  }

  /** The option loop accepts an argument list exactly when it spells some options whose values
      fit their fields, and then sets exactly what they say. */
  lemma {:induction false} ReadsExactly(args: seq<string>, dir: string, after: Options)
    ensures Scan(args, dir, NO_OPTIONS) == Ok(after)
       <==> exists os :: Spells(args, dir, os) && after == ChosenAll(NO_OPTIONS, os)
  {
    if Scan(args, dir, NO_OPTIONS) == Ok(after) {
      var os := ReadIsSpelled(args, dir, NO_OPTIONS);
      SpelledIsRead(args, dir, NO_OPTIONS, os);
    }
    forall os | Spells(args, dir, os) && after == ChosenAll(NO_OPTIONS, os)
      ensures Scan(args, dir, NO_OPTIONS) == Ok(after)
    {
      SpelledIsRead(args, dir, NO_OPTIONS, os);
    }
  }

  // ---- What the option loop refuses, and why

  /** The arguments left begin with an option that is refused for this reason. */
  predicate RefusedHere(left: seq<string>, dir: string, why: Refusal) {
    && left != []
    && var value := if |left| > 1 then left[1] else dir;
       var optionAsValue := || (left[0] == "-h" && (value == "-o" || value == "-v" || value == "-r"))
                            || (left[0] == "-o" && (value == "-h" || value == "-v" || value == "-r"));
       match why
       case NeedsValue => optionAsValue
       case TooLong => (left[0] == "-h" || left[0] == "-o") && !optionAsValue && |value| > 64
       case UnknownOption => left[0] != "-r" && left[0] != "-h" && left[0] != "-o" && left[0] != "-v"
       case _ => false
  }

  lemma {:induction false} ScanPast(os: seq<Choice>, left: seq<string>, dir: string, c: Options)
    requires ChoicesOk(os)
    ensures Scan(WrittenAll(os) + left, dir, c) == Scan(left, dir, ChosenAll(c, os))
    decreases |os|
  {
    if os == [] {
      assert WrittenAll(os) + left == left;
    } else {
      var args := WrittenAll(os) + left;
      assert args == Written(os[0]) + (WrittenAll(os[1..]) + left);
      TakeFirst(args, Written(os[0]), WrittenAll(os[1..]) + left);
      ScanOne(args, dir, c, os[0]);
      ScanPast(os[1..], left, dir, Chosen(c, os[0]));
    }
  }

  lemma {:induction false} RefusedAtOnce(left: seq<string>, dir: string, c: Options, why: Refusal)
    requires RefusedHere(left, dir, why)
    ensures Scan(left, dir, c) == Refused(why)
  {
  }

  /** The options before the one that is refused. */
  lemma {:induction false} BeforeRefusal(args: seq<string>, dir: string, c: Options, why: Refusal)
      returns (os: seq<Choice>, left: seq<string>)
    requires Scan(args, dir, c) == Refused(why)
    ensures ChoicesOk(os) && args == WrittenAll(os) + left && RefusedHere(left, dir, why)
    decreases |args|
  {
    if RefusedHere(args, dir, why) {
      os, left := [], args;
      assert WrittenAll(os) + left == left;
    } else {
      var o := FirstChoice(args, dir);
      FirstNotRefused(args, dir, c, why);
      ScanOne(args, dir, c, o);
      os, left := BeforeRefusal(args[|Written(o)|..], dir, Chosen(c, o), why);
      WrittenMore(args, o, os, left);
      os := [o] + os;
    }
  }

  lemma {:induction false} WrittenMore(args: seq<string>, o: Choice, os: seq<Choice>, left: seq<string>)
    requires |Written(o)| <= |args| && args[..|Written(o)|] == Written(o)
    requires args[|Written(o)|..] == WrittenAll(os) + left
    ensures args == WrittenAll([o] + os) + left
  {
    assert ([o] + os)[1..] == os;
    assert args == Written(o) + (WrittenAll(os) + left);
    assert Written(o) + (WrittenAll(os) + left) == (Written(o) + WrittenAll(os)) + left;
  }

  lemma {:induction false} FirstNotRefused(args: seq<string>, dir: string, c: Options, why: Refusal)
    requires Scan(args, dir, c) == Refused(why) && !RefusedHere(args, dir, why)
    ensures args != [] && ChoiceOk(FirstChoice(args, dir))
    ensures var o := FirstChoice(args, dir); |Written(o)| <= |args| && args[..|Written(o)|] == Written(o)
  {
  }

  /** The option loop refuses a list for a reason exactly when after some options it comes to
      one refused for that reason: a value that looks like an option, one past its field, or an
      option it does not know. */
  lemma {:induction false} RefusesExactly(args: seq<string>, dir: string, why: Refusal)
    ensures Scan(args, dir, NO_OPTIONS) == Refused(why)
       <==> exists os, left :: ChoicesOk(os) && args == WrittenAll(os) + left && RefusedHere(left, dir, why)
  {
    if Scan(args, dir, NO_OPTIONS) == Refused(why) {
      var os, left := BeforeRefusal(args, dir, NO_OPTIONS, why);
    }
    forall os, left | ChoicesOk(os) && args == WrittenAll(os) + left && RefusedHere(left, dir, why)
      ensures Scan(args, dir, NO_OPTIONS) == Refused(why)
    {
      ScanPast(os, left, dir, NO_OPTIONS);
      RefusedAtOnce(left, dir, ChosenAll(NO_OPTIONS, os), why);
    }
  }

  // ---- The whole command line

  /** The command line as it is kept for the log, a space after each word. */
  function Kept(argv: seq<string>): string {
    if argv == [] then [] else Kept(argv[..|argv| - 1]) + argv[|argv| - 1] + " "
  }

  function CommandLine(argv: seq<string>): Outcome<Options> {
    if |argv| < 2 then Refused(TooFew)
    else if |argv| > 8 then Refused(TooMany)
    else if argv[1] == "--help" then Refused(Help)
    else if |Kept(argv)| > MAX_FILE_NAME then Refused(TooLong)
    else Scan(argv[1..|argv| - 1], argv[|argv| - 1], NO_OPTIONS)
  }

  lemma {:induction false} KeptGrows(argv: seq<string>, i: nat)
    requires i <= |argv|
    ensures |Kept(argv[..i])| <= |Kept(argv)|
  {
    var n := |argv|;
    if i == n {
      assert argv[..i] == argv;
    } else {
      assert argv[..n - 1][..i] == argv[..i];
      KeptGrows(argv[..n - 1], i);
    }
  }

  /** Reads the command line up to the options: too few or too many words, a call for help, and
      a line too long for the buffer it is kept in end the program. */
  method ReadCommandLine(argv: seq<string>) returns (r: Outcome<Options>, kept: string)
    ensures r == CommandLine(argv)
    ensures r.Ok? ==> kept == Kept(argv)
  {
    kept := "";
    if |argv| < 2 {
      return Refused(TooFew), kept;
    }
    if |argv| > 8 {
      return Refused(TooMany), kept;
    }
    if argv[1] == "--help" {
      return Refused(Help), kept;
    }
    var i := 0;
    while i < |argv|
      invariant i <= |argv| && kept == Kept(argv[..i]) && |kept| <= MAX_FILE_NAME
    {
      assert argv[..i + 1][..i] == argv[..i] && argv[..i + 1][i] == argv[i];
      assert Kept(argv[..i + 1]) == kept + argv[i] + " ";
      KeptGrows(argv, i + 1);
      if |kept + argv[i] + " "| > MAX_FILE_NAME {
        return Refused(TooLong), kept;
      }
      kept := kept + argv[i] + " ";
      i := i + 1;
    }
    assert argv[..|argv|] == argv;
    r := ReadOptions(argv);
  }

  ghost function Lengths(argv: seq<string>): nat {
    if argv == [] then 0 else Lengths(argv[..|argv| - 1]) + |argv[|argv| - 1]| + 1
  }

  lemma {:induction false} KeptLength(argv: seq<string>)
    ensures |Kept(argv)| == Lengths(argv)
  {
    if argv != [] {
      KeptLength(argv[..|argv| - 1]);
    }
  }

  /** Why a command line is refused: the number of words, then a call for help, then the length
      of the line, then its options. */
  lemma {:induction false} RefusedBecause(argv: seq<string>, why: Refusal)
    ensures CommandLine(argv) == Refused(why)
       <==> if |argv| < 2 then why == TooFew
            else if |argv| > 8 then why == TooMany
            else if argv[1] == "--help" then why == Help
            else if Lengths(argv) > 64 then why == TooLong
            else exists os, left ::
                   && ChoicesOk(os) && argv[1..|argv| - 1] == WrittenAll(os) + left
                   && RefusedHere(left, argv[|argv| - 1], why)
  {
    KeptLength(argv);
    if 2 <= |argv| {
      RefusesExactly(argv[1..|argv| - 1], argv[|argv| - 1], why);
    }
  }

  /** A command line is accepted exactly when it has at least a directory and at most six words
      before it, asks for no help, fits, and spells some options; it then sets what they say. */
  lemma {:induction false} AcceptedExactly(argv: seq<string>, after: Options)
    ensures CommandLine(argv) == Ok(after)
       <==> (&& 2 <= |argv| <= 8 && argv[1] != "--help" && Lengths(argv) <= 64
             && exists os :: Spells(argv[1..|argv| - 1], argv[|argv| - 1], os) && after == ChosenAll(NO_OPTIONS, os))
  {
    KeptLength(argv);
    if 2 <= |argv| {
      ReadsExactly(argv[1..|argv| - 1], argv[|argv| - 1], after);
    }
  }

  // ---- What a longer output name would do

  /** `strcpy` to offset `at` of the structure's memory. */
  function Stored(memory: seq<char>, at: nat, s: string): (r: seq<char>)
    requires at + |s| < |memory|
    ensures |r| == |memory|
  {
    memory[..at] + s + [NUL] + memory[at + |s| + 1..]
  }

  /** The C string at offset `at`. */
  function StringAt(memory: seq<char>, at: nat): string
    requires at <= |memory|
  {
    memory[at..][..Span(memory[at..], NUL)]
  }

  /** The output name's field is followed by that of the hash names: after a copy of both the
      names are still there exactly if the output name fits, or goes on with the same names. */
  lemma NamesKeptIff(memory: seq<char>, file: string, names: string)
    requires |memory| == 2 * (MAX_FILE_NAME + 1) && |file| < |memory| && |names| <= MAX_FILE_NAME
    requires NUL !in file && NUL !in names
    ensures var both := Stored(Stored(memory, MAX_FILE_NAME + 1, names), 0, file);
            var kept := StringAt(both, MAX_FILE_NAME + 1);
            kept == names <==> |file| <= MAX_FILE_NAME || file[MAX_FILE_NAME + 1..] == names
  {
    var size := MAX_FILE_NAME + 1;
    var first := Stored(memory, size, names);
    var both := Stored(first, 0, file);
    if |file| <= MAX_FILE_NAME {
      assert both[size..] == names + ([NUL] + memory[size + |names| + 1..]);
      SpanAt(names, NUL, [NUL] + memory[size + |names| + 1..]);
    } else {
      var more := file[size..];
      assert both[size..] == more + ([NUL] + first[|file| + 1..]);
      SpanAt(more, NUL, [NUL] + first[|file| + 1..]);
    }
  }

  // ---- Hash names

  datatype Hashes = Hashes(md5: bool, sha1: bool, sha256: bool)

  const MD5 := "md5"
  const SHA1 := "sha1"
  const SHA256 := "sha256"

  const NO_HASHES := Hashes(false, false, false)

  predicate Known(name: string) {
    name == MD5 || name == SHA1 || name == SHA256
  }

  function Flagged(h: Hashes, name: string): Hashes {
    if name == MD5 then h.(md5 := true) else if name == SHA1 then h.(sha1 := true) else h.(sha256 := true)
  }

  function FlaggedAll(h: Hashes, names: seq<string>): Outcome<Hashes>
    decreases |names|
  {
    if names == [] then Ok(h)
    else if !Known(names[0]) then Refused(UnknownOption)
    else FlaggedAll(Flagged(h, names[0]), names[1..])
  }

  /** The loop that sets a flag for each name between commas, cutting the list up in place. */
  method ReadHashNames(names: array<char>, ghost end: nat) returns (r: Outcome<Hashes>)
    requires end < names.Length && names[end] == NUL && forall i :: 0 <= i < end ==> names[i] != NUL
    modifies names
    ensures r == FlaggedAll(NO_HASHES, Tokens(old(names[..end]), ','))
  {
    var list := new Tokenizer(names, end);
    assert list.Rest() == names[..end];
    ghost var whole := FlaggedAll(NO_HASHES, Tokens(list.Rest(), ','));
    var h := NO_HASHES;
    while true
      invariant list.Valid() && list.buffer == names && whole == FlaggedAll(h, Tokens(list.Rest(), ','))
      decreases |Tokens(list.Rest(), ',')|
    {
      ghost var left := Tokens(list.Rest(), ',');
      var start := list.Next(',');
      if start == None {
        break;
      }
      var word := list.Copy(start.value, left[0]);
      if word == MD5 {
        h := h.(md5 := true);
      } else if word == SHA1 {
        h := h.(sha1 := true);
      } else if word == SHA256 {
        h := h.(sha256 := true);
      } else {
        return Refused(UnknownOption);
      }
    }
    r := Ok(h);
  }

  /** A list is accepted exactly when it names nothing unknown; each flag is then set exactly
      when it was set before or its name is listed. */
  lemma {:induction false} FlagsMean(h: Hashes, names: seq<string>)
    ensures FlaggedAll(h, names).Ok?
       <==> forall k :: 0 <= k < |names| ==> names[k] == "md5" || names[k] == "sha1" || names[k] == "sha256"
    ensures FlaggedAll(h, names).Ok? ==>
      FlaggedAll(h, names).value
        == Hashes(h.md5 || "md5" in names, h.sha1 || "sha1" in names, h.sha256 || "sha256" in names)
    decreases |names|
  {
    if names != [] {
      assert names == [names[0]] + names[1..];
      FlagsMean(Flagged(h, names[0]), names[1..]);
    }
  }

  lemma KnownIsPlain(name: string)
    requires Known(name)
    ensures name != [] && ',' !in name
  {
  }

  /** Any comma list of known names is read as the set of names it lists. */
  lemma {:induction false} NamesReadBack(names: seq<string>)
    requires forall k :: 0 <= k < |names| ==> names[k] == "md5" || names[k] == "sha1" || names[k] == "sha256"
    ensures FlaggedAll(NO_HASHES, Tokens(Join(names, ','), ','))
         == Ok(Hashes("md5" in names, "sha1" in names, "sha256" in names))
  {
    forall k | 0 <= k < |names| ensures names[k] != [] && ',' !in names[k] {
      KnownIsPlain(names[k]);
    }
    TokensOfJoin(names, ',');
    FlagsMean(NO_HASHES, names);
  }
}
