/** The tree of a directory, the paths a listing of it is to report, and that these are the
    paths of its files. */
module DirectoryTree {
  import opened Text

  /** A directory entry as the directory stream yields it; anything not a directory is a file.
      A file is `found` if `stat` finds what the entry names, which for a link may be nothing;
      a directory `opens` or it does not. */
  datatype Entry =
    | File(name: string, found: bool)
    | Dir(name: string, opens: bool, entries: seq<Entry>)

  predicate Dot(name: string) {
    name == "." || name == ".."
  }

  predicate Entered(e: Entry, recursive: bool) {
    e.Dir? && recursive && !Dot(e.name)
  }

  /** The path of an entry, with one slash between the directory's path and the name. */
  function Below(path: string, name: string): (r: string)
    ensures |r| <= |path| + 1 + |name|
  {
    if path != [] && path[|path| - 1] == '/' then path + name else path + "/" + name
  }

  // ---- Every path that is to be reported

  ghost function Expected(path: string, entries: seq<Entry>, recursive: bool): multiset<string>
    decreases entries, 0
  {
    if entries == [] then multiset{}
    else
      var n := |entries| - 1;
      Expected(path, entries[..n], recursive) + ExpectedOf(path, entries[n], recursive)
  }

  ghost function ExpectedOf(path: string, e: Entry, recursive: bool): multiset<string>
    decreases e, 1
  {
    if e.File? then multiset{Below(path, e.name)}
    else if Entered(e, recursive) then Expected(Below(path, e.name), e.entries, recursive)
    else multiset{}
  }

  /** The names are C strings and every path that is built fits a buffer of `size`. */
  ghost predicate Fits(path: string, entries: seq<Entry>, recursive: bool, size: nat)
    decreases entries
  {
    forall e :: e in entries && (e.File? || Entered(e, recursive)) ==>
      && NUL !in e.name && |Below(path, e.name)| < size
      && (e.Dir? && e.opens ==> Fits(Below(path, e.name), e.entries, recursive, size))
  }

  /** There is nothing to report. */
  ghost predicate NoFiles(entries: seq<Entry>, recursive: bool)
    decreases entries
  {
    forall e :: e in entries ==> !e.File? && (Entered(e, recursive) ==> NoFiles(e.entries, recursive))
  }

  lemma {:induction false} NoFilesExpected(path: string, entries: seq<Entry>, recursive: bool)
    ensures NoFiles(entries, recursive) <==> Expected(path, entries, recursive) == multiset{}
    decreases entries
  {
    if entries != [] {
      var n := |entries| - 1;
      NoFilesExpected(path, entries[..n], recursive);
      if Entered(entries[n], recursive) {
        NoFilesExpected(Below(path, entries[n].name), entries[n].entries, recursive);
      }
      NoFilesLast(entries, recursive);
    }
  }

  lemma NoFilesLast(entries: seq<Entry>, recursive: bool)
    requires entries != []
    ensures var n := |entries| - 1;
            var e := entries[n];
            var last := !e.File? && (Entered(e, recursive) ==> NoFiles(e.entries, recursive));
            NoFiles(entries, recursive) <==> NoFiles(entries[..n], recursive) && last
  {
    var n := |entries| - 1;
    assert entries == entries[..n] + [entries[n]];
  }

  /** Every file the listing is to report can be found, and every directory on the way to one
      opened. */
  ghost predicate Whole(entries: seq<Entry>, recursive: bool)
    decreases entries
  {
    forall e :: e in entries ==> WholeEntry(e, recursive)
  }

  ghost predicate WholeEntry(e: Entry, recursive: bool)
    decreases e
  {
    && (e.File? ==> e.found)
    && (Entered(e, recursive) ==> NoFiles(e.entries, recursive) || (e.opens && Whole(e.entries, recursive)))
  }

  lemma {:induction false} WholeLast(entries: seq<Entry>, recursive: bool)
    requires entries != []
    ensures Whole(entries, recursive)
       <==> Whole(entries[..|entries| - 1], recursive) && WholeEntry(entries[|entries| - 1], recursive)
  {
    var n := |entries| - 1;
    assert entries == entries[..n] + [entries[n]];
  }

  /** Every file the listing comes to can be found, and every directory opened. */
  ghost predicate AllThere(entries: seq<Entry>, recursive: bool)
    decreases entries
  {
    forall e :: e in entries ==>
      (e.File? ==> e.found) && (Entered(e, recursive) ==> e.opens && AllThere(e.entries, recursive))
  }

  lemma {:induction false} AllThereIsWhole(entries: seq<Entry>, recursive: bool)
    requires AllThere(entries, recursive)
    ensures Whole(entries, recursive)
    decreases entries
  {
    forall e | e in entries ensures WholeEntry(e, recursive) {
      if Entered(e, recursive) {
        AllThereIsWhole(e.entries, recursive);
      }
    }
  }

  /** The directories below, with -r, but for those named "." or "..", whatever is in them. */
  ghost function DirsIn(entries: seq<Entry>, recursive: bool): nat
    decreases entries, 0
  {
    if entries == [] then 0 else DirsIn(entries[..|entries| - 1], recursive) + DirsOf(entries[|entries| - 1], recursive)
  }

  ghost function DirsOf(e: Entry, recursive: bool): nat
    decreases e, 1
  {
    if recursive && e.Dir? && e.name != "." && e.name != ".." then 1 + DirsIn(e.entries, recursive) else 0
  }

  // ---- The reported paths are the files of the tree

  /** The place of an entry in a tree: its index in the listing, the index in that one, ... */
  type Address = seq<nat>

  ghost predicate FileAt(entries: seq<Entry>, a: Address, recursive: bool)
    decreases |a|
  {
    && a != [] && a[0] < |entries|
    && if |a| == 1 then entries[a[0]].File?
       else
         && recursive && entries[a[0]].Dir? && entries[a[0]].name != "." && entries[a[0]].name != ".."
         && FileAt(entries[a[0]].entries, a[1..], recursive)
  }

  ghost function PathAt(path: string, entries: seq<Entry>, a: Address, recursive: bool): string
    requires FileAt(entries, a, recursive)
    decreases |a|
  {
    var p := Below(path, entries[a[0]].name);
    if |a| == 1 then p else PathAt(p, entries[a[0]].entries, a[1..], recursive)
  }

  /** The names on the way to a file, its own last. */
  ghost function NamesAt(entries: seq<Entry>, a: Address, recursive: bool): seq<string>
    requires FileAt(entries, a, recursive)
    decreases |a|
  {
    [entries[a[0]].name] + (if |a| == 1 then [] else NamesAt(entries[a[0]].entries, a[1..], recursive))
  }

  function Slashed(names: seq<string>): string {
    if names == [] then "" else "/" + names[0] + Slashed(names[1..])
  }

  /** A name as a directory has it: not empty and without a slash. */
  predicate Plain(name: string) {
    name != "" && '/' !in name
  }

  /** A reported path is the directory's, without a slash at its end if it has one, and the
      names on the way, with one slash before each. */
  lemma {:induction false} PathIsNames(path: string, entries: seq<Entry>, a: Address, recursive: bool)
    requires FileAt(entries, a, recursive) && path != "" && path[|path| - 1] != '/'
    requires forall k :: 0 <= k < |NamesAt(entries, a, recursive)| ==> Plain(NamesAt(entries, a, recursive)[k])
    ensures PathAt(path, entries, a, recursive) == path + Slashed(NamesAt(entries, a, recursive))
    ensures PathAt(path + "/", entries, a, recursive) == path + Slashed(NamesAt(entries, a, recursive))
    decreases |a|
  {
    var names := NamesAt(entries, a, recursive);
    var below := path + "/" + names[0];
    assert Plain(names[0]);
    assert below[|below| - 1] == names[0][|names[0]| - 1];
    assert (path + "/") + names[0] == below;
    if |a| == 1 {
      assert names[1..] == [];
      assert below + "" == below;
    } else {
      var more := NamesAt(entries[a[0]].entries, a[1..], recursive);
      assert names[1..] == more;
      forall k | 0 <= k < |more| ensures Plain(more[k]) {
        assert more[k] == names[k + 1];
      }
      PathIsNames(below, entries[a[0]].entries, a[1..], recursive);
      assert below + Slashed(more) == path + ("/" + names[0] + Slashed(more));
    }
  }

  /** The addresses of the files a listing reaches. */
  ghost function Addresses(entries: seq<Entry>, recursive: bool): seq<Address>
    decreases entries, 0
  {
    if entries == [] then []
    else
      var n := |entries| - 1;
      Addresses(entries[..n], recursive) + AddressesOf(entries[n], n, recursive)
  }

  ghost function AddressesOf(e: Entry, n: nat, recursive: bool): seq<Address>
    decreases e, 1
  {
    if e.File? then [[n]]
    else if Entered(e, recursive) then Under(n, Addresses(e.entries, recursive))
    else []
  }

  ghost function Under(n: nat, list: seq<Address>): (r: seq<Address>)
    ensures |r| == |list| && forall k :: 0 <= k < |r| ==> r[k] == [n] + list[k]
  {
    if list == [] then [] else Under(n, list[..|list| - 1]) + [[n] + list[|list| - 1]]
  }

  /** An address in the listing without its last entry is one that does not start there. */
  lemma {:induction false} FileAtPrefix(path: string, entries: seq<Entry>, n: nat, a: Address, recursive: bool)
    requires n <= |entries|
    ensures FileAt(entries[..n], a, recursive) <==> FileAt(entries, a, recursive) && a[0] < n
    ensures FileAt(entries[..n], a, recursive)
            ==> PathAt(path, entries[..n], a, recursive) == PathAt(path, entries, a, recursive)
  {
  }

  lemma {:induction false} UnderIn(n: nat, list: seq<Address>, a: Address)
    ensures a in Under(n, list) <==> a != [] && a[0] == n && a[1..] in list
  {
    if a in Under(n, list) {
      var k :| 0 <= k < |list| && a == [n] + list[k];
      assert a[1..] == list[k];
    }
    if a != [] && a[0] == n && a[1..] in list {
      var k :| 0 <= k < |list| && list[k] == a[1..];
      assert a == [n] + a[1..] == Under(n, list)[k];
    }
  }

  ghost predicate Exact(entries: seq<Entry>, recursive: bool) {
    forall a :: a in Addresses(entries, recursive) <==> FileAt(entries, a, recursive)
  }

  ghost predicate Distinct(list: seq<Address>) {
    forall j, k :: 0 <= j < k < |list| ==> list[j] != list[k]
  }

  /** The addresses of one entry of a listing are those that start at it. */
  lemma {:induction false} EntryExact(entries: seq<Entry>, n: nat, recursive: bool, a: Address)
    requires n < |entries| && (Entered(entries[n], recursive) ==> Exact(entries[n].entries, recursive))
    ensures a in AddressesOf(entries[n], n, recursive) <==> FileAt(entries, a, recursive) && a[0] == n
  {
    if Entered(entries[n], recursive) {
      UnderIn(n, Addresses(entries[n].entries, recursive), a);
    } else if FileAt(entries, a, recursive) && a[0] == n {
      assert a == [n];
    }
  }

  lemma {:induction false} EntryDistinct(e: Entry, n: nat, recursive: bool)
    requires Entered(e, recursive) ==> Distinct(Addresses(e.entries, recursive))
    ensures Distinct(AddressesOf(e, n, recursive))
  {
    if Entered(e, recursive) {
      var list := Addresses(e.entries, recursive);
      forall j, k | 0 <= j < k < |list| ensures Under(n, list)[j] != Under(n, list)[k] {
        assert Under(n, list)[j][1..] == list[j] && Under(n, list)[k][1..] == list[k];
      }
    }
  }

  /** Each file the traversal is to reach is listed, nothing else is, and nothing twice. */
  lemma {:induction false} AddressesExact(entries: seq<Entry>, recursive: bool)
    ensures Exact(entries, recursive) && Distinct(Addresses(entries, recursive))
    decreases entries
  {
    if entries != [] {
      var n := |entries| - 1;
      AddressesExact(entries[..n], recursive);
      if Entered(entries[n], recursive) {
        AddressesExact(entries[n].entries, recursive);
      }
      forall a ensures a in Addresses(entries, recursive) <==> FileAt(entries, a, recursive) {
        FileAtPrefix("", entries, n, a, recursive);
        EntryExact(entries, n, recursive, a);
      }
      EntryDistinct(entries[n], n, recursive);
      AppendDistinct(entries, n, recursive);
    }
  }

  lemma {:induction false} AppendDistinct(entries: seq<Entry>, n: nat, recursive: bool)
    requires n == |entries| - 1 && Exact(entries[..n], recursive)
    requires Entered(entries[n], recursive) ==> Exact(entries[n].entries, recursive)
    requires Distinct(Addresses(entries[..n], recursive)) && Distinct(AddressesOf(entries[n], n, recursive))
    ensures Distinct(Addresses(entries, recursive))
  {
    var before, last := Addresses(entries[..n], recursive), AddressesOf(entries[n], n, recursive);
    forall j, k | 0 <= j < |before| && 0 <= k < |last| ensures before[j] != last[k] {
      assert before[j] in before && last[k] in last;
      EntryExact(entries, n, recursive, last[k]);
      assert FileAt(entries[..n], before[j], recursive);
    }
  }

  /** The paths of the files at some addresses, counted. */
  ghost function PathsOf(path: string, entries: seq<Entry>, list: seq<Address>, recursive: bool): multiset<string>
    requires forall a :: a in list ==> FileAt(entries, a, recursive)
  {
    if list == [] then multiset{}
    else
      var n := |list| - 1;
      PathsOf(path, entries, list[..n], recursive) + multiset{PathAt(path, entries, list[n], recursive)}
  }

  lemma {:induction false} PathsOfConcat(path: string, entries: seq<Entry>, a: seq<Address>, b: seq<Address>,
      recursive: bool)
    requires forall x :: x in a || x in b ==> FileAt(entries, x, recursive)
    ensures PathsOf(path, entries, a + b, recursive)
            == PathsOf(path, entries, a, recursive) + PathsOf(path, entries, b, recursive)
  {
    if b == [] {
      assert a + b == a;
    } else {
      var n := |b| - 1;
      assert (a + b)[..|a| + n] == a + b[..n];
      PathsOfConcat(path, entries, a, b[..n], recursive);
    }
  }

  lemma {:induction false} PathsOfPrefix(path: string, entries: seq<Entry>, n: nat, list: seq<Address>, recursive: bool)
    requires n <= |entries| && forall a :: a in list ==> FileAt(entries[..n], a, recursive)
    ensures forall a :: a in list ==> FileAt(entries, a, recursive)
    ensures PathsOf(path, entries, list, recursive) == PathsOf(path, entries[..n], list, recursive)
  {
    if list != [] {
      var m := |list| - 1;
      assert list == list[..m] + [list[m]];
      PathsOfPrefix(path, entries, n, list[..m], recursive);
      FileAtPrefix(path, entries, n, list[m], recursive);
    }
  }

  lemma {:induction false} AddressUnder(path: string, entries: seq<Entry>, n: nat, a: Address, recursive: bool)
    requires n < |entries| && Entered(entries[n], recursive) && FileAt(entries[n].entries, a, recursive)
    ensures FileAt(entries, [n] + a, recursive)
    ensures PathAt(path, entries, [n] + a, recursive)
            == PathAt(Below(path, entries[n].name), entries[n].entries, a, recursive)
  {
    assert ([n] + a)[1..] == a;
  }

  lemma {:induction false} PathsOfUnder(path: string, entries: seq<Entry>, n: nat, list: seq<Address>, recursive: bool)
    requires n < |entries| && Entered(entries[n], recursive)
    requires forall a :: a in list ==> FileAt(entries[n].entries, a, recursive)
    ensures forall a :: a in Under(n, list) ==> FileAt(entries, a, recursive)
    ensures PathsOf(path, entries, Under(n, list), recursive)
         == PathsOf(Below(path, entries[n].name), entries[n].entries, list, recursive)
  {
    if list != [] {
      var m := |list| - 1;
      assert list == list[..m] + [list[m]];
      PathsOfUnder(path, entries, n, list[..m], recursive);
      AddressUnder(path, entries, n, list[m], recursive);
      var under := Under(n, list);
      assert under[..m] == Under(n, list[..m]) && under[m] == [n] + list[m] && |under| == m + 1;
      assert under == under[..m] + [under[m]];
    }
  }

  /** The reports to be made are the paths of the files the traversal is to reach, one each. */
  lemma {:induction false} ExpectedIsPaths(path: string, entries: seq<Entry>, recursive: bool)
    ensures Exact(entries, recursive) && Distinct(Addresses(entries, recursive))
    ensures Expected(path, entries, recursive) == PathsOf(path, entries, Addresses(entries, recursive), recursive)
    decreases entries
  {
    AddressesExact(entries, recursive);
    if entries != [] {
      var n := |entries| - 1;
      var e := entries[n];
      ExpectedIsPaths(path, entries[..n], recursive);
      PathsOfPrefix(path, entries, n, Addresses(entries[..n], recursive), recursive);
      if Entered(e, recursive) {
        ExpectedIsPaths(Below(path, e.name), e.entries, recursive);
        PathsOfUnder(path, entries, n, Addresses(e.entries, recursive), recursive);
      } else if e.File? {
        assert FileAt(entries, [n], recursive);
        assert [[n]][..0] == [];
        assert PathsOf(path, entries, [[n]], recursive) == multiset{Below(path, e.name)};
      }
      PathsOfConcat(path, entries, Addresses(entries[..n], recursive), AddressesOf(e, n, recursive), recursive);
    }
  }
}
