/** Text in C buffers: the tokeniser that cuts a string up in place, decimal numbers, and
    the functions both are specified by. */
module Text {
  import opened Messages

  const NUL: char := '\0'

  /** The length of the longest prefix of `s` without `d`. */
  function Span(s: string, d: char): (n: nat)
    ensures n <= |s| && (n < |s| ==> s[n] == d)
    ensures forall i :: 0 <= i < n ==> s[i] != d
  {
    if s == [] || s[0] == d then 0 else 1 + Span(s[1..], d)
  }

  /** The non-empty pieces of `s` between occurrences of `d`. */
  function Tokens(s: string, d: char): (r: seq<string>)
    ensures forall i :: 0 <= i < |r| ==> r[i] != [] && d !in r[i]
    decreases |s|
  {
    if s == [] then []
    else if s[0] == d then Tokens(s[1..], d)
    else [s[..Span(s, d)]] + Tokens(s[Span(s, d)..], d)
  }

  /** What follows the first token and its delimiter. */
  ghost function AfterToken(s: string, d: char): string {
    var n := Span(s, d);
    if n < |s| then s[n + 1..] else []
  }

  lemma {:induction false} AfterTokenDrops(s: string, d: char)
    ensures var rest := s[Span(s, d)..]; AfterToken(s, d) == if rest == [] then [] else rest[1..]
  {
  }

  /** Past the delimiters before it the first token stands first. */
  lemma {:induction false} TokensFrom(s: string, d: char)
    requires s == [] || s[0] != d
    ensures s == [] ==> Tokens(s, d) == []
    ensures s != [] ==> Tokens(s, d) != [] && Tokens(s, d)[0] == s[..Span(s, d)]
    ensures s != [] ==> Tokens(s, d)[1..] == Tokens(AfterToken(s, d), d)
  {
    if s != [] {
      var n := Span(s, d);
      assert n < |s| ==> s[n..][1..] == s[n + 1..];
    }
  }

  lemma {:induction false} SpanBefore(a: string, d: char, b: string)
    ensures Span(a + [d] + b, d) == Span(a, d)
  {
    var s := a + [d] + b;
    if a == [] || a[0] == d {
      assert s[0] == if a == [] then d else a[0];
    } else {
      assert s[1..] == a[1..] + [d] + b;
      SpanBefore(a[1..], d, b);
    }
  }

  /** A delimiter anywhere, also first, last or beside another, only separates. */
  lemma {:induction false} TokensApart(a: string, d: char, b: string)
    ensures Tokens(a + [d] + b, d) == Tokens(a, d) + Tokens(b, d)
    decreases |a|
  {
    var s := a + [d] + b;
    if a == [] {
      assert s[0] == d && s[1..] == b;
    } else if a[0] == d {
      assert s[0] == d && s[1..] == a[1..] + [d] + b;
      TokensApart(a[1..], d, b);
    } else {
      var n := Span(a, d);
      SpanBefore(a, d, b);
      assert s[0] == a[0] && s[..n] == a[..n];
      assert s[n..] == a[n..] + [d] + b;
      TokensApart(a[n..], d, b);
    }
  }

  /** Without a delimiter the whole string is the one piece, if it is not empty. */
  lemma {:induction false} TokensWhole(s: string, d: char)
    requires d !in s
    ensures Tokens(s, d) == if s == "" then [] else [s]
  {
    if s != "" {
      assert s + [] == s;
      SpanAt(s, d, []);
      assert s[|s|..] == [];
    }
  }

  lemma {:induction false} TokensSkip(delimiters: string, s: string, d: char)
    requires forall i :: 0 <= i < |delimiters| ==> delimiters[i] == d
    ensures Tokens(delimiters + s, d) == Tokens(s, d)
  {
    if delimiters == "" {
      assert delimiters + s == s;
    } else {
      assert (delimiters + s)[1..] == delimiters[1..] + s;
      TokensSkip(delimiters[1..], s, d);
    }
  }

  /** The first word, with any delimiters before it, and what follows it. */
  lemma {:induction false} FirstWord(delimiters: string, word: string, rest: string, d: char)
    requires forall i :: 0 <= i < |delimiters| ==> delimiters[i] == d
    requires word != "" && d !in word && (rest == "" || rest[0] == d)
    ensures Tokens(delimiters + (word + rest), d) == [word] + Tokens(rest, d)
  {
    var s := word + rest;
    TokensSkip(delimiters, s, d);
    SpanAt(word, d, rest);
    assert s[0] == word[0] && s[..|word|] == word && s[|word|..] == rest;
  }

  /** The pieces with one `d` between neighbours. */
  function Join(parts: seq<string>, d: char): string {
    if parts == [] then []
    else if |parts| == 1 then parts[0]
    else parts[0] + [d] + Join(parts[1..], d)
  }

  lemma {:induction false} SpanAt(a: string, d: char, rest: string)
    requires d !in a && (rest == [] || rest[0] == d)
    ensures Span(a + rest, d) == |a|
  {
    if a == [] {
      assert a + rest == rest;
    } else {
      assert (a + rest)[1..] == a[1..] + rest;
      SpanAt(a[1..], d, rest);
    }
  }

  /** Tokenising undoes joining, for non-empty pieces without the delimiter. */
  lemma {:induction false} TokensOfJoin(parts: seq<string>, d: char)
    requires forall i :: 0 <= i < |parts| ==> parts[i] != [] && d !in parts[i]
    ensures Tokens(Join(parts, d), d) == parts
  {
    if parts != [] {
      var rest := if |parts| == 1 then [] else [d] + Join(parts[1..], d);
      var s := parts[0] + rest;
      assert Join(parts, d) == s;
      SpanAt(parts[0], d, rest);
      assert s[..|parts[0]|] == parts[0] && s[|parts[0]|..] == rest;
      TokensOfJoin(parts[1..], d);
      if |parts| > 1 {
        assert rest[1..] == Join(parts[1..], d);
      }
      assert parts == [parts[0]] + parts[1..];
    }
  }

  /** `strtok`: a string in a buffer, cut up in place. `pos` is the saved pointer; the string
      ends at `end`, where the buffer holds a NUL. */
  class Tokenizer {
    const buffer: array<char>
    ghost const end: nat
    var pos: nat

    ghost predicate Valid()
      reads this, buffer
    {
      pos <= end < buffer.Length && buffer[end] == NUL && forall i :: pos <= i < end ==> buffer[i] != NUL
    }

    /** What is still to be tokenised. */
    ghost function Rest(): string
      requires Valid()
      reads this, buffer
    {
      buffer[pos..end]
    }

    constructor (buffer: array<char>, ghost end: nat)
      requires end < buffer.Length && buffer[end] == NUL && forall i :: 0 <= i < end ==> buffer[i] != NUL
      ensures Valid() && this.buffer == buffer && this.end == end && pos == 0
    {
      this.buffer := buffer;
      this.end := end;
      pos := 0;
    }

    /** Steps over delimiters. */
    method Skip(d: char)
      requires Valid() && d != NUL
      modifies this`pos
      ensures Valid() && old(pos) <= pos && buffer[pos] != d
      ensures Tokens(Rest(), d) == Tokens(old(Rest()), d)
    {
      while buffer[pos] == d
        invariant Valid() && old(pos) <= pos && Tokens(Rest(), d) == Tokens(old(Rest()), d)
        modifies this`pos
        decreases end - pos
      {
        ghost var before := Rest();
        pos := pos + 1;
        assert before[1..] == Rest();
      }
    }

    /** Steps to the end of the token at hand. */
    method Cross(d: char)
      requires Valid() && d != NUL
      modifies this`pos
      ensures Valid() && pos == old(pos) + Span(old(Rest()), d)
      ensures Rest() == old(Rest())[Span(old(Rest()), d)..]
      ensures buffer[old(pos)..pos] == old(Rest())[..Span(old(Rest()), d)] && NUL !in buffer[old(pos)..pos]
    {
      ghost var first, rest := pos, Rest();
      while buffer[pos] != d && buffer[pos] != NUL
        invariant Valid() && first <= pos && rest == buffer[first..end]
        invariant forall i :: first <= i < pos ==> buffer[i] != d && buffer[i] != NUL
        modifies this`pos
        decreases end - pos
      {
        pos := pos + 1;
      }
      ghost var n := pos - first;
      assert rest[..n] == buffer[first..pos] && rest[n..] == buffer[pos..end];
      assert forall i :: 0 <= i < n ==> rest[i] == buffer[first + i];
      assert n < |rest| ==> rest[n] == buffer[pos];
      assert Span(rest, d) == n;
    }

    /** Ends a token here: writes a NUL over the delimiter and steps past it. */
    method Cut()
      requires Valid()
      modifies this`pos, buffer
      ensures Valid() && old(pos) <= pos && buffer[old(pos)] == NUL
      ensures Rest() == if old(Rest()) == [] then [] else old(Rest())[1..]
      ensures forall i :: 0 <= i < old(pos) ==> buffer[i] == old(buffer[i])
    {
      if buffer[pos] != NUL {
        buffer[pos] := NUL;
        pos := pos + 1;
      }
    }

    /** The next token's address, its terminator written over the delimiter after it. Earlier
        tokens stay as they are. */
    method Next(d: char) returns (start: Option<nat>)
      requires Valid() && d != NUL
      modifies this`pos, buffer
      ensures Valid()
      ensures start == None <==> Tokens(old(Rest()), d) == []
      ensures start.Some? ==> old(pos) <= start.value && TokenAt(start.value, Tokens(old(Rest()), d)[0])
      ensures start.Some? ==> Tokens(Rest(), d) == Tokens(old(Rest()), d)[1..]
      ensures old(pos) <= pos && forall i :: 0 <= i < old(pos) ==> buffer[i] == old(buffer[i])
    {
      Skip(d);
      ghost var rest := Rest();
      TokensFrom(rest, d);
      if buffer[pos] == NUL {
        return None;
      }
      start := Some(pos);
      TakeToken(d);
    }

    /** From the first character of a token: ends it in place and steps past its delimiter. */
    method TakeToken(d: char)
      requires Valid() && d != NUL && Rest() != [] && buffer[pos] != d
      modifies this`pos, buffer
      ensures Valid() && old(pos) <= pos
      ensures TokenAt(old(pos), old(Rest())[..Span(old(Rest()), d)])
      ensures Rest() == AfterToken(old(Rest()), d)
      ensures forall i :: 0 <= i < old(pos) ==> buffer[i] == old(buffer[i])
    {
      ghost var rest, first := Rest(), pos;
      AfterTokenDrops(rest, d);
      Cross(d);
      ghost var token, cut := rest[..Span(rest, d)], pos;
      assert buffer[first..cut] == token;
      Cut();
      assert buffer[first..cut] == token;
    }

    /** The C string at `start`, copied out. */
    method Copy(start: nat, ghost token: string) returns (s: string)
      requires TokenAt(start, token)
      ensures s == token
    {
      s := [];
      var i := start;
      while buffer[i] != NUL
        invariant start <= i <= start + |token| && s == token[..i - start]
        decreases start + |token| - i
      {
        assert buffer[i] == token[i - start];
        s := s + [buffer[i]];
        i := i + 1;
      }
    }

    /** The C string at `start` is `token`. */
    ghost predicate TokenAt(start: nat, token: string)
      reads buffer
    {
      start + |token| < buffer.Length && buffer[start..start + |token|] == token && buffer[start + |token|] == NUL
      && NUL !in token
    }
  }

  // ---- Decimal numbers

  function Digit(n: nat): char
    requires n < 10
  {
    '0' + n as char
  }

  function Decimal(n: nat): (s: string)
    ensures s != [] && forall i :: 0 <= i < |s| ==> '0' <= s[i] <= '9'
  {
    if n < 10 then [Digit(n)] else Decimal(n / 10) + [Digit(n % 10)]
  }

  predicate Blank(c: char) {
    c == ' ' || '\t' <= c <= '\r'
  }

  /** The value of the digits `s` starts with, read on from `so`. */
  function Digits(s: string, so: nat): nat {
    if s == [] || !('0' <= s[0] <= '9') then so
    else Digits(s[1..], 10 * so + (s[0] as int - '0' as int))
  }

  /** `atoi`, where the C function is defined: blanks, a sign, digits. */
  function Atoi(s: string): int {
    if s != [] && Blank(s[0]) then Atoi(s[1..])
    else if s != [] && s[0] == '-' then -(Digits(s[1..], 0) as int)
    else if s != [] && s[0] == '+' then Digits(s[1..], 0)
    else Digits(s, 0)
  }

  lemma {:induction false} DigitsOfAppend(a: string, c: char, so: nat)
    requires forall i :: 0 <= i < |a| ==> '0' <= a[i] <= '9'
    requires '0' <= c <= '9'
    ensures Digits(a + [c], so) == 10 * Digits(a, so) + (c as int - '0' as int)
  {
    if a == [] {
      assert a + [c] == [c];
      assert Digits([c][1..], 10 * so + (c as int - '0' as int)) == 10 * so + (c as int - '0' as int);
    } else {
      assert (a + [c])[1..] == a[1..] + [c];
      DigitsOfAppend(a[1..], c, 10 * so + (a[0] as int - '0' as int));
    }
  }

  lemma {:induction false} DigitsOfDecimal(n: nat)
    ensures Digits(Decimal(n), 0) == n
  {
    if n < 10 {
      assert [Digit(n)][1..] == [];
    } else {
      DigitsOfDecimal(n / 10);
      DigitsOfAppend(Decimal(n / 10), Digit(n % 10), 0);
    }
  }

  predicate AllDigits(s: string) {
    forall i :: 0 <= i < |s| ==> '0' <= s[i] <= '9'
  }

  /** The value of a string of digits: what the digits before the last are worth, ten times,
      and the last one. */
  ghost function Worth(s: string): nat
    requires AllDigits(s)
  {
    if s == "" then 0 else 10 * Worth(s[..|s| - 1]) + (s[|s| - 1] as int - 48)
  }

  lemma {:induction false} DigitsWorth(s: string)
    requires AllDigits(s)
    ensures Digits(s, 0) == Worth(s)
  {
    if s != "" {
      var n := |s| - 1;
      DigitsWorth(s[..n]);
      assert s == s[..n] + [s[n]];
      DigitsOfAppend(s[..n], s[n], 0);
    }
  }

  lemma {:induction false} DigitsStop(s: string, rest: string, so: nat)
    requires AllDigits(s) && (rest == "" || !('0' <= rest[0] <= '9'))
    ensures Digits(s + rest, so) == Digits(s, so)
  {
    if s == "" {
      assert s + rest == rest;
    } else {
      assert (s + rest)[1..] == s[1..] + rest;
      DigitsStop(s[1..], rest, 10 * so + (s[0] as int - '0' as int));
    }
  }

  /** The characters of codes 9 to 13, and the blank. */
  predicate WhiteSpace(c: char) {
    c as int == 32 || 9 <= c as int <= 13
  }

  predicate NoPrefix(s: string) {
    s == "" || (!WhiteSpace(s[0]) && s[0] != '+' && s[0] != '-')
  }

  lemma {:induction false} AtoiSkips(blanks: string, s: string)
    requires forall i :: 0 <= i < |blanks| ==> WhiteSpace(blanks[i])
    ensures Atoi(blanks + s) == Atoi(s)
  {
    if blanks == "" {
      assert blanks + s == s;
    } else {
      assert (blanks + s)[1..] == blanks[1..] + s;
      AtoiSkips(blanks[1..], s);
    }
  }

  lemma {:induction false} AtoiOfSigned(sign: string, number: string)
    requires sign == "+" || sign == "-" || (sign == "" && NoPrefix(number))
    ensures Atoi(sign + number) == if sign == "-" then -(Digits(number, 0) as int) else Digits(number, 0)
  {
    if sign == "" {
      assert sign + number == number;
    } else {
      assert (sign + number)[1..] == number;
    }
  }

  /** What `atoi` makes of digits, with blanks and a sign before them and anything that is no
      digit after them. */
  lemma {:induction false} AtoiReads(blanks: string, sign: string, s: string, rest: string)
    requires forall i :: 0 <= i < |blanks| ==> WhiteSpace(blanks[i])
    requires sign == "+" || sign == "-" || (sign == "" && NoPrefix(s + rest))
    requires AllDigits(s) && (rest == "" || !('0' <= rest[0] <= '9'))
    ensures Atoi(blanks + (sign + (s + rest))) == if sign == "-" then -(Worth(s) as int) else Worth(s)
  {
    AtoiSkips(blanks, sign + (s + rest));
    AtoiOfSigned(sign, s + rest);
    DigitsStop(s, rest, 0);
    DigitsWorth(s);
  }

  /** Reading a number back gives the number printed. */
  lemma {:induction false} AtoiOfDecimal(n: nat)
    ensures Atoi(Decimal(n)) == n
  {
    DigitsOfDecimal(n);
  }
}
