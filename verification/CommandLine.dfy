// internal/provider/command.go: the ExecStart line, and what systemd makes of it.

module CommandLine {
  import opened Strings
  import opened Kube

  // ---- strings.Fields

  function WordLen(s: string): (n: nat)
    ensures n <= |s|
  {
    if s == "" || IsSpace(s[0]) then 0 else WordLen(s[1..]) + 1
  }

  function Fields(s: string): seq<string>
    decreases |s|
  {
    if s == "" then []
    else if IsSpace(s[0]) then Fields(s[1..])
    else [s[..WordLen(s)]] + Fields(s[WordLen(s)..])
  }

  // ---- fmt's %q; characters beyond ASCII are taken as printable and stand for themselves.

  function HexDigit(d: nat): char
    requires d < 16
  {
    if d < 10 then (48 + d) as char else (87 + d) as char
  }

  function EscapeChar(c: char): string {
    var n := c as int;
    if c == '"' then "\\\""
    else if c == '\\' then "\\\\"
    else if n == 7 then "\\a"
    else if n == 8 then "\\b"
    else if n == 12 then "\\f"
    else if n == 10 then "\\n"
    else if n == 13 then "\\r"
    else if n == 9 then "\\t"
    else if n == 11 then "\\v"
    else if n < 32 || n == 127 then ['\\', 'x', HexDigit(n / 16), HexDigit(n % 16)]
    else [c]
  }

  function EscapeAll(s: string): string {
    if s == "" then "" else EscapeChar(s[0]) + EscapeAll(s[1..])
  }

  function Quote(s: string): string {
    "\"" + EscapeAll(s) + "\""
  }

  function QuoteEach(args: seq<string>): seq<string> {
    seq(|args|, i requires 0 <= i < |args| => Quote(args[i]))
  }

  // ---- commandAndArgs

  // exec.LookPath is a table of the commands found in the search path.
  function Located(cmd: string, lookPath: map<string, string>): string {
    if HasPrefix(cmd, "/") || cmd !in lookPath then cmd else lookPath[cmd]
  }

  // The words taken from the unit file; there is always a first one.
  function UnitWords(execStart: seq<string>): (words: seq<string>)
    ensures |words| > 0
  {
    var words := if |execStart| == 1 then Fields(execStart[0]) else execStart;
    if |words| == 0 then [""] else words
  }

  // The command with its program looked up.
  function LocatedCommand(command: seq<string>, lookPath: map<string, string>): seq<string>
    requires |command| > 0
  {
    command[0 := Located(command[0], lookPath)]
  }

  function CommandText(command: seq<string>, lookPath: map<string, string>): string
    requires |command| > 0
  {
    Join(LocatedCommand(command, lookPath), " ")
  }

  function ExecWords(execStart: seq<string>, command: Option<seq<string>>, args: Option<seq<string>>,
                     lookPath: map<string, string>): (words: seq<string>)
    requires command.Some? ==> |command.value| > 0
    ensures |words| > 0
  {
    var words := UnitWords(execStart);
    var first := if command.Some? then CommandText(command.value, lookPath) else words[0];
    [first] + (if args.Some? then QuoteEach(args.value) else words[1..])
  }

  lemma QuoteEachNext(first: string, args: seq<string>, i: nat)
    requires i < |args|
    ensures [first] + QuoteEach(args[..i]) + [Quote(args[i])] == [first] + QuoteEach(args[..i + 1])
  {
    assert QuoteEach(args[..i + 1]) == QuoteEach(args[..i]) + [Quote(args[i])];
  }

  method CommandAndArgs(execStart: seq<string>, c: Container, lookPath: map<string, string>)
    returns (cmdargs: seq<string>)
    requires c.command.Some? ==> |c.command.value| > 0
    ensures cmdargs == ExecWords(execStart, c.command, c.args, lookPath)
  {
    cmdargs := execStart;
    if |execStart| == 1 {
      cmdargs := Fields(execStart[0]);
    }
    if |cmdargs| == 0 {
      cmdargs := [""];
    }
    if c.command.Some? {
      var command := c.command.value;
      if !HasPrefix(command[0], "/") && command[0] in lookPath {
        command := command[0 := lookPath[command[0]]];
      }
      cmdargs := cmdargs[0 := Join(command, " ")];
    }
    if c.args.Some? {
      cmdargs := cmdargs[..1];
      ghost var first := cmdargs[0];
      var args := c.args.value;
      for i := 0 to |args|
        invariant cmdargs == [first] + QuoteEach(args[..i])
      {
        QuoteEachNext(first, args, i);
        cmdargs := cmdargs + [Quote(args[i])];
      }
      assert args[..|args|] == args;
    }
  }

  // ---- systemd's splitting of a command line (systemd.service(5), section "COMMAND LINES"):
  // items separated by blanks; an item may be quoted as a whole; C-style escapes everywhere.

  predicate IsBlank(c: char) {
    c == ' ' || c == '\t' || c == '\n' || c == '\r'
  }

  function HexValue(c: char): Option<nat> {
    if '0' <= c <= '9' then Some(c as int - 48)
    else if 'a' <= c <= 'f' then Some(c as int - 87)
    else if 'A' <= c <= 'F' then Some(c as int - 55)
    else None
  }

  function OctalValue(c: char): Option<nat> {
    if '0' <= c <= '7' then Some(c as int - 48) else None
  }

  // The character an escape stands for and what follows; a NUL is not allowed.
  function Unescape(s: string): (r: Option<(char, string)>)
    ensures r.Some? ==> |r.value.1| < |s|
  {
    if s == "" then None
    else match s[0]
      case 'a' => Some((7 as char, s[1..]))
      case 'b' => Some((8 as char, s[1..]))
      case 'f' => Some((12 as char, s[1..]))
      case 'n' => Some(('\n', s[1..]))
      case 'r' => Some(('\r', s[1..]))
      case 't' => Some(('\t', s[1..]))
      case 'v' => Some((11 as char, s[1..]))
      case 's' => Some((' ', s[1..]))
      case '\\' => Some(('\\', s[1..]))
      case '"' => Some(('"', s[1..]))
      case '\'' => Some(('\'', s[1..]))
      case 'x' =>
        if |s| < 3 then None
        else (match (HexValue(s[1]), HexValue(s[2]))
              case (Some(a), Some(b)) => if a * 16 + b == 0 then None else Some(((a * 16 + b) as char, s[3..]))
              case _ => None)
      case _ =>
        if |s| < 3 then None
        else (match (OctalValue(s[0]), OctalValue(s[1]), OctalValue(s[2]))
              case (Some(a), Some(b), Some(c)) =>
                var n := a * 64 + b * 8 + c;
                if n == 0 || n > 255 then None else Some((n as char, s[3..]))
              case _ => None)
  }

  function Consed(c: char, r: Option<(string, string)>): Option<(string, string)> {
    match r
    case None => None
    case Some((word, rest)) => Some(([c] + word, rest))
  }

  // The inside of a quoted item up to its closing quote.
  function QuotedItem(s: string, quote: char): (r: Option<(string, string)>)
    ensures r.Some? ==> |r.value.1| < |s|
    decreases |s|
  {
    if s == "" then None
    else if s[0] == quote then Some(("", s[1..]))
    else if s[0] == '\\' then
      (match Unescape(s[1..])
       case None => None
       case Some((c, rest)) => Consed(c, QuotedItem(rest, quote)))
    else Consed(s[0], QuotedItem(s[1..], quote))
  }

  // An item without quotes, up to the next blank; a quote inside it is misplaced.
  function BareItem(s: string): (r: Option<(string, string)>)
    ensures r.Some? ==> |r.value.1| <= |s| && (r.value.1 != "" ==> IsBlank(r.value.1[0]))
    ensures r.Some? && s != "" && !IsBlank(s[0]) ==> |r.value.1| < |s|
    decreases |s|
  {
    if s == "" || IsBlank(s[0]) then Some(("", s))
    else if s[0] == '"' || s[0] == '\'' then None
    else if s[0] == '\\' then
      (match Unescape(s[1..])
       case None => None
       case Some((c, rest)) => Consed(c, BareItem(rest)))
    else Consed(s[0], BareItem(s[1..]))
  }

  function NextItem(s: string): (r: Option<(string, string)>)
    requires s != "" && !IsBlank(s[0])
    ensures r.Some? ==> |r.value.1| < |s|
  {
    if s[0] == '"' || s[0] == '\'' then
      match QuotedItem(s[1..], s[0])
      case None => None
      case Some((word, rest)) => if rest == "" || IsBlank(rest[0]) then Some((word, rest)) else None
    else BareItem(s)
  }

  function SplitCommand(s: string): Option<seq<string>>
    decreases |s|
  {
    if s == "" then Some([])
    else if IsBlank(s[0]) then SplitCommand(s[1..])
    else match NextItem(s)
      case None => None
      case Some((word, rest)) => Before([word], SplitCommand(rest))
  }

  // ---- Splitting a line with something appended.

  lemma UnescapeAppend(s: string, x: string)
    requires Unescape(s).Some?
    ensures Unescape(s + x) == Some((Unescape(s).value.0, Unescape(s).value.1 + x))
  {
    assert (s + x)[0] == s[0] && (s + x)[1..] == s[1..] + x;
    if |s| >= 3 {
      assert (s + x)[1] == s[1] && (s + x)[2] == s[2] && (s + x)[3..] == s[3..] + x;
    }
  }

  lemma {:induction false} QuotedItemAppend(s: string, quote: char, x: string)
    requires QuotedItem(s, quote).Some?
    ensures QuotedItem(s + x, quote) == Some((QuotedItem(s, quote).value.0, QuotedItem(s, quote).value.1 + x))
    decreases |s|
  {
    assert (s + x)[0] == s[0] && (s + x)[1..] == s[1..] + x;
    if s[0] == quote {
    } else if s[0] == '\\' {
      UnescapeAppend(s[1..], x);
      QuotedItemAppend(Unescape(s[1..]).value.1, quote, x);
    } else {
      QuotedItemAppend(s[1..], quote, x);
    }
  }

  lemma {:induction false} BareItemAppend(s: string, x: string)
    requires BareItem(s).Some? && x != "" && IsBlank(x[0])
    ensures BareItem(s + x) == Some((BareItem(s).value.0, BareItem(s).value.1 + x))
    decreases |s|
  {
    if s == "" {
      assert s + x == x;
    } else {
      assert (s + x)[0] == s[0] && (s + x)[1..] == s[1..] + x;
      if IsBlank(s[0]) {
      } else if s[0] == '\\' {
        UnescapeAppend(s[1..], x);
        BareItemAppend(Unescape(s[1..]).value.1, x);
      } else {
        BareItemAppend(s[1..], x);
      }
    }
  }

  lemma NextItemAppend(s: string, x: string)
    requires s != "" && !IsBlank(s[0]) && NextItem(s).Some? && x != "" && IsBlank(x[0])
    ensures NextItem(s + x) == Some((NextItem(s).value.0, NextItem(s).value.1 + x))
  {
    assert (s + x)[0] == s[0] && (s + x)[1..] == s[1..] + x;
    if s[0] == '"' || s[0] == '\'' {
      QuotedItemAppend(s[1..], s[0], x);
    } else {
      BareItemAppend(s, x);
    }
  }

  // Two parts with a blank between them split separately.
  lemma {:induction false} SplitCommandAppend(s: string, t: string)
    requires SplitCommand(s).Some?
    ensures SplitCommand(s + " " + t) == Before(SplitCommand(s).value, SplitCommand(t))
    decreases |s|
  {
    var x := " " + t;
    assert s + " " + t == s + x && x[1..] == t;
    if s == "" {
      assert s + x == x;
      assert SplitCommand(t).Some? ==> [] + SplitCommand(t).value == SplitCommand(t).value;
    } else if IsBlank(s[0]) {
      assert (s + x)[1..] == s[1..] + " " + t;
      SplitCommandAppend(s[1..], t);
    } else {
      NextItemAppend(s, x);
      var (word, rest) := NextItem(s).value;
      SplitCommandAppend(rest, t);
      assert rest + x == rest + " " + t;
      BeforeBefore([word], SplitCommand(rest).value, SplitCommand(t));
    }
  }

  // ---- Quoted arguments come back exactly, unless one holds a NUL, which systemd refuses.

  const NUL := 0 as char

  lemma UnescapeEscaped(c: char, rest: string)
    requires |EscapeChar(c)| > 1
    ensures EscapeChar(c)[0] == '\\'
    ensures Unescape(EscapeChar(c)[1..] + rest) == if c == NUL then None else Some((c, rest))
  {
    var e := EscapeChar(c)[1..] + rest;
    var n := c as int;
    if |EscapeChar(c)| == 2 {
      assert e[1..] == rest;
    } else {
      assert e[0] == 'x' && e[1] == HexDigit(n / 16) && e[2] == HexDigit(n % 16) && e[3..] == rest;
    }
  }

  lemma EscapeCharShape(c: char)
    ensures |EscapeChar(c)| == 1 ==> EscapeChar(c) == [c] && c != '"' && c != '\\' && c != NUL
    ensures |EscapeChar(c)| != 1 ==> |EscapeChar(c)| > 1 && EscapeChar(c)[0] == '\\'
  {
  }

  lemma QuotedItemStep(c: char, more: string)
    ensures QuotedItem(EscapeChar(c) + more, '"') == if c == NUL then None else Consed(c, QuotedItem(more, '"'))
  {
    var s := EscapeChar(c) + more;
    EscapeCharShape(c);
    if |EscapeChar(c)| == 1 {
      assert s[0] == c && s[1..] == more;
    } else {
      UnescapeEscaped(c, more);
      assert s[0] == '\\' && s[1..] == EscapeChar(c)[1..] + more;
    }
  }

  lemma {:induction false} QuotedItemTail(a: string, tail: string, rest: string)
    requires QuotedItem(tail, '"') == Some(("", rest))
    ensures QuotedItem(EscapeAll(a) + tail, '"') == if NUL in a then None else Some((a, rest))
  {
    if a == "" {
      assert EscapeAll(a) + tail == tail;
    } else {
      QuotedItemTail(a[1..], tail, rest);
      Associates(EscapeChar(a[0]), EscapeAll(a[1..]), tail);
      QuotedItemStep(a[0], EscapeAll(a[1..]) + tail);
      assert a == [a[0]] + a[1..];
    }
  }

  lemma QuotedItemEscaped(a: string, rest: string)
    ensures QuotedItem(EscapeAll(a) + "\"" + rest, '"') == if NUL in a then None else Some((a, rest))
  {
    assert ("\"" + rest)[1..] == rest;
    QuotedItemTail(a, "\"" + rest, rest);
    Associates(EscapeAll(a), "\"", rest);
  }

  predicate NulFree(args: seq<string>) {
    forall i :: 0 <= i < |args| ==> NUL !in args[i]
  }

  lemma SplitQuoted(a: string)
    ensures SplitCommand(Quote(a)) == if NUL in a then None else Some([a])
  {
    QuotedItemEscaped(a, "");
    assert Quote(a)[1..] == EscapeAll(a) + "\"" + "";
    assert SplitCommand("") == Some([]) && [a] + [] == [a];
  }

  lemma NulFreeCons(a: string, rest: seq<string>)
    ensures NulFree([a] + rest) <==> NUL !in a && NulFree(rest)
  {
    var args := [a] + rest;
    assert args[0] == a;
    assert forall i :: 1 <= i < |args| ==> args[i] == rest[i - 1];
    assert forall i :: 0 <= i < |rest| ==> rest[i] == args[i + 1];
  }

  lemma QuoteEachCons(a: string, rest: seq<string>)
    ensures QuoteEach([a] + rest) == [Quote(a)] + QuoteEach(rest)
  {
  }

  lemma SplitQuotedMore(a: string, t: string)
    ensures SplitCommand(Quote(a) + " " + t) == if NUL in a then None else Before([a], SplitCommand(t))
  {
    SplitQuoted(a);
    if NUL in a {
      SplitBadFirst(a, t);
    } else {
      SplitCommandAppend(Quote(a), t);
    }
  }

  lemma JoinCons(a: string, rest: seq<string>)
    ensures Join([a] + rest, " ") == if rest == [] then a else a + " " + Join(rest, " ")
  {
    assert ([a] + rest)[1..] == rest;
  }

  lemma {:induction false} SplitQuotedArgs(args: seq<string>)
    ensures SplitCommand(Join(QuoteEach(args), " ")) == if NulFree(args) then Some(args) else None
  {
    if args != [] {
      var a, rest := args[0], args[1..];
      assert args == [a] + rest;
      QuoteEachCons(a, rest);
      JoinCons(Quote(a), QuoteEach(rest));
      NulFreeCons(a, rest);
      SplitQuotedArgs(rest);
      if rest == [] {
        SplitQuoted(a);
      } else {
        SplitQuotedMore(a, Join(QuoteEach(rest), " "));
      }
    }
  }

  lemma SplitBadFirst(a: string, t: string)
    requires NUL in a
    ensures SplitCommand(Quote(a) + " " + t) == None
  {
    QuotedItemEscaped(a, " " + t);
    assert (Quote(a) + " " + t)[1..] == EscapeAll(a) + "\"" + (" " + t);
  }

  // ---- A given command, joined as it is: it runs as given iff its words need no quoting.

  predicate Special(c: char) {
    IsBlank(c) || c == '"' || c == '\'' || c == '\\'
  }

  predicate Ordinary(word: string) {
    word != "" && forall i :: 0 <= i < |word| ==> !Special(word[i])
  }

  predicate AllOrdinary(words: seq<string>) {
    forall i :: 0 <= i < |words| ==> Ordinary(words[i])
  }

  function Total(words: seq<string>): nat {
    if words == [] then 0 else |words[0]| + Total(words[1..])
  }

  // The length of the words joined by single spaces.
  function Extent(words: seq<string>): nat {
    Total(words) + (if words == [] then 0 else |words| - 1)
  }

  lemma {:induction false} JoinLength(words: seq<string>)
    ensures |Join(words, " ")| == Extent(words)
  {
    if |words| == 1 {
      assert words[1..] == [] && Total(words) == |words[0]| + Total([]);
    } else if |words| > 1 {
      JoinLength(words[1..]);
    }
  }

  lemma {:induction false} BareOrdinary(word: string, rest: string)
    requires (forall i :: 0 <= i < |word| ==> !Special(word[i])) && (rest == "" || IsBlank(rest[0]))
    ensures BareItem(word + rest) == Some((word, rest))
  {
    if word == "" {
      assert word + rest == rest;
    } else {
      assert (word + rest)[0] == word[0] && (word + rest)[1..] == word[1..] + rest;
      BareOrdinary(word[1..], rest);
      assert [word[0]] + word[1..] == word;
    }
  }

  lemma {:induction false} OrdinarySplits(words: seq<string>)
    requires AllOrdinary(words)
    ensures SplitCommand(Join(words, " ")) == Some(words)
  {
    if words != [] {
      OrdinaryAlone(words[0]);
      OrdinarySplits(words[1..]);
      assert [words[0]] + words[1..] == words;
      if |words| > 1 {
        SplitCommandAppend(words[0], Join(words[1..], " "));
      }
    }
  }

  lemma OrdinaryAlone(word: string)
    requires Ordinary(word)
    ensures SplitCommand(word) == Some([word])
  {
    BareOrdinary(word, "");
    assert word + "" == word && SplitCommand("") == Some([]) && [word] + [] == [word];
    assert !Special(word[0]);
  }

  // An item takes at least the room of its word, and only that if it is a bare word.
  lemma {:induction false} BareRoom(s: string)
    requires BareItem(s).Some?
    ensures
      var (word, rest) := BareItem(s).value;
      && |s| >= |word| + |rest|
      && (|s| == |word| + |rest| ==> forall i :: 0 <= i < |word| ==> !Special(word[i]))
      && (s != "" && !IsBlank(s[0]) ==> word != "")
    decreases |s|
  {
    if s != "" && !IsBlank(s[0]) {
      if s[0] == '\\' {
        BareRoom(Unescape(s[1..]).value.1);
      } else {
        BareRoom(s[1..]);
        var (word, rest) := BareItem(s).value;
        assert word[1..] == BareItem(s[1..]).value.0;
      }
    }
  }

  lemma {:induction false} QuotedRoom(s: string, quote: char)
    requires QuotedItem(s, quote).Some?
    ensures |s| > |QuotedItem(s, quote).value.0| + |QuotedItem(s, quote).value.1|
    decreases |s|
  {
    if s[0] != quote {
      QuotedRoom(if s[0] == '\\' then Unescape(s[1..]).value.1 else s[1..], quote);
    }
  }

  lemma ItemRoom(s: string)
    requires s != "" && !IsBlank(s[0]) && NextItem(s).Some?
    ensures
      var (word, rest) := NextItem(s).value;
      && |s| >= |word| + |rest| && (|s| == |word| + |rest| ==> Ordinary(word))
      && (rest == "" || IsBlank(rest[0]))
  {
    if s[0] == '"' || s[0] == '\'' {
      QuotedRoom(s[1..], s[0]);
    } else {
      BareRoom(s);
    }
  }

  lemma ExtentCons(word: string, words: seq<string>)
    ensures Extent([word] + words) == |word| + (if words == [] then 0 else 1 + Extent(words))
    ensures AllOrdinary([word] + words) <==> Ordinary(word) && AllOrdinary(words)
  {
    assert ([word] + words)[1..] == words && ([word] + words)[0] == word;
    assert Total([word] + words) == |word| + Total(words);
    if AllOrdinary([word] + words) {
      assert Ordinary(([word] + words)[0]);
      assert forall i :: 0 <= i < |words| ==> words[i] == ([word] + words)[i + 1];
    }
  }

  lemma {:induction false} LineRoom(s: string)
    requires SplitCommand(s).Some?
    ensures
      var words, lead := SplitCommand(s).value, if s != "" && IsBlank(s[0]) then 1 else 0;
      && |s| >= Extent(words) + lead && (|s| == Extent(words) + lead ==> AllOrdinary(words))
    decreases |s|
  {
    if s != "" {
      if IsBlank(s[0]) {
        LineRoom(s[1..]);
      } else {
        var (word, rest) := NextItem(s).value;
        ItemRoom(s);
        LineRoom(rest);
        ExtentCons(word, SplitCommand(rest).value);
      }
    }
  }

  lemma CommandAsGiven(command: seq<string>)
    ensures SplitCommand(Join(command, " ")) == Some(command) <==> AllOrdinary(command)
  {
    JoinLength(command);
    if AllOrdinary(command) {
      OrdinarySplits(command);
    }
    if SplitCommand(Join(command, " ")) == Some(command) {
      LineRoom(Join(command, " "));
    }
  }

  // What runs, in the four cases, for any list of ExecStart lines: a given command fills the first slot and
  // given arguments take the place of all the others. The command's words are the ones given iff none of
  // them needs quoting; the arguments' always are. Of several lines each is a slot of its own.
  lemma WhatRuns(execStart: seq<string>, command: Option<seq<string>>, args: Option<seq<string>>,
                 lookPath: map<string, string>)
    requires command.Some? ==> |command.value| > 0
    ensures
      var words := UnitWords(execStart);
      var head := SplitCommand(if command.Some? then CommandText(command.value, lookPath) else words[0]);
      var tail := if args.None? then SplitCommand(Join(words[1..], " "))
                  else if NulFree(args.value) then Some(args.value)
                  else None;
      && (head.Some?
        ==> SplitCommand(Join(ExecWords(execStart, command, args, lookPath), " ")) == Before(head.value, tail))
      && (command.Some? ==>
            (head == Some(LocatedCommand(command.value, lookPath))
             <==> AllOrdinary(LocatedCommand(command.value, lookPath))))
  {
    var words := UnitWords(execStart);
    var first := if command.Some? then CommandText(command.value, lookPath) else words[0];
    var rest := if args.Some? then QuoteEach(args.value) else words[1..];
    if command.Some? {
      CommandAsGiven(LocatedCommand(command.value, lookPath));
    }
    if args.Some? {
      SplitQuotedArgs(args.value);
    }
    if SplitCommand(first).Some? {
      assert ExecWords(execStart, command, args, lookPath)[1..] == rest;
      if |rest| == 0 {
        assert SplitCommand("") == Some([]) && SplitCommand(first).value + [] == SplitCommand(first).value;
      } else {
        SplitCommandAppend(first, Join(rest, " "));
      }
    }
  }

  // The slots that a unit file offers: the words of its one ExecStart line, or else one for every line; without any
  // word, one that is empty.
  lemma Slots(execStart: seq<string>)
    ensures
      var words := UnitWords(execStart);
      && Join(words, " ") == Join(if |execStart| == 1 then Fields(execStart[0]) else execStart, " ")
      && words[1..] == (if execStart == [] || (|execStart| == 1 && Fields(execStart[0]) == []) then []
                        else if |execStart| == 1 then Fields(execStart[0])[1..]
                        else execStart[1..])
  {
    assert [""][1..] == [] && Join([""], " ") == "";
  }

  // A program that is not given by an absolute path is looked up, and only that: if no word needs quoting, what
  // runs is the program that was found, or else the one that was named, with the words and arguments given.
  lemma GivenRuns(execStart: seq<string>, command: seq<string>, args: seq<string>, lookPath: map<string, string>,
                  program: string)
    requires command != [] && AllOrdinary([program] + command[1..])
    requires "/" <= command[0] || command[0] !in lookPath ==> program == command[0]
    requires !("/" <= command[0]) && command[0] in lookPath ==> program == lookPath[command[0]]
    ensures SplitCommand(Join(ExecWords(execStart, Some(command), Some(args), lookPath), " "))
      == if NulFree(args) then Some([program] + command[1..] + args) else None
    ensures SplitCommand(Join(ExecWords(execStart, Some(command), None, lookPath), " "))
      == Before([program] + command[1..], SplitCommand(Join(UnitWords(execStart)[1..], " ")))
  {
    var located := [program] + command[1..];
    assert LocatedCommand(command, lookPath) == located;
    WhatRuns(execStart, Some(command), Some(args), lookPath);
    WhatRuns(execStart, Some(command), None, lookPath);
  }

  // Without command and args the line is still rewritten: its words stay, the blanks between them
  // become single spaces, inside quotes too.
  lemma {:induction false} FieldsJoin(words: seq<string>)
    requires forall i :: 0 <= i < |words| ==>
      words[i] != "" && (forall j :: 0 <= j < |words[i]| ==> !IsSpace(words[i][j]))
    ensures Fields(Join(words, " ")) == words
  {
    if |words| == 1 {
      assert words[0] + "" == words[0];
      WordLenPrefix(words[0], "");
      assert words[0][|words[0]|..] == "";
    } else if |words| > 1 {
      FieldsJoin(words[1..]);
      var s, tail := Join(words, " "), " " + Join(words[1..], " ");
      assert s == words[0] + tail && tail[1..] == Join(words[1..], " ");
      WordLenPrefix(words[0], tail);
      assert s[0] == words[0][0] && s[..|words[0]|] == words[0] && s[|words[0]|..] == tail;
    }
  }

  lemma {:induction false} WordLenPrefix(word: string, tail: string)
    requires forall j :: 0 <= j < |word| ==> !IsSpace(word[j])
    requires tail == "" || IsSpace(tail[0])
    ensures WordLen(word + tail) == |word|
  {
    if word == "" {
      assert word + tail == tail;
    } else {
      assert (word + tail)[1..] == word[1..] + tail;
      WordLenPrefix(word[1..], tail);
    }
  }

  lemma {:induction false} WordLenWord(s: string)
    ensures forall j :: 0 <= j < WordLen(s) ==> !IsSpace(s[j])
  {
    if s != "" && !IsSpace(s[0]) {
      WordLenWord(s[1..]);
      assert forall j :: 1 <= j < WordLen(s) ==> s[j] == s[1..][j - 1];
    }
  }

  lemma {:induction false} FieldsWords(s: string)
    ensures forall i :: 0 <= i < |Fields(s)| ==>
      Fields(s)[i] != "" && forall j :: 0 <= j < |Fields(s)[i]| ==> !IsSpace(Fields(s)[i][j])
    decreases |s|
  {
    if s != "" {
      if IsSpace(s[0]) {
        FieldsWords(s[1..]);
      } else {
        WordLenWord(s);
        FieldsWords(s[WordLen(s)..]);
      }
    }
  }

  lemma UntouchedLineKeepsWords(line: string)
    ensures Fields(Join(ExecWords([line], None, None, map[]), " ")) == Fields(line)
  {
    FieldsWords(line);
    var words := UnitWords([line]);
    assert ExecWords([line], None, None, map[]) == words;
    if Fields(line) == [] {
      assert Join([""], " ") == "";
    } else {
      FieldsJoin(Fields(line));
    }
  }

  lemma {:induction false} QuotedItemPlain(word: string, quote: char, rest: string)
    requires quote !in word && '\\' !in word && quote != '\\'
    ensures QuotedItem(word + [quote] + rest, quote) == Some((word, rest))
  {
    var s := word + [quote] + rest;
    if word == "" {
      assert s[1..] == rest;
    } else {
      QuotedItemPlain(word[1..], quote, rest);
      assert s[1..] == word[1..] + [quote] + rest;
      assert [word[0]] + word[1..] == word;
    }
  }

  lemma SplitPlainQuoted(word: string, line: string)
    requires '\'' !in word && '\\' !in word && line == "'" + word + "'"
    ensures SplitCommand(line) == Some([word])
  {
    QuotedItemPlain(word, '\'', "");
    assert line[1..] == word + ['\''] + "";
    assert SplitCommand("") == Some([]) && [word] + [] == [word];
  }

  lemma FieldsOfQuotedBlanks()
    ensures Fields("'b  c'") == ["'b", "c'"]
  {
    var line := "'b  c'";
    WordLenPrefix("'b", "  c'");
    assert line == "'b" + "  c'" && line[..2] == "'b" && line[2..] == "  c'";
    WordLenPrefix("c'", "");
    assert "c'" + "" == "c'" && "c'"[..2] == "c'" && "c'"[2..] == "";
    assert "  c'"[1..] == " c'" && " c'"[1..] == "c'";
    assert Fields("c'") == ["c'"];
    assert Fields(" c'") == Fields("c'");
    assert Fields("  c'") == Fields(" c'");
  }

  // For example a package line that quotes two blanks runs with one.
  lemma BlanksInQuotesCollapse()
    ensures SplitCommand("'b  c'") == Some(["b  c"])
    ensures SplitCommand(Join(ExecWords(["'b  c'"], None, None, map[]), " ")) == Some(["b c"])
  {
    SplitPlainQuoted("b  c", "'b  c'");
    SplitPlainQuoted("b c", "'b c'");
    FieldsOfQuotedBlanks();
    assert Join(["'b", "c'"], " ") == "'b c'";
  }
}
