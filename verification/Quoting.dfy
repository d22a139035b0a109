/** Quoting for a POSIX shell, and the copy-paste kubectl hints built from it.

    `Lex` reads a command line the way section 2.2 (quoting) and section 2.3 (token recognition) of the Shell Command
    Language describe.  It gives up on anything that would be expanded, redirected or otherwise interpreted. */
module Quoting {
  import opened Common

  // ----- the shell -----

  datatype Token = Word(text: string) | AndIf

  datatype Mode = Unquoted | Single | Double

  /** The word being read, if one has begun, and the tokens before it. */
  datatype Lexer = Lexer(word: Option<string>, done: seq<Token>) {
    function Text(): string { if word.Some? then word.value else "" }

    function Put(s: string): Lexer { this.(word := Some(Text() + s)) }

    function Flush(): Lexer { if word.Some? then Lexer(None, done + [Word(word.value)]) else this }

    function Emit(t: Token): Lexer { Lexer(None, Flush().done + [t]) }
  }

  /** Unquoted, these start an expansion, a pattern, a comment or another operator, or end the line. */
  const ACTIVE := "|;<>()$`*?[]#~\n"

  /** The rest of the command line, or nothing if the shell would have to interpret it or it is incomplete. */
  function LexFrom(s: string, mode: Mode, st: Lexer): Option<seq<Token>>
    decreases |s|
  {
    if s == [] then if mode.Unquoted? then Some(st.Flush().done) else None
    else
      var c, rest := s[0], s[1..];
      match mode
      case Single => if c == '\'' then LexFrom(rest, Unquoted, st) else LexFrom(rest, Single, st.Put([c]))
      case Double =>
        if c == '"' then LexFrom(rest, Unquoted, st)
        else if c in ['$', '`'] then None
        else if c == '\\' && rest != [] && rest[0] in ['$', '`', '"', '\\'] then LexFrom(rest[1..], Double, st.Put([rest[0]]))
        else if c == '\\' && rest != [] && rest[0] == '\n' then LexFrom(rest[1..], Double, st)
        else LexFrom(rest, Double, st.Put([c]))
      case Unquoted =>
        if c == '\'' then LexFrom(rest, Single, st.Put([]))
        else if c == '"' then LexFrom(rest, Double, st.Put([]))
        else if c == '\\' then
          if rest == [] then None
          else if rest[0] == '\n' then LexFrom(rest[1..], Unquoted, st)
          else LexFrom(rest[1..], Unquoted, st.Put([rest[0]]))
        else if c == ' ' || c == '\t' then LexFrom(rest, Unquoted, st.Flush())
        else if c == '&' then
          if rest != [] && rest[0] == '&' then LexFrom(rest[1..], Unquoted, st.Emit(AndIf)) else None
        else if c in ACTIVE then None
        else LexFrom(rest, Unquoted, st.Put([c]))
  }

  function Lex(s: string): Option<seq<Token>> { LexFrom(s, Unquoted, Lexer(None, [])) }

  // ----- the quoting -----

  predicate Safe(c: char) {
    || 'a' <= c <= 'z' || 'A' <= c <= 'Z' || '0' <= c <= '9'
    || c == '-' || c == '_' || c == '.' || c == '/' || c == ':' || c == '@' || c == '=' || c == '+' || c == ','
  }

  predicate AllSafe(s: string) { forall i | 0 <= i < |s| :: Safe(s[i]) }

  /** Every single quote leaves the quotes, is written between double quotes, and enters the quotes again. */
  function EscapeQuotes(s: string): string {
    if s == [] then [] else (if s[0] == '\'' then "'\"'\"'" else [s[0]]) + EscapeQuotes(s[1..])
  }

  function ShellQuote(s: string): string {
    if s != "" && AllSafe(s) then s else "'" + EscapeQuotes(s) + "'"
  }

  /** Whatever follows, reading `text` brings the lexer from `a` to `b`. */
  ghost predicate Reads(text: string, a: Lexer, b: Lexer) {
    forall rest: string :: LexFrom(text + rest, Unquoted, a) == LexFrom(rest, Unquoted, b)
  }

  lemma ReadsOn(s: string, t: string, rest: string, a: Lexer, b: Lexer, c: Lexer)
    requires LexFrom(s + (t + rest), Unquoted, a) == LexFrom(t + rest, Unquoted, b)
    requires LexFrom(t + rest, Unquoted, b) == LexFrom(rest, Unquoted, c)
    ensures LexFrom(s + t + rest, Unquoted, a) == LexFrom(rest, Unquoted, c)
  {
    Assoc(s, t, rest);
  }

  lemma ReadsBoth(s: string, t: string, a: Lexer, b: Lexer, c: Lexer)
    requires Reads(s, a, b) && Reads(t, b, c)
    ensures Reads(s + t, a, c)
  {
    forall rest: string
      ensures LexFrom(s + t + rest, Unquoted, a) == LexFrom(rest, Unquoted, c)
    {
      ReadsOn(s, t, rest, a, b, c);
    }
  }

  lemma PutBoth(a: Lexer, s: string, t: string)
    ensures a.Put(s).Put(t) == a.Put(s + t) && "" + s == s
    ensures a.word.Some? ==> a.Put("") == a
  {
    assert a.Text() + s + t == a.Text() + (s + t);
    assert a.Text() + "" == a.Text();
  }

  lemma SafeCharReads(c: char, a: Lexer, rest: string)
    requires Safe(c)
    ensures LexFrom([c] + rest, Unquoted, a) == LexFrom(rest, Unquoted, a.Put([c]))
  {
    assert ([c] + rest)[1..] == rest;
    assert c !in ACTIVE;
  }

  lemma {:induction false} SafeTextReads(s: string, a: Lexer, rest: string)
    requires s != "" && AllSafe(s)
    ensures LexFrom(s + rest, Unquoted, a) == LexFrom(rest, Unquoted, a.Put(s))
  {
    SafeCharReads(s[0], a, s[1..] + rest);
    assert [s[0]] + (s[1..] + rest) == s + rest && [s[0]] + s[1..] == s;
    PutBoth(a, [s[0]], s[1..]);
    if |s| == 1 {
      assert s[1..] + rest == rest && s == [s[0]];
    } else {
      SafeTextReads(s[1..], a.Put([s[0]]), rest);
    }
  }

  /** Leaving the single quotes for one double-quoted single quote and coming back adds just that quote. */
  lemma QuoteInsideQuotes(a: Lexer, tail: string)
    requires a.word.Some?
    ensures LexFrom("'\"'\"'" + tail, Single, a) == LexFrom(tail, Single, a.Put("'"))
  {
    var s := "'\"'\"'" + tail;
    assert s[1..][1..][1..][1..][1..] == tail;
    var b := a.Put("'");
    PutBoth(a, "", "");
    PutBoth(b, "", "");
    assert LexFrom(s, Single, a) == LexFrom(s[1..], Unquoted, a);
    assert LexFrom(s[1..], Unquoted, a) == LexFrom(s[1..][1..], Double, a);
    assert LexFrom(s[1..][1..], Double, a) == LexFrom(s[1..][1..][1..], Double, b);
    assert LexFrom(s[1..][1..][1..], Double, b) == LexFrom(s[1..][1..][1..][1..], Unquoted, b);
    assert LexFrom(s[1..][1..][1..][1..], Unquoted, b) == LexFrom(tail, Single, b);
  }

  /** One character inside the single quotes. */
  lemma EscapedCharReads(c: char, tail: string, a: Lexer)
    requires a.word.Some?
    ensures LexFrom((if c == '\'' then "'\"'\"'" else [c]) + tail, Single, a) == LexFrom(tail, Single, a.Put([c]))
  {
    if c == '\'' {
      QuoteInsideQuotes(a, tail);
    } else {
      assert ([c] + tail)[1..] == tail;
    }
  }

  lemma {:induction false} EscapedTextReads(s: string, a: Lexer, rest: string)
    requires a.word.Some?
    ensures LexFrom(EscapeQuotes(s) + ("'" + rest), Single, a) == LexFrom(rest, Unquoted, a.Put(s))
  {
    if s == [] {
      PutBoth(a, s, s);
      assert EscapeQuotes(s) + ("'" + rest) == "'" + rest && ("'" + rest)[1..] == rest;
    } else {
      var c, tail := s[0], EscapeQuotes(s[1..]) + ("'" + rest);
      EscapedTextReads(s[1..], a.Put([c]), rest);
      PutBoth(a, [c], s[1..]);
      assert [c] + s[1..] == s;
      EscapedCharReads(c, tail, a);
      Assoc(if c == '\'' then "'\"'\"'" else [c], EscapeQuotes(s[1..]), "'" + rest);
    }
  }

  lemma Wrapped(text: string, rest: string)
    ensures "'" + text + "'" + rest == "'" + (text + ("'" + rest))
    ensures ("'" + (text + ("'" + rest)))[0] == '\'' && ("'" + (text + ("'" + rest)))[1..] == text + ("'" + rest)
  {
  }

  lemma WrappedReads(s: string, a: Lexer, rest: string)
    ensures LexFrom("'" + EscapeQuotes(s) + "'" + rest, Unquoted, a) == LexFrom(rest, Unquoted, a.Put(s))
  {
    Wrapped(EscapeQuotes(s), rest);
    EscapedTextReads(s, a.Put([]), rest);
    PutBoth(a, "", s);
  }

  /** Anywhere in a command line, a quoted string reads as exactly that string. */
  lemma QuotedReads(s: string, a: Lexer)
    ensures Reads(ShellQuote(s), a, a.Put(s))
  {
    forall rest: string
      ensures LexFrom(ShellQuote(s) + rest, Unquoted, a) == LexFrom(rest, Unquoted, a.Put(s))
    {
      if s != "" && AllSafe(s) {
        SafeTextReads(s, a, rest);
      } else {
        WrappedReads(s, a, rest);
      }
    }
  }

  /** Quoting any string and reading it back gives one word, equal to the string. */
  lemma QuoteRoundTrip(s: string)
    ensures Lex(ShellQuote(s)) == Some([Word(s)])
  {
    var a := Lexer(None, []);
    QuotedReads(s, a);
    assert ShellQuote(s) + "" == ShellQuote(s);
    assert LexFrom(ShellQuote(s) + "", Unquoted, a) == LexFrom("", Unquoted, a.Put(s));
    assert "" + s == s;
    assert a.Put(s).Flush().done == [Word(s)];
  }

  // ----- command lines -----

  function Words(args: seq<string>): seq<Token> { seq(|args|, i requires 0 <= i < |args| => Word(args[i])) }

  /** Joining with single blanks. */
  function Join(parts: seq<string>): string {
    if parts == [] then "" else if |parts| == 1 then parts[0] else Join(parts[..|parts| - 1]) + " " + parts[|parts| - 1]
  }

  lemma BlankReads(a: Lexer)
    ensures Reads(" ", a, a.Flush())
  {
    forall rest: string
      ensures LexFrom(" " + rest, Unquoted, a) == LexFrom(rest, Unquoted, a.Flush())
    {
      assert (" " + rest)[1..] == rest;
    }
  }

  lemma AndIfReads(a: Lexer)
    ensures Reads("&&", a, a.Emit(AndIf))
  {
    forall rest: string
      ensures LexFrom("&&" + rest, Unquoted, a) == LexFrom(rest, Unquoted, a.Emit(AndIf))
    {
      assert ("&&" + rest)[1..][1..] == rest;
    }
  }

  /** A complete argument: a text that reads as a word, followed by a blank. */
  lemma ArgumentReads(text: string, arg: string, done: seq<Token>)
    requires text == ShellQuote(arg)
    ensures Reads(text + " ", Lexer(None, done), Lexer(None, done + [Word(arg)]))
  {
    var a := Lexer(None, done);
    QuotedReads(arg, a);
    assert "" + arg == arg;
    BlankReads(a.Put(arg));
    ReadsBoth(text, " ", a, a.Put(arg), a.Put(arg).Flush());
  }

  lemma WordsSnoc(done: seq<Token>, names: seq<string>)
    ensures done + Words([]) == done
    ensures names != [] ==> done + Words(names[..|names| - 1]) + [Word(names[|names| - 1])] == done + Words(names)
  {
  }

  lemma JoinEnds(parts: seq<string>)
    requires |parts| > 1
    ensures Join(parts) + " " == (Join(parts[..|parts| - 1]) + " ") + (parts[|parts| - 1] + " ")
  {
    Assoc(Join(parts[..|parts| - 1]) + " ", parts[|parts| - 1], " ");
  }

  /** Quoted names, joined with blanks and followed by one, read as these names. */
  lemma {:induction false} NamesRead(names: seq<string>, quoted: seq<string>, done: seq<Token>)
    requires |quoted| == |names| && forall i | 0 <= i < |names| :: quoted[i] == ShellQuote(names[i])
    ensures Reads(Join(quoted) + " ", Lexer(None, done), Lexer(None, done + Words(names)))
  {
    var n := |names|;
    WordsSnoc(done, names);
    if n == 0 {
      BlankReads(Lexer(None, done));
      assert Join(quoted) + " " == " ";
    } else {
      var front, text := done + Words(names[..n - 1]), quoted[n - 1];
      ArgumentReads(text, names[n - 1], front);
      if n == 1 {
        assert front == done && Join(quoted) == text;
      } else {
        NamesRead(names[..n - 1], quoted[..n - 1], done);
        ReadsBoth(Join(quoted[..n - 1]) + " ", text + " ", Lexer(None, done), Lexer(None, front), Lexer(None, done + Words(names)));
        JoinEnds(quoted);
      }
    }
  }

  method QuoteAll(names: seq<string>) returns (quoted: seq<string>)
    ensures |quoted| == |names| && forall i | 0 <= i < |names| :: quoted[i] == ShellQuote(names[i])
  {
    quoted := [];
    for i := 0 to |names|
      invariant |quoted| == i && forall j | 0 <= j < i :: quoted[j] == ShellQuote(names[j])
    {
      quoted := quoted + [ShellQuote(names[i])];
    }
  }

  // ----- the hints -----

  /** The context flag, if the run has a context. */
  function ContextArgs(context: string): seq<string> { if context == "" then [] else ["--context", context] }

  function ContextFlag(context: string): string { if context == "" then "" else " --context " + ShellQuote(context) }

  function Quoted(args: seq<string>): seq<string> { seq(|args|, i requires 0 <= i < |args| => ShellQuote(args[i])) }

  lemma {:induction false} JoinConcat(a: seq<string>, b: seq<string>)
    requires a != [] && b != []
    ensures Join(a + b) == Join(a) + " " + Join(b)
  {
    var n := |b| - 1;
    assert (a + b)[..|a + b| - 1] == a + b[..n] && (a + b)[|a + b| - 1] == b[n];
    if n == 0 {
      assert a + b[..n] == a && b == [b[0]];
    } else {
      JoinConcat(a, b[..n]);
    }
  }

  lemma SafeBoth(s: string, t: string)
    requires AllSafe(s) && AllSafe(t) && s != ""
    ensures AllSafe(s + t) && ShellQuote(s + t) == s + t && ShellQuote(s) == s
  {
  }

  /** The fixed words of the hints need no quotes. */
  lemma FixedWords()
    ensures ShellQuote("kubectl") == "kubectl" && ShellQuote("--context") == "--context"
    ensures ShellQuote("uncordon") == "uncordon" && ShellQuote("annotate") == "annotate"
    ensures ShellQuote("node") == "node" && ShellQuote("pod") == "pod" && ShellQuote("-n") == "-n"
  {
    SafeBoth("kubectl", "");
    SafeBoth("--context", "");
    SafeBoth("uncordon", "");
    SafeBoth("annotate", "");
    SafeBoth("node", "");
    SafeBoth("pod", "");
    SafeBoth("-n", "");
  }

  lemma OwnerKeys()
    ensures ShellQuote(CORDONED_BY + "-") == CORDONED_BY + "-"
    ensures ShellQuote(MARKED_BY + "-") == MARKED_BY + "-"
  {
    SafeBoth(CORDONED_BY, "-");
    SafeBoth(MARKED_BY, "-");
  }

  lemma MarkerHead(a: string)
    requires a == "zalando-postgres-operator-"
    ensures AllSafe(a) && a != ""
  {
  }

  lemma MarkerTail(b: string)
    requires b == "rolling-update-required"
    ensures AllSafe(b)
  {
  }

  lemma MarkerKey()
    ensures ShellQuote(ROLLING_UPDATE + "-") == ROLLING_UPDATE + "-"
  {
    MarkerHead("zalando-postgres-operator-");
    MarkerTail("rolling-update-required");
    MarkerParts("zalando-postgres-operator-", "rolling-update-required");
    SafeBoth("zalando-postgres-operator-", "rolling-update-required");
    SafeBoth(ROLLING_UPDATE, "-");
  }

  lemma JoinOne(a: string)
    ensures Quoted([a]) == [ShellQuote(a)] && Join(Quoted([a])) == ShellQuote(a)
  {
  }

  lemma JoinTwo(a: string, b: string)
    ensures Join(Quoted([a, b])) == ShellQuote(a) + " " + ShellQuote(b)
  {
    JoinOne(a);
    JoinOne(b);
    assert Quoted([a, b]) == Quoted([a]) + Quoted([b]);
    JoinConcat(Quoted([a]), Quoted([b]));
  }

  lemma HeadText(kubectl: string, flag: string, context: string)
    requires ShellQuote(kubectl) == kubectl && ShellQuote(flag) == flag
    ensures Join(Quoted([kubectl])) == kubectl
    ensures Join(Quoted([kubectl] + [flag, context])) == kubectl + " " + flag + " " + ShellQuote(context)
  {
    JoinOne(kubectl);
    JoinTwo(flag, context);
    assert Quoted([kubectl] + [flag, context]) == Quoted([kubectl]) + Quoted([flag, context]);
    JoinConcat(Quoted([kubectl]), Quoted([flag, context]));
    assert kubectl + " " + (flag + " " + ShellQuote(context)) == kubectl + " " + flag + " " + ShellQuote(context);
  }

  lemma BlankFlag()
    ensures " --context " == " " + ("--context" + " ")
    ensures ShellQuote("kubectl") == "kubectl" && ShellQuote("--context") == "--context"
  {
    SafeBoth("kubectl", "");
    SafeBoth("--context", "");
  }

  lemma Regroup(a: string, b: string, c: string, d: string, e: string)
    ensures a + b + c + d + e == a + (b + (c + d) + e)
  {
  }

  lemma ContextText(context: string)
    ensures Join(Quoted(["kubectl"] + ContextArgs(context))) == "kubectl" + ContextFlag(context)
  {
    BlankFlag();
    HeadText("kubectl", "--context", context);
    if context == "" {
      assert ["kubectl"] + ContextArgs(context) == ["kubectl"];
      assert "kubectl" + ContextFlag(context) == "kubectl";
    } else {
      Regroup("kubectl", " ", "--context", " ", ShellQuote(context));
    }
  }

  lemma QuotedBoth(a: seq<string>, b: seq<string>)
    requires a != [] && b != []
    ensures Join(Quoted(a + b)) == Join(Quoted(a)) + " " + Join(Quoted(b))
  {
    assert Quoted(a + b) == Quoted(a) + Quoted(b);
    JoinConcat(Quoted(a), Quoted(b));
  }

  /** The beginning of a command, up to the blank before its names, reads as its arguments. */
  lemma CommandReads(context: string, verb: seq<string>, text: string, done: seq<Token>)
    requires verb != [] && text == Join(Quoted(verb))
    ensures Reads("kubectl" + ContextFlag(context) + " " + text + " ", Lexer(None, done),
                  Lexer(None, done + Words(["kubectl"] + ContextArgs(context) + verb)))
  {
    var head := ["kubectl"] + ContextArgs(context);
    ContextText(context);
    QuotedBoth(head, verb);
    NamesRead(head + verb, Quoted(head + verb), done);
  }

  lemma WordsBoth(done: seq<Token>, a: seq<string>, b: seq<string>)
    ensures done + Words(a) + Words(b) == done + Words(a + b)
  {
  }

  /** A command with names after its verb, up to the blank after the last name. */
  lemma NamesCommandReads(context: string, verb: seq<string>, text: string, names: seq<string>, quoted: seq<string>,
                          done: seq<Token>)
    requires verb != [] && text == Join(Quoted(verb)) && quoted == Quoted(names)
    ensures Reads("kubectl" + ContextFlag(context) + " " + text + " " + (Join(quoted) + " "), Lexer(None, done),
                  Lexer(None, done + Words(["kubectl"] + ContextArgs(context) + verb + names)))
  {
    var head := ["kubectl"] + ContextArgs(context) + verb;
    CommandReads(context, verb, text, done);
    NamesRead(names, quoted, done + Words(head));
    WordsBoth(done, head, names);
    ReadsBoth("kubectl" + ContextFlag(context) + " " + text + " ", Join(quoted) + " ", Lexer(None, done),
              Lexer(None, done + Words(head)), Lexer(None, done + Words(head + names)));
  }

  /** Two commands joined by `&&` with blanks around it. */
  lemma BothRead(first: string, second: string, a: seq<Token>, b: seq<Token>)
    requires Reads(first, Lexer(None, []), Lexer(None, a)) && Reads(second, Lexer(None, a + [AndIf]), Lexer(None, a + [AndIf] + b))
    ensures Reads(first + "&&" + " " + second, Lexer(None, []), Lexer(None, a + [AndIf] + b))
  {
    var start, mid := Lexer(None, []), Lexer(None, a + [AndIf]);
    AndIfReads(Lexer(None, a));
    ReadsBoth(first, "&&", start, Lexer(None, a), mid);
    BlankReads(mid);
    ReadsBoth(first + "&&", " ", start, mid, mid);
    ReadsBoth(first + "&&" + " ", second, start, mid, Lexer(None, a + [AndIf] + b));
  }

  /** A command line ending in one more argument without a blank. */
  lemma LastArgument(line: string, arg: string, done: seq<Token>)
    requires Reads(line, Lexer(None, []), Lexer(None, done))
    ensures Lex(line + ShellQuote(arg)) == Some(done + [Word(arg)])
  {
    var a, b := Lexer(None, done), Lexer(None, done).Put(arg);
    QuotedReads(arg, a);
    ReadsBoth(line, ShellQuote(arg), Lexer(None, []), a, b);
    assert line + ShellQuote(arg) + "" == line + ShellQuote(arg);
    assert LexFrom(line + ShellQuote(arg) + "", Unquoted, Lexer(None, [])) == LexFrom("", Unquoted, b);
    assert "" + arg == arg;
  }

  /** The argument vectors the rollback hint stands for. */
  function UncordonTokens(nodes: seq<string>, context: string): seq<Token> {
    Words(["kubectl"] + ContextArgs(context) + ["uncordon"] + nodes) + [AndIf] +
    Words(["kubectl"] + ContextArgs(context) + ["annotate", "node"] + nodes + [CORDONED_BY + "-"])
  }

  lemma UncordonVerbs()
    ensures Join(Quoted(["uncordon"])) == "uncordon" && Join(Quoted(["annotate", "node"])) == "annotate node"
  {
    FixedWords();
    JoinOne("uncordon");
    JoinTwo("annotate", "node");
    assert "annotate" + " " + "node" == "annotate node";
  }

  lemma UncordonReads(nodes: seq<string>, context: string, names: string, first: string, second: string)
    requires names == Join(Quoted(nodes))
    requires first == "kubectl" + ContextFlag(context) + " " + "uncordon" + " " + (names + " ")
    requires second == "kubectl" + ContextFlag(context) + " " + "annotate node" + " " + (names + " ")
    ensures Lex(first + "&&" + " " + second + (CORDONED_BY + "-")) == Some(UncordonTokens(nodes, context))
  {
    var a := Words(["kubectl"] + ContextArgs(context) + ["uncordon"] + nodes);
    var args := ["kubectl"] + ContextArgs(context) + ["annotate", "node"] + nodes;
    UncordonVerbs();
    OwnerKeys();
    NamesCommandReads(context, ["uncordon"], "uncordon", nodes, Quoted(nodes), []);
    assert [] + a == a;
    NamesCommandReads(context, ["annotate", "node"], "annotate node", nodes, Quoted(nodes), a + [AndIf]);
    BothRead(first, second, a, Words(args));
    LastArgument(first + "&&" + " " + second, CORDONED_BY + "-", a + [AndIf] + Words(args));
    WordsBoth(a + [AndIf], args, [CORDONED_BY + "-"]);
    assert Words([CORDONED_BY + "-"]) == [Word(CORDONED_BY + "-")];
  }

  lemma Blanks()
    ensures " uncordon " == " " + "uncordon" + " " && " annotate node " == " " + "annotate node" + " "
    ensures " && kubectl" == " " + "&&" + " " + "kubectl"
  {
  }

  lemma RegroupCommand(k: string, flag: string, s: string, verb: string, names: string, op: string, other: string,
                       key: string)
    ensures k + flag + (s + verb + s) + names + (s + op + s + k) + flag + (s + other + s) + names + s + key ==
            (k + flag + s + verb + s + (names + s)) + op + s + (k + flag + s + other + s + (names + s)) + key
  {
  }

  /** The rollback hint reads back as exactly the two intended commands, whatever the nodes and the context are called. */
  method UncordonCommand(nodes: seq<string>, context: string) returns (command: string)
    ensures Lex(command) == Some(UncordonTokens(nodes, context))
  {
    var quoted := QuoteAll(nodes);
    var names := Join(quoted);
    var flag := "";
    if context != "" {
      flag := " --context " + ShellQuote(context);
    }
    command := "kubectl" + flag + " uncordon " + names + " && kubectl" + flag + " annotate node " + names + " " + (CORDONED_BY + "-");
    assert quoted == Quoted(nodes);
    Blanks();
    RegroupCommand("kubectl", flag, " ", "uncordon", names, "&&", "annotate node", CORDONED_BY + "-");
    ghost var first := "kubectl" + flag + " " + "uncordon" + " " + (names + " ");
    ghost var second := "kubectl" + flag + " " + "annotate node" + " " + (names + " ");
    UncordonReads(nodes, context, names, first, second);
  }

  /** The argument vector the clean-up hint stands for. */
  function UnmarkTokens(ns: string, pods: seq<string>, context: string): seq<Token> {
    Words(["kubectl"] + ContextArgs(context) + ["annotate", "pod", "-n", ns] + pods + [ROLLING_UPDATE + "-"] + [MARKED_BY + "-"])
  }

  lemma RegroupVerb(a: string, s: string, p: string, n: string, ns: string)
    ensures a + s + p + s + (n + s + ns) == a + s + p + s + n + s + ns
  {
  }

  lemma UnmarkVerb(ns: string)
    ensures Join(Quoted(["annotate", "pod", "-n", ns])) == "annotate pod -n " + ShellQuote(ns)
  {
    FixedWords();
    JoinTwo("annotate", "pod");
    JoinTwo("-n", ns);
    assert Quoted(["annotate", "pod", "-n", ns]) == Quoted(["annotate", "pod"]) + Quoted(["-n", ns]);
    JoinConcat(Quoted(["annotate", "pod"]), Quoted(["-n", ns]));
    assert "annotate" + " " + "pod" + " " + "-n" + " " == "annotate pod -n ";
    RegroupVerb("annotate", " ", "pod", "-n", ShellQuote(ns));
  }

  lemma UnmarkReads(ns: string, pods: seq<string>, context: string, line: string)
    requires line == "kubectl" + ContextFlag(context) + " " + ("annotate pod -n " + ShellQuote(ns)) + " " + (Join(Quoted(pods)) + " ")
    ensures Lex(line + ((ROLLING_UPDATE + "-") + " ") + (MARKED_BY + "-")) == Some(UnmarkTokens(ns, pods, context))
  {
    var args := ["kubectl"] + ContextArgs(context) + ["annotate", "pod", "-n", ns] + pods;
    var marker, owner := ROLLING_UPDATE + "-", MARKED_BY + "-";
    UnmarkVerb(ns);
    OwnerKeys();
    MarkerKey();
    NamesCommandReads(context, ["annotate", "pod", "-n", ns], "annotate pod -n " + ShellQuote(ns), pods, Quoted(pods), []);
    assert [] + Words(args) == Words(args);
    ArgumentReads(marker, marker, Words(args));
    assert Words(args) + [Word(marker)] == Words(args + [marker]);
    ReadsBoth(line, marker + " ", Lexer(None, []), Lexer(None, Words(args)), Lexer(None, Words(args + [marker])));
    LastArgument(line + (marker + " "), owner, Words(args + [marker]));
    assert Words(args + [marker]) + [Word(owner)] == Words(args + [marker] + [owner]);
  }

  lemma RegroupUnmark(k: string, flag: string, s: string, verb: string, ns: string, names: string, marker: string,
                      owner: string)
    ensures k + flag + (s + verb) + ns + s + names + s + marker + s + owner ==
            (k + flag + s + (verb + ns) + s + (names + s)) + (marker + s) + owner
  {
  }

  lemma UnmarkText(flag: string, ns: string, names: string, marker: string, owner: string)
    ensures "kubectl" + flag + " annotate pod -n " + ns + " " + names + " " + marker + " " + owner ==
            ("kubectl" + flag + " " + ("annotate pod -n " + ns) + " " + (names + " ")) + (marker + " ") + owner
  {
    assert " annotate pod -n " == " " + "annotate pod -n ";
    RegroupUnmark("kubectl", flag, " ", "annotate pod -n ", ns, names, marker, owner);
  }

  /** The clean-up hint reads back as exactly the intended command. */
  method UnmarkCommand(ns: string, pods: seq<string>, context: string) returns (command: string)
    ensures Lex(command) == Some(UnmarkTokens(ns, pods, context))
  {
    var flag := "";
    if context != "" {
      flag := " --context " + ShellQuote(context);
    }
    var quoted := QuoteAll(pods);
    var names := Join(quoted);
    var marker, owner := ROLLING_UPDATE + "-", MARKED_BY + "-";
    command := "kubectl" + flag + " annotate pod -n " + ShellQuote(ns) + " " + names + " " + marker + " " + owner;
    assert quoted == Quoted(pods);
    UnmarkText(flag, ShellQuote(ns), names, marker, owner);
    UnmarkReads(ns, pods, context, "kubectl" + flag + " " + ("annotate pod -n " + ShellQuote(ns)) + " " + (names + " "));
  }
}
