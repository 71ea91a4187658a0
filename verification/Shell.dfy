/** sh.c: the lexer-less recursive-descent parser and its in-place NUL termination. */
module Shell {

  const MAXARGS: nat := 10
  const NUL: char := '\0'

  predicate IsSpace(c: char) {
    c in " \t\r\n" || c == '\U{0B}'
  }

  predicate IsSymbol(c: char) {
    c in "<|>&;()"
  }

  predicate IsWordChar(c: char) {
    !IsSpace(c) && !IsSymbol(c)
  }

  // ---- the text as tokens ----

  /** Append is ">>". */
  datatype Tok = Word(w: string) | Sym(c: char) | Append

  /** The first position from pos on that is not whitespace. */
  function SkipSpace(s: string, pos: nat): (r: nat)
    requires pos <= |s|
    ensures pos <= r <= |s| && (r < |s| ==> !IsSpace(s[r]))
    decreases |s| - pos
  {
    if pos < |s| && IsSpace(s[pos]) then SkipSpace(s, pos + 1) else pos
  }

  function WordEnd(s: string, pos: nat): (r: nat)
    requires pos <= |s|
    ensures pos <= r <= |s| && (forall i | pos <= i < r :: IsWordChar(s[i])) && (r < |s| ==> !IsWordChar(s[r]))
    ensures pos < |s| && IsWordChar(s[pos]) ==> pos < r
    decreases |s| - pos
  {
    if pos < |s| && IsWordChar(s[pos]) then WordEnd(s, pos + 1) else pos
  }

  /** The first token of a text that starts with neither whitespace nor its end, and where it ends. */
  function First(s: string, q: nat): (r: (Tok, nat))
    requires q < |s| && !IsSpace(s[q])
    ensures q < r.1 <= |s|
  {
    if s[q] == '>' && q + 1 < |s| && s[q + 1] == '>' then (Append, q + 2)
    else if IsSymbol(s[q]) then (Sym(s[q]), q + 1)
    else (Word(s[q..WordEnd(s, q)]), WordEnd(s, q))
  }

  /** The tokens of s from pos on. */
  function Lex(s: string, pos: nat): seq<Tok>
    requires pos <= |s|
    decreases |s| - pos
  {
    var q := SkipSpace(s, pos);
    if q == |s| then [] else [First(s, q).0] + Lex(s, First(s, q).1)
  }

  lemma {:induction false} LexSkip(s: string, pos: nat)
    requires pos <= |s|
    ensures Lex(s, SkipSpace(s, pos)) == Lex(s, pos)
  {
  }

  // ---- what a sequence of tokens means ----

  datatype Tree =
    | TExec(args: seq<string>)
    | TRedir(t: Tree, file: string, out: bool)
    | TPipe(l: Tree, r: Tree)
    | TList(l: Tree, r: Tree)
    | TBack(t: Tree)

  datatype Why = Leftovers | MissingFile | MissingParen | Syntax | TooManyArgs

  datatype Result = Ok(t: Tree, rest: seq<Tok>) | Panic(why: Why)

  /** Whether the next token starts with one of toks. */
  predicate Starts(ts: seq<Tok>, toks: string) {
    |ts| > 0 && match ts[0]
                case Word(_) => false
                case Sym(c) => c in toks
                case Append => '>' in toks
  }

  predicate IsWord(ts: seq<Tok>) {
    |ts| > 0 && ts[0].Word?
  }

  /** One more word for the command at the bottom of a chain of redirections. */
  function AddArg(t: Tree, w: string): Tree {
    match t
    case TExec(args) => TExec(args + [w])
    case TRedir(c, f, o) => TRedir(AddArg(c, w), f, o)
    case _ => t
  }

  function Argc(t: Tree): nat {
    match t
    case TExec(args) => |args|
    case TRedir(c, _, _) => Argc(c)
    case _ => 0
  }

  function RedirsOf(t: Tree, ts: seq<Tok>): (r: Result)
    ensures r.Ok? ==> |r.rest| <= |ts|
    decreases |ts|
  {
    if !Starts(ts, "<>") then Ok(t, ts)
    else if !IsWord(ts[1..]) then Panic(MissingFile)
    else RedirsOf(TRedir(t, ts[1].w, ts[0] != Sym('<')), ts[2..])
  }

  function ArgsOf(t: Tree, ts: seq<Tok>): (r: Result)
    ensures r.Ok? ==> |r.rest| <= |ts|
    decreases |ts|
  {
    if ts == [] || Starts(ts, "|)&;") then Ok(t, ts)
    else if !IsWord(ts) then Panic(Syntax)
    else if Argc(t) + 1 >= MAXARGS then Panic(TooManyArgs)
    else
      var r := RedirsOf(AddArg(t, ts[0].w), ts[1..]);
      if r.Panic? then r else ArgsOf(r.t, r.rest)
  }

  function BlockOf(ts: seq<Tok>): (r: Result)
    requires Starts(ts, "(")
    ensures r.Ok? ==> |r.rest| < |ts|
    decreases |ts|, 0
  {
    var r := LineOf(ts[1..]);
    if r.Panic? then r
    else if !Starts(r.rest, ")") then Panic(MissingParen)
    else RedirsOf(r.t, r.rest[1..])
  }

  function ExecOf(ts: seq<Tok>): (r: Result)
    ensures r.Ok? ==> |r.rest| <= |ts|
    decreases |ts|, 1
  {
    if Starts(ts, "(") then BlockOf(ts)
    else
      var r := RedirsOf(TExec([]), ts);
      if r.Panic? then r else ArgsOf(r.t, r.rest)
  }

  function PipeOf(ts: seq<Tok>): (r: Result)
    ensures r.Ok? ==> |r.rest| <= |ts|
    decreases |ts|, 2
  {
    var l := ExecOf(ts);
    if l.Panic? || !Starts(l.rest, "|") then l
    else
      var r := PipeOf(l.rest[1..]);
      if r.Panic? then r else Ok(TPipe(l.t, r.t), r.rest)
  }

  function BacksOf(t: Tree, ts: seq<Tok>): (r: Result)
    ensures r.Ok? && |r.rest| <= |ts|
    decreases |ts|
  {
    if Starts(ts, "&") then BacksOf(TBack(t), ts[1..]) else Ok(t, ts)
  }

  function LineOf(ts: seq<Tok>): (r: Result)
    ensures r.Ok? ==> |r.rest| <= |ts|
    decreases |ts|, 3
  {
    var p := PipeOf(ts);
    if p.Panic? then p
    else
      var l := BacksOf(p.t, p.rest);
      if !Starts(l.rest, ";") then l
      else
        var r := LineOf(l.rest[1..]);
        if r.Panic? then r else Ok(TList(l.t, r.t), r.rest)
  }

  /** The whole command line. */
  function CommandOf(ts: seq<Tok>): Result {
    var r := LineOf(ts);
    if r.Ok? && r.rest != [] then Panic(Leftovers) else r
  }

  // ---- printing and reading back ----

  predicate PlainWord(w: string) {
    w != "" && forall i: nat | i < |w| :: IsWordChar(w[i]) && w[i] != NUL
  }

  predicate PlainTree(t: Tree) {
    match t
    case TExec(args) => |args| < MAXARGS && forall i: nat | i < |args| :: PlainWord(args[i])
    case TRedir(c, f, _) => PlainTree(c) && PlainWord(f)
    case TPipe(l, r) => PlainTree(l) && PlainTree(r)
    case TList(l, r) => PlainTree(l) && PlainTree(r)
    case TBack(c) => PlainTree(c)
  }

  function Words(args: seq<string>): seq<Tok> {
    seq(|args|, i requires 0 <= i < |args| => Word(args[i]))
  }

  /** Every part of a command in parentheses. */
  function Block(t: Tree): seq<Tok>
    decreases t, 1
  {
    [Sym('(')] + Tokens(t) + [Sym(')')]
  }

  function Tokens(t: Tree): seq<Tok>
    decreases t, 0
  {
    match t
    case TExec(args) => Words(args)
    case TRedir(c, f, out) => Block(c) + [Sym(if out then '>' else '<'), Word(f)]
    case TPipe(l, r) => Block(l) + [Sym('|')] + Block(r)
    case TList(l, r) => Block(l) + [Sym(';')] + Block(r)
    case TBack(c) => Block(c) + [Sym('&')]
  }

  /** What may follow a command: the end, or the end of a block. */
  predicate Ends(rest: seq<Tok>) {
    rest == [] || rest[0] == Sym(')')
  }

  lemma {:induction false} WordsBack(done: seq<string>, todo: seq<string>, rest: seq<Tok>)
    requires |done| + |todo| < MAXARGS && Ends(rest)
    ensures ArgsOf(TExec(done), Words(todo) + rest) == Ok(TExec(done + todo), rest)
    decreases |todo|
  {
    var ts := Words(todo) + rest;
    if todo == [] {
      assert ts == rest && done + todo == done;
    } else {
      assert ts[0] == Word(todo[0]);
      assert ts[1..] == Words(todo[1..]) + rest;
      WordsBack(done + [todo[0]], todo[1..], rest);
      assert done + [todo[0]] + todo[1..] == done + todo;
      assert !Starts(ts[1..], "<>");
    }
  }

  /** A block reads back as its command, and so does what it takes in redirections. */
  lemma {:induction false} BlockBack(t: Tree, rest: seq<Tok>)
    requires PlainTree(t)
    ensures Starts(Block(t) + rest, "(") && ExecOf(Block(t) + rest) == RedirsOf(t, rest)
    decreases t, 1
  {
    var ts := Block(t) + rest;
    assert ts[0] == Sym('(');
    assert ts[1..] == Tokens(t) + ([Sym(')')] + rest);
    LineBack(t, [Sym(')')] + rest);
    assert ([Sym(')')] + rest)[1..] == rest;
  }

  /** A block that is a whole line. */
  lemma {:induction false} BlockLine(t: Tree, rest: seq<Tok>)
    requires PlainTree(t) && Ends(rest)
    ensures PipeOf(Block(t) + rest) == Ok(t, rest) && LineOf(Block(t) + rest) == Ok(t, rest)
    decreases t, 2
  {
    BlockBack(t, rest);
  }

  lemma {:induction false} RedirBack(ts: seq<Tok>, c: Tree, f: string, out: bool, rest: seq<Tok>)
    requires Ends(rest) && ExecOf(ts) == RedirsOf(c, [Sym(if out then '>' else '<'), Word(f)] + rest)
    ensures LineOf(ts) == Ok(TRedir(c, f, out), rest)
  {
  }

  lemma {:induction false} PipeBack(ts: seq<Tok>, l: Tree, r: Tree, tail: seq<Tok>, rest: seq<Tok>)
    requires Ends(rest) && ExecOf(ts) == RedirsOf(l, [Sym('|')] + tail) && PipeOf(tail) == Ok(r, rest)
    ensures LineOf(ts) == Ok(TPipe(l, r), rest)
  {
  }

  lemma {:induction false} ListBack(ts: seq<Tok>, l: Tree, r: Tree, tail: seq<Tok>, rest: seq<Tok>)
    requires ExecOf(ts) == RedirsOf(l, [Sym(';')] + tail) && LineOf(tail) == Ok(r, rest)
    ensures LineOf(ts) == Ok(TList(l, r), rest)
  {
  }

  lemma {:induction false} AmpBack(ts: seq<Tok>, c: Tree, rest: seq<Tok>)
    requires Ends(rest) && ExecOf(ts) == RedirsOf(c, [Sym('&')] + rest)
    ensures LineOf(ts) == Ok(TBack(c), rest)
  {
    var tail := [Sym('&')] + rest;
    assert tail[1..] == rest;
    hide ExecOf;
    assert PipeOf(ts) == Ok(c, tail);
    assert BacksOf(c, tail) == BacksOf(TBack(c), rest) == Ok(TBack(c), rest);
  }

  lemma {:induction false} ExecBack(args: seq<string>, rest: seq<Tok>)
    requires |args| < MAXARGS && Ends(rest)
    ensures LineOf(Words(args) + rest) == Ok(TExec(args), rest)
  {
    var ts := Words(args) + rest;
    WordsBack([], args, rest);
    assert [] + args == args;
    assert !Starts(ts, "(") && !Starts(ts, "<>");
    hide ArgsOf;
    assert ExecOf(ts) == Ok(TExec(args), rest);
    assert PipeOf(ts) == Ok(TExec(args), rest);
  }

  /** The round trip, in front of anything that may follow a command. */
  lemma {:induction false} LineBack(t: Tree, rest: seq<Tok>)
    requires PlainTree(t) && Ends(rest)
    ensures LineOf(Tokens(t) + rest) == Ok(t, rest)
    decreases t, 0
  {
    hide LineOf, ExecOf, PipeOf, RedirsOf, Block;
    var ts := Tokens(t) + rest;
    match t {
      case TExec(args) =>
        ExecBack(args, rest);
      case TRedir(c, f, out) =>
        var tail := [Sym(if out then '>' else '<'), Word(f)] + rest;
        assert ts == Block(c) + tail;
        BlockBack(c, tail);
        RedirBack(ts, c, f, out, rest);
      case TPipe(l, r) =>
        assert ts == Block(l) + ([Sym('|')] + (Block(r) + rest));
        BlockBack(l, [Sym('|')] + (Block(r) + rest));
        BlockLine(r, rest);
        PipeBack(ts, l, r, Block(r) + rest, rest);
      case TList(l, r) =>
        assert ts == Block(l) + ([Sym(';')] + (Block(r) + rest));
        BlockBack(l, [Sym(';')] + (Block(r) + rest));
        BlockLine(r, rest);
        ListBack(ts, l, r, Block(r) + rest, rest);
      case TBack(c) =>
        assert ts == Block(c) + ([Sym('&')] + rest);
        BlockBack(c, [Sym('&')] + rest);
        AmpBack(ts, c, rest);
    }
  }

  lemma {:induction false} TokensBack(t: Tree)
    requires PlainTree(t)
    ensures CommandOf(Tokens(t)) == Ok(t, [])
  {
    LineBack(t, []);
    assert Tokens(t) + [] == Tokens(t);
  }

  // ---- printing with the fewest parentheses ----

  /** A chain of redirections of a command that is still taking words. */
  predicate Chain(t: Tree) {
    match t
    case TExec(_) => true
    case TRedir(c, _, _) => Chain(c)
    case _ => false
  }

  /** How loosely a command binds: single commands, pipes, background, lists. */
  function Rank(t: Tree): nat {
    match t
    case TExec(_) => 0
    case TRedir(_, _, _) => 0
    case TPipe(_, _) => 1
    case TBack(_) => 2
    case TList(_, _) => 3
  }

  /** A command where only commands of rank k or less stand bare. */
  function Shown(t: Tree, k: nat): seq<Tok>
    decreases t, 1
  {
    if Rank(t) <= k then Terse(t) else [Sym('(')] + Terse(t) + [Sym(')')]
  }

  /** A pipe's right operand may be a pipe, a background's operand and a list's left
      operand may be a background, and a list's right operand may be anything. */
  function Terse(t: Tree): seq<Tok>
    decreases t, 0
  {
    match t
    case TExec(args) => Words(args)
    case TRedir(c, f, out) => Shown(c, 0) + [Sym(if out then '>' else '<'), Word(f)]
    case TPipe(l, r) => Shown(l, 0) + [Sym('|')] + Shown(r, 1)
    case TBack(c) => Shown(c, 2) + [Sym('&')]
    case TList(l, r) => Shown(l, 2) + [Sym(';')] + Shown(r, 3)
  }

  /** What parseexec does after a command t: redirections, and more words if t takes them. */
  function Continued(t: Tree, rest: seq<Tok>): Result {
    var r := RedirsOf(t, rest);
    if r.Panic? || !Chain(t) then r else ArgsOf(r.t, r.rest)
  }

  /** rest ends a command, up to the symbols in stops. */
  predicate Follows(rest: seq<Tok>, stops: string) {
    rest == [] || (rest[0].Sym? && rest[0].c in stops)
  }

  lemma {:induction false} ContinuedEnds(t: Tree, rest: seq<Tok>)
    requires Follows(rest, "|)&;")
    ensures Continued(t, rest) == Ok(t, rest)
  {
  }

  lemma {:induction false} ArgsShown(done: seq<string>, todo: seq<string>, rest: seq<Tok>)
    requires |done| + |todo| < MAXARGS && todo != [] && !IsWord(rest)
    ensures ArgsOf(TExec(done), Words(todo) + rest) == Continued(TExec(done + todo), rest)
    decreases |todo|
  {
    var ts := Words(todo) + rest;
    assert ts[0] == Word(todo[0]);
    assert ts[1..] == Words(todo[1..]) + rest;
    if |todo| == 1 {
      assert ts[1..] == rest && done + [todo[0]] == done + todo;
    } else {
      ArgsShown(done + [todo[0]], todo[1..], rest);
      assert done + [todo[0]] + todo[1..] == done + todo;
      assert ts[1] == Word(todo[1]);
    }
  }

  lemma {:induction false} ExecShown(args: seq<string>, rest: seq<Tok>)
    requires |args| < MAXARGS && !IsWord(rest) && !Starts(rest, "(")
    ensures ExecOf(Words(args) + rest) == Continued(TExec(args), rest)
  {
    var ts := Words(args) + rest;
    if args == [] {
      assert ts == rest;
    } else {
      assert ts[0] == Word(args[0]);
      ArgsShown([], args, rest);
      assert [] + args == args;
    }
  }

  lemma {:induction false} RedirShown(c: Tree, f: string, out: bool, rest: seq<Tok>)
    ensures Continued(c, [Sym(if out then '>' else '<'), Word(f)] + rest) == Continued(TRedir(c, f, out), rest)
  {
    var ts := [Sym(if out then '>' else '<'), Word(f)] + rest;
    assert ts[1..][0] == Word(f) && ts[2..] == rest;
  }

  /** A single command, in front of anything that is neither a word nor a parenthesis. */
  lemma {:induction false} TerseExec(t: Tree, rest: seq<Tok>)
    requires PlainTree(t) && Rank(t) == 0 && !IsWord(rest) && !Starts(rest, "(")
    ensures ExecOf(Terse(t) + rest) == Continued(t, rest)
    decreases t, 0
  {
    hide ExecOf, Continued;
    if t.TExec? {
      ExecShown(t.args, rest);
    } else {
      var op := [Sym(if t.out then '>' else '<'), Word(t.file)];
      assert Terse(t) + rest == Shown(t.t, 0) + (op + rest);
      ShownExec(t.t, op + rest);
      RedirShown(t.t, t.file, t.out, rest);
    }
  }

  lemma {:induction false} PipeEnds(ts: seq<Tok>, t: Tree, rest: seq<Tok>)
    requires Follows(rest, ")&;") && ExecOf(ts) == Continued(t, rest)
    ensures PipeOf(ts) == Ok(t, rest)
  {
    ContinuedEnds(t, rest);
  }

  lemma {:induction false} PipeGoes(ts: seq<Tok>, l: Tree, tail: seq<Tok>, r: Tree, rest: seq<Tok>)
    requires ExecOf(ts) == Continued(l, [Sym('|')] + tail) && PipeOf(tail) == Ok(r, rest)
    ensures PipeOf(ts) == Ok(TPipe(l, r), rest)
  {
    ContinuedEnds(l, [Sym('|')] + tail);
    assert ([Sym('|')] + tail)[1..] == tail;
  }

  lemma {:induction false} TersePipe(t: Tree, rest: seq<Tok>)
    requires PlainTree(t) && Rank(t) <= 1 && Follows(rest, ")&;")
    ensures PipeOf(Terse(t) + rest) == Ok(t, rest)
    decreases t, 1
  {
    hide ExecOf, PipeOf, Continued;
    if t.TPipe? {
      var tail := Shown(t.r, 1) + rest;
      assert Terse(t) + rest == Shown(t.l, 0) + ([Sym('|')] + tail);
      ShownExec(t.l, [Sym('|')] + tail);
      ShownPipe(t.r, rest);
      PipeGoes(Terse(t) + rest, t.l, tail, t.r, rest);
    } else {
      TerseExec(t, rest);
      PipeEnds(Terse(t) + rest, t, rest);
    }
  }

  /** What parseline makes of the text up to a semicolon. */
  function Backed(ts: seq<Tok>): Result {
    var p := PipeOf(ts);
    if p.Panic? then p else BacksOf(p.t, p.rest)
  }

  lemma {:induction false} TerseBacks(t: Tree, rest: seq<Tok>)
    requires PlainTree(t) && Rank(t) <= 2 && Follows(rest, ")&;")
    ensures Backed(Terse(t) + rest) == BacksOf(t, rest)
    decreases t, 2
  {
    hide PipeOf;
    if t.TBack? {
      assert Terse(t) + rest == Shown(t.t, 2) + ([Sym('&')] + rest);
      ShownBacks(t.t, [Sym('&')] + rest);
      assert ([Sym('&')] + rest)[1..] == rest;
    } else {
      TersePipe(t, rest);
    }
  }

  lemma {:induction false} LineGoes(ts: seq<Tok>, l: Tree, tail: seq<Tok>, r: Tree, rest: seq<Tok>)
    requires Backed(ts) == BacksOf(l, [Sym(';')] + tail) && LineOf(tail) == Ok(r, rest)
    ensures LineOf(ts) == Ok(TList(l, r), rest)
  {
    assert ([Sym(';')] + tail)[1..] == tail;
  }

  lemma {:induction false} LineEnds(ts: seq<Tok>, t: Tree, rest: seq<Tok>)
    requires Ends(rest) && Backed(ts) == BacksOf(t, rest)
    ensures LineOf(ts) == Ok(t, rest)
  {
  }

  /** The round trip, in front of the end or of a closing parenthesis. */
  lemma {:induction false} TerseLine(t: Tree, rest: seq<Tok>)
    requires PlainTree(t) && Ends(rest)
    ensures LineOf(Terse(t) + rest) == Ok(t, rest)
    decreases t, 3
  {
    hide LineOf, PipeOf, Backed;
    if t.TList? {
      var tail := Shown(t.r, 3) + rest;
      assert Terse(t) + rest == Shown(t.l, 2) + ([Sym(';')] + tail);
      ShownBacks(t.l, [Sym(';')] + tail);
      assert Shown(t.r, 3) == Terse(t.r);
      TerseLine(t.r, rest);
      LineGoes(Terse(t) + rest, t.l, tail, t.r, rest);
    } else {
      TerseBacks(t, rest);
      LineEnds(Terse(t) + rest, t, rest);
    }
  }

  lemma {:induction false} Enclosed(t: Tree, rest: seq<Tok>)
    requires PlainTree(t)
    ensures ExecOf([Sym('(')] + Terse(t) + [Sym(')')] + rest) == RedirsOf(t, rest)
    decreases t, 4
  {
    var ts := [Sym('(')] + Terse(t) + [Sym(')')] + rest;
    var tail := [Sym(')')] + rest;
    assert ts[0] == Sym('(') && ts[1..] == Terse(t) + tail;
    TerseLine(t, tail);
    assert tail[1..] == rest;
  }

  lemma {:induction false} ShownExec(t: Tree, rest: seq<Tok>)
    requires PlainTree(t) && !IsWord(rest) && !Starts(rest, "(")
    ensures ExecOf(Shown(t, 0) + rest) == Continued(t, rest)
    decreases t, 5
  {
    hide ExecOf, Terse;
    if Rank(t) == 0 {
      TerseExec(t, rest);
    } else {
      Enclosed(t, rest);
    }
  }

  lemma {:induction false} ShownPipe(t: Tree, rest: seq<Tok>)
    requires PlainTree(t) && Follows(rest, ")&;")
    ensures PipeOf(Shown(t, 1) + rest) == Ok(t, rest)
    decreases t, 6
  {
    hide ExecOf, PipeOf, Terse, Continued;
    if Rank(t) <= 1 {
      TersePipe(t, rest);
    } else {
      assert Shown(t, 1) == Shown(t, 0);
      ShownExec(t, rest);
      PipeEnds(Shown(t, 1) + rest, t, rest);
    }
  }

  lemma {:induction false} ShownBacks(t: Tree, rest: seq<Tok>)
    requires PlainTree(t) && Follows(rest, ")&;")
    ensures Backed(Shown(t, 2) + rest) == BacksOf(t, rest)
    decreases t, 7
  {
    hide PipeOf, Terse;
    if Rank(t) <= 2 {
      TerseBacks(t, rest);
    } else {
      assert Shown(t, 2) == Shown(t, 1);
      ShownPipe(t, rest);
    }
  }

  function Parens(ts: seq<Tok>): nat {
    multiset(ts)[Sym('(')]
  }

  lemma {:induction false} ParensTail(ts: seq<Tok>)
    requires ts != []
    ensures Parens(ts) == Parens(ts[1..]) + if ts[0] == Sym('(') then 1 else 0
  {
    assert ts == [ts[0]] + ts[1..];
  }

  /** Parentheses of a command where rank k stands bare. */
  lemma {:induction false} ParensShown(t: Tree, k: nat)
    ensures Parens(Shown(t, k)) == Parens(Terse(t)) + if Rank(t) <= k then 0 else 1
  {
  }

  /** Parentheses of a compound command are those of its operands. */
  lemma {:induction false} ParensTerse(t: Tree)
    ensures match t
            case TExec(_) => true
            case TRedir(c, _, _) => Parens(Terse(t)) == Parens(Shown(c, 0))
            case TPipe(l, r) => Parens(Terse(t)) == Parens(Shown(l, 0)) + Parens(Shown(r, 1))
            case TBack(c) => Parens(Terse(t)) == Parens(Shown(c, 2))
            case TList(l, r) => Parens(Terse(t)) == Parens(Shown(l, 2)) + Parens(Shown(r, 3))
  {
    hide Shown;
  }

  lemma {:induction false} ParensWords(args: seq<string>)
    ensures Parens(Words(args)) == 0
  {
    assert Sym('(') !in Words(args);
  }

  lemma {:induction false} ChainBare(t: Tree)
    requires Chain(t)
    ensures Parens(Terse(t)) == 0
  {
    match t
    case TExec(args) => ParensWords(args);
    case TRedir(c, _, _) => ChainBare(c);
  }

  lemma {:induction false} RedirsLeast(t: Tree, ts: seq<Tok>)
    requires RedirsOf(t, ts).Ok?
    ensures var r := RedirsOf(t, ts); Parens(r.rest) == Parens(ts) && Parens(Shown(r.t, 0)) == Parens(Shown(t, 0))
    ensures Chain(t) ==> Chain(RedirsOf(t, ts).t)
    decreases |ts|
  {
    hide Parens, Terse, Shown;
    if Starts(ts, "<>") {
      ParensTail(ts);
      ParensTail(ts[1..]);
      assert ts[1..][1..] == ts[2..];
      var n := TRedir(t, ts[1].w, ts[0] != Sym('<'));
      ParensTerse(n);
      ParensShown(n, 0);
      RedirsLeast(n, ts[2..]);
    }
  }

  lemma {:induction false} ArgsLeast(t: Tree, ts: seq<Tok>)
    requires ArgsOf(t, ts).Ok? && Chain(t)
    ensures var r := ArgsOf(t, ts); Parens(r.rest) == Parens(ts) && Chain(r.t)
    decreases |ts|
  {
    if !(ts == [] || Starts(ts, "|)&;")) {
      hide Parens, Terse, Shown, RedirsOf;
      ParensTail(ts);
      AddArgChain(t, ts[0].w);
      var r := RedirsOf(AddArg(t, ts[0].w), ts[1..]);
      RedirsLeast(AddArg(t, ts[0].w), ts[1..]);
      ArgsLeast(r.t, r.rest);
    }
  }

  lemma {:induction false} ExecLeast(ts: seq<Tok>)
    requires ExecOf(ts).Ok?
    ensures var r := ExecOf(ts); Parens(ts) >= Parens(Shown(r.t, 0)) + Parens(r.rest)
    decreases |ts|, 1
  {
    hide LineOf, ArgsOf, RedirsOf, Parens, Terse, Shown;
    if Starts(ts, "(") {
      var r := LineOf(ts[1..]);
      ParensTail(ts);
      LineLeast(ts[1..]);
      ParensTail(r.rest);
      ParensShown(r.t, 0);
      RedirsLeast(r.t, r.rest[1..]);
    } else {
      var r := RedirsOf(TExec([]), ts);
      RedirsLeast(TExec([]), ts);
      ArgsLeast(r.t, r.rest);
      ChainBare(ExecOf(ts).t);
      ParensShown(ExecOf(ts).t, 0);
    }
  }

  lemma {:induction false} PipeLeast(ts: seq<Tok>)
    requires PipeOf(ts).Ok?
    ensures var r := PipeOf(ts); Parens(ts) >= Parens(Shown(r.t, 1)) + Parens(r.rest)
    decreases |ts|, 2
  {
    hide ExecOf, Parens, Terse, Shown;
    var l := ExecOf(ts);
    ExecLeast(ts);
    if Starts(l.rest, "|") {
      ParensTail(l.rest);
      PipeLeast(l.rest[1..]);
      ParensTerse(PipeOf(ts).t);
      ParensShown(PipeOf(ts).t, 1);
    } else {
      ParensShown(l.t, 0);
      ParensShown(l.t, 1);
    }
  }

  lemma {:induction false} BacksLeast(t: Tree, ts: seq<Tok>)
    ensures var r := BacksOf(t, ts); Parens(r.rest) == Parens(ts) && Parens(Shown(r.t, 2)) == Parens(Shown(t, 2))
    decreases |ts|
  {
    hide Parens, Terse, Shown;
    if Starts(ts, "&") {
      ParensTail(ts);
      ParensTerse(TBack(t));
      ParensShown(TBack(t), 2);
      BacksLeast(TBack(t), ts[1..]);
    }
  }

  /** No text of a command has fewer parentheses than its terse printing. */
  lemma {:induction false} LineLeast(ts: seq<Tok>)
    requires LineOf(ts).Ok?
    ensures var r := LineOf(ts); Parens(ts) >= Parens(Terse(r.t)) + Parens(r.rest)
    decreases |ts|, 3
  {
    hide PipeOf, Parens, Terse, Shown;
    var p := PipeOf(ts);
    PipeLeast(ts);
    var l := BacksOf(p.t, p.rest);
    BacksLeast(p.t, p.rest);
    ParensShown(p.t, 1);
    ParensShown(p.t, 2);
    ParensShown(l.t, 2);
    if Starts(l.rest, ";") {
      ParensTail(l.rest);
      LineLeast(l.rest[1..]);
      ParensTerse(LineOf(ts).t);
      ParensShown(LineOf(l.rest[1..]).t, 3);
    }
  }

  // ---- the printed text ----

  function Spell(k: Tok): string {
    match k
    case Word(w) => w
    case Sym(c) => [c]
    case Append => ">>"
  }

  predicate PlainTok(k: Tok) {
    match k
    case Word(w) => PlainWord(w)
    case Sym(c) => IsSymbol(c)
    case Append => true
  }

  predicate PlainToks(ts: seq<Tok>) {
    forall i: nat | i < |ts| :: PlainTok(ts[i])
  }

  /** Tokens as text, with a space after each. */
  function Render(ts: seq<Tok>): string {
    if ts == [] then "" else Spell(ts[0]) + " " + Render(ts[1..])
  }

  function Print(t: Tree): string {
    Render(Tokens(t))
  }

  lemma {:induction false} FirstOf(s: string, q: nat, k: Tok)
    requires PlainTok(k) && q + |Spell(k)| < |s| && s[q..q + |Spell(k)|] == Spell(k) && s[q + |Spell(k)|] == ' '
    ensures |Spell(k)| > 0 && !IsSpace(s[q]) && First(s, q) == (k, q + |Spell(k)|)
  {
    var e := q + |Spell(k)|;
    assert forall i | q <= i < e :: s[i] == s[q..e][i - q];
    match k
    case Word(w) =>
      assert forall i | q <= i < e :: s[i] == w[i - q] && IsWordChar(s[i]);
      assert IsWordChar(s[q]) && !IsWordChar(s[e]);
      assert WordEnd(s, q) == e;
    case Sym(c) =>
      assert s[q] == c && s[q + 1] == ' ';
    case Append =>
      assert s[q] == '>' && s[q + 1] == '>';
  }

  /** Printed tokens lex as themselves. */
  lemma {:induction false} LexRender(s: string, q: nat, ts: seq<Tok>)
    requires PlainToks(ts) && q <= |s| && s[q..] == Render(ts)
    ensures Lex(s, q) == ts
    decreases |ts|
  {
    hide Lex, PlainTok;
    if ts == [] {
      LexNone(s);
    } else {
      var k, more := Spell(ts[0]), Render(ts[1..]);
      assert s[q..] == k + " " + more;
      hide Spell, Render;
      Split(s, q, k, more);
      assert PlainTok(ts[0]);
      LexRender(s, q + |k| + 1, ts[1..]);
      LexStep(s, q, ts[0]);
    }
  }

  lemma {:induction false} LexNone(s: string)
    ensures Lex(s, |s|) == []
  {
  }

  lemma {:induction false} Split(s: string, q: nat, k: string, more: string)
    requires q <= |s| && s[q..] == k + " " + more
    ensures q + |k| < |s| && s[q..q + |k|] == k && s[q + |k|] == ' ' && s[q + |k| + 1..] == more
  {
  }

  lemma {:induction false} LexStep(s: string, q: nat, k: Tok)
    requires PlainTok(k) && q + |Spell(k)| < |s| && s[q..q + |Spell(k)|] == Spell(k) && s[q + |Spell(k)|] == ' '
    ensures Lex(s, q) == [k] + Lex(s, q + |Spell(k)| + 1)
  {
    var e := q + |Spell(k)|;
    FirstOf(s, q, k);
    hide First, PlainTok, Spell, Lex, SkipSpace, IsSpace;
    LexFirst(s, q);
    LexSpace(s, e);
  }

  lemma {:induction false} LexFirst(s: string, q: nat)
    requires q < |s| && !IsSpace(s[q])
    ensures Lex(s, q) == [First(s, q).0] + Lex(s, First(s, q).1)
  {
  }

  lemma {:induction false} LexSpace(s: string, e: nat)
    requires e < |s| && s[e] == ' '
    ensures Lex(s, e) == Lex(s, e + 1)
  {
  }

  lemma {:induction false} TokensPlain(t: Tree)
    requires PlainTree(t)
    ensures PlainToks(Tokens(t)) && PlainToks(Block(t))
    decreases t
  {
    hide PlainTok;
    assert PlainTok(Sym('(')) && PlainTok(Sym(')')) && PlainTok(Sym('|')) && PlainTok(Sym(';')) && PlainTok(Sym('&'))
        && PlainTok(Sym('<')) && PlainTok(Sym('>')) by { PunctPlain(); }
    match t {
      case TExec(args) =>
        forall i: nat | i < |args| ensures PlainTok(Words(args)[i]) {
          WordPlain(args[i]);
        }
      case TRedir(c, f, _) =>
        TokensPlain(c);
        WordPlain(f);
      case TPipe(l, r) =>
        TokensPlain(l);
        TokensPlain(r);
      case TList(l, r) =>
        TokensPlain(l);
        TokensPlain(r);
      case TBack(c) =>
        TokensPlain(c);
    }
  }

  lemma {:induction false} WordPlain(w: string)
    requires PlainWord(w)
    ensures PlainTok(Word(w))
  {
  }

  lemma {:induction false} PunctPlain()
    ensures forall c | IsSymbol(c) :: PlainTok(Sym(c))
  {
  }

  /** Every plain command, printed, has the tokens of the printing and reads back as itself. */
  lemma {:induction false} PrintParses(t: Tree)
    requires PlainTree(t)
    ensures Lex(Print(t), 0) == Tokens(t) && CommandOf(Lex(Print(t), 0)) == Ok(t, [])
  {
    TokensPlain(t);
    LexRender(Print(t), 0, Tokens(t));
    TokensBack(t);
  }

  lemma {:induction false} TersePlain(t: Tree, k: nat)
    requires PlainTree(t)
    ensures PlainToks(Terse(t)) && PlainToks(Shown(t, k))
    decreases t
  {
    hide PlainTok;
    assert PlainTok(Sym('(')) && PlainTok(Sym(')')) && PlainTok(Sym('|')) && PlainTok(Sym(';')) && PlainTok(Sym('&'))
        && PlainTok(Sym('<')) && PlainTok(Sym('>')) by { PunctPlain(); }
    match t {
      case TExec(args) =>
        forall i: nat | i < |args| ensures PlainTok(Words(args)[i]) {
          WordPlain(args[i]);
        }
      case TRedir(c, f, _) =>
        TersePlain(c, 0);
        WordPlain(f);
      case TPipe(l, r) =>
        TersePlain(l, 0);
        TersePlain(r, 1);
      case TList(l, r) =>
        TersePlain(l, 2);
        TersePlain(r, 3);
      case TBack(c) =>
        TersePlain(c, 2);
    }
  }

  /** Every plain command, printed with the fewest parentheses, reads back as itself, and
      no line that reads as that command has fewer. */
  lemma {:induction false} TerseParses(t: Tree)
    requires PlainTree(t)
    ensures Lex(Render(Terse(t)), 0) == Terse(t) && CommandOf(Terse(t)) == Ok(t, [])
    ensures forall s: string | CommandOf(Lex(s, 0)) == Ok(t, []) :: Parens(Lex(s, 0)) >= Parens(Terse(t))
  {
    hide LineOf, Lex, Render, Terse, Parens, PlainTree;
    TersePlain(t, 3);
    LexRender(Render(Terse(t)), 0, Terse(t));
    TerseLine(t, []);
    assert Terse(t) + [] == Terse(t);
    forall s: string | CommandOf(Lex(s, 0)) == Ok(t, []) ensures Parens(Lex(s, 0)) >= Parens(Terse(t)) {
      LineLeast(Lex(s, 0));
    }
  }

  // ---- what parsing can give ----

  predicate NoNul(s: string) {
    forall i: nat | i < |s| :: s[i] != NUL
  }

  lemma {:induction false} LexPlain(s: string, pos: nat)
    requires pos <= |s| && NoNul(s)
    ensures PlainToks(Lex(s, pos))
    decreases |s| - pos
  {
    var q := SkipSpace(s, pos);
    if q < |s| {
      LexPlain(s, First(s, q).1);
      assert PlainTok(First(s, q).0);
    }
  }

  ghost predicate PlainResult(r: Result) {
    r.Ok? ==> PlainTree(r.t) && PlainToks(r.rest)
  }

  lemma {:induction false} AddArgPlain(t: Tree, w: string)
    requires PlainTree(t) && PlainWord(w) && Argc(t) + 1 < MAXARGS
    ensures PlainTree(AddArg(t, w)) && (Chain(t) ==> Chain(AddArg(t, w)))
  {
    if t.TRedir? {
      AddArgPlain(t.t, w);
    }
  }

  lemma {:induction false} RedirsPlain(t: Tree, ts: seq<Tok>)
    requires PlainTree(t) && PlainToks(ts)
    ensures PlainResult(RedirsOf(t, ts))
    ensures Chain(t) && RedirsOf(t, ts).Ok? ==> Chain(RedirsOf(t, ts).t)
    decreases |ts|
  {
    if Starts(ts, "<>") && IsWord(ts[1..]) {
      assert PlainTok(ts[1]);
      RedirsPlain(TRedir(t, ts[1].w, ts[0] != Sym('<')), ts[2..]);
    }
  }

  lemma {:induction false} ArgsPlain(t: Tree, ts: seq<Tok>)
    requires PlainTree(t) && PlainToks(ts)
    ensures PlainResult(ArgsOf(t, ts))
    decreases |ts|
  {
    if IsWord(ts) && Argc(t) + 1 < MAXARGS {
      assert PlainTok(ts[0]);
      AddArgPlain(t, ts[0].w);
      RedirsPlain(AddArg(t, ts[0].w), ts[1..]);
      var r := RedirsOf(AddArg(t, ts[0].w), ts[1..]);
      if r.Ok? {
        ArgsPlain(r.t, r.rest);
      }
    }
  }

  lemma {:induction false} ExecPlain(ts: seq<Tok>)
    requires PlainToks(ts)
    ensures PlainResult(ExecOf(ts))
    decreases |ts|, 1
  {
    hide PlainTree, PlainToks;
    if Starts(ts, "(") {
      PlainTail(ts);
      LinePlain(ts[1..]);
      var r := LineOf(ts[1..]);
      if r.Ok? && Starts(r.rest, ")") {
        PlainTail(r.rest);
        RedirsPlain(r.t, r.rest[1..]);
      }
    } else {
      assert PlainTree(TExec([])) by { EmptyPlain(); }
      RedirsPlain(TExec([]), ts);
      var r := RedirsOf(TExec([]), ts);
      if r.Ok? {
        ArgsPlain(r.t, r.rest);
      }
    }
  }

  lemma {:induction false} EmptyPlain()
    ensures PlainTree(TExec([]))
  {
  }

  lemma {:induction false} PlainTail(ts: seq<Tok>)
    requires PlainToks(ts) && ts != []
    ensures PlainToks(ts[1..])
  {
  }

  lemma {:induction false} PipePlain(ts: seq<Tok>)
    requires PlainToks(ts)
    ensures PlainResult(PipeOf(ts))
    decreases |ts|, 2
  {
    hide PlainToks, ExecOf;
    ExecPlain(ts);
    var l := ExecOf(ts);
    if l.Ok? && Starts(l.rest, "|") {
      PlainTail(l.rest);
      PipePlain(l.rest[1..]);
    }
  }

  lemma {:induction false} BacksPlain(t: Tree, ts: seq<Tok>)
    requires PlainTree(t) && PlainToks(ts)
    ensures PlainResult(BacksOf(t, ts))
    decreases |ts|
  {
    if Starts(ts, "&") {
      BacksPlain(TBack(t), ts[1..]);
    }
  }

  lemma {:induction false} LinePlain(ts: seq<Tok>)
    requires PlainToks(ts)
    ensures PlainResult(LineOf(ts))
    decreases |ts|, 3
  {
    hide PlainToks, PipeOf;
    PipePlain(ts);
    var p := PipeOf(ts);
    if p.Ok? {
      BacksPlain(p.t, p.rest);
      var l := BacksOf(p.t, p.rest);
      if Starts(l.rest, ";") {
        PlainTail(l.rest);
        LinePlain(l.rest[1..]);
      }
    }
  }

  /** The commands that some line parses to are exactly the plain ones. */
  lemma {:induction false} ParsesIffPlain(t: Tree)
    ensures PlainTree(t) <==> exists s :: NoNul(s) && CommandOf(Lex(s, 0)) == Ok(t, [])
  {
    if PlainTree(t) {
      PrintParses(t);
      TokensPlain(t);
      RenderNoNul(Tokens(t));
    }
    forall s | NoNul(s) && CommandOf(Lex(s, 0)) == Ok(t, []) ensures PlainTree(t) {
      LexPlain(s, 0);
      LinePlain(Lex(s, 0));
    }
  }

  lemma {:induction false} RenderNoNul(ts: seq<Tok>)
    requires PlainToks(ts)
    ensures NoNul(Render(ts))
    decreases |ts|
  {
    if ts != [] {
      RenderNoNul(ts[1..]);
      assert PlainTok(ts[0]);
      assert NoNul(Spell(ts[0]));
    }
  }

  // ---- nothing typed is lost ----

  /** What a token stands for: parentheses only group, and ">>" does what ">" does. */
  function Part(k: Tok): multiset<Tok> {
    if k == Sym('(') || k == Sym(')') then multiset{}
    else if k == Append then multiset{Sym('>')}
    else multiset{k}
  }

  function Parts(ts: seq<Tok>): multiset<Tok> {
    if ts == [] then multiset{} else Part(ts[0]) + Parts(ts[1..])
  }

  function TreeParts(t: Tree): multiset<Tok> {
    match t
    case TExec(args) => multiset(Words(args))
    case TRedir(c, f, out) => TreeParts(c) + multiset{Sym(if out then '>' else '<'), Word(f)}
    case TPipe(l, r) => TreeParts(l) + TreeParts(r) + multiset{Sym('|')}
    case TList(l, r) => TreeParts(l) + TreeParts(r) + multiset{Sym(';')}
    case TBack(c) => TreeParts(c) + multiset{Sym('&')}
  }

  ghost predicate Spends(had: multiset<Tok>, r: Result) {
    r.Ok? ==> had == TreeParts(r.t) + Parts(r.rest)
  }

  lemma {:induction false} Regroup(p: multiset<Tok>, a: multiset<Tok>, k: multiset<Tok>, b: multiset<Tok>, r: multiset<Tok>)
    requires p == a + (k + (b + r))
    ensures p == (a + b + k) + r
  {
  }

  lemma {:induction false} AddArgParts(t: Tree, w: string)
    requires Chain(t)
    ensures TreeParts(AddArg(t, w)) == TreeParts(t) + multiset{Word(w)}
  {
    match t {
      case TExec(args) =>
        assert Words(args + [w]) == Words(args) + [Word(w)];
      case TRedir(c, _, _) =>
        AddArgParts(c, w);
    }
  }

  lemma {:induction false} AddArgChain(t: Tree, w: string)
    requires Chain(t)
    ensures Chain(AddArg(t, w))
  {
    if t.TRedir? {
      AddArgChain(t.t, w);
    }
  }

  /** A redirection's two tokens go into the tree. */
  lemma {:induction false} RedirParts(t: Tree, ts: seq<Tok>)
    requires Starts(ts, "<>") && IsWord(ts[1..])
    ensures TreeParts(t) + Parts(ts) == TreeParts(TRedir(t, ts[1].w, ts[0] != Sym('<'))) + Parts(ts[2..])
  {
    var k := Sym(if ts[0] != Sym('<') then '>' else '<');
    assert TreeParts(TRedir(t, ts[1].w, ts[0] != Sym('<'))) == TreeParts(t) + multiset{k, ts[1]};
    RedirToks(ts, k);
    hide Parts, TreeParts, Starts;
    PairUp(TreeParts(t), k, ts[1], Parts(ts[2..]));
  }

  lemma {:induction false} RedirToks(ts: seq<Tok>, k: Tok)
    requires Starts(ts, "<>") && IsWord(ts[1..]) && k == Sym(if ts[0] != Sym('<') then '>' else '<')
    ensures Parts(ts) == multiset{k} + (multiset{ts[1]} + Parts(ts[2..]))
  {
  }

  lemma {:induction false} PairUp(a: multiset<Tok>, k: Tok, w: Tok, r: multiset<Tok>)
    ensures a + (multiset{k} + (multiset{w} + r)) == (a + multiset{k, w}) + r
  {
  }

  lemma {:induction false} RedirsSpend(t: Tree, ts: seq<Tok>)
    ensures Spends(TreeParts(t) + Parts(ts), RedirsOf(t, ts))
    ensures Chain(t) && RedirsOf(t, ts).Ok? ==> Chain(RedirsOf(t, ts).t)
    decreases |ts|
  {
    if Starts(ts, "<>") && IsWord(ts[1..]) {
      RedirParts(t, ts);
      hide TreeParts, Parts;
      RedirsSpend(TRedir(t, ts[1].w, ts[0] != Sym('<')), ts[2..]);
    }
  }

  lemma {:induction false} ArgParts(t: Tree, ts: seq<Tok>)
    requires Chain(t) && IsWord(ts)
    ensures TreeParts(t) + Parts(ts) == TreeParts(AddArg(t, ts[0].w)) + Parts(ts[1..])
  {
    AddArgParts(t, ts[0].w);
    assert Part(ts[0]) == multiset{ts[0]};
    hide AddArg, TreeParts;
    assert ts[0] == Word(ts[0].w);
  }

  lemma {:induction false} ArgsSpend(t: Tree, ts: seq<Tok>)
    requires Chain(t)
    ensures Spends(TreeParts(t) + Parts(ts), ArgsOf(t, ts))
    decreases |ts|
  {
    hide TreeParts, Parts, RedirsOf, AddArg, Argc, Chain;
    if IsWord(ts) && Argc(t) + 1 < MAXARGS {
      var t' := AddArg(t, ts[0].w);
      ArgParts(t, ts);
      AddArgChain(t, ts[0].w);
      RedirsSpend(t', ts[1..]);
      var r := RedirsOf(t', ts[1..]);
      if r.Ok? {
        ArgsSpend(r.t, r.rest);
      }
    }
  }

  lemma {:induction false} ParenParts(ts: seq<Tok>)
    requires Starts(ts, "()")
    ensures Parts(ts) == Parts(ts[1..])
  {
  }

  lemma {:induction false} OpParts(ts: seq<Tok>, c: char)
    requires Starts(ts, [c]) && c in "|;&"
    ensures Parts(ts) == multiset{Sym(c)} + Parts(ts[1..])
  {
  }

  /** Two commands joined by an operator. */
  lemma {:induction false} JoinSpends(had: multiset<Tok>, l: Result, r: Result, c: char, t: Tree)
    requires l.Ok? && r.Ok? && Starts(l.rest, [c]) && c in "|;" && Spends(had, l) && Spends(Parts(l.rest[1..]), r)
    requires t == if c == '|' then TPipe(l.t, r.t) else TList(l.t, r.t)
    ensures Spends(had, Ok(t, r.rest))
  {
    OpParts(l.rest, c);
    assert TreeParts(t) == TreeParts(l.t) + TreeParts(r.t) + multiset{Sym(c)};
    hide TreeParts, Parts;
    Regroup(had, TreeParts(l.t), multiset{Sym(c)}, TreeParts(r.t), Parts(r.rest));
  }

  lemma {:induction false} ExecSpends(ts: seq<Tok>)
    ensures Spends(Parts(ts), ExecOf(ts))
    decreases |ts|, 1
  {
    if Starts(ts, "(") {
      ParenParts(ts);
      LineSpends(ts[1..]);
      var r := LineOf(ts[1..]);
      hide LineOf, TreeParts, Parts;
      if r.Ok? && Starts(r.rest, ")") {
        ParenParts(r.rest);
        RedirsSpend(r.t, r.rest[1..]);
      }
    } else {
      RedirsSpend(TExec([]), ts);
      assert TreeParts(TExec([])) + Parts(ts) == Parts(ts);
      var r := RedirsOf(TExec([]), ts);
      hide TreeParts, RedirsOf, Parts;
      if r.Ok? {
        ArgsSpend(r.t, r.rest);
      }
    }
  }

  lemma {:induction false} PipeSpends(ts: seq<Tok>)
    ensures Spends(Parts(ts), PipeOf(ts))
    decreases |ts|, 2
  {
    ExecSpends(ts);
    var l := ExecOf(ts);
    hide ExecOf, Parts, Spends;
    if l.Ok? && Starts(l.rest, "|") {
      PipeSpends(l.rest[1..]);
      var r := PipeOf(l.rest[1..]);
      if r.Ok? {
        JoinSpends(Parts(ts), l, r, '|', TPipe(l.t, r.t));
      } else {
        PanicSpends(Parts(ts), r);
      }
    }
  }

  lemma {:induction false} BacksSpend(t: Tree, ts: seq<Tok>)
    ensures Spends(TreeParts(t) + Parts(ts), BacksOf(t, ts))
    decreases |ts|
  {
    if Starts(ts, "&") {
      OpParts(ts, '&');
      assert TreeParts(TBack(t)) == TreeParts(t) + multiset{Sym('&')};
      hide TreeParts, Parts;
      assert TreeParts(t) + Parts(ts) == TreeParts(TBack(t)) + Parts(ts[1..]);
      BacksSpend(TBack(t), ts[1..]);
    }
  }

  /** The words and operators of a command are those of the tokens that it was parsed from. */
  lemma {:induction false} LineSpends(ts: seq<Tok>)
    ensures Spends(Parts(ts), LineOf(ts))
    decreases |ts|, 3
  {
    PipeSpends(ts);
    var p := PipeOf(ts);
    if p.Ok? {
      BacksSpend(p.t, p.rest);
      var l := BacksOf(p.t, p.rest);
      assert Spends(Parts(ts), l) by { hide PipeOf, BacksOf, Parts, TreeParts; }
      hide PipeOf, BacksOf, Parts, TreeParts, Spends;
      if Starts(l.rest, ";") {
        LineSpends(l.rest[1..]);
        var r := LineOf(l.rest[1..]);
        if r.Ok? {
          JoinSpends(Parts(ts), l, r, ';', TList(l.t, r.t));
        } else {
          PanicSpends(Parts(ts), r);
        }
      }
    }
  }

  lemma {:induction false} PanicSpends(had: multiset<Tok>, r: Result)
    requires r.Panic?
    ensures Spends(had, r)
  {
  }

  lemma {:induction false} CommandConserves(ts: seq<Tok>)
    ensures CommandOf(ts).Ok? ==> TreeParts(CommandOf(ts).t) == Parts(ts)
  {
    LineSpends(ts);
    assert Parts([]) == multiset{};
    hide LineOf, TreeParts, Parts;
  }

  // ---- the parser ----

  /** argv[i] and eargv[i]; or file and efile. */
  datatype Span = Span(q: nat, eq: nat)

  datatype Cmd =
    | ExecCmd(argv: seq<Span>)
    | RedirCmd(c: Cmd, file: Span, out: bool)
    | PipeCmd(l: Cmd, r: Cmd)
    | ListCmd(l: Cmd, r: Cmd)
    | BackCmd(c: Cmd)

  /** A word of the text: not empty, and ended by a character that is no part of a word. */
  predicate SpanOk(s: string, p: Span) {
    && p.q < p.eq <= |s| && (forall i | p.q <= i < p.eq :: IsWordChar(s[i])) && (p.eq < |s| ==> !IsWordChar(s[p.eq]))
  }

  predicate SpansOk(s: string, c: Cmd) {
    match c
    case ExecCmd(argv) => forall i: nat | i < |argv| :: SpanOk(s, argv[i])
    case RedirCmd(d, f, _) => SpansOk(s, d) && SpanOk(s, f)
    case PipeCmd(l, r) => SpansOk(s, l) && SpansOk(s, r)
    case ListCmd(l, r) => SpansOk(s, l) && SpansOk(s, r)
    case BackCmd(d) => SpansOk(s, d)
  }

  function Slice(s: string, p: Span): string {
    if p.q <= p.eq <= |s| then s[p.q..p.eq] else ""
  }

  /** The command that the spans of c stand for in the text s. */
  function Meaning(s: string, c: Cmd): Tree {
    match c
    case ExecCmd(argv) => TExec(seq(|argv|, i requires 0 <= i < |argv| => Slice(s, argv[i])))
    case RedirCmd(d, f, out) => TRedir(Meaning(s, d), Slice(s, f), out)
    case PipeCmd(l, r) => TPipe(Meaning(s, l), Meaning(s, r))
    case ListCmd(l, r) => TList(Meaning(s, l), Meaning(s, r))
    case BackCmd(d) => TBack(Meaning(s, d))
  }

  datatype Outcome = Done(c: Cmd, pos: nat) | Panicked(why: Why)

  /** What the parser returned, at a place in the text, is what the grammar says of the tokens there. */
  ghost predicate Agrees(s: string, o: Outcome, r: Result, from: nat) {
    match o
    case Done(c, pos) =>
      && from <= pos <= |s| && SpansOk(s, c)
      && r.Ok? && r.t == Meaning(s, c) && r.rest == Lex(s, pos)
    case Panicked(why) => r == Panic(why)
  }

  /** The buffer holds the text s and its NUL. */
  ghost predicate Holds(buf: array<char>, s: string)
    reads buf
  {
    |s| < buf.Length && buf[..|s|] == s && buf[|s|] == NUL && NoNul(s)
  }

  method StrLen(buf: array<char>, ghost s: string) returns (n: nat)
    requires Holds(buf, s)
    ensures n == |s|
  {
    n := 0;
    while buf[n] != NUL
      invariant n <= |s|
      decreases |s| - n
    {
      n := n + 1;
    }
  }

  method Skip(buf: array<char>, es: nat, start: nat, ghost s: string) returns (pos: nat)
    requires Holds(buf, s) && es == |s| && start <= es
    ensures pos == SkipSpace(s, start)
  {
    pos := start;
    while pos < es && IsSpace(buf[pos])
      invariant pos <= es && SkipSpace(s, pos) == SkipSpace(s, start)
    {
      assert buf[pos] == s[pos];
      pos := pos + 1;
    }
    assert pos < es ==> buf[pos] == s[pos];
  }

  method SkipWord(buf: array<char>, es: nat, start: nat, ghost s: string) returns (pos: nat)
    requires Holds(buf, s) && es == |s| && start <= es
    ensures pos == WordEnd(s, start)
  {
    pos := start;
    while pos < es && !IsSpace(buf[pos]) && !IsSymbol(buf[pos])
      invariant pos <= es && WordEnd(s, pos) == WordEnd(s, start)
    {
      assert buf[pos] == s[pos];
      pos := pos + 1;
    }
    assert pos < es ==> buf[pos] == s[pos];
  }

  /** gettoken's code for a token. */
  function Code(k: Tok): char {
    match k
    case Word(_) => 'a'
    case Sym(c) => c
    case Append => '+'
  }

  /** gettoken's switch: the code and the end of the token at q. */
  method ScanToken(buf: array<char>, es: nat, q: nat, ghost s: string) returns (ret: char, eq: nat)
    requires Holds(buf, s) && es == |s| && q <= es && (q < es ==> !IsSpace(s[q]))
    ensures q == es ==> ret == NUL && eq == q
    ensures q < es ==> ret != NUL && eq == First(s, q).1 && ret == Code(First(s, q).0)
    ensures ret == 'a' ==> q < es && SpanOk(s, Span(q, eq)) && First(s, q).0 == Word(s[q..eq])
  {
    assert q < es ==> buf[q] == s[q];
    ret := buf[q];
    match ret {
      case '\0' => eq := q;
      case '|' => eq := q + 1;
      case '(' => eq := q + 1;
      case ')' => eq := q + 1;
      case ';' => eq := q + 1;
      case '&' => eq := q + 1;
      case '<' => eq := q + 1;
      case '>' =>
        eq := q + 1;
        assert eq < es ==> buf[eq] == s[eq];
        if buf[eq] == '>' {
          ret := '+';
          eq := eq + 1;
        }
      case _ =>
        ret := 'a';
        eq := SkipWord(buf, es, q, s);
    }
  }

  /** Consume a token.  The code is 0 at the end of the text. */
  method GetToken(buf: array<char>, es: nat, start: nat, ghost s: string) returns (ret: char, q: nat, eq: nat, pos: nat)
    requires Holds(buf, s) && es == |s| && start <= es
    ensures start <= pos <= es
    ensures Lex(s, start) == [] <==> ret == NUL
    ensures Lex(s, start) == [] ==> Lex(s, pos) == []
    ensures Lex(s, start) != [] ==> start < pos && Lex(s, pos) == Lex(s, start)[1..] && ret == Code(Lex(s, start)[0])
    ensures ret == 'a' ==> SpanOk(s, Span(q, eq)) && Lex(s, start)[0] == Word(s[q..eq])
  {
    hide Lex, First, Holds, SpanOk;
    q := Skip(buf, es, start, s);
    LexSkip(s, start);
    ret, eq := ScanToken(buf, es, q, s);
    pos := Skip(buf, es, eq, s);
    LexSkip(s, eq);
    if q < es {
      LexFirst(s, q);
    } else {
      LexNone(s);
    }
  }

  /** Skip whitespace and look at the next character. */
  method Peek(buf: array<char>, es: nat, start: nat, toks: string, ghost s: string) returns (found: bool, pos: nat)
    requires Holds(buf, s) && es == |s| && start <= es && forall i: nat | i < |toks| :: IsSymbol(toks[i])
    ensures start <= pos <= es && Lex(s, pos) == Lex(s, start)
    ensures found <==> Starts(Lex(s, start), toks)
    ensures pos == es <==> Lex(s, start) == []
  {
    pos := Skip(buf, es, start, s);
    LexSkip(s, start);
    assert pos < es ==> buf[pos] == s[pos];
    found := buf[pos] != NUL && buf[pos] in toks;
    if pos < es {
      LexFirst(s, pos);
    }
  }

  /** cmd->argv[argc] = q and cmd->eargv[argc] = eq, through the pointer to the command that
      the redirections in ret are wrapped around. */
  function PutArg(ret: Cmd, p: Span): Cmd {
    match ret
    case ExecCmd(argv) => ExecCmd(argv + [p])
    case RedirCmd(d, f, out) => RedirCmd(PutArg(d, p), f, out)
    case _ => ret
  }

  lemma {:induction false} PutArgMeaning(s: string, ret: Cmd, p: Span)
    requires SpansOk(s, ret) && SpanOk(s, p)
    ensures Meaning(s, PutArg(ret, p)) == AddArg(Meaning(s, ret), s[p.q..p.eq]) && SpansOk(s, PutArg(ret, p))
  {
    match ret {
      case ExecCmd(argv) =>
        assert Meaning(s, PutArg(ret, p)).args == Meaning(s, ret).args + [s[p.q..p.eq]];
      case RedirCmd(d, _, _) =>
        PutArgMeaning(s, d, p);
      case _ =>
    }
  }

  predicate Bottom(ret: Cmd, argc: nat) {
    match ret
    case ExecCmd(argv) => |argv| == argc
    case RedirCmd(d, _, _) => Bottom(d, argc)
    case _ => false
  }

  lemma {:induction false} BottomArgc(s: string, ret: Cmd, argc: nat)
    requires Bottom(ret, argc)
    ensures Argc(Meaning(s, ret)) == argc && forall p :: Bottom(PutArg(ret, p), argc + 1)
  {
    if ret.RedirCmd? {
      BottomArgc(s, ret.c, argc);
    }
  }

  method ParseRedirs(buf: array<char>, es: nat, cmd: Cmd, start: nat, ghost s: string) returns (o: Outcome)
    requires Holds(buf, s) && es == |s| && start <= es && SpansOk(s, cmd)
    ensures Agrees(s, o, RedirsOf(Meaning(s, cmd), Lex(s, start)), start)
    ensures forall argc: nat :: o.Done? && Bottom(cmd, argc) ==> Bottom(o.c, argc)
  {
    hide Lex;
    var ret, pos := cmd, start;
    while true
      invariant start <= pos <= es && SpansOk(s, ret)
      invariant RedirsOf(Meaning(s, ret), Lex(s, pos)) == RedirsOf(Meaning(s, cmd), Lex(s, start))
      invariant forall argc: nat | Bottom(cmd, argc) :: Bottom(ret, argc)
      decreases es - pos
    {
      var found, p := Peek(buf, es, pos, "<>", s);
      ghost var ts := Lex(s, pos);
      if !found {
        return Done(ret, p);
      }
      var tok, _, _, p1 := GetToken(buf, es, p, s);
      var tok2, q, eq, p2 := GetToken(buf, es, p1, s);
      assert IsWord(ts[1..]) <==> tok2 == 'a' by { CodeWord(ts[1..]); }
      if tok2 != 'a' {
        return Panicked(MissingFile);
      }
      assert ts[1..][0] == ts[1] && ts[1..][1..] == ts[2..];
      assert ts[0] == Sym('<') <==> tok == '<';
      ret := RedirCmd(ret, Span(q, eq), tok != '<');
      pos := p2;
    }
  }

  lemma {:induction false} CodeWord(ts: seq<Tok>)
    requires ts != [] && ts[0].Sym? ==> ts[0].c != 'a'
    ensures IsWord(ts) <==> ts != [] && Code(ts[0]) == 'a'
  {
  }

  /** parseexec's loop over the words of a command. */
  method ParseArgs(buf: array<char>, es: nat, cmd: Cmd, start: nat, ghost s: string) returns (o: Outcome)
    requires Holds(buf, s) && es == |s| && start <= es && SpansOk(s, cmd) && Bottom(cmd, 0)
    ensures Agrees(s, o, ArgsOf(Meaning(s, cmd), Lex(s, start)), start)
  {
    hide Lex, RedirsOf, Meaning, SpansOk;
    var ret, pos, argc := cmd, start, 0;
    while true
      invariant start <= pos <= es && SpansOk(s, ret) && Bottom(ret, argc)
      invariant ArgsOf(Meaning(s, ret), Lex(s, pos)) == ArgsOf(Meaning(s, cmd), Lex(s, start))
      decreases es - pos
    {
      var found, p := Peek(buf, es, pos, "|)&;", s);
      ghost var ts := Lex(s, pos);
      if found {
        return Done(ret, p);
      }
      var tok, q, eq, p1 := GetToken(buf, es, p, s);
      if tok == NUL {
        return Done(ret, p1);
      }
      BottomArgc(s, ret, argc);
      assert IsWord(ts) <==> tok == 'a' by { CodeWord(ts); }
      if tok != 'a' {
        return Panicked(Syntax);
      }
      PutArgMeaning(s, ret, Span(q, eq));
      ret := PutArg(ret, Span(q, eq));
      argc := argc + 1;
      if argc >= MAXARGS {
        return Panicked(TooManyArgs);
      }
      o := ParseRedirs(buf, es, ret, p1, s);
      if o.Panicked? {
        return;
      }
      ret, pos := o.c, o.pos;
    }
  }

  method ParseExec(buf: array<char>, es: nat, start: nat, ghost s: string) returns (o: Outcome)
    requires Holds(buf, s) && es == |s| && start <= es
    ensures Agrees(s, o, ExecOf(Lex(s, start)), start)
    decreases es - start, 1
  {
    hide Lex, RedirsOf, ArgsOf, BlockOf;
    var found, pos := Peek(buf, es, start, "(", s);
    if found {
      o := ParseBlock(buf, es, pos, s);
      return;
    }
    var ret := ExecCmd([]);
    assert Meaning(s, ret) == TExec([]);
    o := ParseRedirs(buf, es, ret, pos, s);
    if o.Panicked? {
      return;
    }
    ghost var mid := o.pos;
    assert Bottom(ret, 0);
    o := ParseArgs(buf, es, o.c, o.pos, s);
  }

  method ParseBlock(buf: array<char>, es: nat, start: nat, ghost s: string) returns (o: Outcome)
    requires Holds(buf, s) && es == |s| && start <= es && Starts(Lex(s, start), "(")
    ensures Agrees(s, o, BlockOf(Lex(s, start)), start)
    decreases es - start, 0
  {
    hide Lex, RedirsOf, LineOf;
    var _, _, _, pos := GetToken(buf, es, start, s);
    o := ParseLine(buf, es, pos, s);
    if o.Panicked? {
      return;
    }
    var found, p := Peek(buf, es, o.pos, ")", s);
    if !found {
      return Panicked(MissingParen);
    }
    var _, _, _, p1 := GetToken(buf, es, p, s);
    o := ParseRedirs(buf, es, o.c, p1, s);
  }

  method ParsePipe(buf: array<char>, es: nat, start: nat, ghost s: string) returns (o: Outcome)
    requires Holds(buf, s) && es == |s| && start <= es
    ensures Agrees(s, o, PipeOf(Lex(s, start)), start)
    decreases es - start, 2
  {
    hide Lex, ExecOf;
    o := ParseExec(buf, es, start, s);
    if o.Panicked? {
      return;
    }
    var left := o.c;
    var found, p := Peek(buf, es, o.pos, "|", s);
    if !found {
      return Done(left, p);
    }
    var _, _, _, p1 := GetToken(buf, es, p, s);
    o := ParsePipe(buf, es, p1, s);
    if o.Done? {
      o := Done(PipeCmd(left, o.c), o.pos);
    }
  }

  /** parseline's loop over "&". */
  method ParseBacks(buf: array<char>, es: nat, cmd: Cmd, start: nat, ghost s: string) returns (c: Cmd, pos: nat)
    requires Holds(buf, s) && es == |s| && start <= es && SpansOk(s, cmd)
    ensures Agrees(s, Done(c, pos), BacksOf(Meaning(s, cmd), Lex(s, start)), start)
  {
    hide Lex;
    c, pos := cmd, start;
    while true
      invariant start <= pos <= es && SpansOk(s, c)
      invariant BacksOf(Meaning(s, c), Lex(s, pos)) == BacksOf(Meaning(s, cmd), Lex(s, start))
      decreases es - pos
    {
      var found, p := Peek(buf, es, pos, "&", s);
      if !found {
        pos := p;
        break;
      }
      var _, _, _, p1 := GetToken(buf, es, p, s);
      c, pos := BackCmd(c), p1;
    }
  }

  method ParseLine(buf: array<char>, es: nat, start: nat, ghost s: string) returns (o: Outcome)
    requires Holds(buf, s) && es == |s| && start <= es
    ensures Agrees(s, o, LineOf(Lex(s, start)), start)
    decreases es - start, 3
  {
    hide Lex, PipeOf, BacksOf;
    o := ParsePipe(buf, es, start, s);
    if o.Panicked? {
      return;
    }
    var left, pos := ParseBacks(buf, es, o.c, o.pos, s);
    var found, p := Peek(buf, es, pos, ";", s);
    if !found {
      return Done(left, p);
    }
    var _, _, _, p1 := GetToken(buf, es, p, s);
    o := ParseLine(buf, es, p1, s);
    if o.Done? {
      o := Done(ListCmd(left, o.c), o.pos);
    }
  }

  // ---- nulterminate ----

  /** Where the words of c end. */
  function EndsOf(c: Cmd): set<nat> {
    match c
    case ExecCmd(argv) => set i: nat | i < |argv| :: argv[i].eq
    case RedirCmd(d, f, _) => EndsOf(d) + {f.eq}
    case PipeCmd(l, r) => EndsOf(l) + EndsOf(r)
    case ListCmd(l, r) => EndsOf(l) + EndsOf(r)
    case BackCmd(d) => EndsOf(d)
  }

  /** Write a NUL at the end of every word. */
  method NulTerminate(buf: array<char>, c: Cmd)
    requires forall e | e in EndsOf(c) :: e < buf.Length
    modifies buf
    ensures forall i: nat | i < buf.Length :: buf[i] == if i in EndsOf(c) then NUL else old(buf[i])
    decreases c
  {
    match c {
      case ExecCmd(argv) =>
        for k := 0 to |argv|
          invariant forall i: nat | i < buf.Length ::
            buf[i] == if exists j: nat :: j < k && argv[j].eq == i then NUL else old(buf[i])
        {
          assert argv[k].eq in EndsOf(c);
          buf[argv[k].eq] := NUL;
        }
      case RedirCmd(d, f, _) =>
        assert EndsOf(d) <= EndsOf(c);
        NulTerminate(buf, d);
        buf[f.eq] := NUL;
      case PipeCmd(l, r) =>
        assert EndsOf(l) <= EndsOf(c) && EndsOf(r) <= EndsOf(c);
        NulTerminate(buf, l);
        NulTerminate(buf, r);
      case ListCmd(l, r) =>
        assert EndsOf(l) <= EndsOf(c) && EndsOf(r) <= EndsOf(c);
        NulTerminate(buf, l);
        NulTerminate(buf, r);
      case BackCmd(d) =>
        assert EndsOf(d) <= EndsOf(c);
        NulTerminate(buf, d);
    }
  }

  /** The C string at q. */
  function CString(b: string, q: nat): string
    decreases |b| - q
  {
    if q < |b| && b[q] != NUL then [b[q]] + CString(b, q + 1) else ""
  }

  /** The command as the rest of the shell reads it: C strings at argv[i] and file. */
  function Reading(b: string, c: Cmd): Tree {
    match c
    case ExecCmd(argv) => TExec(seq(|argv|, i requires 0 <= i < |argv| => CString(b, argv[i].q)))
    case RedirCmd(d, f, out) => TRedir(Reading(b, d), CString(b, f.q), out)
    case PipeCmd(l, r) => TPipe(Reading(b, l), Reading(b, r))
    case ListCmd(l, r) => TList(Reading(b, l), Reading(b, r))
    case BackCmd(d) => TBack(Reading(b, d))
  }

  /** b is the text s with NULs at the places in ends, and after its end. */
  ghost predicate Ended(b: string, s: string, ends: set<nat>) {
    && |s| < |b| && b[|s|] == NUL && NoNul(s)
    && (forall i: nat | i < |s| :: b[i] == if i in ends then NUL else s[i])
    && (forall i: nat | i in ends && i < |s| :: !IsWordChar(s[i]))
  }

  lemma {:induction false} CStringIs(b: string, s: string, ends: set<nat>, q: nat, eq: nat)
    requires Ended(b, s, ends) && q <= eq <= |s| && eq in ends
    requires forall i | q <= i < eq :: IsWordChar(s[i])
    ensures CString(b, q) == s[q..eq]
    decreases eq - q
  {
    if q < eq {
      assert b[q] == s[q] && s[q] != NUL;
      CStringIs(b, s, ends, q + 1, eq);
      assert s[q..eq] == [s[q]] + s[q + 1..eq];
    } else {
      assert b[q] == NUL;
    }
  }

  /** A NUL at the end of one word is inside no other, so every word reads back as its token. */
  lemma {:induction false} ReadsBack(b: string, s: string, ends: set<nat>, c: Cmd)
    requires Ended(b, s, ends) && SpansOk(s, c) && EndsOf(c) <= ends
    ensures Reading(b, c) == Meaning(s, c)
    decreases c
  {
    match c {
      case ExecCmd(argv) =>
        forall i: nat | i < |argv| ensures CString(b, argv[i].q) == Slice(s, argv[i]) {
          assert SpanOk(s, argv[i]) && argv[i].eq in EndsOf(c);
          CStringIs(b, s, ends, argv[i].q, argv[i].eq);
        }
      case RedirCmd(d, f, _) =>
        assert f.eq in EndsOf(c);
        CStringIs(b, s, ends, f.q, f.eq);
        ReadsBack(b, s, ends, d);
      case PipeCmd(l, r) =>
        ReadsBack(b, s, ends, l);
        ReadsBack(b, s, ends, r);
      case ListCmd(l, r) =>
        ReadsBack(b, s, ends, l);
        ReadsBack(b, s, ends, r);
      case BackCmd(d) =>
        ReadsBack(b, s, ends, d);
    }
  }

  lemma {:induction false} EndsOutside(s: string, c: Cmd)
    requires SpansOk(s, c)
    ensures forall e | e in EndsOf(c) :: e <= |s| && (e < |s| ==> !IsWordChar(s[e]))
    decreases c
  {
    match c {
      case ExecCmd(argv) =>
        assert forall i: nat | i < |argv| :: SpanOk(s, argv[i]);
      case RedirCmd(d, _, _) =>
        EndsOutside(s, d);
      case PipeCmd(l, r) =>
        EndsOutside(s, l);
        EndsOutside(s, r);
      case ListCmd(l, r) =>
        EndsOutside(s, l);
        EndsOutside(s, r);
      case BackCmd(d) =>
        EndsOutside(s, d);
    }
  }

  /** Parse the C string in buf and cut its words apart in place. */
  method ParseCmd(buf: array<char>, ghost s: string) returns (o: Outcome)
    requires Holds(buf, s)
    modifies buf
    ensures o.Panicked? <==> CommandOf(Lex(s, 0)).Panic?
    ensures o.Panicked? ==> CommandOf(Lex(s, 0)) == Panic(o.why) && buf[..] == old(buf[..])
    ensures o.Done? ==> CommandOf(Lex(s, 0)) == Ok(Reading(buf[..], o.c), [])
    ensures o.Done? ==> forall i: nat | i < |s| && IsWordChar(s[i]) :: buf[i] == s[i]
    ensures forall t | PlainTree(t) && Lex(s, 0) == Tokens(t) :: o.Done? && Reading(buf[..], o.c) == t
  {
    var es := StrLen(buf, s);
    hide Lex, LineOf;
    assert forall t | PlainTree(t) && Lex(s, 0) == Tokens(t) :: CommandOf(Lex(s, 0)) == Ok(t, []) by {
      forall t | PlainTree(t) && Lex(s, 0) == Tokens(t) ensures CommandOf(Lex(s, 0)) == Ok(t, []) {
        TokensBack(t);
      }
    }
    o := ParseLine(buf, es, 0, s);
    if o.Panicked? {
      return;
    }
    var _, pos := Peek(buf, es, o.pos, "", s);
    if pos != es {
      return Panicked(Leftovers);
    }
    EndsOutside(s, o.c);
    NulTerminate(buf, o.c);
    assert Ended(buf[..], s, EndsOf(o.c));
    ReadsBack(buf[..], s, EndsOf(o.c), o.c);
  }
}
