/** The grammar of the shell's commands, and that the parser of user/sh.c accepts exactly its
    sentences, however they are spaced, and gives each its meaning. */
module ShellGrammar {
  import opened ShellSyntax

  // What a command means.

  datatype Redirect = Redirect(mode: Mode, name: string)

  /** A command with its words spelled out. */
  datatype Tree =
    | Words(words: seq<string>)
    | Redirected(tree: Tree, name: string, mode: Mode)
    | Piped(left: Tree, right: Tree)
    | Then(left: Tree, right: Tree)
    | Background(tree: Tree)

  /** The redirections around a command, the first one innermost. */
  function WrapTree(t: Tree, rs: seq<Redirect>): Tree {
    if rs == [] then t else Redirected(WrapTree(t, rs[..|rs| - 1]), rs[|rs| - 1].name, rs[|rs| - 1].mode)
  }

  // The sentences: words and redirections in any order, groups, pipelines, lines.

  datatype Item = Arg(word: string) | To(r: Redirect)

  datatype Command = Simple(items: seq<Item>) | Group(line: Line, rs: seq<Redirect>)

  datatype Pipeline = One(cmd: Command) | Bar(cmd: Command, rest: Pipeline)

  datatype Line = Last(pipe: Pipeline, amps: nat) | Semi(pipe: Pipeline, amps: nat, rest: Line)

  function ArgsOf(items: seq<Item>): seq<string> {
    if items == [] then [] else (if items[0].Arg? then [items[0].word] else []) + ArgsOf(items[1..])
  }

  function RedirsOf(items: seq<Item>): seq<Redirect> {
    if items == [] then [] else (if items[0].To? then [items[0].r] else []) + RedirsOf(items[1..])
  }

  function Ampersands(t: Tree, n: nat): Tree
    decreases n
  {
    if n == 0 then t else Ampersands(Background(t), n - 1)
  }

  function CommandTree(c: Command): Tree {
    match c
    case Simple(items) => WrapTree(Words(ArgsOf(items)), RedirsOf(items))
    case Group(line, rs) => WrapTree(LineTree(line), rs)
  }

  function PipeTree(p: Pipeline): Tree {
    match p
    case One(c) => CommandTree(c)
    case Bar(c, rest) => Piped(CommandTree(c), PipeTree(rest))
  }

  function LineTree(l: Line): Tree {
    match l
    case Last(p, n) => Ampersands(PipeTree(p), n)
    case Semi(p, n, rest) => Then(Ampersands(PipeTree(p), n), LineTree(rest))
  }

  /** No command has MAXARGS words. */
  predicate CommandFits(c: Command) {
    match c
    case Simple(items) => |ArgsOf(items)| < MAXARGS
    case Group(line, _) => LineFits(line)
  }

  predicate PipeFits(p: Pipeline) {
    match p
    case One(c) => CommandFits(c)
    case Bar(c, rest) => CommandFits(c) && PipeFits(rest)
  }

  predicate LineFits(l: Line) {
    match l
    case Last(p, _) => PipeFits(p)
    case Semi(p, _, rest) => PipeFits(p) && LineFits(rest)
  }

  // Their spelling as tokens.

  datatype Lexeme = Mark(c: char) | Twice | Name(w: string)

  function Operator(mode: Mode): Lexeme {
    match mode case Input => Mark('<') case Output => Mark('>') case Appending => Twice
  }

  function SpellRedirs(rs: seq<Redirect>): seq<Lexeme> {
    if rs == [] then [] else [Operator(rs[0].mode), Name(rs[0].name)] + SpellRedirs(rs[1..])
  }

  function SpellItems(items: seq<Item>): seq<Lexeme> {
    if items == [] then []
    else if items[0].Arg? then [Name(items[0].word)] + SpellItems(items[1..])
    else [Operator(items[0].r.mode), Name(items[0].r.name)] + SpellItems(items[1..])
  }

  function SpellAmps(n: nat): seq<Lexeme> { if n == 0 then [] else [Mark('&')] + SpellAmps(n - 1) }

  function SpellCommand(c: Command): seq<Lexeme> {
    match c
    case Simple(items) => SpellItems(items)
    case Group(line, rs) => [Mark('(')] + SpellLine(line) + [Mark(')')] + SpellRedirs(rs)
  }

  function SpellPipe(p: Pipeline): seq<Lexeme> {
    match p
    case One(c) => SpellCommand(c)
    case Bar(c, rest) => SpellCommand(c) + [Mark('|')] + SpellPipe(rest)
  }

  function SpellLine(l: Line): seq<Lexeme> {
    match l
    case Last(p, n) => SpellPipe(p) + SpellAmps(n)
    case Semi(p, n, rest) => SpellPipe(p) + SpellAmps(n) + [Mark(';')] + SpellLine(rest)
  }

  /** Token t of line s is lexeme x. */
  predicate Is(s: string, t: Token, x: Lexeme)
    requires t.q <= t.eq <= |s|
  {
    match x
    case Mark(c) => t.kind == Symbol(c)
    case Twice => t.kind == Append
    case Name(w) => t.kind == Word && s[t.q..t.eq] == w
  }

  /** From i the line holds the tokens xs, with any spaces between them, and j is next. */
  predicate Lexes(s: string, i: nat, xs: seq<Lexeme>, j: nat)
    decreases |xs|
  {
    i <= |s| && if xs == [] then j == Skip(s, i)
                else Is(s, TokenAt(s, i), xs[0]) && Lexes(s, TokenAt(s, i).next, xs[1..], j)
  }

  lemma SkipTwice(s: string, i: nat)
    requires i <= |s|
    ensures Skip(s, Skip(s, i)) == Skip(s, i) && TokenAt(s, Skip(s, i)) == TokenAt(s, i)
    ensures Skip(s, TokenAt(s, i).next) == TokenAt(s, i).next
  {
  }

  lemma {:induction false} LexSplit(s: string, i: nat, xs: seq<Lexeme>, ys: seq<Lexeme>, j: nat) returns (k: nat)
    requires Lexes(s, i, xs + ys, j)
    ensures Lexes(s, i, xs, k) && Lexes(s, k, ys, j) && i <= k <= |s| && Skip(s, k) == k
    decreases |xs|
  {
    hide TokenAt, Skip;
    SkipTwice(s, i);
    if xs == [] {
      k := Skip(s, i);
      assert xs + ys == ys;
      if ys != [] { assert Lexes(s, TokenAt(s, i).next, ys[1..], j); }
    } else {
      assert (xs + ys)[1..] == xs[1..] + ys;
      k := LexSplit(s, TokenAt(s, i).next, xs[1..], ys, j);
    }
  }

  lemma {:induction false} LexJoin(s: string, i: nat, xs: seq<Lexeme>, k: nat, ys: seq<Lexeme>, j: nat)
    requires Lexes(s, i, xs, k) && Lexes(s, k, ys, j)
    ensures Lexes(s, i, xs + ys, j)
    decreases |xs|
  {
    hide TokenAt, Skip;
    if xs == [] {
      SkipTwice(s, i);
      assert xs + ys == ys;
    } else {
      assert (xs + ys)[1..] == xs[1..] + ys;
      LexJoin(s, TokenAt(s, i).next, xs[1..], k, ys, j);
    }
  }

  // Reading a parsed command.

  predicate InLine(s: string, p: Span) { p.q <= p.eq <= |s| }

  function Slice(s: string, p: Span): string { if InLine(s, p) then s[p.q..p.eq] else "" }

  function Texts(s: string, argv: seq<Span>): seq<string> {
    seq(|argv|, i requires 0 <= i < |argv| => Slice(s, argv[i]))
  }

  function Files(s: string, rs: seq<Redirection>): seq<Redirect> {
    seq(|rs|, i requires 0 <= i < |rs| => Redirect(rs[i].mode, Slice(s, rs[i].file)))
  }

  /** The tree that a parsed command stands for. */
  function Read(s: string, cmd: Cmd): Tree {
    match cmd
    case Exec(argv) => Words(Texts(s, argv))
    case Redir(c, file, mode) => Redirected(Read(s, c), Slice(s, file), mode)
    case Pipe(l, r) => Piped(Read(s, l), Read(s, r))
    case List(l, r) => Then(Read(s, l), Read(s, r))
    case Back(c) => Background(Read(s, c))
  }

  lemma {:induction false} ReadWrap(s: string, cmd: Cmd, rs: seq<Redirection>)
    ensures Read(s, Wrap(cmd, rs)) == WrapTree(Read(s, cmd), Files(s, rs))
  {
    if rs != [] {
      ReadWrap(s, cmd, rs[..|rs| - 1]);
      assert Files(s, rs)[..|rs| - 1] == Files(s, rs[..|rs| - 1]);
    }
  }

  /** A parse that ends at j with the meaning t. */
  ghost predicate Gives(s: string, r: Result<Cmd>, t: Tree, j: nat) { r.Ok? && r.next == j && Read(s, r.value) == t }

  /** What comes at i is the end of the line or one of cs. */
  predicate Follows(s: string, i: nat, cs: string)
    requires i <= |s|
  {
    Skip(s, i) == |s| || s[Skip(s, i)] in cs
  }

  /** What peek sees is what gettoken gets. */
  lemma Looks(s: string, i: nat)
    requires i <= |s|
    ensures var t := TokenAt(s, i);
            && (t.kind == End <==> Skip(s, i) == |s|)
            && (forall c :: IsSymbol(c) && c != '>' ==> (t.kind == Symbol(c) <==> Peeks(s, i, [c])))
            && (Peeks(s, i, "<>") <==> t.kind == Symbol('<') || t.kind == Symbol('>') || t.kind == Append)
            && (Peeks(s, i, "|)&;") <==> t.kind in {Symbol('|'), Symbol(')'), Symbol('&'), Symbol(';')})
            && (t.kind.Symbol? ==> IsSymbol(t.kind.c))
  {
  }

  // Simple commands.

  /** parseexec from where a redirection or a word may come. */
  function Rest(s: string, i: nat, argv: seq<Span>, rs: seq<Redirection>): Result<Cmd>
    requires i <= |s|
  {
    var r := Redirs(s, i, rs);
    if r.Panic? then Panic else Args(s, r.next, argv, r.value)
  }

  lemma RestStops(s: string, i: nat, argv: seq<Span>, rs: seq<Redirection>)
    requires i <= |s| && Follows(s, i, "|)&;")
    ensures Rest(s, i, argv, rs) == Ok(Wrap(Exec(argv), rs), Skip(s, i))
  {
    hide Wrap;
    SkipTwice(s, i);
  }

  lemma RestRedirects(s: string, i: nat, argv: seq<Span>, rs: seq<Redirection>)
    requires i <= |s| && Peeks(s, i, "<>")
    ensures var op := TokenAt(s, i); var file := TokenAt(s, op.next);
            var r := Redirection(Span(file.q, file.eq), ModeOf(op.kind));
            if file.kind != Word then Rest(s, i, argv, rs).Panic?
            else Rest(s, i, argv, rs) == Rest(s, file.next, argv, rs + [r])
  {
    hide TokenAt, Args;
    SkipTwice(s, i);
  }

  lemma RestTakesWord(s: string, i: nat, argv: seq<Span>, rs: seq<Redirection>)
    requires i <= |s| && TokenAt(s, i).kind == Word
    ensures var t := TokenAt(s, i);
            if |argv| + 1 >= MAXARGS then Rest(s, i, argv, rs).Panic?
            else Rest(s, i, argv, rs) == Rest(s, t.next, argv + [Span(t.q, t.eq)], rs)
  {
    Looks(s, i);
    SkipTwice(s, i);
    hide TokenAt;
    assert Redirs(s, i, rs) == Ok(rs, Skip(s, i));
    assert !Peeks(s, Skip(s, i), "|)&;") && TokenAt(s, Skip(s, Skip(s, i))) == TokenAt(s, i);
  }

  lemma RestFails(s: string, i: nat, argv: seq<Span>, rs: seq<Redirection>)
    requires i <= |s| && TokenAt(s, i).kind == Symbol('(')
    ensures Rest(s, i, argv, rs).Panic?
  {
    Looks(s, i);
    SkipTwice(s, i);
    hide TokenAt;
  }

  lemma OperatorMode(s: string, t: Token, mode: Mode)
    requires t.q <= t.eq <= |s|
    ensures Is(s, t, Operator(mode)) ==> ModeOf(t.kind) == mode && t.kind in {Symbol('<'), Symbol('>'), Append}
    ensures t.kind in {Symbol('<'), Symbol('>'), Append} ==> Is(s, t, Operator(ModeOf(t.kind)))
  {
  }

  lemma TextsMore(s: string, argv: seq<Span>, p: Span)
    ensures Texts(s, argv + [p]) == Texts(s, argv) + [Slice(s, p)]
  {
  }

  lemma FilesMore(s: string, rs: seq<Redirection>, r: Redirection)
    ensures Files(s, rs + [r]) == Files(s, rs) + [Redirect(r.mode, Slice(s, r.file))]
  {
  }

  /** The first two tokens. */
  lemma LexTwo(s: string, i: nat, x: Lexeme, y: Lexeme, xs: seq<Lexeme>, j: nat)
    ensures Lexes(s, i, [x, y] + xs, j) <==>
            i <= |s| && var t := TokenAt(s, i); var u := TokenAt(s, t.next);
                        Is(s, t, x) && Is(s, u, y) && Lexes(s, u.next, xs, j)
  {
    hide TokenAt, Is;
    assert ([x, y] + xs)[1..] == [y] + xs && ([y] + xs)[1..] == xs;
  }

  lemma LexOne(s: string, i: nat, x: Lexeme, xs: seq<Lexeme>, j: nat)
    ensures Lexes(s, i, [x] + xs, j) <==> i <= |s| && var t := TokenAt(s, i); Is(s, t, x) && Lexes(s, t.next, xs, j)
  {
    hide TokenAt, Is;
    assert ([x] + xs)[1..] == xs;
  }

  lemma NoItems(ws: seq<string>, rs: seq<Redirect>)
    ensures ws + ArgsOf([]) == ws && rs + RedirsOf([]) == rs
  {
  }

  lemma FirstRedirect(items: seq<Item>, rs: seq<Redirect>)
    requires items != [] && items[0].To?
    ensures ArgsOf(items) == ArgsOf(items[1..]) && rs + [items[0].r] + RedirsOf(items[1..]) == rs + RedirsOf(items)
  {
    assert RedirsOf(items) == [items[0].r] + RedirsOf(items[1..]);
  }

  lemma FirstArg(items: seq<Item>, ws: seq<string>)
    requires items != [] && items[0].Arg?
    ensures RedirsOf(items) == RedirsOf(items[1..]) && ws + [items[0].word] + ArgsOf(items[1..]) == ws + ArgsOf(items)
    ensures |ArgsOf(items)| == 1 + |ArgsOf(items[1..])|
  {
    assert ArgsOf(items) == [items[0].word] + ArgsOf(items[1..]);
  }

  /** Words and redirections in any order: parsed if the words are few enough, and only then. */
  lemma {:induction false} ItemsParse(s: string, i: nat, items: seq<Item>, j: nat, argv: seq<Span>,
                                      rs: seq<Redirection>)
    requires Lexes(s, i, SpellItems(items), j) && j <= |s| && Follows(s, j, "|)&;") && |argv| < MAXARGS
    ensures if |argv| + |ArgsOf(items)| < MAXARGS
            then
              var t := WrapTree(Words(Texts(s, argv) + ArgsOf(items)), Files(s, rs) + RedirsOf(items));
              Gives(s, Rest(s, i, argv, rs), t, j)
            else Rest(s, i, argv, rs).Panic?
    decreases |items|
  {
    hide TokenAt, Lexes, Rest, Peeks, Follows, Skip, WrapTree, Wrap, Files, Texts, ArgsOf, RedirsOf;
    if items == [] {
      LexNone(s, i, j);
      RestStops(s, i, argv, rs);
      ReadWrap(s, Exec(argv), rs);
      NoItems(Texts(s, argv), Files(s, rs));
    } else if items[0].To? {
      var r := items[0].r;
      LexTwo(s, i, Operator(r.mode), Name(r.name), SpellItems(items[1..]), j);
      var op := TokenAt(s, i);
      var file := TokenAt(s, op.next);
      OperatorMode(s, op, r.mode);
      Looks(s, i);
      RestRedirects(s, i, argv, rs);
      var x := Redirection(Span(file.q, file.eq), ModeOf(op.kind));
      ItemsParse(s, file.next, items[1..], j, argv, rs + [x]);
      FilesMore(s, rs, x);
      FirstRedirect(items, Files(s, rs));
    } else {
      LexOne(s, i, Name(items[0].word), SpellItems(items[1..]), j);
      var t := TokenAt(s, i);
      RestTakesWord(s, i, argv, rs);
      if |argv| + 1 < MAXARGS {
        ItemsParse(s, t.next, items[1..], j, argv + [Span(t.q, t.eq)], rs);
        TextsMore(s, argv, Span(t.q, t.eq));
      }
      FirstArg(items, Texts(s, argv));
    }
  }

  lemma LexNone(s: string, i: nat, j: nat)
    requires Lexes(s, i, [], j)
    ensures i <= |s| && j == Skip(s, i) && Skip(s, j) == j && TokenAt(s, j) == TokenAt(s, i)
    ensures forall cs :: Follows(s, j, cs) <==> Follows(s, i, cs)
    ensures forall cs :: Peeks(s, j, cs) <==> Peeks(s, i, cs)
  {
    SkipTwice(s, i);
  }

  /** And whatever parseexec accepts without a parenthesis is such a command. */
  lemma {:induction false} ItemsFound(s: string, i: nat, argv: seq<Span>, rs: seq<Redirection>)
    returns (items: seq<Item>)
    requires i <= |s| && Rest(s, i, argv, rs).Ok? && |argv| < MAXARGS
    ensures var j := Rest(s, i, argv, rs).next;
            && j <= |s| && Skip(s, j) == j && Lexes(s, i, SpellItems(items), j) && Follows(s, j, "|)&;")
            && |argv| + |ArgsOf(items)| < MAXARGS
    decreases |s| - i
  {
    hide TokenAt, Lexes, Rest, Peeks, Follows, Skip, Wrap;
    var t := TokenAt(s, i);
    Looks(s, i);
    if t.kind == Word {
      RestTakesWord(s, i, argv, rs);
      var rest := ItemsFound(s, t.next, argv + [Span(t.q, t.eq)], rs);
      items := [Arg(s[t.q..t.eq])] + rest;
      assert items[1..] == rest;
      LexOne(s, i, Name(s[t.q..t.eq]), SpellItems(rest), Rest(s, i, argv, rs).next);
    } else if Peeks(s, i, "<>") {
      RestRedirects(s, i, argv, rs);
      var u := TokenAt(s, t.next);
      var rest := ItemsFound(s, u.next, argv, rs + [Redirection(Span(u.q, u.eq), ModeOf(t.kind))]);
      var r := Redirect(ModeOf(t.kind), s[u.q..u.eq]);
      items := [To(r)] + rest;
      assert items[1..] == rest;
      OperatorMode(s, t, r.mode);
      LexTwo(s, i, Operator(r.mode), Name(r.name), SpellItems(rest), Rest(s, i, argv, rs).next);
    } else {
      if t.kind == Symbol('(') { RestFails(s, i, argv, rs); }
      FollowsKinds(s, i);
      RestStops(s, i, argv, rs);
      items := [];
      LexStop(s, i);
    }
  }

  lemma LexStop(s: string, i: nat)
    requires i <= |s|
    ensures Lexes(s, i, [], Skip(s, i)) && Skip(s, Skip(s, i)) == Skip(s, i)
    ensures forall cs :: Follows(s, Skip(s, i), cs) <==> Follows(s, i, cs)
  {
    SkipTwice(s, i);
  }

  lemma FollowsKinds(s: string, i: nat)
    requires i <= |s|
    ensures Follows(s, i, "|)&;") <==> TokenAt(s, i).kind == End || Peeks(s, i, "|)&;")
    ensures TokenAt(s, i).kind == Word || Peeks(s, i, "<>") || TokenAt(s, i).kind == Symbol('(')
            || Follows(s, i, "|)&;")
  {
    Looks(s, i);
  }

  // The redirections after a group.

  lemma RedirsTakes(s: string, i: nat, rs: seq<Redirection>)
    requires i <= |s|
    ensures !Peeks(s, i, "<>") ==> Redirs(s, i, rs) == Ok(rs, Skip(s, i))
    ensures Peeks(s, i, "<>") ==>
              var op := TokenAt(s, i); var file := TokenAt(s, op.next);
              if file.kind != Word then Redirs(s, i, rs).Panic?
              else Redirs(s, i, rs) == Redirs(s, file.next, rs + [Redirection(Span(file.q, file.eq), ModeOf(op.kind))])
  {
    hide TokenAt, Peeks;
    SkipTwice(s, i);
  }

  lemma {:induction false} RedirsParse(s: string, i: nat, todo: seq<Redirect>, j: nat, rs: seq<Redirection>)
    requires i <= |s| && Lexes(s, i, SpellRedirs(todo), j) && j <= |s| && !Peeks(s, j, "<>")
    ensures var r := Redirs(s, i, rs); r.Ok? && r.next == j && Files(s, r.value) == Files(s, rs) + todo
    decreases |todo|
  {
    hide TokenAt, Lexes, Peeks, Skip, Files, Redirs;
    RedirsTakes(s, i, rs);
    if todo == [] {
      LexNone(s, i, j);
      assert Files(s, rs) + [] == Files(s, rs);
    } else {
      LexTwo(s, i, Operator(todo[0].mode), Name(todo[0].name), SpellRedirs(todo[1..]), j);
      var op := TokenAt(s, i);
      var file := TokenAt(s, op.next);
      OperatorMode(s, op, todo[0].mode);
      Looks(s, i);
      var x := Redirection(Span(file.q, file.eq), ModeOf(op.kind));
      RedirsParse(s, file.next, todo[1..], j, rs + [x]);
      FilesMore(s, rs, x);
      assert Files(s, rs) + [todo[0]] + todo[1..] == Files(s, rs) + todo;
    }
  }

  lemma {:induction false} RedirsFound(s: string, i: nat, rs: seq<Redirection>) returns (todo: seq<Redirect>)
    requires i <= |s| && Redirs(s, i, rs).Ok?
    ensures var r := Redirs(s, i, rs);
            && Lexes(s, i, SpellRedirs(todo), r.next) && Skip(s, r.next) == r.next
            && Files(s, r.value) == Files(s, rs) + todo
    decreases |s| - i
  {
    hide TokenAt, Lexes, Peeks, Skip, Files, Redirs;
    RedirsTakes(s, i, rs);
    if !Peeks(s, i, "<>") {
      todo := [];
      LexStop(s, i);
      assert Files(s, rs) + [] == Files(s, rs);
    } else {
      var op := TokenAt(s, i);
      var file := TokenAt(s, op.next);
      var x, r := Redirection(Span(file.q, file.eq), ModeOf(op.kind)), Redirect(ModeOf(op.kind), s[file.q..file.eq]);
      var rest := RedirsFound(s, file.next, rs + [x]);
      todo := [r] + rest;
      assert todo[1..] == rest;
      Looks(s, i);
      OperatorMode(s, op, r.mode);
      LexTwo(s, i, Operator(r.mode), Name(r.name), SpellRedirs(rest), Redirs(s, i, rs).next);
      FilesMore(s, rs, x);
      assert Files(s, rs) + [r] + rest == Files(s, rs) + todo;
    }
  }

  // The ampersands after a pipeline.

  lemma BacksTakes(s: string, i: nat, cmd: Cmd)
    requires i <= |s|
    ensures Backs(s, i, cmd) == if Peeks(s, i, "&") then Backs(s, TokenAt(s, i).next, Back(cmd))
              else Ok(cmd, Skip(s, i))
  {
    hide TokenAt, Peeks;
    SkipTwice(s, i);
  }

  lemma {:induction false} AmpsParse(s: string, i: nat, n: nat, j: nat, cmd: Cmd)
    requires i <= |s| && Lexes(s, i, SpellAmps(n), j) && j <= |s| && !Peeks(s, j, "&")
    ensures Gives(s, Backs(s, i, cmd), Ampersands(Read(s, cmd), n), j)
    decreases n
  {
    hide TokenAt, Lexes, Peeks, Skip, Backs;
    BacksTakes(s, i, cmd);
    if n == 0 {
      LexNone(s, i, j);
    } else {
      LexOne(s, i, Mark('&'), SpellAmps(n - 1), j);
      Looks(s, i);
      AmpsParse(s, TokenAt(s, i).next, n - 1, j, Back(cmd));
    }
  }

  lemma {:induction false} AmpsFound(s: string, i: nat, cmd: Cmd) returns (n: nat)
    requires i <= |s|
    ensures var j := Backs(s, i, cmd).next; Skip(s, j) == j && Lexes(s, i, SpellAmps(n), j) && !Peeks(s, j, "&")
    decreases |s| - i
  {
    hide TokenAt, Lexes, Peeks, Skip, Backs;
    BacksTakes(s, i, cmd);
    if Peeks(s, i, "&") {
      Looks(s, i);
      n := AmpsFound(s, TokenAt(s, i).next, Back(cmd));
      n := n + 1;
      LexOne(s, i, Mark('&'), SpellAmps(n - 1), Backs(s, i, cmd).next);
    } else {
      n := 0;
      LexStop(s, i);
      LexNone(s, i, Skip(s, i));
    }
  }

  // The three levels of the grammar.

  ghost predicate Parsed(s: string, r: Result<Cmd>, fits: bool, t: Tree, j: nat) {
    if fits then Gives(s, r, t, j) else r.Panic?
  }

  lemma NoParenthesis(s: string, i: nat, items: seq<Item>, j: nat)
    requires i <= |s| && Lexes(s, i, SpellItems(items), j) && j <= |s| && Follows(s, j, "|)&;")
    ensures !Peeks(s, i, "(") && ParseExec(s, i) == Rest(s, i, [], [])
  {
    hide TokenAt, Lexes, Redirs, Args;
    Looks(s, i);
    if items == [] {
      LexNone(s, i, j);
    } else if items[0].To? {
      LexTwo(s, i, Operator(items[0].r.mode), Name(items[0].r.name), SpellItems(items[1..]), j);
    } else {
      LexOne(s, i, Name(items[0].word), SpellItems(items[1..]), j);
    }
  }

  /** A group: the line inside it, the closing parenthesis and the redirections. */
  lemma GroupIs(s: string, i: nat)
    requires i <= |s| && TokenAt(s, i).kind == Symbol('(')
    ensures var line := ParseLine(s, TokenAt(s, i).next);
            if line.Panic? || TokenAt(s, line.next).kind != Symbol(')') then ParseExec(s, i).Panic?
            else
              var rs := Redirs(s, TokenAt(s, line.next).next, []);
              ParseExec(s, i) == if rs.Panic? then Panic else Ok(Wrap(line.value, rs.value), rs.next)
  {
    Looks(s, i);
    SkipTwice(s, i);
    var line := ParseLine(s, TokenAt(s, i).next);
    if line.Ok? {
      Looks(s, line.next);
      SkipTwice(s, line.next);
    }
    hide TokenAt, ParseLine, Redirs, Wrap;
    assert Peeks(s, Skip(s, i), "(");
    assert ParseExec(s, i) == ParseBlock(s, Skip(s, i));
  }

  lemma SpellGroup(line: Line, rs: seq<Redirect>)
    ensures SpellCommand(Group(line, rs)) == [Mark('(')] + (SpellLine(line) + ([Mark(')')] + SpellRedirs(rs)))
  {
  }

  lemma {:induction false} CommandParse(s: string, i: nat, c: Command, j: nat)
    requires i <= |s| && Lexes(s, i, SpellCommand(c), j) && j <= |s| && Follows(s, j, "|)&;")
    ensures Parsed(s, ParseExec(s, i), CommandFits(c), CommandTree(c), j)
    decreases c, 0
  {
    hide TokenAt, Lexes, Skip, ParseExec, ParseLine, Redirs, WrapTree, Wrap, SpellItems, Rest;
    match c
    case Simple(items) =>
      NoParenthesis(s, i, items, j);
      ItemsParse(s, i, items, j, [], []);
      assert Texts(s, []) + ArgsOf(items) == ArgsOf(items) && Files(s, []) + RedirsOf(items) == RedirsOf(items);
    case Group(line, rs) =>
      SpellGroup(line, rs);
      LexOne(s, i, Mark('('), SpellLine(line) + ([Mark(')')] + SpellRedirs(rs)), j);
      var k := LexSplit(s, TokenAt(s, i).next, SpellLine(line), [Mark(')')] + SpellRedirs(rs), j);
      LexOne(s, k, Mark(')'), SpellRedirs(rs), j);
      Looks(s, k);
      LineParse(s, TokenAt(s, i).next, line, k);
      GroupIs(s, i);
      var r := ParseLine(s, TokenAt(s, i).next);
      if LineFits(line) {
        RedirsParse(s, TokenAt(s, k).next, rs, j, []);
        ReadWrap(s, r.value, Redirs(s, TokenAt(s, k).next, []).value);
        assert Files(s, []) + rs == rs;
      }
  }

  lemma {:induction false} PipeParse(s: string, i: nat, p: Pipeline, j: nat)
    requires i <= |s| && Lexes(s, i, SpellPipe(p), j) && j <= |s| && Follows(s, j, ")&;") && Skip(s, j) == j
    ensures Parsed(s, ParsePipe(s, i), PipeFits(p), PipeTree(p), j)
    decreases p, 1
  {
    hide TokenAt, Lexes, ParseExec;
    match p
    case One(c) =>
      CommandParse(s, i, c, j);
    case Bar(c, rest) =>
      assert SpellPipe(p) == SpellCommand(c) + ([Mark('|')] + SpellPipe(rest));
      var k := LexSplit(s, i, SpellCommand(c), [Mark('|')] + SpellPipe(rest), j);
      LexOne(s, k, Mark('|'), SpellPipe(rest), j);
      Looks(s, k);
      CommandParse(s, i, c, k);
      PipeParse(s, TokenAt(s, k).next, rest, j);
  }

  lemma {:induction false} LineParse(s: string, i: nat, l: Line, j: nat)
    requires i <= |s| && Lexes(s, i, SpellLine(l), j) && j <= |s| && Follows(s, j, ")") && Skip(s, j) == j
    ensures Parsed(s, ParseLine(s, i), LineFits(l), LineTree(l), j)
    decreases l, 2
  {
    hide TokenAt, Lexes, ParsePipe, Backs, Ampersands;
    match l
    case Last(p, n) =>
      var k := LexSplit(s, i, SpellPipe(p), SpellAmps(n), j);
      AmpsFollow(s, k, n, j);
      PipeParse(s, i, p, k);
      if PipeFits(p) { AmpsParse(s, k, n, j, ParsePipe(s, i).value); }
    case Semi(p, n, rest) =>
      assert SpellLine(l) == SpellPipe(p) + (SpellAmps(n) + ([Mark(';')] + SpellLine(rest)));
      var k := LexSplit(s, i, SpellPipe(p), SpellAmps(n) + ([Mark(';')] + SpellLine(rest)), j);
      var m := LexSplit(s, k, SpellAmps(n), [Mark(';')] + SpellLine(rest), j);
      LexOne(s, m, Mark(';'), SpellLine(rest), j);
      Looks(s, m);
      AmpsFollow(s, k, n, m);
      PipeParse(s, i, p, k);
      LineParse(s, TokenAt(s, m).next, rest, j);
      if PipeFits(p) { AmpsParse(s, k, n, m, ParsePipe(s, i).value); }
  }

  lemma AmpsFollow(s: string, k: nat, n: nat, j: nat)
    requires k <= |s| && Lexes(s, k, SpellAmps(n), j) && j <= |s| && Follows(s, j, ";)")
    ensures Follows(s, k, ")&;")
  {
    hide TokenAt, Lexes;
    if n == 0 {
      LexNone(s, k, j);
    } else {
      LexOne(s, k, Mark('&'), SpellAmps(n - 1), j);
      Looks(s, k);
    }
  }

  // The converse: what the parser accepts is a sentence.

  ghost predicate Found(s: string, i: nat, r: Result<Cmd>, xs: seq<Lexeme>, fits: bool, t: Tree) {
    && i <= |s| && r.Ok? && r.next <= |s| && Skip(s, r.next) == r.next && Lexes(s, i, xs, r.next) && fits
    && Gives(s, r, t, r.next)
  }

  lemma NoGroup(s: string, i: nat)
    requires i <= |s| && !Peeks(s, i, "(")
    ensures ParseExec(s, i) == Rest(s, i, [], [])
  {
  }

  lemma {:induction false} CommandFound(s: string, i: nat) returns (c: Command)
    requires i <= |s| && ParseExec(s, i).Ok?
    ensures Found(s, i, ParseExec(s, i), SpellCommand(c), CommandFits(c), CommandTree(c))
    decreases |s| - i, 1
  {
    hide TokenAt, Lexes, Skip, ParseExec, ParseLine, Redirs, WrapTree, Wrap, SpellItems, Rest;
    Looks(s, i);
    if Peeks(s, i, "(") {
      GroupIs(s, i);
      var n := TokenAt(s, i).next;
      var line := LineFound(s, n);
      var k := ParseLine(s, n).next;
      var m := TokenAt(s, k).next;
      var rs := RedirsFound(s, m, []);
      var j := Redirs(s, m, []).next;
      c := Group(line, rs);
      LexOne(s, k, Mark(')'), SpellRedirs(rs), j);
      LexJoin(s, n, SpellLine(line), k, [Mark(')')] + SpellRedirs(rs), j);
      LexOne(s, i, Mark('('), SpellLine(line) + ([Mark(')')] + SpellRedirs(rs)), j);
      SpellGroup(line, rs);
      ReadWrap(s, ParseLine(s, n).value, Redirs(s, m, []).value);
      assert Files(s, []) + rs == rs;
    } else {
      NoGroup(s, i);
      var items := ItemsFound(s, i, [], []);
      c := Simple(items);
      ItemsParse(s, i, items, ParseExec(s, i).next, [], []);
      assert Texts(s, []) + ArgsOf(items) == ArgsOf(items) && Files(s, []) + RedirsOf(items) == RedirsOf(items);
    }
  }

  lemma PipeIs(s: string, i: nat)
    requires i <= |s| && ParsePipe(s, i).Ok?
    ensures var left := ParseExec(s, i);
            && left.Ok?
            && if TokenAt(s, left.next).kind != Symbol('|') then ParsePipe(s, i) == Ok(left.value, Skip(s, left.next))
            else
              var right := ParsePipe(s, TokenAt(s, left.next).next);
              right.Ok? && ParsePipe(s, i) == Ok(Pipe(left.value, right.value), right.next)
  {
    hide ParseExec, TokenAt;
    var left := ParseExec(s, i);
    if left.Ok? {
      Looks(s, left.next);
      SkipTwice(s, left.next);
    }
  }

  lemma {:induction false} PipeFound(s: string, i: nat) returns (p: Pipeline)
    requires i <= |s| && ParsePipe(s, i).Ok?
    ensures Found(s, i, ParsePipe(s, i), SpellPipe(p), PipeFits(p), PipeTree(p))
    decreases |s| - i, 2
  {
    hide TokenAt, Lexes, Skip, ParseExec, ParsePipe, SpellCommand, CommandTree, CommandFits;
    PipeIs(s, i);
    var c := CommandFound(s, i);
    var k := ParseExec(s, i).next;
    p := One(c);
    if TokenAt(s, k).kind == Symbol('|') {
      var n := TokenAt(s, k).next;
      var rest := PipeFound(s, n);
      p := Bar(c, rest);
      var j := ParsePipe(s, n).next;
      LexOne(s, k, Mark('|'), SpellPipe(rest), j);
      LexJoin(s, i, SpellCommand(c), k, [Mark('|')] + SpellPipe(rest), j);
      assert SpellPipe(p) == SpellCommand(c) + ([Mark('|')] + SpellPipe(rest));
    }
  }

  lemma LineIs(s: string, i: nat)
    requires i <= |s| && ParseLine(s, i).Ok?
    ensures var pipe := ParsePipe(s, i);
            pipe.Ok? && var cmd := Backs(s, pipe.next, pipe.value);
            if TokenAt(s, cmd.next).kind != Symbol(';') then ParseLine(s, i) == Ok(cmd.value, Skip(s, cmd.next))
            else
              var rest := ParseLine(s, TokenAt(s, cmd.next).next);
              rest.Ok? && ParseLine(s, i) == Ok(List(cmd.value, rest.value), rest.next)
  {
    hide ParsePipe, TokenAt, Backs;
    var pipe := ParsePipe(s, i);
    if pipe.Ok? {
      var cmd := Backs(s, pipe.next, pipe.value);
      Looks(s, cmd.next);
      SkipTwice(s, cmd.next);
    }
  }

  lemma {:induction false} LineFound(s: string, i: nat) returns (l: Line)
    requires i <= |s| && ParseLine(s, i).Ok?
    ensures Found(s, i, ParseLine(s, i), SpellLine(l), LineFits(l), LineTree(l))
    decreases |s| - i, 3
  {
    hide TokenAt, Lexes, Skip, ParsePipe, ParseLine, SpellPipe, PipeTree, PipeFits, Backs, SpellAmps, Ampersands, Peeks;
    LineIs(s, i);
    var p := PipeFound(s, i);
    var k, cmd := ParsePipe(s, i).next, ParsePipe(s, i).value;
    var n := AmpsFound(s, k, cmd);
    var m := Backs(s, k, cmd).next;
    AmpsParse(s, k, n, m, cmd);
    LexJoin(s, i, SpellPipe(p), k, SpellAmps(n), m);
    l := Last(p, n);
    if TokenAt(s, m).kind == Symbol(';') {
      var rest := LineFound(s, TokenAt(s, m).next);
      var j := ParseLine(s, i).next;
      LexOne(s, m, Mark(';'), SpellLine(rest), j);
      LexJoin(s, i, SpellPipe(p) + SpellAmps(n), m, [Mark(';')] + SpellLine(rest), j);
      l := Semi(p, n, rest);
      assert SpellLine(l) == SpellPipe(p) + SpellAmps(n) + ([Mark(';')] + SpellLine(rest));
    }
  }

  /** The line is a sentence, however it is spaced. */
  ghost predicate Sentence(s: string, l: Line) { Lexes(s, 0, SpellLine(l), |s|) }

  /** A sentence is parsed exactly if no command in it has too many words, and to what it means. */
  lemma SentenceParses(s: string, l: Line)
    requires Sentence(s, l)
    ensures ParseCmd(s).Ok? <==> LineFits(l)
    ensures ParseCmd(s).Ok? ==> Read(s, ParseCmd(s).value) == LineTree(l)
  {
    hide ParseLine, Lexes;
    LineParse(s, 0, l, |s|);
  }

  /** And nothing else is parsed. */
  lemma ParsedIsSentence(s: string) returns (l: Line)
    requires ParseCmd(s).Ok?
    ensures Sentence(s, l) && LineFits(l) && Read(s, ParseCmd(s).value) == LineTree(l)
  {
    hide ParseLine, Lexes;
    l := LineFound(s, 0);
  }

  lemma GrammarDecides(s: string)
    ensures ParseCmd(s).Ok? <==> exists l :: Sentence(s, l) && LineFits(l)
  {
    hide ParseCmd, Sentence, LineFits;
    if ParseCmd(s).Ok? { var l := ParsedIsSentence(s); }
    forall l | Sentence(s, l) && LineFits(l) ensures ParseCmd(s).Ok? { SentenceParses(s, l); }
  }

  /** So a line has at most one meaning. */
  lemma SentenceMeansOne(s: string, l: Line, l': Line)
    requires Sentence(s, l) && Sentence(s, l') && LineFits(l)
    ensures LineFits(l') && LineTree(l) == LineTree(l')
  {
    hide Sentence;
    SentenceParses(s, l);
    SentenceParses(s, l');
  }
}
