/** The command grammar of user/sh.c as functions on the command line: tokens, the recursive
    descent, and the trees it builds. Words are spans of the line, as the shell's pointers are. */
module ShellSyntax {

  const MAXARGS: nat := 10

  predicate IsSpace(c: char) { c == ' ' || c == '\t' || c == '\r' || c == '\n' || c == '\U{b}' }

  predicate IsSymbol(c: char) { c == '<' || c == '|' || c == '>' || c == '&' || c == ';' || c == '(' || c == ')' }

  predicate IsPlain(c: char) { !IsSpace(c) && !IsSymbol(c) && c != '\0' }

  function Skip(s: string, i: nat): (j: nat)
    requires i <= |s|
    ensures i <= j <= |s| && (j < |s| ==> !IsSpace(s[j])) && forall k :: i <= k < j ==> IsSpace(s[k])
    decreases |s| - i
  {
    if i < |s| && IsSpace(s[i]) then Skip(s, i + 1) else i
  }

  function WordEnd(s: string, i: nat): (j: nat)
    requires i <= |s|
    ensures i <= j <= |s| && (j < |s| ==> IsSpace(s[j]) || IsSymbol(s[j]))
    ensures forall k :: i <= k < j ==> !IsSpace(s[k]) && !IsSymbol(s[k])
    decreases |s| - i
  {
    if i < |s| && !IsSpace(s[i]) && !IsSymbol(s[i]) then WordEnd(s, i + 1) else i
  }

  datatype Kind = End | Symbol(c: char) | Append | Word

  datatype Token = Token(kind: Kind, q: nat, eq: nat, next: nat)

  /** gettoken. */
  function TokenAt(s: string, i: nat): (t: Token)
    requires i <= |s|
    ensures i <= t.q <= t.eq <= t.next <= |s| && (t.kind != End ==> t.next > i)
  {
    var j := Skip(s, i);
    if j == |s| then Token(End, j, j, j)
    else if s[j] == '>' then
      if j + 1 < |s| && s[j + 1] == '>' then Token(Append, j, j + 2, Skip(s, j + 2))
          else Token(Symbol('>'), j, j + 1, Skip(s, j + 1))
    else if IsSymbol(s[j]) then Token(Symbol(s[j]), j, j + 1, Skip(s, j + 1))
    else Token(Word, j, WordEnd(s, j), Skip(s, WordEnd(s, j)))
  }

  /** peek. */
  predicate Peeks(s: string, i: nat, toks: string)
    requires i <= |s|
  {
    var j := Skip(s, i);
    j < |s| && s[j] in toks
  }

  datatype Span = Span(q: nat, eq: nat)

  datatype Mode = Input | Output | Appending

  datatype Cmd =
    | Exec(argv: seq<Span>)
    | Redir(cmd: Cmd, file: Span, mode: Mode)
    | Pipe(left: Cmd, right: Cmd)
    | List(left: Cmd, right: Cmd)
    | Back(cmd: Cmd)

  datatype Redirection = Redirection(file: Span, mode: Mode)

  /** The redirections wrapped around a command, the first one innermost. */
  function Wrap(cmd: Cmd, rs: seq<Redirection>): Cmd {
    if rs == [] then cmd else Redir(Wrap(cmd, rs[..|rs| - 1]), rs[|rs| - 1].file, rs[|rs| - 1].mode)
  }

  datatype Result<T> = Ok(value: T, next: nat) | Panic

  function ModeOf(k: Kind): Mode {
    if k == Symbol('<') then Input else if k == Append then Appending else Output
  }

  /** parseredirs. */
  function Redirs(s: string, i: nat, rs: seq<Redirection>): (r: Result<seq<Redirection>>)
    requires i <= |s|
    ensures r.Ok? ==> i <= r.next <= |s|
    decreases |s| - i
  {
    if !Peeks(s, i, "<>") then Ok(rs, Skip(s, i))
    else
      var op := TokenAt(s, Skip(s, i));
      var file := TokenAt(s, op.next);
      if file.kind != Word then Panic
      else Redirs(s, file.next, rs + [Redirection(Span(file.q, file.eq), ModeOf(op.kind))])
  }

  datatype Arg = Stop(next: nat) | Fail | More(file: Span, rs: seq<Redirection>, next: nat)

  /** One turn of the loop of parseexec: a word and the redirections after it. */
  function NextArg(s: string, i: nat, argc: nat, rs: seq<Redirection>): (r: Arg)
    requires i <= |s|
    ensures !r.Fail? ==> i <= r.next <= |s|
    ensures r.More? ==> i < r.next
  {
    if Peeks(s, i, "|)&;") then Stop(Skip(s, i))
    else
      var t := TokenAt(s, Skip(s, i));
      if t.kind == End then Stop(t.next)
      else if t.kind != Word || argc + 1 >= MAXARGS then Fail
      else
        var more := Redirs(s, t.next, rs);
        if more.Panic? then Fail else More(Span(t.q, t.eq), more.value, more.next)
  }

  /** The loop of parseexec. */
  function Args(s: string, i: nat, argv: seq<Span>, rs: seq<Redirection>): (r: Result<Cmd>)
    requires i <= |s|
    ensures r.Ok? ==> i <= r.next <= |s|
    decreases |s| - i
  {
    match NextArg(s, i, |argv|, rs)
    case Stop(next) => Ok(Wrap(Exec(argv), rs), next)
    case Fail => Panic
    case More(file, rs', next) => Args(s, next, argv + [file], rs')
  }

  function ParseExec(s: string, i: nat): (r: Result<Cmd>)
    requires i <= |s|
    ensures r.Ok? ==> i <= r.next <= |s|
    decreases |s| - i, 1
  {
    if Peeks(s, i, "(") then ParseBlock(s, Skip(s, i))
    else
      var rs := Redirs(s, i, []);
      if rs.Panic? then Panic else Args(s, rs.next, [], rs.value)
  }

  function ParseBlock(s: string, i: nat): (r: Result<Cmd>)
    requires i <= |s|
    ensures r.Ok? ==> i <= r.next <= |s|
    decreases |s| - i, 0
  {
    if !Peeks(s, i, "(") then Panic
    else
      var line := ParseLine(s, TokenAt(s, Skip(s, i)).next);
      if line.Panic? || !Peeks(s, line.next, ")") then Panic
      else
        var rs := Redirs(s, TokenAt(s, Skip(s, line.next)).next, []);
        if rs.Panic? then Panic else Ok(Wrap(line.value, rs.value), rs.next)
  }

  function ParsePipe(s: string, i: nat): (r: Result<Cmd>)
    requires i <= |s|
    ensures r.Ok? ==> i <= r.next <= |s|
    decreases |s| - i, 2
  {
    var left := ParseExec(s, i);
    if left.Panic? then Panic
    else if !Peeks(s, left.next, "|") then Ok(left.value, Skip(s, left.next))
    else
      var right := ParsePipe(s, TokenAt(s, Skip(s, left.next)).next);
      if right.Panic? then Panic else Ok(Pipe(left.value, right.value), right.next)
  }

  /** The loop of parseline. */
  function Backs(s: string, i: nat, cmd: Cmd): (r: Result<Cmd>)
    requires i <= |s|
    ensures r.Ok? && i <= r.next <= |s|
    decreases |s| - i
  {
    if Peeks(s, i, "&") then Backs(s, TokenAt(s, Skip(s, i)).next, Back(cmd)) else Ok(cmd, Skip(s, i))
  }

  function ParseLine(s: string, i: nat): (r: Result<Cmd>)
    requires i <= |s|
    ensures r.Ok? ==> i <= r.next <= |s|
    decreases |s| - i, 3
  {
    var pipe := ParsePipe(s, i);
    if pipe.Panic? then Panic
    else
      var cmd := Backs(s, pipe.next, pipe.value);
      if !Peeks(s, cmd.next, ";") then Ok(cmd.value, Skip(s, cmd.next))
      else
        var rest := ParseLine(s, TokenAt(s, Skip(s, cmd.next)).next);
        if rest.Panic? then Panic else Ok(List(cmd.value, rest.value), rest.next)
  }

  function ParseCmd(s: string): (r: Result<Cmd>)
    ensures r.Ok? ==> r.next == |s|
  {
    var line := ParseLine(s, 0);
    if line.Panic? || Skip(s, line.next) != |s| then Panic else Ok(line.value, |s|)
  }
}
