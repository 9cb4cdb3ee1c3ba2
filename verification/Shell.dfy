/** The parser of user/sh.c working on its buffer: gettoken, peek, the parse functions and
    nulterminate. A panic is the result `Panic`. */
module Shell {
  import opened ShellSyntax
  import ShellGrammar

  /** A word of the line: not empty, and reaching to the next space, symbol or the end. */
  predicate GoodSpan(s: string, p: Span) {
    && p.q < p.eq <= |s| && (forall k :: p.q <= k < p.eq ==> !IsSpace(s[k]) && !IsSymbol(s[k]))
    && (p.eq < |s| ==> IsSpace(s[p.eq]) || IsSymbol(s[p.eq]))
  }

  predicate Good(s: string, cmd: Cmd) {
    match cmd
    case Exec(argv) => forall i :: 0 <= i < |argv| ==> GoodSpan(s, argv[i])
    case Redir(c, file, _) => Good(s, c) && GoodSpan(s, file)
    case Pipe(l, r) => Good(s, l) && Good(s, r)
    case List(l, r) => Good(s, l) && Good(s, r)
    case Back(c) => Good(s, c)
  }

  predicate GoodRedirs(s: string, rs: seq<Redirection>) { forall i :: 0 <= i < |rs| ==> GoodSpan(s, rs[i].file) }

  lemma TokenGood(s: string, i: nat)
    requires i <= |s|
    ensures TokenAt(s, i).kind == Word ==> GoodSpan(s, Span(TokenAt(s, i).q, TokenAt(s, i).eq))
  {}

  lemma {:induction false} RedirsGood(s: string, i: nat, rs: seq<Redirection>)
    requires i <= |s| && GoodRedirs(s, rs)
    ensures Redirs(s, i, rs).Ok? ==> GoodRedirs(s, Redirs(s, i, rs).value)
    decreases |s| - i
  {
    hide GoodSpan;
    if Peeks(s, i, "<>") {
      var op := TokenAt(s, Skip(s, i));
      var file := TokenAt(s, op.next);
      TokenGood(s, op.next);
      if file.kind == Word { RedirsGood(s, file.next, rs + [Redirection(Span(file.q, file.eq), ModeOf(op.kind))]); }
    }
  }

  lemma {:induction false} WrapGood(s: string, cmd: Cmd, rs: seq<Redirection>)
    requires Good(s, cmd) && GoodRedirs(s, rs)
    ensures Good(s, Wrap(cmd, rs))
  {
    hide GoodSpan;
    if rs != [] { WrapGood(s, cmd, rs[..|rs| - 1]); }
  }

  lemma {:induction false} ArgsGood(s: string, i: nat, argv: seq<Span>, rs: seq<Redirection>)
    requires i <= |s| && Good(s, Exec(argv)) && GoodRedirs(s, rs)
    ensures Args(s, i, argv, rs).Ok? ==> Good(s, Args(s, i, argv, rs).value)
    decreases |s| - i
  {
    hide GoodSpan, Redirs, Skip, Peeks, TokenAt, Wrap;
    WrapGood(s, Exec(argv), rs);
    var t := TokenAt(s, Skip(s, i));
    TokenGood(s, Skip(s, i));
    RedirsGood(s, t.next, rs);
    match NextArg(s, i, |argv|, rs) {
      case More(file, rs', next) => ArgsGood(s, next, argv + [file], rs');
      case _ =>
    }
  }

  lemma {:induction false} ExecGood(s: string, i: nat)
    requires i <= |s|
    ensures ParseExec(s, i).Ok? ==> Good(s, ParseExec(s, i).value)
    decreases |s| - i, 1
  {
    hide GoodSpan, Redirs, TokenAt, Args;
    if Peeks(s, i, "(") {
      BlockGood(s, Skip(s, i));
    } else {
      RedirsGood(s, i, []);
      var rs := Redirs(s, i, []);
      if rs.Ok? { ArgsGood(s, rs.next, [], rs.value); }
    }
  }

  lemma {:induction false} BlockGood(s: string, i: nat)
    requires i <= |s|
    ensures ParseBlock(s, i).Ok? ==> Good(s, ParseBlock(s, i).value)
    decreases |s| - i, 0
  {
    hide GoodSpan, Redirs, Wrap;
    if Peeks(s, i, "(") {
      var n := TokenAt(s, Skip(s, i)).next;
      LineGood(s, n);
      var line := ParseLine(s, n);
      if line.Ok? && Peeks(s, line.next, ")") {
        var m := TokenAt(s, Skip(s, line.next)).next;
        RedirsGood(s, m, []);
        if Redirs(s, m, []).Ok? { WrapGood(s, line.value, Redirs(s, m, []).value); }
      }
    }
  }

  lemma {:induction false} PipeGood(s: string, i: nat)
    requires i <= |s|
    ensures ParsePipe(s, i).Ok? ==> Good(s, ParsePipe(s, i).value)
    decreases |s| - i, 2
  {
    hide GoodSpan, ParseExec;
    ExecGood(s, i);
    var left := ParseExec(s, i);
    if left.Ok? && Peeks(s, left.next, "|") { PipeGood(s, TokenAt(s, Skip(s, left.next)).next); }
  }

  lemma {:induction false} BacksGood(s: string, i: nat, cmd: Cmd)
    requires i <= |s| && Good(s, cmd)
    ensures Good(s, Backs(s, i, cmd).value)
    decreases |s| - i
  {
    hide GoodSpan;
    if Peeks(s, i, "&") { BacksGood(s, TokenAt(s, Skip(s, i)).next, Back(cmd)); }
  }

  lemma {:induction false} LineGood(s: string, i: nat)
    requires i <= |s|
    ensures ParseLine(s, i).Ok? ==> Good(s, ParseLine(s, i).value)
    decreases |s| - i, 3
  {
    hide GoodSpan, ParsePipe, Backs;
    PipeGood(s, i);
    var pipe := ParsePipe(s, i);
    if pipe.Ok? {
      BacksGood(s, pipe.next, pipe.value);
      var cmd := Backs(s, pipe.next, pipe.value);
      if Peeks(s, cmd.next, ";") { LineGood(s, TokenAt(s, Skip(s, cmd.next)).next); }
    }
  }

  /** The command line in its buffer, with the terminating NUL at es. */
  class Parser {
    const buf: array<char>
    const es: nat
    var ps: nat

    constructor (line: string)
      requires forall i :: 0 <= i < |line| ==> line[i] != '\0'
      ensures Valid() && Line() == line && ps == 0 && fresh(buf)
    {
      buf := new char[|line| + 1](i requires 0 <= i <= |line| => if i < |line| then line[i] else '\0');
      es, ps := |line|, 0;
      new;
      assert buf[..es] == line;
    }

    ghost predicate Valid()
      reads this, buf
    {
      buf.Length == es + 1 && ps <= es && buf[es] == '\0' && forall i :: 0 <= i < es ==> buf[i] != '\0'
    }

    ghost function Line(): string
      requires buf.Length == es + 1
      reads this, buf
    {
      buf[..es]
    }

    method SkipSpaces(from: nat) returns (s: nat)
      requires Valid() && from <= es
      ensures s == Skip(Line(), from)
    {
      s := from;
      while s < es && IsSpace(buf[s])
        invariant from <= s <= es && Skip(Line(), s) == Skip(Line(), from)
      {
        s := s + 1;
      }
    }

    method SkipWord(from: nat) returns (s: nat)
      requires Valid() && from <= es
      ensures s == WordEnd(Line(), from)
    {
      s := from;
      while s < es && !IsSpace(buf[s]) && !IsSymbol(buf[s])
        invariant from <= s <= es && WordEnd(Line(), s) == WordEnd(Line(), from)
      {
        s := s + 1;
      }
    }

    method GetToken() returns (kind: Kind, q: nat, eq: nat)
      requires Valid()
      modifies `ps
      ensures Valid() && Token(kind, q, eq, ps) == TokenAt(Line(), old(ps))
    {
      hide Skip, WordEnd, IsSpace;
      var s := SkipSpaces(ps);
      q := s;
      var c := buf[s];
      kind := Symbol(c);
      if c == '\0' {
        kind := End;
      } else if c == '|' || c == '(' || c == ')' || c == ';' || c == '&' || c == '<' {
        s := s + 1;
      } else if c == '>' {
        s := s + 1;
        if buf[s] == '>' {
          kind := Append;
          s := s + 1;
        }
      } else {
        kind := Word;
        s := SkipWord(s);
      }
      eq := s;
      ps := SkipSpaces(s);
    }

    method Peek(toks: string) returns (r: bool)
      requires Valid() && '\0' !in toks
      modifies `ps
      ensures Valid() && ps == Skip(Line(), old(ps)) && r == Peeks(Line(), old(ps), toks)
    {
      ps := SkipSpaces(ps);
      r := buf[ps] in toks;
    }

    method ParseRedirs(before: seq<Redirection>) returns (ok: bool, rs: seq<Redirection>)
      requires Valid()
      modifies `ps
      ensures Valid() && ps >= old(ps) && Redirs(Line(), old(ps), before) == (if ok then Ok(rs, ps) else Panic)
    {
      ghost var s := Line();
      rs := before;
      var more := Peek("<>");
      while more
        invariant Valid() && Line() == s && old(ps) <= ps && Skip(s, ps) == ps
        invariant more == Peeks(s, ps, "<>") && Redirs(s, old(ps), before) == Redirs(s, ps, rs)
        decreases es - ps
      {
        var op, _, _ := GetToken();
        var kind, q, eq := GetToken();
        if kind != Word {
          return false, rs;
        }
        rs := rs + [Redirection(Span(q, eq), ModeOf(op))];
        more := Peek("<>");
      }
      return true, rs;
    }

    /** The loop of parseexec. */
    method TakeArgs(before: seq<Redirection>) returns (ok: bool, cmd: Cmd)
      requires Valid()
      modifies `ps
      ensures Valid() && ps >= old(ps) && Args(Line(), old(ps), [], before) == (if ok then Ok(cmd, ps) else Panic)
    {
      hide Redirs, TokenAt, Wrap;
      ghost var s := Line();
      var argv: seq<Span>, rs := [], before;
      while true
        invariant Valid() && Line() == s && old(ps) <= ps && Args(s, old(ps), [], before) == Args(s, ps, argv, rs)
        decreases es - ps
      {
        var stop := Peek("|)&;");
        if stop {
          break;
        }
        var kind, q, eq := GetToken();
        if kind == End {
          break;
        }
        if kind != Word {
          return false, Exec([]);
        }
        argv := argv + [Span(q, eq)];
        if |argv| >= MAXARGS {
          return false, Exec([]);
        }
        ok, rs := ParseRedirs(rs);
        if !ok {
          return false, Exec([]);
        }
      }
      return true, Wrap(Exec(argv), rs);
    }

    /** parseexec. */
    method TakeExec() returns (ok: bool, cmd: Cmd)
      requires Valid()
      modifies `ps
      ensures Valid() && ps >= old(ps) && ParseExec(Line(), old(ps)) == (if ok then Ok(cmd, ps) else Panic)
      decreases es - ps, 1
    {
      hide Redirs, Args, ParseBlock;
      ghost var s := Line();
      var block := Peek("(");
      if block {
        ok, cmd := TakeBlock();
        return;
      }
      NoBlock(s, old(ps));
      var rs;
      ok, rs := ParseRedirs([]);
      if !ok {
        return false, Exec([]);
      }
      ok, cmd := TakeArgs(rs);
    }

    /** parseblock. */
    method TakeBlock() returns (ok: bool, cmd: Cmd)
      requires Valid()
      modifies `ps
      ensures Valid() && ps >= old(ps) && ParseBlock(Line(), old(ps)) == (if ok then Ok(cmd, ps) else Panic)
      decreases es - ps, 0
    {
      hide Redirs, Wrap;
      cmd := Exec([]);
      var open := Peek("(");
      if !open {
        return false, cmd;
      }
      var _, _, _ := GetToken();
      ok, cmd := TakeLine();
      if !ok {
        return;
      }
      var close := Peek(")");
      if !close {
        return false, cmd;
      }
      var _, _, _ := GetToken();
      var rs;
      ok, rs := ParseRedirs([]);
      cmd := Wrap(cmd, rs);
    }

    /** parsepipe. */
    method TakePipe() returns (ok: bool, cmd: Cmd)
      requires Valid()
      modifies `ps
      ensures Valid() && ps >= old(ps) && ParsePipe(Line(), old(ps)) == (if ok then Ok(cmd, ps) else Panic)
      decreases es - ps, 2
    {
      ok, cmd := TakeExec();
      if !ok {
        return;
      }
      var bar := Peek("|");
      if bar {
        var _, _, _ := GetToken();
        var right;
        ok, right := TakePipe();
        cmd := Pipe(cmd, right);
      }
    }

    /** The loop of parseline. */
    method TakeBacks(first: Cmd) returns (cmd: Cmd)
      requires Valid()
      modifies `ps
      ensures Valid() && ps >= old(ps) && Backs(Line(), old(ps), first) == Ok(cmd, ps)
    {
      hide TokenAt, Peeks, Skip;
      ghost var s := Line();
      SkipTwice(s, ps);
      cmd := first;
      var more := Peek("&");
      while more
        invariant Valid() && Line() == s && old(ps) <= ps && Skip(s, ps) == ps
        invariant more == Peeks(s, ps, "&") && Backs(s, old(ps), first) == Backs(s, ps, cmd)
        decreases es - ps
      {
        PeekedToken(s, ps, "&");
        var _, _, _ := GetToken();
        cmd := Back(cmd);
        SkipTwice(s, ps);
        more := Peek("&");
      }
    }

    /** parseline. */
    method TakeLine() returns (ok: bool, cmd: Cmd)
      requires Valid()
      modifies `ps
      ensures Valid() && ps >= old(ps) && ParseLine(Line(), old(ps)) == (if ok then Ok(cmd, ps) else Panic)
      decreases es - ps, 3
    {
      hide ParsePipe, Backs;
      ok, cmd := TakePipe();
      if !ok {
        return;
      }
      cmd := TakeBacks(cmd);
      var semi := Peek(";");
      if semi {
        var _, _, _ := GetToken();
        var rest;
        ok, rest := TakeLine();
        cmd := List(cmd, rest);
      }
    }

    /** nulterminate: a NUL goes after every word of the command and nowhere inside a word. */
    method NulTerminate(cmd: Cmd, ghost s: string)
      requires buf.Length == |s| + 1 && Good(s, cmd)
      modifies buf
      ensures forall k :: 0 <= k <= |s| ==> buf[k] == old(buf[k]) || (buf[k] == '\0' && Boundary(s, k))
      ensures forall k :: 0 <= k <= |s| && Ends(cmd, k) ==> buf[k] == '\0'
      decreases cmd
    {
      match cmd
      case Exec(argv) =>
        var i := 0;
        while i < |argv|
          invariant 0 <= i <= |argv|
          invariant forall k :: 0 <= k <= |s| ==> buf[k] == old(buf[k]) || (buf[k] == '\0' && Boundary(s, k))
          invariant forall j :: 0 <= j < i ==> buf[argv[j].eq] == '\0'
        {
          assert GoodSpan(s, argv[i]);
          buf[argv[i].eq] := '\0';
          i := i + 1;
        }
      case Redir(c, file, _) =>
        NulTerminate(c, s);
        buf[file.eq] := '\0';
      case Pipe(l, r) =>
        NulTerminate(l, s);
        NulTerminate(r, s);
      case List(l, r) =>
        NulTerminate(l, s);
        NulTerminate(r, s);
      case Back(c) =>
        NulTerminate(c, s);
    }

    /** parsecmd: the command that the grammar gives, with every word of it terminated in place. */
    method Parse() returns (ok: bool, cmd: Cmd)
      requires Valid() && ps == 0
      modifies `ps, buf
      ensures ParseCmd(old(Line())) == if ok then Ok(cmd, es) else Panic
      ensures ok <==> exists l :: ShellGrammar.Sentence(old(Line()), l) && ShellGrammar.LineFits(l)
      ensures ok ==> Good(old(Line()), cmd)
      ensures ok ==> forall p :: InCmd(cmd, p) ==> p.q < p.eq <= es && CString(buf[..], p.q) == old(Line())[p.q..p.eq]
    {
      hide ParseLine, ShellGrammar.Sentence, ShellGrammar.LineFits;
      ghost var s := Line();
      ShellGrammar.GrammarDecides(s);
      ok, cmd := TakeLine();
      if !ok {
        return;
      }
      var _ := Peek("");
      if ps != es {
        return false, cmd;
      }
      LineGood(s, 0);
      NulTerminate(cmd, s);
      forall p | InCmd(cmd, p) ensures p.q < p.eq <= es && CString(buf[..], p.q) == s[p.q..p.eq] {
        WordGood(s, cmd, p);
        Terminated(buf[..], s, p);
      }
    }
  }

  /** A place where no word is. */
  predicate Boundary(s: string, k: nat) { k >= |s| || IsSpace(s[k]) || IsSymbol(s[k]) }

  /** p is a word or a file name of the command. */
  predicate InCmd(cmd: Cmd, p: Span) {
    match cmd
    case Exec(argv) => p in argv
    case Redir(c, file, _) => p == file || InCmd(c, p)
    case Pipe(l, r) => InCmd(l, p) || InCmd(r, p)
    case List(l, r) => InCmd(l, p) || InCmd(r, p)
    case Back(c) => InCmd(c, p)
  }

  /** Some word of the command ends at k. */
  ghost predicate Ends(cmd: Cmd, k: nat) { exists p :: InCmd(cmd, p) && p.eq == k }

  lemma {:induction false} WordGood(s: string, cmd: Cmd, p: Span)
    requires Good(s, cmd) && InCmd(cmd, p)
    ensures GoodSpan(s, p)
  {
    hide GoodSpan;
    match cmd
    case Exec(argv) =>
    case Redir(c, file, _) => if InCmd(c, p) { WordGood(s, c, p); }
    case Pipe(l, r) => if InCmd(l, p) { WordGood(s, l, p); } else { WordGood(s, r, p); }
    case List(l, r) => if InCmd(l, p) { WordGood(s, l, p); } else { WordGood(s, r, p); }
    case Back(c) => WordGood(s, c, p);
  }

  /** The C string at i: up to the first NUL. */
  function CString(buf: string, i: nat): string
    requires i <= |buf|
    decreases |buf| - i
  {
    if i == |buf| || buf[i] == '\0' then "" else [buf[i]] + CString(buf, i + 1)
  }

  lemma {:induction false} ReadsTo(buf: string, i: nat, j: nat)
    requires i <= j < |buf| && buf[j] == '\0' && forall k :: i <= k < j ==> buf[k] != '\0'
    ensures CString(buf, i) == buf[i..j]
    decreases j - i
  {
    if i < j { ReadsTo(buf, i + 1, j); }
  }

  lemma Terminated(buf: string, s: string, p: Span)
    requires |buf| == |s| + 1 && GoodSpan(s, p) && buf[p.eq] == '\0'
    requires forall k :: p.q <= k < p.eq ==> buf[k] == s[k] && s[k] != '\0'
    ensures CString(buf, p.q) == s[p.q..p.eq]
  {
    ReadsTo(buf, p.q, p.eq);
  }

  lemma SkipTwice(s: string, i: nat)
    requires i <= |s|
    ensures Skip(s, Skip(s, i)) == Skip(s, i)
    ensures forall toks :: Peeks(s, Skip(s, i), toks) == Peeks(s, i, toks)
    ensures forall cmd :: Backs(s, Skip(s, i), cmd) == Backs(s, i, cmd)
  {}

  lemma PeekedToken(s: string, i: nat, toks: string)
    requires i <= |s| && Peeks(s, i, toks)
    ensures TokenAt(s, Skip(s, i)).next > i
  {}

  lemma NoBlock(s: string, i: nat)
    requires i <= |s| && !Peeks(s, i, "(")
    ensures Skip(s, Skip(s, i)) == Skip(s, i)
    ensures Redirs(s, Skip(s, i), []) == Redirs(s, i, [])
  {}
}
