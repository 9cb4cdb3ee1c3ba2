/** Printing a command with parentheses only where the grammar needs them, and parsing it
    again, gives the command back. */
module ShellRoundTrip {
  import opened ShellSyntax
  import opened ShellGrammar

  // The sentence for a tree.

  /** The redirections around a tree, innermost first, and what they are around. */
  function Strip(t: Tree): (r: (Tree, seq<Redirect>))
    ensures WrapTree(r.0, r.1) == t && !r.0.Redirected? && (r.0 == t || r.0 < t)
  {
    if t.Redirected? then
      var r := Strip(t.tree);
      var rs := r.1 + [Redirect(t.mode, t.name)];
      assert rs[..|rs| - 1] == r.1;
      (r.0, rs)
    else (t, [])
  }

  function Items(words: seq<string>, rs: seq<Redirect>): seq<Item> {
    if words != [] then [Arg(words[0])] + Items(words[1..], rs)
    else if rs != [] then [To(rs[0])] + Items([], rs[1..])
    else []
  }

  /** `|` binds closer than `&`, which binds closer than `;`, and both `|` and `;` group to the
      right; parentheses go around what would bind otherwise, and around what is redirected. */
  function AsCommand(t: Tree): Command
    decreases t, 2
  {
    if t.Words? || t.Redirected? then AsSimple(t) else Group(AsLine(t), [])
  }

  function AsSimple(t: Tree): Command
    requires t.Words? || t.Redirected?
    decreases t, 0
  {
    var (b, rs) := Strip(t);
    if b.Words? then Simple(Items(b.words, rs)) else Group(AsLine(b), rs)
  }

  function AsPipe(t: Tree): Pipeline
    decreases t, 3
  {
    if t.Piped? then Bar(AsCommand(t.left), AsPipe(t.right)) else One(AsCommand(t))
  }

  function AsBacks(t: Tree): (Pipeline, nat)
    decreases t, 4
  {
    if t.Background? then var (p, n) := AsBacks(t.tree); (p, n + 1) else (AsPipe(t), 0)
  }

  function AsLine(t: Tree): Line
    decreases t, 1
  {
    match t
    case Then(l, r) => var (p, n) := AsBacks(l); Semi(p, n, AsLine(r))
    case Background(x) => var (p, n) := AsBacks(x); Last(p, n + 1)
    case Piped(l, r) => Last(Bar(AsCommand(l), AsPipe(r)), 0)
    case _ => Last(One(AsSimple(t)), 0)
  }

  lemma {:induction false} ItemsOf(words: seq<string>, rs: seq<Redirect>)
    ensures ArgsOf(Items(words, rs)) == words && RedirsOf(Items(words, rs)) == rs
    decreases |words| + |rs|
  {
    var items := Items(words, rs);
    if words != [] {
      ItemsOf(words[1..], rs);
      assert items[1..] == Items(words[1..], rs);
    } else if rs != [] {
      ItemsOf([], rs[1..]);
      assert items[1..] == Items([], rs[1..]);
    }
  }

  lemma {:induction false} AmpsOutside(t: Tree, n: nat)
    ensures Ampersands(t, n + 1) == Background(Ampersands(t, n))
    decreases n
  {
    if n > 0 { AmpsOutside(Background(t), n - 1); }
  }

  lemma {:induction false} SimpleMeans(t: Tree)
    requires t.Words? || t.Redirected?
    ensures CommandTree(AsSimple(t)) == t
    decreases t, 0
  {
    hide WrapTree;
    var (b, rs) := Strip(t);
    if b.Words? { ItemsOf(b.words, rs); } else { LineMeans(b); }
  }

  lemma {:induction false} CommandMeans(t: Tree)
    ensures CommandTree(AsCommand(t)) == t
    decreases t, 2
  {
    if t.Words? || t.Redirected? {
      SimpleMeans(t);
    } else {
      LineMeans(t);
      assert WrapTree(t, []) == t;
    }
  }

  lemma {:induction false} PipeMeans(t: Tree)
    ensures PipeTree(AsPipe(t)) == t
    decreases t, 3
  {
    if t.Piped? {
      CommandMeans(t.left);
      PipeMeans(t.right);
    } else {
      CommandMeans(t);
    }
  }

  lemma {:induction false} BacksMean(t: Tree)
    ensures var (p, n) := AsBacks(t); Ampersands(PipeTree(p), n) == t
    decreases t, 4
  {
    if t.Background? {
      BacksMean(t.tree);
      var (p, n) := AsBacks(t.tree);
      AmpsOutside(PipeTree(p), n);
    } else {
      PipeMeans(t);
    }
  }

  /** The sentence means the tree it was made for. */
  lemma {:induction false} LineMeans(t: Tree)
    ensures LineTree(AsLine(t)) == t
    decreases t, 1
  {
    match t
    case Then(l, r) => BacksMean(l); LineMeans(r);
    case Background(x) =>
      BacksMean(x);
      var (p, n) := AsBacks(x);
      AmpsOutside(PipeTree(p), n);
    case Piped(l, r) => CommandMeans(l); PipeMeans(r);
    case _ => SimpleMeans(t);
  }

  // The sentence as a string.

  predicate PlainWord(w: string) { w != "" && forall i :: 0 <= i < |w| ==> IsPlain(w[i]) }

  predicate Writable(x: Lexeme) {
    match x
    case Mark(c) => IsSymbol(c)
    case Twice => true
    case Name(w) => PlainWord(w)
  }

  function Text(x: Lexeme): string {
    match x case Mark(c) => [c] case Twice => ">>" case Name(w) => w
  }

  function Render(xs: seq<Lexeme>): string { if xs == [] then "" else Text(xs[0]) + " " + Render(xs[1..]) }

  lemma {:induction false} WordIs(s: string, i: nat, k: nat)
    requires i <= k <= |s| && (forall m :: i <= m < k ==> IsPlain(s[m]))
    requires (k < |s| ==> IsSpace(s[k]) || IsSymbol(s[k]))
    ensures WordEnd(s, i) == k
    decreases k - i
  {
    if i < k { WordIs(s, i + 1, k); }
  }

  lemma TokenIs(s: string, i: nat, x: Lexeme)
    requires Writable(x) && i + |Text(x)| < |s| && s[i..i + |Text(x)|] == Text(x) && s[i + |Text(x)|] == ' '
    ensures Is(s, TokenAt(s, i), x) && TokenAt(s, i).next == Skip(s, i + |Text(x)|) && Skip(s, i) == i
  {
    var k := i + |Text(x)|;
    assert forall m :: i <= m < k ==> s[m] == Text(x)[m - i];
    match x
    case Mark(c) =>
    case Twice =>
    case Name(w) => WordIs(s, i, k);
  }

  lemma RenderStep(s: string, i: nat, xs: seq<Lexeme>)
    requires i <= |s| && s[i..] == Render(xs) && xs != []
    ensures var k := i + |Text(xs[0])|;
            k < |s| && s[i..k] == Text(xs[0]) && s[k] == ' ' && s[k + 1..] == Render(xs[1..])
  {
    var x, k := xs[0], i + |Text(xs[0])|;
    assert s[i..] == Text(x) + " " + Render(xs[1..]);
    assert s[i..k] == s[i..][..|Text(x)|];
    assert s[k] == s[i..][|Text(x)|];
    assert s[k + 1..] == s[i..][|Text(x)| + 1..];
  }

  lemma {:induction false} RenderLexes(s: string, i: nat, xs: seq<Lexeme>)
    requires i <= |s| && s[i..] == Render(xs) && AllWritable(xs)
    ensures Lexes(s, i, xs, |s|) && Skip(s, i) == i
    decreases |xs|
  {
    hide TokenAt, Is, Render, Text;
    if xs == [] {
      EmptyRender(s, i);
    } else {
      var k := i + |Text(xs[0])|;
      RenderStep(s, i, xs);
      TokenIs(s, i, xs[0]);
      RenderLexes(s, k + 1, xs[1..]);
    }
  }

  lemma EmptyRender(s: string, i: nat)
    requires i <= |s| && s[i..] == Render([])
    ensures i == |s|
  {
  }

  ghost predicate AllWritable(xs: seq<Lexeme>) { forall k :: 0 <= k < |xs| ==> Writable(xs[k]) }

  /** At most nine words to a command, all plain. */
  predicate Printable(t: Tree) {
    match t
    case Words(words) => |words| < MAXARGS && forall i :: 0 <= i < |words| ==> PlainWord(words[i])
    case Redirected(tree, name, _) => Printable(tree) && PlainWord(name)
    case Piped(left, right) => Printable(left) && Printable(right)
    case Then(left, right) => Printable(left) && Printable(right)
    case Background(tree) => Printable(tree)
  }

  function Print(t: Tree): string { Render(SpellLine(AsLine(t))) }

  lemma {:induction false} RedirsWritable(rs: seq<Redirect>)
    requires forall i :: 0 <= i < |rs| ==> PlainWord(rs[i].name)
    ensures AllWritable(SpellRedirs(rs))
  {
    if rs != [] { RedirsWritable(rs[1..]); }
  }

  lemma {:induction false} ItemsWritable(words: seq<string>, rs: seq<Redirect>)
    requires forall i :: 0 <= i < |words| ==> PlainWord(words[i])
    requires forall i :: 0 <= i < |rs| ==> PlainWord(rs[i].name)
    ensures AllWritable(SpellItems(Items(words, rs)))
    decreases |words| + |rs|
  {
    hide PlainWord;
    var items := Items(words, rs);
    if words != [] {
      ItemsWritable(words[1..], rs);
      assert items[1..] == Items(words[1..], rs);
    } else if rs != [] {
      ItemsWritable([], rs[1..]);
      assert items[1..] == Items([], rs[1..]);
    }
  }

  lemma {:induction false} AmpsWritable(n: nat)
    ensures AllWritable(SpellAmps(n))
  {
    if n > 0 { AmpsWritable(n - 1); }
  }

  lemma {:induction false} StripPrintable(t: Tree)
    requires Printable(t)
    ensures Printable(Strip(t).0) && forall i :: 0 <= i < |Strip(t).1| ==> PlainWord(Strip(t).1[i].name)
  {
    hide PlainWord;
    if t.Redirected? { StripPrintable(t.tree); }
  }

  lemma {:induction false} SimpleGood(t: Tree)
    requires Printable(t) && (t.Words? || t.Redirected?)
    ensures CommandFits(AsSimple(t)) && AllWritable(SpellCommand(AsSimple(t)))
    decreases t, 0
  {
    StripPrintable(t);
    hide PlainWord;
    var (b, rs) := Strip(t);
    if b.Words? {
      ItemsOf(b.words, rs);
      ItemsWritable(b.words, rs);
    } else {
      LineGood(b);
      RedirsWritable(rs);
    }
  }

  lemma {:induction false} CommandGood(t: Tree)
    requires Printable(t)
    ensures CommandFits(AsCommand(t)) && AllWritable(SpellCommand(AsCommand(t)))
    decreases t, 2
  {
    if t.Words? || t.Redirected? { SimpleGood(t); } else { LineGood(t); }
  }

  lemma {:induction false} PipeGood(t: Tree)
    requires Printable(t)
    ensures PipeFits(AsPipe(t)) && AllWritable(SpellPipe(AsPipe(t)))
    decreases t, 3
  {
    if t.Piped? {
      CommandGood(t.left);
      PipeGood(t.right);
    } else {
      CommandGood(t);
    }
  }

  lemma {:induction false} BacksGood(t: Tree)
    requires Printable(t)
    ensures PipeFits(AsBacks(t).0) && AllWritable(SpellPipe(AsBacks(t).0))
    decreases t, 4
  {
    if t.Background? { BacksGood(t.tree); } else { PipeGood(t); }
  }

  lemma {:induction false} LineGood(t: Tree)
    requires Printable(t)
    ensures LineFits(AsLine(t)) && AllWritable(SpellLine(AsLine(t)))
    decreases t, 1
  {
    match t
    case Then(l, r) => BacksGood(l); LineGood(r); AmpsWritable(AsBacks(l).1);
    case Background(x) => BacksGood(x); AmpsWritable(AsBacks(x).1 + 1);
    case Piped(l, r) => CommandGood(l); PipeGood(r); AmpsWritable(0);
    case _ => SimpleGood(t); AmpsWritable(0);
  }

  /** The round trip. */
  lemma RoundTrip(t: Tree)
    requires Printable(t)
    ensures ParseCmd(Print(t)).Ok? && Read(Print(t), ParseCmd(Print(t)).value) == t
  {
    hide Printable, ParseCmd, Lexes, SpellLine, LineFits;
    LineGood(t);
    LineMeans(t);
    var s := Print(t);
    assert s[0..] == s;
    RenderLexes(s, 0, SpellLine(AsLine(t)));
    SentenceParses(s, AsLine(t));
  }

  // The parentheses are needed.

  function CommandGroups(c: Command): nat {
    match c case Simple(_) => 0 case Group(line, _) => 1 + LineGroups(line)
  }

  function PipeGroups(p: Pipeline): nat {
    match p case One(c) => CommandGroups(c) case Bar(c, rest) => CommandGroups(c) + PipeGroups(rest)
  }

  function LineGroups(l: Line): nat {
    match l case Last(p, _) => PipeGroups(p) case Semi(p, _, rest) => PipeGroups(p) + LineGroups(rest)
  }

  lemma Levels(t: Tree)
    ensures LineGroups(AsLine(t)) <= PipeGroups(AsBacks(t).0) <= PipeGroups(AsPipe(t)) <= CommandGroups(AsCommand(t))
    ensures CommandGroups(AsCommand(t)) <= 1 + LineGroups(AsLine(t))
  {
  }

  lemma {:induction false} StripWrap(t: Tree, rs: seq<Redirect>)
    ensures Strip(WrapTree(t, rs)).0 == Strip(t).0
  {
    if rs != [] { StripWrap(t, rs[..|rs| - 1]); }
  }

  lemma WrapGroups(t: Tree, rs: seq<Redirect>)
    ensures CommandGroups(AsCommand(WrapTree(t, rs))) <= 1 + LineGroups(AsLine(t))
  {
    Levels(t);
    if rs != [] { StripWrap(t, rs); }
  }

  lemma {:induction false} FewestInCommand(c: Command)
    ensures CommandGroups(AsCommand(CommandTree(c))) <= CommandGroups(c)
    decreases c
  {
    match c
    case Simple(items) => StripWrap(Words(ArgsOf(items)), RedirsOf(items));
    case Group(line, rs) => FewestGroups(line); WrapGroups(LineTree(line), rs);
  }

  lemma {:induction false} FewestInPipe(p: Pipeline)
    ensures PipeGroups(AsPipe(PipeTree(p))) <= PipeGroups(p)
    decreases p, 0
  {
    FewestInCommand(p.cmd);
    match p
    case One(c) => Levels(CommandTree(c));
    case Bar(c, rest) => FewestInPipe(rest);
  }

  lemma {:induction false} FewestInBacks(p: Pipeline, n: nat)
    ensures PipeGroups(AsBacks(Ampersands(PipeTree(p), n)).0) <= PipeGroups(p)
    decreases p, n + 1
  {
    if n == 0 {
      FewestInPipe(p);
      Levels(PipeTree(p));
    } else {
      FewestInBacks(p, n - 1);
      AmpsOutside(PipeTree(p), n - 1);
    }
  }

  /** No sentence with the same meaning has fewer parentheses. */
  lemma {:induction false} FewestGroups(l: Line)
    ensures LineGroups(AsLine(LineTree(l))) <= LineGroups(l)
    decreases l
  {
    FewestInBacks(l.pipe, l.amps);
    match l
    case Last(p, n) => Levels(LineTree(l));
    case Semi(p, n, rest) => FewestGroups(rest);
  }
}
