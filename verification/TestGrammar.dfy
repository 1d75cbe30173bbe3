/** Expression trees of the grammar in motobox/test.c, their boolean meaning, and the proof that
    printing a tree and running test on the words gives that meaning. */
module TestGrammar {
  import opened Options
  import opened TestLexer
  import opened TestParser
  import opened TestTexts

  datatype OrExpr = JustAnd(a: AndExpr) | OrElse(a: AndExpr, rest: OrExpr)
  datatype AndExpr = JustNot(n: NotExpr) | AndAlso(n: NotExpr, rest: AndExpr)
  datatype NotExpr = Negate(n: NotExpr) | JustPrim(p: Prim)
  datatype Prim =
    | TestWord(x: string)
    | TestOne(text: string, x: string)
    | TestTwo(x: string, text: string, y: string)
    | Group(o: OrExpr)

  // ---- printing ----

  function WordsO(e: OrExpr): (r: seq<string>)
    ensures |r| > 0
  {
    match e
    case JustAnd(a) => WordsA(a)
    case OrElse(a, rest) => WordsA(a) + ["-o"] + WordsO(rest)
  }

  function WordsA(e: AndExpr): (r: seq<string>)
    ensures |r| > 0
  {
    match e
    case JustNot(n) => WordsN(n)
    case AndAlso(n, rest) => WordsN(n) + ["-a"] + WordsA(rest)
  }

  function WordsN(e: NotExpr): (r: seq<string>)
    ensures |r| > 0
  {
    match e
    case Negate(n) => ["!"] + WordsN(n)
    case JustPrim(p) => WordsP(p)
  }

  function WordsP(p: Prim): (r: seq<string>)
    ensures |r| > 0
  {
    match p
    case TestWord(x) => [x]
    case TestOne(text, x) => [text, x]
    case TestTwo(x, text, y) => [x, text, y]
    case Group(o) => ["("] + WordsO(o) + [")"]
  }

  // ---- trees the program promises to handle ----

  /** Operands are no operator texts (but the right operand of a comparison may be), operator
      texts are those of the table, and numbers are numbers. */
  ghost predicate GoodO(env: Env, e: OrExpr) {
    match e
    case JustAnd(a) => GoodA(env, a)
    case OrElse(a, rest) => GoodA(env, a) && GoodO(env, rest)
  }

  ghost predicate GoodA(env: Env, e: AndExpr) {
    match e
    case JustNot(n) => GoodN(env, n)
    case AndAlso(n, rest) => GoodN(env, n) && GoodA(env, rest)
  }

  ghost predicate GoodN(env: Env, e: NotExpr) {
    match e
    case Negate(n) => GoodN(env, n)
    case JustPrim(p) => GoodP(env, p)
  }

  ghost predicate GoodP(env: Env, p: Prim) {
    match p
    case TestWord(x) => !IsOperatorText(x)
    case TestOne(text, x) => IsUnaryText(text) && !IsOperatorText(x) && SayUnary(env, text, x).Some?
    case TestTwo(x, text, y) => !IsOperatorText(x) && IsBinaryText(text) && SayBinary(env, x, text, y).Some?
    case Group(o) => GoodO(env, o)
  }

  // ---- meaning ----

  ghost predicate MeansO(env: Env, e: OrExpr)
    requires GoodO(env, e)
  {
    match e
    case JustAnd(a) => MeansA(env, a)
    case OrElse(a, rest) => MeansA(env, a) || MeansO(env, rest)
  }

  ghost predicate MeansA(env: Env, e: AndExpr)
    requires GoodA(env, e)
  {
    match e
    case JustNot(n) => MeansN(env, n)
    case AndAlso(n, rest) => MeansN(env, n) && MeansA(env, rest)
  }

  ghost predicate MeansN(env: Env, e: NotExpr)
    requires GoodN(env, e)
  {
    match e
    case Negate(n) => !MeansN(env, n)
    case JustPrim(p) => MeansP(env, p)
  }

  ghost predicate MeansP(env: Env, p: Prim)
    requires GoodP(env, p)
  {
    match p
    case TestWord(x) => x != ""
    case TestOne(text, x) => SayUnary(env, text, x).value
    case TestTwo(x, text, y) => SayBinary(env, x, text, y).value
    case Group(o) => MeansO(env, o)
  }

  // ---- words in their place ----

  predicate Holds(args: seq<string>, at: nat, words: seq<string>) {
    at + |words| <= |args| && args[at..at + |words|] == words
  }

  lemma HoldsParts(args: seq<string>, at: nat, a: seq<string>, b: seq<string>)
    requires Holds(args, at, a + b)
    ensures Holds(args, at, a) && Holds(args, at + |a|, b)
  {
    var w := args[at..at + |a + b|];
    assert w[..|a|] == a && w[|a|..] == b;
    assert args[at..at + |a|] == w[..|a|] && args[at + |a|..at + |a| + |b|] == w[|a|..];
  }

  lemma HoldsWord(args: seq<string>, at: nat, word: string)
    requires Holds(args, at, [word])
    ensures at < |args| && args[at] == word
  {
    assert args[at] == args[at..at + 1][0];
  }

  lemma FindBang() ensures Find("!") == Some(Bang) { FindAt(34); }
  lemma FindAnd() ensures Find("-a") == Some(And) { FindAt(35); }
  lemma FindOr() ensures Find("-o") == Some(Or) { FindAt(36); }
  lemma FindOpen() ensures Find("(") == Some(Open) { FindAt(37); }
  lemma FindClose() ensures Find(")") == Some(Close) { FindAt(38); }

  /** The table knows every text and its meaning. */
  lemma TableKnows(env: Env)
    ensures Knows(Find, env)
  {
    FindBang();
    FindAnd();
    FindOr();
    FindOpen();
    FindClose();
    forall text | !IsOperatorText(text) ensures Find(text) == None { FindNothing(text); }
    forall text | IsUnaryText(text) ensures KnowsUnary(Find, env, text) { FindUnary(env, text); }
    forall text | IsBinaryText(text) ensures KnowsBinary(Find, env, text) { FindBinary(env, text); }
  }

  lemma LexPunctuation(find: Lexicon, args: seq<string>, k: nat, op: Op)
    requires k < |args| && find(args[k]) == Some(op) && !op.Unary? && (op.Open? ==> k + 1 < |args|)
    ensures TokenAt(Scan(find, args), k) == Operator(op)
  {
  }

  lemma LexOperand(find: Lexicon, args: seq<string>, k: nat)
    requires k < |args| && find(args[k]).None?
    ensures TokenAt(Scan(find, args), k) == Operand
  {
  }

  /** A unary operator in front of an operand is one. */
  lemma LexUnary(find: Lexicon, args: seq<string>, k: nat)
    requires k + 1 < |args| && find(args[k]).Some? && find(args[k]).value.Unary? && find(args[k + 1]).None?
    ensures TokenAt(Scan(find, args), k) == Operator(find(args[k]).value)
  {
  }

  lemma LexNotClose(find: Lexicon, args: seq<string>, k: nat)
    requires k < |args| && find(args[k]) != Some(Close)
    ensures TokenAt(Scan(find, args), k) != Operator(Close)
  {
  }

  // ---- what the grammar needs of a lexicon ----

  /** The lexicon knows the punctuation. */
  predicate Punctuated(find: Lexicon) {
    && find("!") == Some(Bang) && find("-a") == Some(And) && find("-o") == Some(Or)
    && find("(") == Some(Open) && find(")") == Some(Close)
  }

  /** A leaf evaluates as meant wherever its words stand. */
  ghost predicate LeafOk(find: Lexicon, env: Env, args: seq<string>, at: nat, p: Prim) {
    !p.Group? && GoodP(env, p) && Holds(args, at, WordsP(p)) ==> LeafFits(env, Scan(find, args), at, p)
  }

  ghost predicate LeafFirst(find: Lexicon, env: Env, p: Prim) {
    !p.Group? && GoodP(env, p) ==> find(WordsP(p)[0]) != Some(Close)
  }

  ghost predicate Apt(find: Lexicon, env: Env) {
    && Punctuated(find)
    && (forall args, at: nat, p :: LeafOk(find, env, args, at, p))
    && (forall p :: LeafFirst(find, env, p))
  }

  lemma KnowsIsApt(find: Lexicon, env: Env)
    requires Knows(find, env)
    ensures Apt(find, env)
  {
    forall args, at: nat, p ensures LeafOk(find, env, args, at, p) {
      if !p.Group? && GoodP(env, p) && Holds(args, at, WordsP(p)) { ParsesLeaf(find, env, args, at, p); }
    }
    forall p ensures LeafFirst(find, env, p) {
      if !p.Group? && GoodP(env, p) { FirstOfLeaf(find, env, p); }
    }
  }

  lemma FirstOfLeaf(find: Lexicon, env: Env, p: Prim)
    requires Knows(find, env) && !p.Group? && GoodP(env, p)
    ensures find(WordsP(p)[0]) != Some(Close)
  {
    match p
    case TestWord(x) => assert find(x) == None;
    case TestOne(text, x) => assert KnowsUnary(find, env, text);
    case TestTwo(x, text, y) => assert find(x) == None;
  }

  // ---- an expression does not begin with a closing parenthesis ----

  lemma {:induction false} FirstO(find: Lexicon, env: Env, e: OrExpr)
    requires Apt(find, env)
    requires GoodO(env, e)
    ensures find(WordsO(e)[0]) != Some(Close)
    decreases e
  {
    FirstA(find, env, e.a);
  }

  lemma {:induction false} FirstA(find: Lexicon, env: Env, e: AndExpr)
    requires Apt(find, env)
    requires GoodA(env, e)
    ensures find(WordsA(e)[0]) != Some(Close)
    decreases e
  {
    FirstN(find, env, e.n);
  }

  lemma {:induction false} FirstN(find: Lexicon, env: Env, e: NotExpr)
    requires Apt(find, env)
    requires GoodN(env, e)
    ensures find(WordsN(e)[0]) != Some(Close)
    decreases e
  {
    if e.JustPrim? { assert WordsN(e) == WordsP(e.p) && LeafFirst(find, env, e.p); }
  }

  // ---- what may follow an expression ----

  predicate EndsO(t: Token) { t == EOI || t == Operator(Close) }
  predicate EndsA(t: Token) { EndsO(t) || t == Operator(Or) }
  predicate EndsN(t: Token) { EndsA(t) || t == Operator(And) }

  lemma UnaryAt(find: Lexicon, env: Env, args: seq<string>, at: nat, test: UnaryTest, v: bool)
    requires at + 1 < |args| && find(args[at]) == Some(Unary(test)) && find(args[at + 1]).None?
    requires TestUnary(env, test, args[at + 1]) == Some(v)
    ensures Primary(env, Scan(find, args), at) == Ok(v, at + 1) && TokenAt(Scan(find, args), at) != Operator(Bang)
  {
    LexUnary(find, args, at);
  }

  lemma BinaryAt(find: Lexicon, env: Env, args: seq<string>, at: nat, rel: Relation, v: bool)
    requires at + 2 < |args| && find(args[at]).None? && find(args[at + 1]) == Some(Binary(rel))
    requires TestBinary(env, rel, args[at], args[at + 2]) == Some(v)
    ensures Primary(env, Scan(find, args), at) == Ok(v, at + 2) && TokenAt(Scan(find, args), at) != Operator(Bang)
  {
    LexOperand(find, args, at);
    LexPunctuation(find, args, at + 1, Binary(rel));
  }

  lemma ParsesOne(find: Lexicon, env: Env, args: seq<string>, at: nat, text: string, x: string)
    requires IsUnaryText(text) && KnowsUnary(find, env, text) && find(x).None? && SayUnary(env, text, x).Some? && Holds(args, at, [text, x])
    ensures Primary(env, Scan(find, args), at) == Ok(SayUnary(env, text, x).value, at + 1)
    ensures TokenAt(Scan(find, args), at) != Operator(Bang)
  {
    HoldsParts(args, at, [text], [x]);
    HoldsWord(args, at, text);
    HoldsWord(args, at + 1, x);
    UnaryAt(find, env, args, at, find(text).value.test, SayUnary(env, text, x).value);
  }

  lemma ParsesTwo(find: Lexicon, env: Env, args: seq<string>, at: nat, x: string, text: string, y: string)
    requires IsBinaryText(text) && KnowsBinary(find, env, text) && find(x).None? && SayBinary(env, x, text, y).Some? && Holds(args, at, [x, text, y])
    ensures Primary(env, Scan(find, args), at) == Ok(SayBinary(env, x, text, y).value, at + 2)
    ensures TokenAt(Scan(find, args), at) != Operator(Bang)
  {
    HoldsParts(args, at, [x, text], [y]);
    HoldsParts(args, at, [x], [text]);
    HoldsWord(args, at, x);
    HoldsWord(args, at + 1, text);
    HoldsWord(args, at + 2, y);
    BinaryAt(find, env, args, at, find(text).value.rel, SayBinary(env, x, text, y).value);
  }

  lemma ParsesLeaf(find: Lexicon, env: Env, args: seq<string>, at: nat, p: Prim)
    requires Knows(find, env) && !p.Group? && GoodP(env, p) && Holds(args, at, WordsP(p))
    ensures LeafFits(env, Scan(find, args), at, p)
  {
    match p
    case TestWord(x) =>
      HoldsWord(args, at, x);
      LexOperand(find, args, at);
    case TestOne(text, x) => ParsesOne(find, env, args, at, text, x);
    case TestTwo(x, text, y) => ParsesTwo(find, env, args, at, x, text, y);
  }

  // ---- trees laid over lexed words ----

  function SizeO(e: OrExpr): (n: nat)
    ensures n == |WordsO(e)| && n > 0
  {
    match e
    case JustAnd(a) => SizeA(a)
    case OrElse(a, rest) => SizeA(a) + 1 + SizeO(rest)
  }

  function SizeA(e: AndExpr): (n: nat)
    ensures n == |WordsA(e)| && n > 0
  {
    match e
    case JustNot(n) => SizeN(n)
    case AndAlso(n, rest) => SizeN(n) + 1 + SizeA(rest)
  }

  function SizeN(e: NotExpr): (n: nat)
    ensures n == |WordsN(e)| && n > 0
  {
    match e
    case Negate(n) => 1 + SizeN(n)
    case JustPrim(p) => SizeP(p)
  }

  function SizeP(p: Prim): (n: nat)
    ensures n == |WordsP(p)| && n > 0
  {
    match p
    case TestWord(_) => 1
    case TestOne(_, _) => 2
    case TestTwo(_, _, _) => 3
    case Group(o) => SizeO(o) + 2
  }

  /** The words at `at` are those of e: punctuation is lexed as such, leaves evaluate as meant. */
  ghost predicate FitsO(env: Env, line: Line, at: nat, e: OrExpr)
    requires Aligned(line) && GoodO(env, e)
    decreases e
  {
    match e
    case JustAnd(a) => FitsA(env, line, at, a)
    case OrElse(a, rest) =>
      FitsA(env, line, at, a) && TokenAt(line, at + SizeA(a)) == Operator(Or) && FitsO(env, line, at + SizeA(a) + 1, rest)
  }

  ghost predicate FitsA(env: Env, line: Line, at: nat, e: AndExpr)
    requires Aligned(line) && GoodA(env, e)
    decreases e
  {
    match e
    case JustNot(n) => FitsN(env, line, at, n)
    case AndAlso(n, rest) =>
      FitsN(env, line, at, n) && TokenAt(line, at + SizeN(n)) == Operator(And) && FitsA(env, line, at + SizeN(n) + 1, rest)
  }

  ghost predicate FitsN(env: Env, line: Line, at: nat, e: NotExpr)
    requires Aligned(line) && GoodN(env, e)
    decreases e
  {
    match e
    case Negate(n) => TokenAt(line, at) == Operator(Bang) && FitsN(env, line, at + 1, n)
    case JustPrim(p) => FitsP(env, line, at, p)
  }

  ghost predicate FitsP(env: Env, line: Line, at: nat, p: Prim)
    requires Aligned(line) && GoodP(env, p)
    decreases p
  {
    match p
    case Group(o) =>
      && TokenAt(line, at) == Operator(Open) && TokenAt(line, at + 1) != Operator(Close)
      && FitsO(env, line, at + 1, o) && TokenAt(line, at + 1 + SizeO(o)) == Operator(Close)
    case _ => LeafFits(env, line, at, p)
  }

  ghost predicate LeafFits(env: Env, line: Line, at: nat, p: Prim)
    requires Aligned(line) && GoodP(env, p)
  {
    && at + SizeP(p) <= |line.words| && TokenAt(line, at) != Operator(Bang)
    && (EndsN(TokenAt(line, at + SizeP(p))) ==> Primary(env, line, at) == Ok(MeansP(env, p), at + SizeP(p) - 1))
  }

  // ---- the parser on such words ----

  /** A conjunction up to word c, and then the end of the disjunction, or "-o" and the rest of it. */
  lemma {:induction false} JoinsO(env: Env, line: Line, at: nat, v: bool, c: nat, u: bool, d: nat)
    requires Aligned(line) && at <= |line.words| && AExpr(env, line, at) == Ok(v, c)
    requires TokenAt(line, c + 1) == Operator(Or) ==> c + 2 <= |line.words| && OExpr(env, line, c + 2) == Ok(u, d)
    ensures OExpr(env, line, at) == if TokenAt(line, c + 1) == Operator(Or) then Ok(v || u, d) else Ok(v, c)
  {
  }

  lemma {:induction false} JoinsA(env: Env, line: Line, at: nat, v: bool, c: nat, u: bool, d: nat)
    requires Aligned(line) && at <= |line.words| && NExpr(env, line, at) == Ok(v, c) && c < |line.words|
    requires TokenAt(line, c + 1) == Operator(And) ==> c + 2 <= |line.words| && AExpr(env, line, c + 2) == Ok(u, d)
    ensures AExpr(env, line, at) == if TokenAt(line, c + 1) == Operator(And) then Ok(v && u, d) else Ok(v, c)
  {
  }

  lemma {:induction false} ParsesO(env: Env, line: Line, at: nat, e: OrExpr)
    requires Aligned(line) && GoodO(env, e) && FitsO(env, line, at, e) && at + SizeO(e) <= |line.words|
    requires EndsO(TokenAt(line, at + SizeO(e)))
    ensures OExpr(env, line, at) == Ok(MeansO(env, e), at + SizeO(e) - 1)
    decreases e
  {
    match e
    case JustAnd(a) =>
      ParsesA(env, line, at, a);
      JoinsO(env, line, at, MeansA(env, a), at + SizeA(a) - 1, false, 0);
    case OrElse(a, rest) =>
      var c, d := at + SizeA(a) - 1, at + SizeO(e) - 1;
      ParsesA(env, line, at, a);
      ParsesO(env, line, c + 2, rest);
      JoinsO(env, line, at, MeansA(env, a), c, MeansO(env, rest), d);
  }

  lemma {:induction false} ParsesA(env: Env, line: Line, at: nat, e: AndExpr)
    requires Aligned(line) && GoodA(env, e) && FitsA(env, line, at, e) && at + SizeA(e) <= |line.words|
    requires EndsA(TokenAt(line, at + SizeA(e)))
    ensures AExpr(env, line, at) == Ok(MeansA(env, e), at + SizeA(e) - 1)
    decreases e
  {
    match e
    case JustNot(n) =>
      ParsesN(env, line, at, n);
      JoinsA(env, line, at, MeansN(env, n), at + SizeN(n) - 1, false, 0);
    case AndAlso(n, rest) =>
      var c, d := at + SizeN(n) - 1, at + SizeA(e) - 1;
      ParsesN(env, line, at, n);
      ParsesA(env, line, c + 2, rest);
      JoinsA(env, line, at, MeansN(env, n), c, MeansA(env, rest), d);
  }

  lemma {:induction false} ParsesN(env: Env, line: Line, at: nat, e: NotExpr)
    requires Aligned(line) && GoodN(env, e) && FitsN(env, line, at, e) && at + SizeN(e) <= |line.words|
    requires EndsN(TokenAt(line, at + SizeN(e)))
    ensures NExpr(env, line, at) == Ok(MeansN(env, e), at + SizeN(e) - 1)
    decreases e
  {
    match e
    case Negate(n) => ParsesN(env, line, at + 1, n);
    case JustPrim(p) => ParsesP(env, line, at, p);
  }

  lemma {:induction false} ParsesP(env: Env, line: Line, at: nat, p: Prim)
    requires Aligned(line) && GoodP(env, p) && FitsP(env, line, at, p) && at + SizeP(p) <= |line.words|
    requires EndsN(TokenAt(line, at + SizeP(p)))
    ensures Primary(env, line, at) == Ok(MeansP(env, p), at + SizeP(p) - 1) && TokenAt(line, at) != Operator(Bang)
    decreases p
  {
    if p.Group? { ParsesO(env, line, at + 1, p.o); }
  }

  // ---- printed words are such words ----

  lemma {:induction false} MakeOr(env: Env, line: Line, at: nat, a: AndExpr, rest: OrExpr)
    requires Aligned(line) && GoodA(env, a) && GoodO(env, rest) && FitsA(env, line, at, a)
    requires TokenAt(line, at + SizeA(a)) == Operator(Or) && FitsO(env, line, at + SizeA(a) + 1, rest)
    ensures GoodO(env, OrElse(a, rest)) && FitsO(env, line, at, OrElse(a, rest))
  {
  }

  lemma {:induction false} MakeAnd(env: Env, line: Line, at: nat, n: NotExpr, rest: AndExpr)
    requires Aligned(line) && GoodN(env, n) && GoodA(env, rest) && FitsN(env, line, at, n)
    requires TokenAt(line, at + SizeN(n)) == Operator(And) && FitsA(env, line, at + SizeN(n) + 1, rest)
    ensures GoodA(env, AndAlso(n, rest)) && FitsA(env, line, at, AndAlso(n, rest))
  {
  }

  lemma MakeGroup(env: Env, line: Line, at: nat, o: OrExpr)
    requires Aligned(line) && GoodO(env, o) && FitsO(env, line, at + 1, o)
    requires TokenAt(line, at) == Operator(Open) && TokenAt(line, at + 1) != Operator(Close)
    requires TokenAt(line, at + 1 + SizeO(o)) == Operator(Close)
    ensures FitsP(env, line, at, Group(o))
  {
  }

  lemma {:induction false} LaysO(find: Lexicon, env: Env, args: seq<string>, at: nat, e: OrExpr)
    requires Apt(find, env) && GoodO(env, e) && Holds(args, at, WordsO(e))
    ensures FitsO(env, Scan(find, args), at, e)
    decreases e, 1
  {
    match e
    case JustAnd(a) => LaysA(find, env, args, at, a);
    case OrElse(a, rest) => LaysOrElse(find, env, args, at, a, rest);
  }

  lemma {:induction false} LaysOrElse(find: Lexicon, env: Env, args: seq<string>, at: nat, a: AndExpr, rest: OrExpr)
    requires Apt(find, env) && GoodA(env, a) && GoodO(env, rest) && Holds(args, at, WordsO(OrElse(a, rest)))
    ensures GoodO(env, OrElse(a, rest)) && FitsO(env, Scan(find, args), at, OrElse(a, rest))
    decreases OrElse(a, rest), 0
  {
    LaysOr(find, env, args, at, a, rest);
    LaysO(find, env, args, at + SizeA(a) + 1, rest);
    LaysA(find, env, args, at, a);
    MakeOr(env, Scan(find, args), at, a, rest);
  }

  lemma {:induction false} LaysA(find: Lexicon, env: Env, args: seq<string>, at: nat, e: AndExpr)
    requires Apt(find, env) && GoodA(env, e) && Holds(args, at, WordsA(e))
    ensures FitsA(env, Scan(find, args), at, e)
    decreases e, 1
  {
    match e
    case JustNot(n) => LaysN(find, env, args, at, n);
    case AndAlso(n, rest) => LaysAndAlso(find, env, args, at, n, rest);
  }

  lemma {:induction false} LaysAndAlso(find: Lexicon, env: Env, args: seq<string>, at: nat, n: NotExpr, rest: AndExpr)
    requires Apt(find, env) && GoodN(env, n) && GoodA(env, rest) && Holds(args, at, WordsA(AndAlso(n, rest)))
    ensures GoodA(env, AndAlso(n, rest)) && FitsA(env, Scan(find, args), at, AndAlso(n, rest))
    decreases AndAlso(n, rest), 0
  {
    LaysAnd(find, env, args, at, n, rest);
    LaysA(find, env, args, at + SizeN(n) + 1, rest);
    LaysN(find, env, args, at, n);
    MakeAnd(env, Scan(find, args), at, n, rest);
  }

  lemma {:induction false} LaysN(find: Lexicon, env: Env, args: seq<string>, at: nat, e: NotExpr)
    requires Apt(find, env)
    requires GoodN(env, e) && Holds(args, at, WordsN(e))
    ensures FitsN(env, Scan(find, args), at, e)
    decreases e, 1
  {
    match e
    case Negate(n) =>
      HoldsParts(args, at, ["!"], WordsN(n));
      HoldsWord(args, at, "!");
      LexPunctuation(find, args, at, Bang);
      LaysN(find, env, args, at + 1, n);
    case JustPrim(p) => LaysP(find, env, args, at, p);
  }

  lemma {:induction false} LaysP(find: Lexicon, env: Env, args: seq<string>, at: nat, p: Prim)
    requires Apt(find, env)
    requires GoodP(env, p) && Holds(args, at, WordsP(p))
    ensures FitsP(env, Scan(find, args), at, p)
    decreases p, 1
  {
    if p.Group? {
      LaysGroup(find, env, args, at, p.o);
      LaysO(find, env, args, at + 1, p.o);
      MakeGroup(env, Scan(find, args), at, p.o);
    } else {
      assert LeafOk(find, env, args, at, p);
    }
  }

  lemma LaysJoint(find: Lexicon, args: seq<string>, at: nat, a: seq<string>, word: string, op: Op, b: seq<string>)
    requires Holds(args, at, a + [word] + b) && find(word) == Some(op) && op in {And, Or}
    ensures Holds(args, at, a) && TokenAt(Scan(find, args), at + |a|) == Operator(op) && Holds(args, at + |a| + 1, b)
  {
    HoldsParts(args, at, a + [word], b);
    HoldsParts(args, at, a, [word]);
    HoldsWord(args, at + |a|, word);
    LexPunctuation(find, args, at + |a|, op);
  }

  lemma {:induction false} LaysOr(find: Lexicon, env: Env, args: seq<string>, at: nat, a: AndExpr, rest: OrExpr)
    requires Apt(find, env) && Holds(args, at, WordsO(OrElse(a, rest)))
    ensures Holds(args, at, WordsA(a)) && TokenAt(Scan(find, args), at + SizeA(a)) == Operator(Or)
    ensures Holds(args, at + SizeA(a) + 1, WordsO(rest))
  {
    assert WordsO(OrElse(a, rest)) == WordsA(a) + ["-o"] + WordsO(rest);
    LaysJoint(find, args, at, WordsA(a), "-o", Or, WordsO(rest));
  }

  lemma {:induction false} LaysAnd(find: Lexicon, env: Env, args: seq<string>, at: nat, n: NotExpr, rest: AndExpr)
    requires Apt(find, env) && Holds(args, at, WordsA(AndAlso(n, rest)))
    ensures Holds(args, at, WordsN(n)) && TokenAt(Scan(find, args), at + SizeN(n)) == Operator(And)
    ensures Holds(args, at + SizeN(n) + 1, WordsA(rest))
  {
    assert WordsA(AndAlso(n, rest)) == WordsN(n) + ["-a"] + WordsA(rest);
    LaysJoint(find, args, at, WordsN(n), "-a", And, WordsA(rest));
  }

  lemma LaysGroup(find: Lexicon, env: Env, args: seq<string>, at: nat, o: OrExpr)
    requires Apt(find, env)
    requires GoodO(env, o) && Holds(args, at, ["("] + WordsO(o) + [")"])
    ensures Holds(args, at + 1, WordsO(o)) && TokenAt(Scan(find, args), at + 1) != Operator(Close)
    ensures TokenAt(Scan(find, args), at) == Operator(Open) && TokenAt(Scan(find, args), at + 1 + SizeO(o)) == Operator(Close)
  {
    FirstO(find, env, o);
    LaysParens(find, env, args, at, WordsO(o));
  }

  lemma LaysParens(find: Lexicon, env: Env, args: seq<string>, at: nat, words: seq<string>)
    requires Apt(find, env)
    requires Holds(args, at, ["("] + words + [")"]) && words != [] && find(words[0]) != Some(Close)
    ensures Holds(args, at + 1, words) && TokenAt(Scan(find, args), at + 1) != Operator(Close)
    ensures TokenAt(Scan(find, args), at) == Operator(Open) && TokenAt(Scan(find, args), at + 1 + |words|) == Operator(Close)
  {
    HoldsParts(args, at, ["("] + words, [")"]);
    HoldsParts(args, at, ["("], words);
    HoldsWord(args, at, "(");
    HoldsWord(args, at + 1 + |words|, ")");
    LexPunctuation(find, args, at, Open);
    LexPunctuation(find, args, at + 1 + |words|, Close);
    assert args[at + 1..at + 1 + |words|][0] == args[at + 1];
    LexNotClose(find, args, at + 1);
  }

  lemma RunsTree(env: Env, e: OrExpr)
    requires GoodO(env, e)
    ensures Run(env, WordsO(e)) == Exit(if MeansO(env, e) then 0 else 1)
  {
    var args := WordsO(e);
    assert Apt(Find, env) by {
      TableKnows(env);
      KnowsIsApt(Find, env);
    }
    LaysO(Find, env, args, 0, e);
    ParsesO(env, Scan(Find, args), 0, e);
  }

  /** Printing a tree and running test on the words exits with the tree's meaning. */
  lemma PrintedTreeIsEvaluated(env: Env, e: OrExpr)
    requires GoodO(env, e)
    ensures TestMain(env, "test", WordsO(e)) == Exit(if MeansO(env, e) then 0 else 1)
    ensures TestMain(env, "[", WordsO(e) + ["]"]) == Exit(if MeansO(env, e) then 0 else 1)
  {
    var args := WordsO(e);
    RunsTree(env, e);
    assert (args + ["]"])[..|args|] == args;
  }
}
