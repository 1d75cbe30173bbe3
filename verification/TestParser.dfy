/** What the recursive descent of motobox/test.c computes, as functions of a cursor. */
module TestParser {
  import opened Options
  import opened TestLexer

  /** The argument vector and what t_lex makes of each word. */
  datatype Line = Line(words: seq<string>, tokens: seq<Token>)

  predicate Aligned(line: Line) { |line.words| == |line.tokens| > 0 }

  function Scan(find: Lexicon, args: seq<string>): (line: Line)
    ensures line.words == args && |line.tokens| == |args|
    ensures forall k :: 0 <= k < |args| ==> line.tokens[k] == Lex(find, args, k)
  {
    Line(args, seq(|args|, k requires 0 <= k < |args| => Lex(find, args, k)))
  }

  function TokenAt(line: Line, wp: nat): Token {
    if wp < |line.tokens| then line.tokens[wp] else EOI
  }

  /** Files, terminals and numbers, which the program asks others about. */
  datatype Env = Env(
    filstat: (string, UnaryTest) -> bool,
    tty: int -> bool,
    getn: string -> Option<int>,        // None is an error exit
    getq: string -> Option<int>,
    newer: (string, string) -> bool,
    same: (string, string) -> bool)

  /** strcmp, of which only the sign counts. */
  function StrCmp(x: string, y: string): int {
    if x == [] && y == [] then 0
    else if x == [] then -1
    else if y == [] then 1
    else if x[0] == y[0] then StrCmp(x[1..], y[1..])
    else if x[0] < y[0] then -1 else 1
  }

  function IntCmp(env: Env, x: string, y: string): Option<int> {
    match (env.getq(x), env.getq(y))
    case (Some(p), Some(q)) => Some(if p > q then 1 else if p < q then -1 else 0)
    case _ => None
  }

  function TestUnary(env: Env, test: UnaryTest, x: string): Option<bool> {
    match test
    case STREZ => Some(|x| == 0)
    case STRNZ => Some(|x| != 0)
    case FILTT => (match env.getn(x) case None => None case Some(fd) => Some(env.tty(fd)))
    case _ => Some(env.filstat(x, test))
  }

  function TestBinary(env: Env, rel: Relation, x: string, y: string): Option<bool> {
    match rel
    case STREQ => Some(StrCmp(x, y) == 0)
    case STRNE => Some(StrCmp(x, y) != 0)
    case STRLT => Some(StrCmp(x, y) < 0)
    case STRGT => Some(StrCmp(x, y) > 0)
    case FILNT => Some(env.newer(x, y))
    case FILOT => Some(env.newer(y, x))
    case FILEQ => Some(env.same(x, y))
    case _ =>
      match IntCmp(env, x, y)
      case None => None
      case Some(c) => Some(Compares(rel, c))
  }

  predicate Compares(rel: Relation, c: int) {
    match rel
    case INTEQ => c == 0
    case INTNE => c != 0
    case INTGE => c >= 0
    case INTGT => c > 0
    case INTLE => c <= 0
    case _ => c < 0
  }

  datatype Error = MissingBracket | ArgumentExpected | ParenExpected | UnexpectedOperator | BadNumber

  /** A value and the cursor it leaves, or an error exit. */
  datatype Outcome = Ok(value: bool, at: nat) | Fail(error: Error)

  /** The cursor after a step forward; at the terminator it stays. */
  function Next(line: Line, c: nat): nat { if c < |line.words| then c + 1 else c }

  /** A cursor is left no further back than it was found, or than the last word. */
  predicate Sane(line: Line, wp: nat, o: Outcome) {
    o.Ok? ==> (o.at >= wp || o.at >= |line.words| - 1) && o.at <= |line.words|
  }

  function OExpr(env: Env, line: Line, wp: nat): (o: Outcome)
    requires Aligned(line) && wp <= |line.words|
    ensures Sane(line, wp, o) && (o.Ok? ==> o.at < |line.words|)
    decreases |line.words| - wp, 3
  {
    match AExpr(env, line, wp)
    case Fail(e) => Fail(e)
    case Ok(v, c) =>
      var k := Next(line, c);
      if TokenAt(line, k) == Operator(Or) then
        match OExpr(env, line, Next(line, k))
        case Fail(e) => Fail(e)
        case Ok(u, d) => Ok(u || v, d)
      else Ok(v, k - 1)
  }

  function AExpr(env: Env, line: Line, wp: nat): (o: Outcome)
    requires Aligned(line) && wp <= |line.words|
    ensures Sane(line, wp, o) && (o.Ok? ==> o.at < |line.words|)
    decreases |line.words| - wp, 2
  {
    match NExpr(env, line, wp)
    case Fail(e) => Fail(e)
    case Ok(v, c) =>
      var k := Next(line, c);
      if TokenAt(line, k) == Operator(And) then
        match AExpr(env, line, Next(line, k))
        case Fail(e) => Fail(e)
        case Ok(u, d) => Ok(u && v, d)
      else Ok(v, k - 1)
  }

  function NExpr(env: Env, line: Line, wp: nat): (o: Outcome)
    requires Aligned(line) && wp <= |line.words|
    ensures Sane(line, wp, o)
    decreases |line.words| - wp, 1
  {
    if TokenAt(line, wp) == Operator(Bang) then
      match NExpr(env, line, Next(line, wp))
      case Fail(e) => Fail(e)
      case Ok(v, c) => Ok(!v, c)
    else Primary(env, line, wp)
  }

  function Primary(env: Env, line: Line, wp: nat): (o: Outcome)
    requires Aligned(line) && wp <= |line.words|
    ensures Sane(line, wp, o)
    decreases |line.words| - wp, 0
  {
    match TokenAt(line, wp)
    case EOI => Ok(false, wp)
    case Operator(Open) => Paren(env, line, wp)
    case Operator(Unary(test)) =>
      if wp + 1 == |line.words| then Fail(ArgumentExpected)
      else (match TestUnary(env, test, line.words[wp + 1]) case None => Fail(BadNumber) case Some(v) => Ok(v, wp + 1))
    case _ =>
      match TokenAt(line, wp + 1)
      case Operator(Binary(rel)) => BinOp(env, line, rel, wp)
      case _ => Ok(|line.words[wp]| > 0, wp)
  }

  function Paren(env: Env, line: Line, wp: nat): (o: Outcome)
    requires Aligned(line) && wp < |line.words|
    ensures Sane(line, wp, o)
    decreases |line.words| - wp - 1, 4
  {
    if TokenAt(line, wp + 1) == Operator(Close) then Ok(false, wp + 1)
    else
      match OExpr(env, line, wp + 1)
      case Fail(e) => Fail(e)
      case Ok(v, c) => if TokenAt(line, Next(line, c)) == Operator(Close) then Ok(v, Next(line, c)) else Fail(ParenExpected)
  }

  function BinOp(env: Env, line: Line, rel: Relation, wp: nat): (o: Outcome)
    requires wp + 1 < |line.words|
    ensures Sane(line, wp, o)
  {
    if wp + 2 == |line.words| then Fail(ArgumentExpected)
    else
      match TestBinary(env, rel, line.words[wp], line.words[wp + 2])
      case None => Fail(BadNumber)
      case Some(v) => Ok(v, wp + 2)
  }

  /** The exit status, 0 for true, or an error exit. */
  datatype Status = Exit(code: nat) | Died(error: Error)

  /** test_main behind its bracket check. */
  function Run(env: Env, args: seq<string>): Status {
    if args == [] then Exit(1)
    else
      match OExpr(env, Scan(Find, args), 0)
      case Fail(e) => Died(e)
      case Ok(v, c) => if c < |args| - 1 then Died(UnexpectedOperator) else Exit(if v then 0 else 1)
  }

  /** test_main, called under its base name p. */
  function TestMain(env: Env, p: string, args: seq<string>): Status {
    if p != "[" then Run(env, args)
    else if args == [] || args[|args| - 1] != "]" then Died(MissingBracket)
    else Run(env, args[..|args| - 1])
  }

  // ---- what the comparisons mean ----

  /** x comes before y in dictionary order: they first differ where x ends or has the smaller
      character. */
  ghost predicate Before(x: string, y: string) {
    exists k: nat :: FirstDifference(x, y, k)
  }

  predicate FirstDifference(x: string, y: string, k: nat) {
    k <= |x| && k < |y| && x[..k] == y[..k] && (k < |x| ==> x[k] < y[k])
  }

  lemma {:induction false} StrCmpIsEquality(x: string, y: string)
    ensures StrCmp(x, y) == 0 <==> x == y
  {
    if x != [] && y != [] && x[0] == y[0] {
      StrCmpIsEquality(x[1..], y[1..]);
      assert x == [x[0]] + x[1..] && y == [y[0]] + y[1..];
    }
  }

  lemma {:induction false} StrCmpFlips(x: string, y: string)
    ensures StrCmp(x, y) < 0 <==> StrCmp(y, x) > 0
  {
    if x != [] && y != [] && x[0] == y[0] { StrCmpFlips(x[1..], y[1..]); }
  }

  lemma {:induction false} LessHasDifference(x: string, y: string) returns (k: nat)
    requires StrCmp(x, y) < 0
    ensures FirstDifference(x, y, k)
  {
    k := 0;
    if x != [] && x[0] == y[0] {
      k := LessHasDifference(x[1..], y[1..]);
      assert x[..k + 1] == [x[0]] + x[1..][..k] && y[..k + 1] == [y[0]] + y[1..][..k];
      k := k + 1;
    }
  }

  lemma {:induction false} DifferenceIsLess(x: string, y: string, k: nat)
    requires FirstDifference(x, y, k)
    ensures StrCmp(x, y) < 0
  {
    if k > 0 {
      assert x[..k][0] == y[..k][0];
      assert x[1..][..k - 1] == x[..k][1..] && y[1..][..k - 1] == y[..k][1..];
      DifferenceIsLess(x[1..], y[1..], k - 1);
    }
  }

  lemma StrCmpIsOrder(x: string, y: string)
    ensures StrCmp(x, y) < 0 <==> Before(x, y)
  {
    if StrCmp(x, y) < 0 {
      var k := LessHasDifference(x, y);
    }
    if k: nat :| FirstDifference(x, y, k) { DifferenceIsLess(x, y, k); }
  }

  /** The comparison operators on strings and on valid numbers. */
  lemma RelationsMean(env: Env, x: string, y: string)
    ensures TestBinary(env, STREQ, x, y) == Some(x == y) && TestBinary(env, STRNE, x, y) == Some(x != y)
    ensures TestBinary(env, STRLT, x, y) == Some(Before(x, y)) && TestBinary(env, STRGT, x, y) == Some(Before(y, x))
    ensures env.getq(x).Some? && env.getq(y).Some? ==>
              var p, q := env.getq(x).value, env.getq(y).value;
              && TestBinary(env, INTEQ, x, y) == Some(p == q) && TestBinary(env, INTNE, x, y) == Some(p != q)
              && TestBinary(env, INTGE, x, y) == Some(p >= q) && TestBinary(env, INTGT, x, y) == Some(p > q)
              && TestBinary(env, INTLE, x, y) == Some(p <= q) && TestBinary(env, INTLT, x, y) == Some(p < q)
  {
    StrCmpIsEquality(x, y);
    StrCmpIsOrder(x, y);
    StrCmpIsOrder(y, x);
    StrCmpFlips(x, y);
    StrCmpFlips(y, x);
  }
}
