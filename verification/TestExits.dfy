/** What the test utility of motobox/test.c answers to its short forms, and its error exits, for
    every choice of words. */
module TestExits {
  import opened Options
  import opened TestLexer
  import opened TestParser
  import opened TestTexts
  import G = TestGrammar

  function ExitOf(answer: Option<bool>): Status {
    match answer case None => Died(BadNumber) case Some(v) => Exit(if v then 0 else 1)
  }

  /** A primary with no connective behind it is the whole expression. */
  lemma Whole(env: Env, line: Line, wp: nat)
    requires Aligned(line) && wp <= |line.words| && TokenAt(line, wp) != Operator(Bang)
    requires Primary(env, line, wp).Ok? ==>
               && Primary(env, line, wp).at < |line.words|
               && TokenAt(line, Primary(env, line, wp).at + 1) !in {Operator(And), Operator(Or)}
    ensures OExpr(env, line, wp) == Primary(env, line, wp)
  {
    assert NExpr(env, line, wp) == Primary(env, line, wp);
    assert AExpr(env, line, wp) == Primary(env, line, wp);
  }

  /** x op y. */
  lemma Comparison(env: Env, x: string, text: string, y: string)
    requires !IsOperatorText(x) && IsBinaryText(text)
    ensures TestMain(env, "test", [x, text, y]) == ExitOf(SayBinary(env, x, text, y))
  {
    var args := [x, text, y];
    FindNothing(x);
    FindBinary(env, text);
    G.LexOperand(Find, args, 0);
    G.LexPunctuation(Find, args, 1, Find(text).value);
    Whole(env, Scan(Find, args), 0);
  }

  /** op x. */
  lemma UnaryTest(env: Env, text: string, x: string)
    requires IsUnaryText(text) && !IsOperatorText(x)
    ensures TestMain(env, "test", [text, x]) == ExitOf(SayUnary(env, text, x))
  {
    var args := [text, x];
    FindNothing(x);
    FindUnary(env, text);
    G.LexUnary(Find, args, 0);
    Whole(env, Scan(Find, args), 0);
  }

  /** A word by itself, be it an operator or not, is true if it is not empty; no word is false. */
  lemma OneWord(env: Env, x: string)
    requires !IsPunctuation(x) && !IsBinaryText(x)
    ensures TestMain(env, "test", [x]) == Exit(if x != "" then 0 else 1)
    ensures TestMain(env, "test", []) == Exit(1)
  {
    var args := [x];
    if IsUnaryText(x) { FindUnary(env, x); } else { FindNothing(x); }
    assert TokenAt(Scan(Find, args), 0) == Operand;
    Whole(env, Scan(Find, args), 0);
  }

  /** Two words that belong together in no way. */
  lemma LeftOver(env: Env, x: string, y: string)
    requires !IsOperatorText(x) && !IsOperatorText(y)
    ensures TestMain(env, "test", [x, y]) == Died(UnexpectedOperator)
  {
    var args := [x, y];
    FindNothing(x);
    FindNothing(y);
    G.LexOperand(Find, args, 0);
    G.LexOperand(Find, args, 1);
    Whole(env, Scan(Find, args), 0);
  }

  /** A comparison without its right side. */
  lemma NothingToCompare(env: Env, x: string, text: string)
    requires !IsOperatorText(x) && IsBinaryText(text)
    ensures TestMain(env, "test", [x, text]) == Died(ArgumentExpected)
  {
    var args := [x, text];
    FindNothing(x);
    FindBinary(env, text);
    G.LexOperand(Find, args, 0);
    G.LexPunctuation(Find, args, 1, Find(text).value);
    Whole(env, Scan(Find, args), 0);
  }

  /** A parenthesis that is not closed. */
  lemma NotClosed(env: Env, x: string)
    requires !IsOperatorText(x)
    ensures TestMain(env, "test", ["(", x]) == Died(ParenExpected)
  {
    var args := ["(", x];
    FindNothing(x);
    G.FindOpen();
    G.LexPunctuation(Find, args, 0, Open);
    G.LexOperand(Find, args, 1);
    Whole(env, Scan(Find, args), 1);
    Whole(env, Scan(Find, args), 0);
  }

  /** The bracket form without its bracket. */
  lemma NoBracket(env: Env, args: seq<string>)
    requires args == [] || args[|args| - 1] != "]"
    ensures TestMain(env, "[", args) == Died(MissingBracket)
  {
  }

  /** A word that looks like a unary operator is the left side of a comparison that follows it. */
  lemma LooksUnary(env: Env, u: string, text: string, y: string)
    requires IsUnaryText(u) && IsBinaryText(text) && y != ")"
    ensures TestMain(env, "test", [u, text, y]) == ExitOf(SayBinary(env, u, text, y))
  {
    var args := [u, text, y];
    FindUnary(env, u);
    FindBinary(env, text);
    assert TokenAt(Scan(Find, args), 0) == Operand;
    G.LexPunctuation(Find, args, 1, Find(text).value);
    Whole(env, Scan(Find, args), 0);
  }

  /** Not so in front of a closing parenthesis, where it takes the comparison for its argument. */
  lemma LooksClosed(env: Env, u: string, text: string)
    requires IsUnaryText(u) && IsBinaryText(text) && SayUnary(env, u, text).Some?
    ensures TestMain(env, "test", [u, text, ")"]) == Died(UnexpectedOperator)
  {
    var args := [u, text, ")"];
    FindUnary(env, u);
    FindBinary(env, text);
    G.FindClose();
    assert TokenAt(Scan(Find, args), 0) == Operator(Find(u).value);
    G.LexPunctuation(Find, args, 2, Close);
    Whole(env, Scan(Find, args), 0);
  }

  /** A parenthesis by itself is a word like any other, and an empty pair of them is false. */
  lemma Parentheses(env: Env)
    ensures TestMain(env, "test", ["("]) == Exit(0) && TestMain(env, "test", ["(", ")"]) == Exit(1)
  {
    G.FindOpen();
    G.FindClose();
    assert TokenAt(Scan(Find, ["("]), 0) == Operand;
    Whole(env, Scan(Find, ["("]), 0);
    G.LexPunctuation(Find, ["(", ")"], 0, Open);
    G.LexPunctuation(Find, ["(", ")"], 1, Close);
    Whole(env, Scan(Find, ["(", ")"]), 0);
  }
}
