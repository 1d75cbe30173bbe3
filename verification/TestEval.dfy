/** The test utility of motobox/test.c as it runs: globals t_wp, nargc and t_wp_op, moved forward
    and stepped back by the recursive functions. */
module TestEval {
  import opened Options
  import opened TestLexer
  import P = TestParser

  datatype Result = Value(value: bool) | Exited(error: P.Error)

  /** What t_lex(s) gives while the cursor is at wp. */
  function LexAs(find: Lexicon, args: seq<string>, wp: nat, s: Option<string>): Token {
    match s
    case None => EOI
    case Some(text) =>
      match find(text)
      case None => Operand
      case Some(op) =>
        if wp < |args| && ((op.Unary? && IsOperand(find, args, wp)) || (op.Open? && |args| - wp == 1)) then Operand else Operator(op)
  }

  function Word(args: seq<string>, k: nat): Option<string> { if k < |args| then Some(args[k]) else None }

  lemma LexHere(find: Lexicon, args: seq<string>, wp: nat)
    ensures LexAs(find, args, wp, Word(args, wp)) == P.TokenAt(P.Scan(find, args), wp)
  {
  }

  /** The token seen and t_wp_op agree with the word at k on whether it is a binary operator. */
  predicate Peeked(line: P.Line, k: nat, op: Option<Op>)
    requires P.Aligned(line)
  {
    forall rel :: op == Some(Binary(rel)) <==> P.TokenAt(line, k) == Operator(Binary(rel))
  }

  function OpOf(t: Token): Option<Op> { if t.Operator? then Some(t.op) else None }

  /** Looking one word ahead without moving tells whether that word is a binary operator. */
  lemma LexAhead(find: Lexicon, args: seq<string>, wp: nat, s: Option<string>, t: Token, op: Option<Op>)
    requires wp < |args| && s == Word(args, wp + 1) && t == LexAs(find, args, wp, s) && op == OpOf(t)
    ensures Peeked(P.Scan(find, args), wp + 1, op)
  {
    if wp + 1 < |args| { assert P.Scan(find, args).tokens[wp + 1] == Lex(find, args, wp + 1); }
  }

  class Evaluator {
    const env: P.Env
    const args: seq<string>
    ghost const line: P.Line   // what the words are, one by one
    var wp: int                // t_wp, counted from the first argument
    var nargc: int
    var op: Option<Op>         // t_wp_op

    /** The cursor lies between the first argument and the terminator, and nargc counts the
        words from it on. */
    ghost predicate Valid()
      reads this
    {
      && args != [] && line == P.Scan(Find, args)
      && 0 <= wp && 0 <= nargc && wp + nargc == |args|
    }

    /** The token at the cursor has just been lexed. */
    ghost predicate Lexed(n: Token)
      reads this
    {
      Valid() && n == P.TokenAt(line, wp) && op == OpOf(n)
    }

    /** The state and the result that an outcome of the parser stands for. */
    ghost predicate Reached(o: P.Outcome, r: Result)
      reads this
    {
      match o
      case Fail(e) => r == Exited(e)
      case Ok(v, c) => r == Value(v) && Valid() && wp == c
    }

    constructor (env: P.Env, args: seq<string>)
      requires args != []
      ensures this.env == env && this.args == args && Valid() && wp == 0
    {
      this.env, this.args, wp, nargc, op := env, args, 0, |args|, None;
      line := P.Scan(Find, args);
    }

    method CheckOperand() returns (r: bool)
      requires Valid() && nargc >= 1
      ensures r == IsOperand(Find, args, wp)
    {
      if nargc == 1 { return true; }
      if nargc == 2 { return false; }
      var found := LookUp(args[wp + 1]);
      return found.Some? && found.value.Binary? && args[wp + 2] != ")";
    }

    /** t_lex. */
    method TLex(s: Option<string>) returns (t: Token)
      requires Valid() && (s.Some? ==> nargc >= 1)
      modifies this`op
      ensures t == LexAs(Find, args, wp, s) && op == OpOf(t)
    {
      op := None;
      if s.None? { return EOI; }
      var found := LookUp(s.value);
      if found.None? { return Operand; }
      if found.value.Unary? {
        var operand := CheckOperand();
        if operand { return Operand; }
      }
      if found.value.Open? && nargc == 1 { return Operand; }
      op := found;
      return Operator(found.value);
    }

    /** t_lex on the next word, if there is one: the cursor moves only if nargc is positive. */
    method LexNext() returns (t: Token)
      requires Valid()
      modifies this
      ensures wp == P.Next(line, old(wp)) && Lexed(t)
    {
      var s := None;
      if nargc > 0 {
        nargc := nargc - 1;
        wp := wp + 1;
        s := Word(args, wp);
      }
      t := TLex(s);
      LexHere(Find, args, wp);
    }

    method OExpr(n: Token) returns (r: Result)
      requires Lexed(n)
      modifies this
      ensures Reached(P.OExpr(env, line, old(wp)), r)
      decreases |args| - wp, 3
    {
      r := AExpr(n);
      if r.Exited? { return; }
      var t := LexNext();
      if t == Operator(Or) {
        t := LexNext();
        var res := r.value;
        r := OExpr(t);
        if r.Value? { r := Value(r.value || res); }
      } else {
        wp := wp - 1;
        nargc := nargc + 1;
      }
    }

    method AExpr(n: Token) returns (r: Result)
      requires Lexed(n)
      modifies this
      ensures Reached(P.AExpr(env, line, old(wp)), r)
      decreases |args| - wp, 2
    {
      r := NExpr(n);
      if r.Exited? { return; }
      var t := LexNext();
      if t == Operator(And) {
        t := LexNext();
        var res := r.value;
        r := AExpr(t);
        if r.Value? { r := Value(r.value && res); }
      } else {
        wp := wp - 1;
        nargc := nargc + 1;
      }
    }

    method NExpr(n: Token) returns (r: Result)
      requires Lexed(n)
      modifies this
      ensures Reached(P.NExpr(env, line, old(wp)), r)
      decreases |args| - wp, 1
    {
      if n == Operator(Bang) {
        var t := LexNext();
        r := NExpr(t);
        if r.Value? { r := Value(!r.value); }
      } else {
        r := Primary(n);
      }
    }

    method Primary(n: Token) returns (r: Result)
      requires Lexed(n)
      modifies this
      ensures Reached(P.Primary(env, line, old(wp)), r)
      decreases |args| - wp, 0
    {
      if n == EOI { return Value(false); }
      if n == Operator(Open) {
        r := Paren();
        return;
      }
      if op.Some? && op.value.Unary? {
        r := UnaryTest(n);
        return;
      }
      r := Simple(n);
    }

    /** The unary branch of primary. */
    method UnaryTest(n: Token) returns (r: Result)
      requires Lexed(n) && n.Operator? && n.op.Unary?
      modifies this
      ensures Reached(P.Primary(env, line, old(wp)), r)
    {
      nargc := nargc - 1;
      if nargc == 0 { return Exited(P.ArgumentExpected); }
      wp := wp + 1;
      var v := P.TestUnary(env, op.value.test, args[wp]);
      return if v.None? then Exited(P.BadNumber) else Value(v.value);
    }

    /** The last branches of primary: a comparison, or a word by itself. */
    method Simple(n: Token) returns (r: Result)
      requires Lexed(n) && n != EOI && (n.Operator? ==> !n.op.Unary? && !n.op.Open?)
      modifies this
      ensures Reached(P.Primary(env, line, old(wp)), r)
    {
      PeekNext();
      if op.Some? && op.value.Binary? {
        r := BinOp();
        return;
      }
      return Value(|args[wp]| > 0);
    }

    /** t_lex on the next word, with the cursor left where it is. */
    method PeekNext()
      requires Valid() && nargc >= 1
      modifies this`op
      ensures Peeked(line, wp + 1, op)
    {
      var s := if nargc > 0 then Word(args, wp + 1) else None;
      var t := TLex(s);
      LexAhead(Find, args, wp, s, t, op);
    }

    /** The parenthesised branch of primary. */
    method Paren() returns (r: Result)
      requires Lexed(Operator(Open))
      modifies this
      ensures Reached(P.Paren(env, line, old(wp)), r)
      decreases |args| - wp - 1, 4
    {
      var nn := LexNext();
      if nn == Operator(Close) { return Value(false); }
      r := OExpr(nn);
      if r.Exited? { return; }
      var t := LexNext();
      if t != Operator(Close) { return Exited(P.ParenExpected); }
    }

    method BinOp() returns (r: Result)
      requires Valid() && P.TokenAt(line, wp + 1).Operator? && P.TokenAt(line, wp + 1).op.Binary?
      modifies this
      ensures Reached(P.BinOp(env, line, P.TokenAt(line, old(wp) + 1).op.rel, old(wp)), r)
    {
      var opnd1 := args[wp];
      var t := LexNext();
      var opnd2 := None;
      if nargc > 0 {
        nargc := nargc - 1;
        wp := wp + 1;
        opnd2 := Word(args, wp);
      }
      if opnd2.None? { return Exited(P.ArgumentExpected); }
      var v := P.TestBinary(env, op.value.rel, opnd1, opnd2.value);
      return if v.None? then Exited(P.BadNumber) else Value(v.value);
    }
  }

  /** test_main behind its bracket check. */
  method Run(env: P.Env, args: seq<string>) returns (st: P.Status)
    ensures st == P.Run(env, args)
  {
    if args == [] { return P.Exit(1); }
    var e := new Evaluator(env, args);
    LexHere(Find, args, 0);
    var n := e.TLex(Word(args, 0));
    var r := e.OExpr(n);
    if r.Exited? { return P.Died(r.error); }
    e.nargc := e.nargc - 1;
    if e.nargc > 0 { return P.Died(P.UnexpectedOperator); }
    return P.Exit(if r.value then 0 else 1);
  }

  method TestMain(env: P.Env, p: string, args: seq<string>) returns (st: P.Status)
    ensures st == P.TestMain(env, p, args)
  {
    if p != "[" {
      st := Run(env, args);
    } else if args == [] || args[|args| - 1] != "]" {
      st := P.Died(P.MissingBracket);
    } else {
      st := Run(env, args[..|args| - 1]);
    }
  }
}
