/** The operators of the test utility in motobox/test.c and how argument words are taken for
    them. */
module TestLexer {
  import opened Options

  datatype UnaryTest =
    | FILRD | FILWR | FILEX | FILEXIST | FILREG | FILDIR | FILCDEV | FILBDEV | FILFIFO | FILSUID
    | FILSGID | FILSTCK | FILGZ | FILTT | STREZ | STRNZ | FILSYM | FILUID | FILGID | FILSOCK

  datatype Relation =
    | STREQ | STRNE | STRLT | STRGT
    | INTEQ | INTNE | INTGE | INTGT | INTLE | INTLT
    | FILNT | FILOT | FILEQ

  datatype Op = Unary(test: UnaryTest) | Binary(rel: Relation) | Bang | And | Or | Open | Close

  datatype Entry = Entry(text: string, op: Op)

  const OPS: nat := 39

  /** The operator table. */
  function OpAt(i: nat): Entry
    requires i < OPS
  {
    match i
    case 0 => Entry("-r", Unary(FILRD))
    case 1 => Entry("-w", Unary(FILWR))
    case 2 => Entry("-x", Unary(FILEX))
    case 3 => Entry("-e", Unary(FILEXIST))
    case 4 => Entry("-f", Unary(FILREG))
    case 5 => Entry("-d", Unary(FILDIR))
    case 6 => Entry("-c", Unary(FILCDEV))
    case 7 => Entry("-b", Unary(FILBDEV))
    case 8 => Entry("-p", Unary(FILFIFO))
    case 9 => Entry("-u", Unary(FILSUID))
    case 10 => Entry("-g", Unary(FILSGID))
    case 11 => Entry("-k", Unary(FILSTCK))
    case 12 => Entry("-s", Unary(FILGZ))
    case 13 => Entry("-t", Unary(FILTT))
    case 14 => Entry("-z", Unary(STREZ))
    case 15 => Entry("-n", Unary(STRNZ))
    case 16 => Entry("-h", Unary(FILSYM))
    case 17 => Entry("-O", Unary(FILUID))
    case 18 => Entry("-G", Unary(FILGID))
    case 19 => Entry("-L", Unary(FILSYM))
    case 20 => Entry("-S", Unary(FILSOCK))
    case 21 => Entry("=", Binary(STREQ))
    case 22 => Entry("!=", Binary(STRNE))
    case 23 => Entry("<", Binary(STRLT))
    case 24 => Entry(">", Binary(STRGT))
    case 25 => Entry("-eq", Binary(INTEQ))
    case 26 => Entry("-ne", Binary(INTNE))
    case 27 => Entry("-ge", Binary(INTGE))
    case 28 => Entry("-gt", Binary(INTGT))
    case 29 => Entry("-le", Binary(INTLE))
    case 30 => Entry("-lt", Binary(INTLT))
    case 31 => Entry("-nt", Binary(FILNT))
    case 32 => Entry("-ot", Binary(FILOT))
    case 33 => Entry("-ef", Binary(FILEQ))
    case 34 => Entry("!", Bang)
    case 35 => Entry("-a", And)
    case 36 => Entry("-o", Or)
    case 37 => Entry("(", Open)
    case _ => Entry(")", Close)
  }

  /** The place of a text in the table, read off its characters. */
  function Place(s: string): nat {
    if |s| == 1 then
      match s[0]
      case '=' => 21
      case '<' => 23
      case '>' => 24
      case '!' => 34
      case '(' => 37
      case ')' => 38
      case _ => OPS
    else if |s| == 2 && s[0] == '-' then
      match s[1]
      case 'r' => 0
      case 'w' => 1
      case 'x' => 2
      case 'e' => 3
      case 'f' => 4
      case 'd' => 5
      case 'c' => 6
      case 'b' => 7
      case 'p' => 8
      case 'u' => 9
      case 'g' => 10
      case 'k' => 11
      case 's' => 12
      case 't' => 13
      case 'z' => 14
      case 'n' => 15
      case 'h' => 16
      case 'O' => 17
      case 'G' => 18
      case 'L' => 19
      case 'S' => 20
      case 'a' => 35
      case 'o' => 36
      case _ => OPS
    else if |s| == 2 then
      if s[0] == '!' && s[1] == '=' then 22 else OPS
    else if |s| == 3 && s[0] == '-' then
      match (s[1], s[2])
      case ('e', 'q') => 25
      case ('n', 'e') => 26
      case ('g', 'e') => 27
      case ('g', 't') => 28
      case ('l', 'e') => 29
      case ('l', 't') => 30
      case ('n', 't') => 31
      case ('o', 't') => 32
      case ('e', 'f') => 33
      case _ => OPS
    else OPS
  }

  /** No text stands twice in the table. */
  lemma PlaceOfOp(i: nat)
    requires i < OPS
    ensures Place(OpAt(i).text) == i
  {
  }

  /** The operator with a text. */
  function Find(s: string): Option<Op> {
    if Place(s) < OPS && OpAt(Place(s)).text == s then Some(OpAt(Place(s)).op) else None
  }

  lemma FindAt(i: nat)
    requires i < OPS
    ensures Find(OpAt(i).text) == Some(OpAt(i).op)
  {
    PlaceOfOp(i);
  }

  /** The search loop of t_lex and isoperand. */
  method LookUp(s: string) returns (r: Option<Op>)
    ensures r == Find(s)
  {
    for i := 0 to OPS
      invariant forall j :: 0 <= j < i ==> OpAt(j).text != s
    {
      var entry := OpAt(i);
      if entry.text == s {
        FindAt(i);
        return Some(entry.op);
      }
    }
    return None;
  }

  /** Which texts are operators; the program's is Find. */
  type Lexicon = string -> Option<Op>

  /** A word in its place: the end, an operand, or an operator. */
  datatype Token = EOI | Operand | Operator(op: Op)

  /** isoperand: is the word at wp, which reads like a unary operator, followed by what makes
      it the left operand of a comparison? */
  predicate IsOperand(find: Lexicon, args: seq<string>, wp: nat)
    requires wp < |args|
  {
    if |args| - wp == 1 then true
    else if |args| - wp == 2 then false
    else find(args[wp + 1]).Some? && find(args[wp + 1]).value.Binary? && args[wp + 2] != ")"
  }

  /** t_lex on the word at the cursor. */
  function Lex(find: Lexicon, args: seq<string>, wp: nat): Token {
    if wp >= |args| then EOI
    else match find(args[wp])
      case None => Operand
      case Some(op) =>
        if (op.Unary? && IsOperand(find, args, wp)) || (op.Open? && |args| - wp == 1) then Operand else Operator(op)
  }
}
