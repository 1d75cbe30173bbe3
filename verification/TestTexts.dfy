/** What each operator of the test utility asks, read off its text alone, as the table of
    motobox/test.c and its switches promise it. */
module TestTexts {
  import opened Options
  import opened TestLexer
  import opened TestParser

  /** A dash and a letter. */
  predicate Dashed(text: string, c: char) { |text| == 2 && text[0] == '-' && text[1] == c }

  predicate IsUnaryText(text: string) {
    |text| == 2 && text[0] == '-' && (FileLetter(text[1]).Some? || text[1] == 't' || text[1] == 'z' || text[1] == 'n')
  }

  /** What filstat is asked for. */
  function FileLetter(c: char): Option<UnaryTest> {
    match c
    case 'r' => Some(FILRD)
    case 'w' => Some(FILWR)
    case 'x' => Some(FILEX)
    case 'e' => Some(FILEXIST)
    case 'f' => Some(FILREG)
    case 'd' => Some(FILDIR)
    case 'c' => Some(FILCDEV)
    case 'b' => Some(FILBDEV)
    case 'p' => Some(FILFIFO)
    case 'u' => Some(FILSUID)
    case 'g' => Some(FILSGID)
    case 'k' => Some(FILSTCK)
    case 's' => Some(FILGZ)
    case 'h' => Some(FILSYM)
    case 'L' => Some(FILSYM)
    case 'O' => Some(FILUID)
    case 'G' => Some(FILGID)
    case 'S' => Some(FILSOCK)
    case _ => None
  }

  /** The answer to a unary operator, None for a number that is none. */
  function SayUnary(env: Env, text: string, x: string): Option<bool>
    requires IsUnaryText(text)
  {
    if Dashed(text, 'z') then Some(x == "")
    else if Dashed(text, 'n') then Some(x != "")
    else if Dashed(text, 't') then (if env.getn(x).None? then None else Some(env.tty(env.getn(x).value)))
    else Some(env.filstat(x, FileLetter(text[1]).value))
  }

  /** A single character. */
  predicate Sign(text: string, c: char) { |text| == 1 && text[0] == c }

  /** A dash and two letters. */
  predicate Worded(text: string, c: char, d: char) { |text| == 3 && text[0] == '-' && text[1] == c && text[2] == d }

  predicate Unequal(text: string) { |text| == 2 && text[0] == '!' && text[1] == '=' }

  predicate IsNumberText(text: string) {
    || Worded(text, 'e', 'q') || Worded(text, 'n', 'e') || Worded(text, 'g', 'e')
    || Worded(text, 'g', 't') || Worded(text, 'l', 'e') || Worded(text, 'l', 't')
  }

  predicate IsFileText(text: string) { Worded(text, 'n', 't') || Worded(text, 'o', 't') || Worded(text, 'e', 'f') }

  predicate IsBinaryText(text: string) {
    Sign(text, '=') || Unequal(text) || Sign(text, '<') || Sign(text, '>') || IsNumberText(text) || IsFileText(text)
  }

  /** The answer to a comparison of numbers. */
  predicate NumbersCompare(text: string, p: int, q: int)
    requires IsNumberText(text)
  {
    if Worded(text, 'e', 'q') then p == q
    else if Worded(text, 'n', 'e') then p != q
    else if Worded(text, 'g', 'e') then p >= q
    else if Worded(text, 'g', 't') then p > q
    else if Worded(text, 'l', 'e') then p <= q
    else p < q
  }

  /** The answer to a comparison, None for a number that is none. */
  ghost function SayBinary(env: Env, x: string, text: string, y: string): Option<bool>
    requires IsBinaryText(text)
  {
    if Sign(text, '=') then Some(x == y)
    else if Unequal(text) then Some(x != y)
    else if Sign(text, '<') then Some(Before(x, y))
    else if Sign(text, '>') then Some(Before(y, x))
    else if Worded(text, 'n', 't') then Some(env.newer(x, y))
    else if Worded(text, 'o', 't') then Some(env.newer(y, x))
    else if Worded(text, 'e', 'f') then Some(env.same(x, y))
    else if env.getq(x).None? || env.getq(y).None? then None
    else Some(NumbersCompare(text, env.getq(x).value, env.getq(y).value))
  }

  predicate IsPunctuation(text: string) {
    Sign(text, '!') || Sign(text, '(') || Sign(text, ')') || Dashed(text, 'a') || Dashed(text, 'o')
  }

  predicate IsOperatorText(text: string) { IsUnaryText(text) || IsBinaryText(text) || IsPunctuation(text) }

  // ---- the table agrees ----

  /** A lexicon that knows the texts and their meaning. */
  ghost predicate Knows(find: Lexicon, env: Env) {
    && (forall text :: !IsOperatorText(text) ==> find(text) == None)
    && (forall text :: IsUnaryText(text) ==> KnowsUnary(find, env, text))
    && (forall text :: IsBinaryText(text) ==> KnowsBinary(find, env, text))
    && find("!") == Some(Bang) && find("-a") == Some(And) && find("-o") == Some(Or)
    && find("(") == Some(Open) && find(")") == Some(Close)
  }

  ghost predicate KnowsUnary(find: Lexicon, env: Env, text: string)
    requires IsUnaryText(text)
  {
    find(text).Some? && find(text).value.Unary? && forall x :: TestUnary(env, find(text).value.test, x) == SayUnary(env, text, x)
  }

  ghost predicate KnowsBinary(find: Lexicon, env: Env, text: string)
    requires IsBinaryText(text)
  {
    && find(text).Some? && find(text).value.Binary?
    && forall x, y :: TestBinary(env, find(text).value.rel, x, y) == SayBinary(env, x, text, y)
  }

  lemma FindNothing(text: string)
    requires !IsOperatorText(text)
    ensures Find(text) == None
  {
  }

  predicate NamesTest(text: string, test: UnaryTest) {
    match test
    case STREZ => Dashed(text, 'z')
    case STRNZ => Dashed(text, 'n')
    case FILTT => Dashed(text, 't')
    case _ => |text| == 2 && text[0] == '-' && FileLetter(text[1]) == Some(test)
  }

  lemma FindTest(text: string)
    requires IsUnaryText(text)
    ensures Find(text).Some? && Find(text).value.Unary? && NamesTest(text, Find(text).value.test)
  {
    FindAt(Place(text));
  }

  lemma TestSays(env: Env, text: string, test: UnaryTest, x: string)
    requires IsUnaryText(text) && NamesTest(text, test)
    ensures TestUnary(env, test, x) == SayUnary(env, text, x)
  {
  }

  lemma FindUnary(env: Env, text: string)
    requires IsUnaryText(text)
    ensures KnowsUnary(Find, env, text)
  {
    FindTest(text);
    forall x ensures TestUnary(env, Find(text).value.test, x) == SayUnary(env, text, x) {
      TestSays(env, text, Find(text).value.test, x);
    }
  }

  predicate Names(text: string, rel: Relation) {
    match rel
    case STREQ => Sign(text, '=')
    case STRNE => Unequal(text)
    case STRLT => Sign(text, '<')
    case STRGT => Sign(text, '>')
    case INTEQ => Worded(text, 'e', 'q')
    case INTNE => Worded(text, 'n', 'e')
    case INTGE => Worded(text, 'g', 'e')
    case INTGT => Worded(text, 'g', 't')
    case INTLE => Worded(text, 'l', 'e')
    case INTLT => Worded(text, 'l', 't')
    case FILNT => Worded(text, 'n', 't')
    case FILOT => Worded(text, 'o', 't')
    case FILEQ => Worded(text, 'e', 'f')
  }

  lemma FindRelation(text: string)
    requires IsBinaryText(text)
    ensures Find(text).Some? && Find(text).value.Binary? && Names(text, Find(text).value.rel)
  {
    FindAt(Place(text));
  }

  lemma RelationSays(env: Env, x: string, text: string, rel: Relation, y: string)
    requires IsBinaryText(text) && Names(text, rel)
    ensures TestBinary(env, rel, x, y) == SayBinary(env, x, text, y)
  {
    if rel in {STREQ, STRNE, STRLT, STRGT} {
      RelationsMean(env, x, y);
    }
  }

  lemma FindBinary(env: Env, text: string)
    requires IsBinaryText(text)
    ensures KnowsBinary(Find, env, text)
  {
    FindRelation(text);
    forall x, y ensures TestBinary(env, Find(text).value.rel, x, y) == SayBinary(env, x, text, y) {
      RelationSays(env, x, text, Find(text).value.rel, y);
    }
  }
}
