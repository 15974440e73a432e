/**
 The part of the POSIX shell (Shell Command Language, POSIX.1-2017) that reads a command line of
 words joined by `&&`: token recognition with quoting (sections 2.2 and 2.3), tilde expansion and
 quote removal (2.6), and the split of a simple command into assignments, name and arguments (2.9.1).
 A line that needs anything else, such as an expansion or another operator, has no reading here.
 */
module PosixShell {
  import opened Wrappers

  /** A character of a word, and whether it was quoted. */
  datatype Ch = Ch(c: char, quoted: bool)

  type Word = seq<Ch>

  datatype Token = Word(chars: Word) | AndIf

  function Quoted(s: string): Word {
    seq(|s|, i requires 0 <= i < |s| => Ch(s[i], true))
  }

  function Unquoted(s: string): Word {
    seq(|s|, i requires 0 <= i < |s| => Ch(s[i], false))
  }

  /** Quote removal. */
  function Chars(w: Word): string {
    seq(|w|, i requires 0 <= i < |w| => w[i].c)
  }

  // ---- Token recognition ----

  predicate Blank(c: char) {
    c == ' ' || c == '\t'
  }

  /** Characters that, unquoted, start an expansion, an operator or a double quote, or match pathnames. */
  predicate Special(c: char) {
    c in "|;<>()$`\"\n*?["
  }

  function Chunk(word: Option<Word>): Word {
    if word.Some? then word.value else []
  }

  function Finish(word: Option<Word>): seq<Token> {
    if word.Some? then [Word(word.value)] else []
  }

  function Before(tokens: seq<Token>, rest: Option<seq<Token>>): Option<seq<Token>> {
    if rest.Some? then Some(tokens + rest.value) else None
  }

  /** Tokens of `s`, `word` being the word under way. */
  function Lex(s: string, word: Option<Word>): Option<seq<Token>>
    decreases |s|
  {
    if s == "" then Some(Finish(word))
    else
      var c, rest := s[0], s[1..];
      if c == '\'' then LexQuoted(rest, Chunk(word))
      else if c == '\\' then
        if rest == "" || rest[0] == '\n' then None else Lex(rest[1..], Some(Chunk(word) + [Ch(rest[0], true)]))
      else if Blank(c) then Before(Finish(word), Lex(rest, None))
      else if c == '&' then
        if rest == "" || rest[0] != '&' then None else Before(Finish(word) + [AndIf], Lex(rest[1..], None))
      else if Special(c) || (c == '#' && word.None?) then None
      else Lex(rest, Some(Chunk(word) + [Ch(c, false)]))
  }

  /** Inside single quotes everything up to the next single quote is literal. */
  function LexQuoted(s: string, word: Word): Option<seq<Token>>
    decreases |s|
  {
    if s == "" then None
    else if s[0] == '\'' then Lex(s[1..], Some(word))
    else LexQuoted(s[1..], word + [Ch(s[0], true)])
  }

  // ---- Words ----

  /** Tilde expansion and quote removal; only a tilde-prefix without a user name is read. */
  function Expand(w: Word, home: string): string {
    if w != [] && w[0] == Ch('~', false) && (|w| == 1 || w[1] == Ch('/', false)) then home + Chars(w[1..])
    else Chars(w)
  }

  predicate NameStart(c: char) {
    'a' <= c <= 'z' || 'A' <= c <= 'Z' || c == '_'
  }

  predicate NameChar(c: char) {
    NameStart(c) || '0' <= c <= '9'
  }

  /** A name (section 3.235 of the Base Definitions). */
  predicate IsName(s: string) {
    s != "" && NameStart(s[0]) && forall i | 0 <= i < |s| :: NameChar(s[i])
  }

  /** The position of the first unquoted `=`. */
  function EqualsAt(w: Word): Option<nat> {
    if w == [] then None
    else if w[0] == Ch('=', false) then Some(0)
    else
      var rest := EqualsAt(w[1..]);
      if rest.Some? then Some(rest.value + 1) else None
  }

  predicate AllUnquoted(w: Word) {
    forall i | 0 <= i < |w| :: !w[i].quoted
  }

  lemma EqualsInRange(w: Word)
    ensures EqualsAt(w).Some? ==> EqualsAt(w).value < |w|
  {
  }

  /** An assignment word: an unquoted name before its first `=`. */
  predicate IsAssignment(w: Word) {
    EqualsInRange(w);
    var at := EqualsAt(w);
    at.Some? && AllUnquoted(w[..at.value]) && IsName(Chars(w[..at.value]))
  }

  datatype Assignment = Assignment(name: string, value: string)

  function ReadAssignment(w: Word): Assignment
    requires IsAssignment(w)
  {
    EqualsInRange(w);
    var at := EqualsAt(w).value;
    Assignment(Chars(w[..at]), Chars(w[at + 1..]))
  }

  // ---- Commands ----

  /** A simple command: the assignments in front, then the expanded name and arguments. */
  datatype Command = Command(env: seq<Assignment>, argv: seq<string>)

  function ExpandAll(words: seq<Word>, home: string): seq<string> {
    seq(|words|, i requires 0 <= i < |words| => Expand(words[i], home))
  }

  function ReadCommand(words: seq<Word>, home: string): Command {
    if words != [] && IsAssignment(words[0]) then
      var rest := ReadCommand(words[1..], home);
      rest.(env := [ReadAssignment(words[0])] + rest.env)
    else Command([], ExpandAll(words, home))
  }

  /** The words up to the first `&&`, and what follows it. */
  function FirstWords(tokens: seq<Token>): seq<Word> {
    if tokens == [] || tokens[0].AndIf? then [] else [tokens[0].chars] + FirstWords(tokens[1..])
  }

  function AfterAnd(tokens: seq<Token>): Option<seq<Token>> {
    if tokens == [] then None
    else if tokens[0].AndIf? then Some(tokens[1..])
    else AfterAnd(tokens[1..])
  }

  lemma AfterAndShrinks(tokens: seq<Token>)
    ensures AfterAnd(tokens).Some? ==> |AfterAnd(tokens).value| < |tokens|
  {
  }

  /** The commands of an and-list, in order. */
  function ReadList(tokens: seq<Token>, home: string): seq<Command>
    decreases |tokens|
  {
    AfterAndShrinks(tokens);
    var first := [ReadCommand(FirstWords(tokens), home)];
    if AfterAnd(tokens).None? then first else first + ReadList(AfterAnd(tokens).value, home)
  }

  /** What a shell whose home directory is `home` runs for a command line. */
  function Read(line: string, home: string): Option<seq<Command>> {
    var tokens := Lex(line, None);
    if tokens.Some? then Some(ReadList(tokens.value, home)) else None
  }

  // ---- The `cd` utility ----

  /** Where `cd` goes: to a directory, home, or back; a null operand is unspecified, other options are errors. */
  datatype Destination = Directory(path: string) | Home | Previous | Unspecified | BadUsage

  /** The operands behind the options `-L` and `-P` and behind `--`; none if another option is given. */
  function CdOperands(args: seq<string>): Option<seq<string>> {
    if args == [] || |args[0]| < 2 || args[0][0] != '-' then Some(args)
    else if args[0] == "--" then Some(args[1..])
    else if forall i | 1 <= i < |args[0]| :: args[0][i] in "LP" then CdOperands(args[1..])
    else None
  }

  /** `cd` of POSIX.1-2017, with `CDPATH` unset, on its arguments. */
  function CdDestination(args: seq<string>): Destination {
    var operands := CdOperands(args);
    if operands.None? || |operands.value| > 1 then BadUsage
    else if operands.value == [] then Home
    else if operands.value[0] == "" then Unspecified
    else if operands.value[0] == "-" then Previous
    else Directory(operands.value[0])
  }

  /** Given alone, a word is the directory it spells exactly if it is not empty and not led by a dash. */
  lemma CdToWord(word: string)
    ensures CdDestination([word]) == Directory(word) <==> word != "" && word[0] != '-'
  {
    if word != "" && word[0] == '-' && |word| >= 2 {
      assert [word][1..] == [] && CdOperands([word][1..]) == Some([]);
    }
  }
}
