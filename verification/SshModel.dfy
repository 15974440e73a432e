/** The remote command line of `ssh.rs`, and what a POSIX shell makes of it. */
module SshModel {
  import opened Wrappers
  import opened PosixShell

  // ---- The printer ----

  /** `s.replace('\'', "'\\''")` */
  function ReplaceQuotes(s: string): string {
    if s == "" then ""
    else (if s[0] == '\'' then "'\\''" else [s[0]]) + ReplaceQuotes(s[1..])
  }

  function ShellEscape(s: string): string {
    "'" + ReplaceQuotes(s) + "'"
  }

  function ShellEscapePath(s: string): string {
    if s == "~" then "~"
    else if "~/" <= s then "~/" + ShellEscape(s[2..])
    else ShellEscape(s)
  }

  /** An environment prefix of the command: an escaped value, or a bare safe one. */
  datatype EnvPart = EnvPart(key: string, value: string, escaped: bool)

  function EnvText(p: EnvPart): string {
    p.key + "=" + if p.escaped then ShellEscape(p.value) else p.value
  }

  function TierParts(opus: string, sonnet: string, haiku: string): seq<EnvPart> {
    [EnvPart("ANTHROPIC_MODEL", sonnet, true),
     EnvPart("ANTHROPIC_DEFAULT_OPUS_MODEL", opus, true),
     EnvPart("ANTHROPIC_DEFAULT_SONNET_MODEL", sonnet, true),
     EnvPart("ANTHROPIC_DEFAULT_HAIKU_MODEL", haiku, true)]
  }

  /** `resolve_model_tiers` */
  function ModelTiers(models: seq<string>): seq<EnvPart> {
    if |models| == 0 then []
    else if |models| == 1 then TierParts(models[0], models[0], models[0])
    else if |models| == 2 then TierParts(models[0], models[0], models[1])
    else if models[1] == "" then []
    else TierParts(if models[0] == "" then models[1] else models[0], models[1], if models[2] == "" then models[1] else models[2])
  }

  predicate KeyChar(c: char) {
    'A' <= c <= 'Z' || '0' <= c <= '9' || c == '_'
  }

  /** The filter on extra environment keys. */
  predicate KeyAccepted(key: string) {
    forall i | 0 <= i < |key| :: KeyChar(key[i])
  }

  function ExtraParts(extra: seq<(string, string)>): seq<EnvPart> {
    if extra == [] then []
    else
      var (k, v) := extra[|extra| - 1];
      ExtraParts(extra[..|extra| - 1]) + if KeyAccepted(k) then [EnvPart(k, v, true)] else []
  }

  /** The extra environment is a map walked in some order, here the order of the sequence. */
  datatype Request = Request(
    cwd: string,
    bin: Option<string>,
    args: seq<string>,
    apiKey: Option<string>,
    authToken: Option<string>,
    baseUrl: Option<string>,
    models: Option<seq<string>>,
    extraEnv: seq<(string, string)>)

  function Bin(r: Request): string {
    if r.bin.Some? then r.bin.value else "claude"
  }

  /** A key clears the token of the other kind, and the other way round. */
  function CredentialParts(r: Request): seq<EnvPart> {
    (if r.apiKey.Some? then
       [EnvPart("ANTHROPIC_API_KEY", r.apiKey.value, true), EnvPart("ANTHROPIC_AUTH_TOKEN", "", false)]
     else []) +
    (if r.authToken.Some? then
       [EnvPart("ANTHROPIC_AUTH_TOKEN", r.authToken.value, true), EnvPart("ANTHROPIC_API_KEY", "", false)]
     else []) +
    (if r.baseUrl.Some? then [EnvPart("ANTHROPIC_BASE_URL", r.baseUrl.value, true)] else [])
  }

  function EnvParts(r: Request): seq<EnvPart> {
    CredentialParts(r)
    + (if r.models.Some? then ModelTiers(r.models.value) else [])
    + ExtraParts(r.extraEnv)
    + [EnvPart("CLAUDE_CODE_ENABLE_SDK_FILE_CHECKPOINTING", "1", false)]
  }

  function EnvTexts(parts: seq<EnvPart>): seq<string> {
    seq(|parts|, i requires 0 <= i < |parts| => EnvText(parts[i]))
  }

  function ArgTexts(args: seq<string>): seq<string> {
    seq(|args|, i requires 0 <= i < |args| => ShellEscape(args[i]))
  }

  function ClaudeTexts(r: Request): seq<string> {
    EnvTexts(EnvParts(r)) + [ShellEscapePath(Bin(r))] + ArgTexts(r.args)
  }

  function Join(parts: seq<string>, separator: string): string {
    if parts == [] then ""
    else if |parts| == 1 then parts[0]
    else parts[0] + separator + Join(parts[1..], separator)
  }

  function Build(r: Request): string {
    Join(["cd " + ShellEscapePath(r.cwd), Join(ClaudeTexts(r), " ")], " && ")
  }

  // ---- What the words should be ----

  function PathWord(s: string): Word {
    if s == "~" then Unquoted("~")
    else if "~/" <= s then Unquoted("~/") + Quoted(s[2..])
    else Quoted(s)
  }

  function EnvWord(p: EnvPart): Word {
    Unquoted(p.key + "=") + if p.escaped then Quoted(p.value) else Unquoted(p.value)
  }

  function EnvWords(parts: seq<EnvPart>): seq<Word> {
    seq(|parts|, i requires 0 <= i < |parts| => EnvWord(parts[i]))
  }

  function ArgWords(args: seq<string>): seq<Word> {
    seq(|args|, i requires 0 <= i < |args| => Quoted(args[i]))
  }

  function ClaudeWords(r: Request): seq<Word> {
    EnvWords(EnvParts(r)) + [PathWord(Bin(r))] + ArgWords(r.args)
  }

  function WordTokens(words: seq<Word>): seq<Token> {
    seq(|words|, i requires 0 <= i < |words| => Word(words[i]))
  }

  function ExpectedTokens(r: Request): seq<Token> {
    [Word(Unquoted("cd")), Word(PathWord(r.cwd)), AndIf] + WordTokens(ClaudeWords(r))
  }

  // ---- Quoting round trip ----

  lemma {:induction false} QuotedText(s: string, tail: string, word: Word)
    ensures LexQuoted(ReplaceQuotes(s) + "'" + tail, word) == Lex(tail, Some(word + Quoted(s)))
    decreases |s|
  {
    if s == "" {
      assert ReplaceQuotes(s) + "'" + tail == "'" + tail;
      assert ("'" + tail)[1..] == tail;
      assert word + Quoted(s) == word;
    } else {
      var rest := ReplaceQuotes(s[1..]) + "'" + tail;
      var longer := word + [Ch(s[0], true)];
      QuotedText(s[1..], tail, longer);
      assert longer + Quoted(s[1..]) == word + Quoted(s);
      if s[0] == '\'' {
        QuoteInQuotes(rest, word);
        assert ReplaceQuotes(s) + "'" + tail == "'\\''" + rest;
      } else {
        assert ReplaceQuotes(s) + "'" + tail == [s[0]] + rest;
        assert ([s[0]] + rest)[1..] == rest;
      }
    }
  }

  /** Close the quotes, an escaped quote, open them again. */
  lemma QuoteInQuotes(rest: string, word: Word)
    ensures LexQuoted("'\\''" + rest, word) == LexQuoted(rest, word + [Ch('\'', true)])
  {
    assert ("'\\''" + rest)[1..] == "\\''" + rest;
    assert ("\\''" + rest)[1..] == "''" + rest;
    assert ("''" + rest)[1..] == "'" + rest;
    assert ("'" + rest)[1..] == rest;
    assert Lex("\\''" + rest, Some(word)) == Lex("'" + rest, Some(word + [Ch('\'', true)]));
  }

  /** Any string at all, escaped, is read back as itself and fully quoted. */
  lemma EscapedText(s: string, tail: string, word: Option<Word>)
    ensures Lex(ShellEscape(s) + tail, word) == Lex(tail, Some(Chunk(word) + Quoted(s)))
  {
    var text := ReplaceQuotes(s) + "'" + tail;
    assert ShellEscape(s) + tail == "'" + text;
    assert ("'" + text)[1..] == text;
    QuotedText(s, tail, Chunk(word));
  }

  /** Characters a shell takes as they are, anywhere in a word. */
  predicate Plain(c: char) {
    NameChar(c) || c == '=' || c == '~' || c == '/'
  }

  lemma {:induction false} PlainText(s: string, tail: string, word: Option<Word>)
    requires s != "" && forall i | 0 <= i < |s| :: Plain(s[i])
    ensures Lex(s + tail, word) == Lex(tail, Some(Chunk(word) + Unquoted(s)))
    decreases |s|
  {
    assert s + tail == [s[0]] + (s[1..] + tail);
    assert ([s[0]] + (s[1..] + tail))[1..] == s[1..] + tail;
    PlainIsNotSpecial(s[0]);
    var word' := Some(Chunk(word) + [Ch(s[0], false)]);
    if |s| == 1 {
      assert s[1..] + tail == tail;
      assert Unquoted(s) == [Ch(s[0], false)];
    } else {
      PlainText(s[1..], tail, word');
      assert Chunk(word) + Unquoted(s) == Chunk(word') + Unquoted(s[1..]);
    }
  }

  lemma PlainIsNotSpecial(c: char)
    requires Plain(c)
    ensures !Special(c) && !Blank(c) && c != '\'' && c != '\\' && c != '&' && c != '#'
  {
  }

  /** `text` is a printed form of `word`: read at the start of a word, it is that word so far. */
  ghost predicate Prints(text: string, word: Word) {
    forall tail :: Lex(text + tail, None) == Lex(tail, Some(word))
  }

  lemma EscapePrints(s: string)
    ensures Prints(ShellEscape(s), Quoted(s))
  {
    forall tail ensures Lex(ShellEscape(s) + tail, None) == Lex(tail, Some(Quoted(s))) {
      EscapedText(s, tail, None);
      assert Chunk(None) + Quoted(s) == Quoted(s);
    }
  }

  lemma PathPrints(s: string)
    ensures Prints(ShellEscapePath(s), PathWord(s))
  {
    if s == "~" {
      forall tail ensures Lex("~" + tail, None) == Lex(tail, Some(Unquoted("~"))) {
        PlainText("~", tail, None);
        assert Chunk(None) + Unquoted("~") == Unquoted("~");
      }
    } else if "~/" <= s {
      forall tail ensures Lex(ShellEscapePath(s) + tail, None) == Lex(tail, Some(PathWord(s))) {
        var escaped := ShellEscape(s[2..]);
        assert ShellEscapePath(s) + tail == "~/" + (escaped + tail);
        PlainText("~/", escaped + tail, None);
        assert Chunk(None) + Unquoted("~/") == Unquoted("~/");
        EscapedText(s[2..], tail, Some(Unquoted("~/")));
      }
    } else {
      EscapePrints(s);
    }
  }

  /** What the builder prints as an environment prefix: a safe key, and a bare value only if safe. */
  predicate SafePart(p: EnvPart) {
    KeyAccepted(p.key) && (!p.escaped ==> KeyAccepted(p.value))
  }

  lemma EnvPrints(p: EnvPart)
    requires SafePart(p)
    ensures Prints(EnvText(p), EnvWord(p))
  {
    var front := p.key + "=";
    forall tail ensures Lex(EnvText(p) + tail, None) == Lex(tail, Some(EnvWord(p))) {
      if p.escaped {
        assert EnvText(p) + tail == front + (ShellEscape(p.value) + tail);
        PlainText(front, ShellEscape(p.value) + tail, None);
        assert Chunk(None) + Unquoted(front) == Unquoted(front);
        EscapedText(p.value, tail, Some(Unquoted(front)));
      } else {
        PlainText(front + p.value, tail, None);
        assert EnvText(p) == front + p.value;
        assert Chunk(None) + Unquoted(front + p.value) == EnvWord(p);
      }
    }
  }

  // ---- The whole line ----

  lemma {:induction false} ExtraPartsSafe(extra: seq<(string, string)>)
    ensures forall i | 0 <= i < |ExtraParts(extra)| :: SafePart(ExtraParts(extra)[i]) && ExtraParts(extra)[i].escaped
  {
    if extra != [] {
      ExtraPartsSafe(extra[..|extra| - 1]);
    }
  }

  ghost predicate AllSafe(parts: seq<EnvPart>) {
    forall i | 0 <= i < |parts| :: SafePart(parts[i])
  }

  lemma CredentialsSafe(r: Request)
    ensures AllSafe(CredentialParts(r))
  {
    assert KeyAccepted("ANTHROPIC_API_KEY") && KeyAccepted("ANTHROPIC_AUTH_TOKEN") && KeyAccepted("ANTHROPIC_BASE_URL");
    assert KeyAccepted("");
    hide KeyAccepted;
  }

  lemma TiersSafe(models: seq<string>)
    ensures AllSafe(ModelTiers(models))
  {
    TierKeysAccepted();
    hide KeyAccepted;
  }

  lemma TierKeysAccepted()
    ensures KeyAccepted("ANTHROPIC_MODEL") && KeyAccepted("ANTHROPIC_DEFAULT_OPUS_MODEL")
    ensures KeyAccepted("ANTHROPIC_DEFAULT_SONNET_MODEL") && KeyAccepted("ANTHROPIC_DEFAULT_HAIKU_MODEL")
  {
  }

  lemma EnvPartsSafe(r: Request)
    ensures AllSafe(EnvParts(r))
  {
    assert KeyAccepted("CLAUDE_CODE_ENABLE_SDK_FILE_CHECKPOINTING") && KeyAccepted("1");
    hide KeyAccepted, CredentialParts, ModelTiers, ExtraParts;
    CredentialsSafe(r);
    if r.models.Some? {
      TiersSafe(r.models.value);
    }
    ExtraPartsSafe(r.extraEnv);
  }

  ghost predicate PrintAll(texts: seq<string>, words: seq<Word>) {
    |texts| == |words| && forall i | 0 <= i < |texts| :: Prints(texts[i], words[i])
  }

  lemma {:induction false} JoinReads(texts: seq<string>, words: seq<Word>)
    requires texts != [] && PrintAll(texts, words)
    ensures Lex(Join(texts, " "), None) == Some(WordTokens(words))
    decreases |texts|
  {
    hide Lex;
    assert Prints(texts[0], words[0]);
    if |texts| == 1 {
      assert texts[0] + "" == texts[0];
      EndReads(words[0]);
      assert WordTokens(words) == [Word(words[0])];
    } else {
      var rest := Join(texts[1..], " ");
      assert PrintAll(texts[1..], words[1..]) by {
        forall i | 0 <= i < |texts[1..]| ensures Prints(texts[1..][i], words[1..][i]) {
          assert Prints(texts[i + 1], words[i + 1]);
        }
      }
      JoinReads(texts[1..], words[1..]);
      assert Join(texts, " ") == texts[0] + (" " + rest);
      BlankReads(rest, words[0]);
      assert WordTokens(words) == [Word(words[0])] + WordTokens(words[1..]);
    }
  }

  lemma EndReads(word: Word)
    ensures Lex("", Some(word)) == Some([Word(word)])
  {
  }

  lemma BlankReads(rest: string, word: Word)
    ensures Lex(" " + rest, Some(word)) == Before([Word(word)], Lex(rest, None))
  {
    assert (" " + rest)[1..] == rest;
  }

  lemma BeforeTwice(a: seq<Token>, b: seq<Token>, rest: Option<seq<Token>>)
    ensures Before(a, Before(b, rest)) == Before(a + b, rest)
    ensures Before([], rest) == rest
  {
    if rest.Some? {
      assert a + b + rest.value == a + (b + rest.value);
      assert [] + rest.value == rest.value;
    }
  }

  lemma AndReads(rest: string, word: Word)
    ensures Lex(" && " + rest, Some(word)) == Before([Word(word), AndIf], Lex(rest, None))
  {
    BlankReads("&& " + rest, word);
    assert " && " + rest == " " + ("&& " + rest);
    assert ("&& " + rest)[1..] == "& " + rest && ("& " + rest)[1..] == " " + rest;
    assert (" " + rest)[1..] == rest;
    assert Finish(None) + [AndIf] == [AndIf];
    BeforeTwice([Word(word)], [AndIf], Lex(rest, None));
    assert [Word(word)] + [AndIf] == [Word(word), AndIf];
  }

  lemma ClaudePrints(r: Request)
    ensures PrintAll(ClaudeTexts(r), ClaudeWords(r))
  {
    hide Prints, EnvParts, EnvText, EnvWord, SafePart, ShellEscape, ShellEscapePath, PathWord;
    EnvPartsSafe(r);
    var parts := EnvParts(r);
    forall i | 0 <= i < |parts| ensures Prints(EnvText(parts[i]), EnvWord(parts[i])) {
      EnvPrints(parts[i]);
    }
    PathPrints(Bin(r));
    forall i | 0 <= i < |r.args| ensures Prints(ShellEscape(r.args[i]), Quoted(r.args[i])) {
      EscapePrints(r.args[i]);
    }
  }

  /** For every request, the line splits into exactly `cd`, the directory, `&&`, the prefixes, the binary and the arguments. */
  lemma LineSplitsExactly(r: Request)
    ensures Lex(Build(r), None) == Some(ExpectedTokens(r))
  {
    hide Lex, ClaudeTexts, ClaudeWords, ShellEscapePath, PathWord;
    var claude := Join(ClaudeTexts(r), " ");
    var cwd := ShellEscapePath(r.cwd);
    ClaudePrints(r);
    ClaudeTextsNonEmpty(r);
    JoinReads(ClaudeTexts(r), ClaudeWords(r));
    PathPrints(r.cwd);
    AndReads(claude, PathWord(r.cwd));
    assert Prints(cwd, PathWord(r.cwd));
    BlankReads(cwd + (" && " + claude), Unquoted("cd"));
    PlainText("cd", " " + (cwd + (" && " + claude)), None);
    assert Chunk(None) + Unquoted("cd") == Unquoted("cd");
    BuildText(r);
    assert Build(r) == "cd" + (" " + (cwd + (" && " + claude)));
    BeforeTwice([Word(Unquoted("cd"))], [Word(PathWord(r.cwd)), AndIf], Lex(claude, None));
    assert [Word(Unquoted("cd"))] + [Word(PathWord(r.cwd)), AndIf] == [Word(Unquoted("cd")), Word(PathWord(r.cwd)), AndIf];
  }

  lemma BuildText(r: Request)
    ensures Build(r) == "cd " + ShellEscapePath(r.cwd) + " && " + Join(ClaudeTexts(r), " ")
  {
    var parts := ["cd " + ShellEscapePath(r.cwd), Join(ClaudeTexts(r), " ")];
    assert parts[1..] == [parts[1]] && Join([parts[1]], " && ") == parts[1];
  }

  lemma ClaudeTextsNonEmpty(r: Request)
    ensures ClaudeTexts(r) != []
  {
  }

  // ---- What the shell runs ----

  /** The directory or binary a path names on a host with that home directory. */
  function PathMeaning(s: string, home: string): string {
    if s == "~" then home
    else if "~/" <= s then home + s[1..]
    else s
  }

  lemma PathsMean(s: string, home: string)
    ensures Expand(PathWord(s), home) == PathMeaning(s, home)
  {
    if s == "~" {
      assert Chars(PathWord(s)[1..]) == "";
    } else if "~/" <= s {
      assert PathWord(s)[0] == Ch('~', false) && PathWord(s)[1] == Ch('/', false);
      assert Chars(PathWord(s)[1..]) == s[1..];
    } else {
      assert Chars(Quoted(s)) == s;
      assert s != "" ==> Quoted(s)[0].quoted;
    }
  }

  lemma ArgumentsMean(s: string, home: string)
    ensures Expand(Quoted(s), home) == s
  {
    assert Chars(Quoted(s)) == s;
    assert s != "" ==> Quoted(s)[0].quoted;
  }

  function EnvMeaning(parts: seq<EnvPart>): seq<Assignment> {
    seq(|parts|, i requires 0 <= i < |parts| => Assignment(parts[i].key, parts[i].value))
  }

  /** The commands intended: `cd` on the directory, then the binary with these variables and these arguments. */
  function Intended(r: Request, home: string): seq<Command> {
    [Command([], ["cd", PathMeaning(r.cwd, home)]),
     Command(EnvMeaning(EnvParts(r)), [PathMeaning(Bin(r), home)] + r.args)]
  }

  /** Of the keys the filter accepts, the empty one and those led by a digit are no names. */
  predicate KeyIsName(key: string) {
    key != "" && !('0' <= key[0] <= '9')
  }

  predicate KeysAreNames(extra: seq<(string, string)>) {
    forall i | 0 <= i < |extra| && KeyAccepted(extra[i].0) :: KeyIsName(extra[i].0)
  }

  lemma AcceptedNames(key: string)
    requires KeyAccepted(key)
    ensures IsName(key) <==> KeyIsName(key)
  {
  }

  lemma {:induction false} EqualsAfterKey(key: string, rest: Word)
    requires forall i | 0 <= i < |key| :: key[i] != '='
    ensures EqualsAt(Unquoted(key + "=") + rest) == Some(|key|)
    decreases |key|
  {
    var w := Unquoted(key + "=") + rest;
    if key != "" {
      assert w[1..] == Unquoted(key[1..] + "=") + rest;
      EqualsAfterKey(key[1..], rest);
    }
  }

  /** An environment prefix is an assignment exactly if its key is a name. */
  lemma PrefixesAreAssignments(p: EnvPart)
    requires SafePart(p)
    ensures IsAssignment(EnvWord(p)) <==> KeyIsName(p.key)
    ensures IsAssignment(EnvWord(p)) ==> ReadAssignment(EnvWord(p)) == Assignment(p.key, p.value)
  {
    var w := EnvWord(p);
    EqualsAfterKey(p.key, if p.escaped then Quoted(p.value) else Unquoted(p.value));
    assert w[..|p.key|] == Unquoted(p.key);
    assert Chars(w[..|p.key|]) == p.key;
    assert Chars(w[|p.key| + 1..]) == p.value;
    AcceptedNames(p.key);
  }

  lemma {:induction false} QuotedHasNoEquals(s: string)
    ensures EqualsAt(Quoted(s)).None?
    decreases |s|
  {
    if s != "" {
      assert Quoted(s)[1..] == Quoted(s[1..]);
      QuotedHasNoEquals(s[1..]);
    }
  }

  lemma PathsAreNoAssignments(s: string)
    ensures !IsAssignment(PathWord(s))
  {
    if s == "~" {
    } else if "~/" <= s {
      var w := PathWord(s);
      QuotedHasNoEquals(s[2..]);
      assert w[1..][1..] == Quoted(s[2..]);
    } else {
      QuotedHasNoEquals(s);
    }
  }

  ghost predicate AllNames(parts: seq<EnvPart>) {
    forall i | 0 <= i < |parts| :: KeyIsName(parts[i].key)
  }

  lemma NamesConcat(a: seq<EnvPart>, b: seq<EnvPart>)
    ensures AllNames(a + b) <==> AllNames(a) && AllNames(b)
  {
    hide KeyIsName;
    var all := a + b;
    assert forall i | 0 <= i < |a| :: all[i] == a[i];
    assert forall i | 0 <= i < |b| :: all[|a| + i] == b[i];
  }

  /** The position of the first prefix whose key is no name, or the end. */
  function FirstBad(parts: seq<EnvPart>): (n: nat)
    ensures n <= |parts|
    ensures forall i | 0 <= i < n :: KeyIsName(parts[i].key)
    ensures n < |parts| ==> !KeyIsName(parts[n].key)
  {
    if parts == [] || !KeyIsName(parts[0].key) then 0 else 1 + FirstBad(parts[1..])
  }

  /** A prefix read as an argument: its key, `=` and its value. */
  function AsArgument(p: EnvPart): string {
    p.key + "=" + p.value
  }

  function AsArguments(parts: seq<EnvPart>): seq<string> {
    seq(|parts|, i requires 0 <= i < |parts| => AsArgument(parts[i]))
  }

  lemma PrefixExpands(p: EnvPart, home: string)
    requires SafePart(p)
    ensures Expand(EnvWord(p), home) == AsArgument(p)
  {
    var w := EnvWord(p);
    assert w[0] == Ch((p.key + "=")[0], false);
    assert p.key != "" ==> KeyChar(p.key[0]);
    assert Chars(w) == AsArgument(p);
  }

  lemma PrefixesExpand(parts: seq<EnvPart>, home: string)
    requires AllSafe(parts)
    ensures ExpandAll(EnvWords(parts), home) == AsArguments(parts)
  {
    hide Expand, EnvWord, AsArgument, SafePart;
    forall i | 0 <= i < |parts| ensures Expand(EnvWord(parts[i]), home) == AsArgument(parts[i]) {
      PrefixExpands(parts[i], home);
    }
  }

  lemma ExpandConcat(a: seq<Word>, b: seq<Word>, home: string)
    ensures ExpandAll(a + b, home) == ExpandAll(a, home) + ExpandAll(b, home)
  {
    hide Expand;
  }

  /** The prefixes up to the first bad key are assignments; from there on all words are the command's. */
  lemma {:induction false} PrefixesRead(parts: seq<EnvPart>, bin: Word, args: seq<Word>, home: string)
    requires AllSafe(parts) && !IsAssignment(bin)
    ensures ReadCommand(EnvWords(parts) + [bin] + args, home) ==
            Command(EnvMeaning(parts[..FirstBad(parts)]), AsArguments(parts[FirstBad(parts)..]) + ExpandAll([bin] + args, home))
    decreases |parts|
  {
    hide IsAssignment, ReadAssignment, Expand, SafePart, KeyIsName, EnvWord, AsArgument;
    var words := EnvWords(parts) + [bin] + args;
    if parts == [] {
      assert words == [bin] + args;
    } else {
      var rest := parts[1..];
      assert words[0] == EnvWord(parts[0]);
      assert words[1..] == EnvWords(rest) + [bin] + args;
      PrefixesAreAssignments(parts[0]);
      if KeyIsName(parts[0].key) {
        PrefixesRead(rest, bin, args, home);
        var n := FirstBad(rest);
        assert parts[..n + 1] == [parts[0]] + rest[..n] && parts[n + 1..] == rest[n..];
        assert EnvMeaning(parts[..n + 1]) == [Assignment(parts[0].key, parts[0].value)] + EnvMeaning(rest[..n]);
      } else {
        assert words == EnvWords(parts) + ([bin] + args);
        ExpandConcat(EnvWords(parts), [bin] + args, home);
        PrefixesExpand(parts, home);
        assert parts[0..] == parts && EnvMeaning(parts[..0]) == [];
      }
    }
  }

  lemma {:induction false} ExtraKeys(extra: seq<(string, string)>)
    ensures AllNames(ExtraParts(extra)) <==> KeysAreNames(extra)
  {
    hide KeyIsName, KeyAccepted;
    if extra != [] {
      var front, last := extra[..|extra| - 1], extra[|extra| - 1];
      ExtraKeys(front);
      LastKey(extra);
      var part := EnvPart(last.0, last.1, true);
      NamesConcat(ExtraParts(front), [part]);
      assert [part][0].key == last.0;
      assert ExtraParts(front) + [] == ExtraParts(front);
    }
  }

  lemma LastKey(extra: seq<(string, string)>)
    requires extra != []
    ensures var front, key := extra[..|extra| - 1], extra[|extra| - 1].0;
            KeysAreNames(extra) <==> KeysAreNames(front) && (KeyAccepted(key) ==> KeyIsName(key))
  {
    hide KeyIsName, KeyAccepted;
    var front := extra[..|extra| - 1];
    if KeysAreNames(extra) {
      forall i | 0 <= i < |front| && KeyAccepted(front[i].0) ensures KeyIsName(front[i].0) {
        assert front[i] == extra[i];
      }
    }
    if KeysAreNames(front) {
      forall i | 0 <= i < |front| && KeyAccepted(extra[i].0) ensures KeyIsName(extra[i].0) {
        assert front[i] == extra[i];
      }
    }
  }

  lemma FixedKeys(r: Request)
    ensures AllNames(CredentialParts(r))
    ensures r.models.Some? ==> AllNames(ModelTiers(r.models.value))
  {
  }

  lemma AllKeys(r: Request)
    ensures AllNames(EnvParts(r)) <==> KeysAreNames(r.extraEnv)
  {
    hide KeysAreNames, CredentialParts, ModelTiers, ExtraParts;
    ExtraKeys(r.extraEnv);
    FixedKeys(r);
    var tiers := if r.models.Some? then ModelTiers(r.models.value) else [];
    var extra := ExtraParts(r.extraEnv);
    var last := [EnvPart("CLAUDE_CODE_ENABLE_SDK_FILE_CHECKPOINTING", "1", false)];
    assert AllNames(last);
    hide AllNames;
    NamesConcat(CredentialParts(r), tiers);
    NamesConcat(CredentialParts(r) + tiers, extra);
    NamesConcat(CredentialParts(r) + tiers + extra, last);
  }

  lemma {:induction false} WordsBack(words: seq<Word>)
    ensures FirstWords(WordTokens(words)) == words && AfterAnd(WordTokens(words)).None?
  {
    if words != [] {
      assert WordTokens(words)[1..] == WordTokens(words[1..]);
      WordsBack(words[1..]);
    }
  }

  lemma ListRead(cwd: Word, words: seq<Word>, home: string)
    ensures ReadList([Word(Unquoted("cd")), Word(cwd), AndIf] + WordTokens(words), home) ==
            [ReadCommand([Unquoted("cd"), cwd], home), ReadCommand(words, home)]
  {
    hide ReadCommand;
    var cd := Unquoted("cd");
    var tokens := [Word(cd), Word(cwd), AndIf] + WordTokens(words);
    assert tokens[1..] == [Word(cwd), AndIf] + WordTokens(words);
    assert tokens[1..][1..] == [AndIf] + WordTokens(words);
    assert tokens[1..][1..][1..] == WordTokens(words);
    assert FirstWords(tokens[1..]) == [cwd] && FirstWords(tokens) == [cd] + [cwd] == [cd, cwd];
    assert AfterAnd(tokens[1..][1..]) == AfterAnd(tokens[1..]) == AfterAnd(tokens) == Some(WordTokens(words));
    WordsBack(words);
    assert ReadList(WordTokens(words), home) == [ReadCommand(words, home)];
    AfterAndShrinks(tokens);
  }

  lemma CdRead(cwd: string, home: string)
    ensures ReadCommand([Unquoted("cd"), PathWord(cwd)], home) == Command([], ["cd", PathMeaning(cwd, home)])
  {
    var cd := Unquoted("cd");
    assert cd[1..][1..] == [];
    assert EqualsAt(cd).None?;
    PathsMean(cwd, home);
    assert Expand(cd, home) == "cd";
  }

  lemma ArgumentsExpand(bin: string, args: seq<string>, home: string)
    ensures ExpandAll([PathWord(bin)] + ArgWords(args), home) == [PathMeaning(bin, home)] + args
  {
    PathsMean(bin, home);
    forall i | 0 <= i < |args| ensures Expand(ArgWords(args)[i], home) == args[i] {
      ArgumentsMean(args[i], home);
    }
  }

  /** What the shell runs instead of the binary: everything from the first key that is no name. */
  function Actual(r: Request, home: string): seq<Command> {
    var parts := EnvParts(r);
    var n := FirstBad(parts);
    [Command([], ["cd", PathMeaning(r.cwd, home)]),
     Command(EnvMeaning(parts[..n]), AsArguments(parts[n..]) + [PathMeaning(Bin(r), home)] + r.args)]
  }

  /**
   For every request the shell reads two commands: `cd` on the directory, and then the variables up to the
   first accepted key that is no name, with that key's word - if there is one - as the command and all that follows as arguments.
   */
  lemma LineIsRead(r: Request, home: string)
    ensures Read(Build(r), home) == Some(Actual(r, home))
  {
    hide Lex, Build, IsAssignment, ReadCommand, Expand, SafePart, FirstBad, EnvParts, PathWord, PathMeaning, AsArgument;
    LineSplitsExactly(r);
    ListRead(PathWord(r.cwd), ClaudeWords(r), home);
    CdRead(r.cwd, home);
    EnvPartsSafe(r);
    PathsAreNoAssignments(Bin(r));
    var parts := EnvParts(r);
    PrefixesRead(parts, PathWord(Bin(r)), ArgWords(r.args), home);
    ArgumentsExpand(Bin(r), r.args, home);
    var n := FirstBad(parts);
    assert AsArguments(parts[n..]) + ([PathMeaning(Bin(r), home)] + r.args)
        == AsArguments(parts[n..]) + [PathMeaning(Bin(r), home)] + r.args;
  }

  /** The commands are the intended ones exactly if every accepted key is a name. */
  lemma NamesDecide(r: Request, home: string)
    ensures Actual(r, home) == Intended(r, home) <==> KeysAreNames(r.extraEnv)
  {
    hide KeyIsName, KeysAreNames, EnvParts, PathMeaning, AsArgument;
    AllKeys(r);
    var parts := EnvParts(r);
    var n := FirstBad(parts);
    if AllNames(parts) {
      assert n == |parts|;
      assert parts[..n] == parts && AsArguments(parts[n..]) == [];
      assert AsArguments(parts[n..]) + [PathMeaning(Bin(r), home)] + r.args == [PathMeaning(Bin(r), home)] + r.args;
    } else {
      assert n < |parts|;
      assert |EnvMeaning(parts[..n])| == n;
    }
  }

  /** A word that `cd` takes for a directory: not empty, and no option or dash. */
  predicate NamesDirectory(word: string) {
    word != "" && word[0] != '-'
  }

  /** The first command goes to the directory `cwd` means, and the second is the binary with its variables and arguments. */
  predicate AsIntended(r: Request, home: string) {
    && Read(Build(r), home) == Some(Intended(r, home))
    && CdDestination([PathMeaning(r.cwd, home)]) == Directory(PathMeaning(r.cwd, home))
  }

  /**
   The remote shell does what was intended, for all binaries, values and arguments, if and only if every
   extra key the filter accepts is a variable name - not empty and not led by a digit - and the directory
   is not empty and not led by a dash.
   */
  lemma RunsAsIntendedExactly(r: Request, home: string)
    ensures AsIntended(r, home) <==> KeysAreNames(r.extraEnv) && NamesDirectory(PathMeaning(r.cwd, home))
  {
    hide Read, Build, Intended, Actual, KeysAreNames, PathMeaning, CdDestination;
    LineIsRead(r, home);
    NamesDecide(r, home);
    CdToWord(PathMeaning(r.cwd, home));
  }

  /** A tilde aside, that is a condition on the request alone. */
  lemma DirectoryOfRequest(cwd: string, home: string)
    requires NamesDirectory(home)
    ensures NamesDirectory(PathMeaning(cwd, home)) <==> NamesDirectory(cwd)
  {
  }

  /** The directory `-` is no directory to `cd`: the shell goes back to where it came from. */
  lemma DashGoesBack(r: Request, home: string)
    requires r.cwd == "-"
    ensures Read(Build(r), home).Some? && |Read(Build(r), home).value| == 2
    ensures Read(Build(r), home).value[0].argv == ["cd", "-"] && CdDestination(["-"]) == Previous
  {
    hide Read, Build, EnvParts, FirstBad;
    LineIsRead(r, home);
  }

  /** Whatever the keys, the directory change is as written and nothing but the two commands is run. */
  lemma NothingElseRuns(r: Request, home: string)
    ensures Read(Build(r), home).Some? && |Read(Build(r), home).value| == 2
    ensures Read(Build(r), home).value[0] == Command([], ["cd", PathMeaning(r.cwd, home)])
  {
    hide Read, Build, EnvParts, FirstBad, PathMeaning;
    LineIsRead(r, home);
  }

  /** The first accepted key that is no name supplies the command word, whatever binary was asked for. */
  lemma BadKeyBecomesTheCommand(r: Request, home: string)
    requires !KeysAreNames(r.extraEnv)
    ensures var parts := EnvParts(r);
            var n := FirstBad(parts);
            && n < |parts| && Read(Build(r), home).Some? && |Read(Build(r), home).value| == 2
            && Read(Build(r), home).value[1].env == EnvMeaning(parts[..n])
            && Read(Build(r), home).value[1].argv != []
            && Read(Build(r), home).value[1].argv[0] == parts[n].key + "=" + parts[n].value
  {
    hide Read, Build, KeyIsName, KeysAreNames, EnvParts, PathMeaning;
    LineIsRead(r, home);
    AllKeys(r);
    var parts := EnvParts(r);
    var n := FirstBad(parts);
    assert AsArguments(parts[n..])[0] == AsArgument(parts[n]);
  }

  /** The key `1` passes the filter, and `1=x` is what is run. */
  lemma DigitKeyBecomesTheCommand(home: string)
    ensures var r := Request("/", None, [], None, None, None, None, [("1", "x")]);
            && KeyAccepted("1")
            && Read(Build(r), home) == Some([Command([], ["cd", "/"]),
                                             Command([], ["1=x", "CLAUDE_CODE_ENABLE_SDK_FILE_CHECKPOINTING=1", "claude"])])
  {
    hide Read, Build;
    var r := Request("/", None, [], None, None, None, None, [("1", "x")]);
    LineIsRead(r, home);
    var extra := r.extraEnv;
    assert extra[..|extra| - 1] == [] && ExtraParts([]) == [];
    var part := EnvPart("1", "x", true);
    var last := EnvPart("CLAUDE_CODE_ENABLE_SDK_FILE_CHECKPOINTING", "1", false);
    assert KeyAccepted("1");
    assert ExtraParts(extra) == [part];
    hide KeyAccepted, ExtraParts;
    var parts := EnvParts(r);
    assert parts == [part, last];
    assert FirstBad(parts) == 0;
    assert parts[0..] == parts && EnvMeaning(parts[..0]) == [];
    assert AsArgument(part) == "1=x";
    assert AsArgument(last) == "CLAUDE_CODE_ENABLE_SDK_FILE_CHECKPOINTING=1";
    assert AsArguments(parts) == [AsArgument(part), AsArgument(last)];
    assert !("~/" <= "/") && !("~/" <= "claude") by { assert "/"[0] != "~/"[0] && "claude"[0] != "~/"[0]; }
    assert PathMeaning("/", home) == "/" && PathMeaning(Bin(r), home) == "claude";
    assert AsArguments(parts) + ["claude"] + r.args == [AsArgument(part), AsArgument(last), "claude"];
  }

  /** Escaping loses nothing: two strings with the same printed form are the same string. */
  lemma EscapeIsInjective(s: string, t: string)
    requires ShellEscape(s) == ShellEscape(t)
    ensures s == t
  {
    EscapedText(s, "", None);
    EscapedText(t, "", None);
    assert ShellEscape(s) + "" == ShellEscape(s) && ShellEscape(t) + "" == ShellEscape(t);
    assert Chunk(None) + Quoted(s) == Quoted(s) && Chunk(None) + Quoted(t) == Quoted(t);
    assert Chars(Quoted(s)) == s && Chars(Quoted(t)) == t;
  }
}
