/**
 The command line that the container's entry point hands to Litestream (cmd/entrypoint/main.go):
 the printer, and a reader for simple commands after sections 2.2.1 (escape character), 2.2.2
 (single quotes), 2.3 (token recognition), 2.4 (reserved words) and 2.10.2 (assignment words) of the
 POSIX Shell Command Language.
 */
module Shell {
  import opened Wrappers

  // ---- The printer ----

  const SPECIAL: string := " \t\n\r'\"\\$`!#&()*;<>?[]{}|~"

  predicate IsPlain(value: string) {
    value != "" && forall c | c in value :: c !in SPECIAL
  }

  /** strings.ReplaceAll of each single quote. */
  function Escaped(value: string): string {
    if value == "" then ""
    else (if value[0] == '\'' then "'\\''" else [value[0]]) + Escaped(value[1..])
  }

  function ShellQuote(value: string): string {
    if IsPlain(value) then value else "'" + Escaped(value) + "'"
  }

  /** strings.Join with a space. */
  function Join(words: seq<string>): string {
    if words == [] then ""
    else if |words| == 1 then words[0]
    else words[0] + " " + Join(words[1..])
  }

  function QuoteAll(args: seq<string>): (quoted: seq<string>)
    ensures |quoted| == |args| && forall i :: 0 <= i < |args| ==> quoted[i] == ShellQuote(args[i])
  {
    seq(|args|, i requires 0 <= i < |args| => ShellQuote(args[i]))
  }

  function Joined(args: seq<string>): string {
    Join(QuoteAll(args))
  }

  method ShellJoin(args: seq<string>) returns (line: string)
    ensures line == Joined(args)
  {
    var quoted: seq<string> := [];
    for i := 0 to |args|
      invariant quoted == QuoteAll(args)[..i]
    {
      quoted := quoted + [ShellQuote(args[i])];
    }
    assert quoted == QuoteAll(args);
    line := Join(quoted);
  }

  // ---- The reader ----

  /** A word after quote removal, the length of its leading part without quoting, and whether any of
      it was quoted. */
  datatype Word = Word(text: string, bare: nat, quoted: bool)

  /** A word so far; None between words. */
  function Plus(word: Option<Word>, c: char): Word {
    match word
    case None => Word([c], 1, false)
    case Some(Word(text, bare, quoted)) => Word(text + [c], if quoted then bare else bare + 1, quoted)
  }

  function PlusQuoted(word: Option<Word>, s: string): Word {
    if word.None? then Word(s, 0, true) else Word(word.value.text + s, word.value.bare, true)
  }

  /** Where the single-quoted string ends. */
  function ClosingQuote(s: string): (k: nat)
    ensures k <= |s| && '\'' !in s[..k] && (k < |s| ==> s[k] == '\'')
  {
    if s == "" || s[0] == '\'' then 0
    else
      var k := ClosingQuote(s[1..]);
      assert s[..k + 1] == [s[0]] + s[1..][..k];
      k + 1
  }

  /** Characters that, without quoting, end the simple command or call for an expansion. */
  predicate IsActive(c: char) {
    c in {'\n', '\"', '$', '`', '&', '(', ')', '*', ';', '<', '>', '?', '[', '|', '~'}
  }

  /** The words of a line; None for a line that is no list of words. */
  function Words(s: string, word: Option<Word>): Option<seq<Word>>
    decreases |s|
  {
    if s == "" then Some(if word.None? then [] else [word.value])
    else if s[0] == '\'' then
      var k := ClosingQuote(s[1..]);
      if k == |s[1..]| then None else Words(s[k + 2..], Some(PlusQuoted(word, s[1..][..k])))
    else if s[0] == '\\' then
      if |s| == 1 then None
      else if s[1] == '\n' then Words(s[2..], word)
      else Words(s[2..], Some(PlusQuoted(word, [s[1]])))
    else if s[0] == ' ' || s[0] == '\t' then
      var rest := Words(s[1..], None);
      if word.None? || rest.None? then rest else Some([word.value] + rest.value)
    else if IsActive(s[0]) || (s[0] == '#' && word.None?) then None
    else Words(s[1..], Some(Plus(word, s[0])))
  }

  function Texts(words: seq<Word>): (texts: seq<string>)
    ensures |texts| == |words| && forall i :: 0 <= i < |words| ==> texts[i] == words[i].text
  {
    seq(|words|, i requires 0 <= i < |words| => words[i].text)
  }

  const RESERVED: seq<string> := [
    "!", "{", "}", "case", "do", "done", "elif", "else", "esac", "fi", "for", "if", "in", "then", "until", "while"]

  predicate IsNameStart(c: char) {
    c == '_' || 'a' <= c <= 'z' || 'A' <= c <= 'Z'
  }

  predicate IsName(s: string) {
    s != "" && IsNameStart(s[0]) && forall c | c in s :: IsNameStart(c) || '0' <= c <= '9'
  }

  /** A word that a shell takes for something else than a command name. */
  predicate IsKeyword(word: Word) {
    || (!word.quoted && word.text in RESERVED)
    || exists k :: 0 <= k < |word.text| && k < word.bare && word.text[k] == '=' && IsName(word.text[..k])
  }

  /** The command a line runs: its name and its arguments. */
  function Command(line: string): Option<seq<string>> {
    var words := Words(line, None);
    if words.None? || (words.value != [] && IsKeyword(words.value[0])) then None else Some(Texts(words.value))
  }

  // ---- The round trip ----

  function WordOf(value: string): Word {
    if IsPlain(value) then Word(value, |value|, false) else Word(value, 0, true)
  }

  /** The printer quotes whatever the reader treats specially. */
  lemma PlainIsInert(c: char)
    requires c !in SPECIAL
    ensures !IsActive(c) && c !in {' ', '\t', '\'', '\\', '#'}
  {
    var s := SPECIAL;
    assert s[0] == ' ' && s[1] == '\t' && s[2] == '\n' && s[4] == '\'' && s[5] == '\"' && s[6] == '\\' && s[7] == '$';
    assert s[8] == '`' && s[10] == '#' && s[11] == '&' && s[12] == '(' && s[13] == ')' && s[14] == '*' && s[15] == ';';
    assert s[16] == '<' && s[17] == '>' && s[18] == '?' && s[19] == '[' && s[23] == '|' && s[24] == '~';
  }

  function PlusAll(word: Option<Word>, s: string): Option<Word>
    decreases |s|
  {
    if s == "" then word else PlusAll(Some(Plus(word, s[0])), s[1..])
  }

  lemma {:induction false} PlusAllIs(text: string, s: string)
    ensures PlusAll(Some(Word(text, |text|, false)), s) == Some(Word(text + s, |text| + |s|, false))
    decreases |s|
  {
    if s == "" {
      assert text + s == text;
    } else {
      PlusAllIs(text + [s[0]], s[1..]);
      assert text + [s[0]] + s[1..] == text + s;
    }
  }

  lemma {:induction false} ReadPlain(value: string, word: Option<Word>, rest: string)
    requires forall c | c in value :: c !in SPECIAL
    ensures Words(value + rest, word) == Words(rest, PlusAll(word, value))
    decreases |value|
  {
    if value == "" {
      assert value + rest == rest;
    } else {
      assert value[0] in value;
      PlainIsInert(value[0]);
      var line := value + rest;
      assert line[0] == value[0] && line[1..] == value[1..] + rest;
      assert forall c | c in value[1..] :: c in value;
      ReadPlain(value[1..], Some(Plus(word, value[0])), rest);
    }
  }

  lemma {:induction false} EscapedUpTo(value: string, k: nat)
    requires k <= |value| && '\'' !in value[..k]
    ensures Escaped(value) == value[..k] + Escaped(value[k..])
  {
    if k > 0 {
      assert value[0] in value[..k];
      assert forall c | c in value[1..][..k - 1] :: c in value[..k];
      EscapedUpTo(value[1..], k - 1);
      assert value[..k] == [value[0]] + value[1..][..k - 1];
      assert value[1..][k - 1..] == value[k..];
    }
  }

  /** Reading a string in single quotes without a quote in it. */
  lemma ReadQuoted(value: string, word: Option<Word>, rest: string)
    requires '\'' !in value
    ensures Words("'" + value + "'" + rest, word) == Words(rest, Some(PlusQuoted(word, value)))
  {
    var s := "'" + value + "'" + rest;
    var k := ClosingQuote(s[1..]);
    assert s[1..] == value + "'" + rest;
    assert s[1..][|value|] == '\'';
    assert forall i :: 0 <= i < |value| ==> s[1..][i] == value[i];
    assert k == |value|;
    assert s[k + 2..] == rest && s[1..][..k] == value;
  }

  lemma ReadBackslash(c: char, word: Option<Word>, rest: string)
    requires c != '\n'
    ensures Words(['\\', c] + rest, word) == Words(rest, Some(PlusQuoted(word, [c])))
  {
    assert (['\\', c] + rest)[2..] == rest;
  }

  lemma PlusQuotedTwice(word: Option<Word>, x: string, y: string)
    ensures PlusQuoted(Some(PlusQuoted(word, x)), y) == PlusQuoted(word, x + y)
  {
    if word.Some? {
      assert word.value.text + x + y == word.value.text + (x + y);
    }
  }

  /** Reading a quoted part and the escaped quote after it. */
  lemma ReadThroughQuote(a: string, word: Option<Word>, tail: string)
    requires '\'' !in a
    ensures Words("'" + a + "'" + (['\\', '\''] + tail), word) == Words(tail, Some(PlusQuoted(word, a + ['\''])))
  {
    ReadQuoted(a, word, ['\\', '\''] + tail);
    ReadBackslash('\'', Some(PlusQuoted(word, a)), tail);
    PlusQuotedTwice(word, a, ['\'']);
  }

  lemma SplitAtQuote(a: string, e: string, rest: string)
    ensures "'" + (a + ("'\\''" + e)) + "'" + rest == "'" + a + "'" + (['\\', '\''] + ("'" + e + "'" + rest))
  {
  }

  lemma EscapedQuote(value: string)
    requires value != "" && value[0] == '\''
    ensures Escaped(value) == "'\\''" + Escaped(value[1..])
  {
  }

  /** The first quote of a value, and what is before and after it. */
  lemma EscapedAtQuote(value: string, k: nat)
    requires k < |value| && '\'' !in value[..k] && value[k] == '\''
    ensures Escaped(value) == value[..k] + ("'\\''" + Escaped(value[k + 1..]))
  {
    hide Escaped;
    var v := value[k..];
    EscapedUpTo(value, k);
    assert v[0] == value[k] && v[1..] == value[k + 1..];
    EscapedQuote(v);
  }

  lemma AroundQuote(value: string, k: nat)
    requires k < |value| && value[k] == '\''
    ensures value[..k] + ['\''] + value[k + 1..] == value
  {
  }

  lemma EscapedWithout(value: string)
    requires '\'' !in value
    ensures Escaped(value) == value
  {
    assert value[..|value|] == value && value[|value|..] == "";
    EscapedUpTo(value, |value|);
  }

  lemma {:induction false} ReadEscaped(value: string, word: Option<Word>, rest: string)
    ensures Words("'" + Escaped(value) + "'" + rest, word) == Words(rest, Some(PlusQuoted(word, value)))
    decreases |value|
  {
    var k := ClosingQuote(value);
    hide Words, ClosingQuote, PlusQuoted, Escaped;
    if k == |value| {
      assert value[..k] == value;
      EscapedWithout(value);
      ReadQuoted(value, word, rest);
    } else {
      var a, b := value[..k], value[k + 1..];
      EscapedAtQuote(value, k);
      AroundQuote(value, k);
      SplitAtQuote(a, Escaped(b), rest);
      ReadThroughQuote(a, word, "'" + Escaped(b) + "'" + rest);
      ReadEscaped(b, Some(PlusQuoted(word, a + ['\''])), rest);
      PlusQuotedTwice(word, a + ['\''], b);
    }
  }

  lemma ReadOne(value: string, rest: string)
    ensures Words(ShellQuote(value) + rest, None) == Words(rest, Some(WordOf(value)))
  {
    if IsPlain(value) {
      ReadPlain(value, None, rest);
      PlusAllIs([value[0]], value[1..]);
      assert [value[0]] + value[1..] == value;
    } else {
      ReadEscaped(value, None, rest);
      assert ShellQuote(value) + rest == "'" + Escaped(value) + "'" + rest;
    }
  }

  function WordsOf(args: seq<string>): (words: seq<Word>)
    ensures |words| == |args| && forall i :: 0 <= i < |args| ==> words[i] == WordOf(args[i])
  {
    seq(|args|, i requires 0 <= i < |args| => WordOf(args[i]))
  }

  lemma JoinedOne(arg: string)
    ensures Joined([arg]) == ShellQuote(arg)
  {
    hide ShellQuote;
  }

  lemma JoinedMore(args: seq<string>)
    requires |args| > 1
    ensures Joined(args) == ShellQuote(args[0]) + (" " + Joined(args[1..]))
  {
    hide ShellQuote;
    var quoted := QuoteAll(args);
    assert quoted[1..] == QuoteAll(args[1..]);
    Regroup(quoted[0], " ", Join(quoted[1..]));
  }

  lemma Regroup(a: string, b: string, c: string)
    ensures a + b + c == a + (b + c)
  {
  }

  lemma ReadBlank(word: Word, rest: string)
    requires Words(rest, None).Some?
    ensures Words(" " + rest, Some(word)) == Some([word] + Words(rest, None).value)
  {
    var s := " " + rest;
    assert s[0] == ' ' && s[1..] == rest;
  }

  /** The reader finds one word for each argument, with the argument as its text. */
  lemma {:induction false} JoinedReads(args: seq<string>)
    ensures Words(Joined(args), None) == Some(WordsOf(args))
  {
    if args == [] {
      assert WordsOf(args) == [] && Joined(args) == "";
    } else if |args| == 1 {
      assert args == [args[0]] && WordsOf(args) == [WordOf(args[0])];
      JoinedOne(args[0]);
      assert ShellQuote(args[0]) + "" == ShellQuote(args[0]);
      ReadOne(args[0], "");
      assert Words("", Some(WordOf(args[0]))) == Some([WordOf(args[0])]);
    } else {
      hide Words, Joined, ShellQuote, WordOf;
      var rest := args[1..];
      assert WordsOf(args) == [WordOf(args[0])] + WordsOf(rest);
      JoinedMore(args);
      ReadOne(args[0], " " + Joined(rest));
      JoinedReads(rest);
      ReadBlank(WordOf(args[0]), Joined(rest));
    }
  }

  /** A character that no value is printed with outside quotes. */
  predicate NeedsQuotes(c: char) {
    c in {' ', '\t', '\n', '\r', '\'', '\"', '\\', '$', '`', '!', '#', '&', '(', ')', '*', ';', '<', '>', '?',
          '[', ']', '{', '}', '|', '~'}
  }

  lemma SpecialIs(c: char)
    ensures c in SPECIAL <==> NeedsQuotes(c)
  {
    var s := SPECIAL;
    assert |s| == 25;
    assert s[0] == ' ' && s[1] == '\t' && s[2] == '\n' && s[3] == '\r' && s[4] == '\'' && s[5] == '\"';
    assert s[6] == '\\' && s[7] == '$' && s[8] == '`' && s[9] == '!' && s[10] == '#' && s[11] == '&' && s[12] == '(';
    assert s[13] == ')' && s[14] == '*' && s[15] == ';' && s[16] == '<' && s[17] == '>' && s[18] == '?';
    assert s[19] == '[' && s[20] == ']' && s[21] == '{' && s[22] == '}' && s[23] == '|' && s[24] == '~';
  }

  predicate IsBare(value: string) {
    value != "" && forall c | c in value :: !NeedsQuotes(c)
  }

  lemma {:induction false} EscapedIsLonger(value: string)
    ensures |Escaped(value)| >= |value|
  {
    if value != "" {
      EscapedIsLonger(value[1..]);
    }
  }

  /** A value is printed as it is exactly if it is not empty and needs no quotes. */
  lemma PrintedBare(value: string)
    ensures IsPlain(value) <==> IsBare(value)
    ensures ShellQuote(value) == value <==> IsBare(value)
    ensures !IsBare(value) ==> ShellQuote(value) == "'" + Escaped(value) + "'"
  {
    forall c | c in value ensures c in SPECIAL <==> NeedsQuotes(c) {
      SpecialIs(c);
    }
    hide NeedsQuotes;
    EscapedIsLonger(value);
  }

  /** Printed without quotes, a reserved word or something that looks like an assignment. */
  ghost predicate IsTakenForOther(value: string) {
    IsBare(value) &&
    (value in RESERVED || exists k :: 0 <= k < |value| && value[k] == '=' && IsName(value[..k]))
  }

  /** The line runs exactly the given arguments, for every list of them, unless the first one, printed
      without quotes, is a reserved word or looks like an assignment. */
  lemma RoundTrip(args: seq<string>)
    ensures Command(Joined(args)) == Some(args) <==> args == [] || !IsKeyword(WordOf(args[0]))
    ensures Command(Joined(args)) == Some(args) <==> args == [] || !IsTakenForOther(args[0])
  {
    JoinedReads(args);
    assert Texts(WordsOf(args)) == args;
    if args != [] {
      PrintedBare(args[0]);
      hide IsPlain, IsBare, IsName;
    }
  }

  const NSQLITE_BINARY: string := "/usr/local/bin/nsqlite"

  lemma PathIsNoKeyword(word: Word)
    requires word.text != "" && word.text[0] == '/'
    ensures !IsKeyword(word)
  {
    assert forall i :: 0 <= i < |RESERVED| ==> RESERVED[i][0] != '/';
    assert forall k :: 0 < k <= |word.text| ==> word.text[..k][0] == '/';
  }

  /** In the source the first argument is the fixed path of the server. */
  lemma ServerLine(args: seq<string>)
    ensures Command(Joined([NSQLITE_BINARY] + args)) == Some([NSQLITE_BINARY] + args)
  {
    RoundTrip([NSQLITE_BINARY] + args);
    assert NSQLITE_BINARY[0] == '/';
    PathIsNoKeyword(WordOf(NSQLITE_BINARY));
    hide IsKeyword, Joined, Command;
  }

  /** Different lists are printed differently. */
  lemma JoinedIsInjective(a: seq<string>, b: seq<string>)
    requires Joined(a) == Joined(b)
    ensures a == b
  {
    JoinedReads(a);
    JoinedReads(b);
    assert Texts(WordsOf(a)) == a && Texts(WordsOf(b)) == b;
  }
}
