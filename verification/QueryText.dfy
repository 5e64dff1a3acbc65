/**
 The prefix part of ClassifyQuery (internal/db/db.go:283-300): how the text of a query is
 recognised as a transaction control statement.
 */
module QueryText {
  datatype TextKind = BeginText | CommitText | RollbackText | Ordinary

  /** The code points that Go's strings.TrimSpace removes. */
  predicate IsSpace(c: char) {
    c in {'\t', '\n', '\U{000B}', '\U{000C}', '\r', ' ', '\U{0085}', '\U{00A0}', '\U{1680}',
          '\U{2028}', '\U{2029}', '\U{202F}', '\U{205F}', '\U{3000}'} ||
    '\U{2000}' <= c <= '\U{200A}'
  }

  /** The same by number. */
  lemma SpaceIs(c: char)
    ensures IsSpace(c) <==>
      || 9 <= c as int <= 13 || 0x2000 <= c as int <= 0x200A
      || c as int in {32, 0x85, 0xA0, 0x1680, 0x2028, 0x2029, 0x202F, 0x205F, 0x3000}
  {
  }

  function TrimLeft(s: string): (r: string)
    ensures r == "" || !IsSpace(r[0])
    ensures exists k :: 0 <= k <= |s| && r == s[k..] && forall i :: 0 <= i < k ==> IsSpace(s[i])
  {
    if s != "" && IsSpace(s[0]) then
      var r := TrimLeft(s[1..]);
      assert exists k :: 0 <= k <= |s| && r == s[k..] && forall i :: 0 <= i < k ==> IsSpace(s[i]) by {
        var j :| 0 <= j <= |s[1..]| && r == s[1..][j..] && forall i :: 0 <= i < j ==> IsSpace(s[1..][i]);
        assert r == s[j + 1..];
        forall i | 0 <= i < j + 1 ensures IsSpace(s[i]) {
          assert i > 0 ==> s[i] == s[1..][i - 1];
        }
      }
      r
    else
      assert s == s[0..];
      s
  }

  /** The lower-case mapping of the code points whose lower case is an ASCII letter. */
  function Lower(c: char): char {
    if 'A' <= c <= 'Z' then c - 'A' + 'a'
    else if c == '\U{212A}' then 'k'
    else if c == '\U{0130}' then 'i'
    else c
  }

  function LowerAll(s: string): (r: string)
    ensures |r| == |s| && forall i :: 0 <= i < |s| ==> r[i] == Lower(s[i])
  {
    seq(|s|, i requires 0 <= i < |s| => Lower(s[i]))
  }

  /** Trailing space never decides a prefix test against these words, so only the leading space
      is removed here. */
  function TextKindOf(text: string): TextKind {
    var trimmed := LowerAll(TrimLeft(text));
    if "begin" <= trimmed then BeginText
    else if "commit" <= trimmed then CommitText
    else if "rollback" <= trimmed || "end transaction" <= trimmed then RollbackText
    else Ordinary
  }

  // ---- What is recognised, told without trimming and lower-casing ----

  predicate AllSpace(s: string) {
    forall c | c in s :: IsSpace(c)
  }

  /** c is the lower-case letter low, the upper-case one 32 places before it, or one of the two code points
      beyond ASCII whose lower case it is; any other character stands for itself. */
  predicate SpellsLetter(c: char, low: char) {
    || c == low
    || ('a' <= low <= 'z' && c as int == low as int - 32)
    || (low == 'k' && c == '\U{212A}') || (low == 'i' && c == '\U{0130}')
  }

  predicate Spells(s: string, word: string) {
    |s| == |word| && forall i :: 0 <= i < |word| ==> SpellsLetter(s[i], word[i])
  }

  /** The text is space, then the word in any case, then anything. */
  ghost predicate StartsWith(text: string, word: string) {
    exists k: nat :: k + |word| <= |text| && AllSpace(text[..k]) && Spells(text[k..][..|word|], word)
  }

  lemma SpelledLower(c: char, low: char)
    requires 'a' <= low <= 'z' || low == ' '
    ensures Lower(c) == low <==> SpellsLetter(c, low)
    ensures low != ' ' && SpellsLetter(c, low) ==> !IsSpace(c)
  {
  }

  predicate IsWord(word: string) {
    word != "" && word[0] != ' ' && forall c | c in word :: 'a' <= c <= 'z' || c == ' '
  }

  lemma SpelledPrefix(s: string, word: string)
    requires IsWord(word)
    ensures word <= LowerAll(s) <==> |word| <= |s| && Spells(s[..|word|], word)
  {
    if |word| <= |s| {
      forall i | 0 <= i < |word| ensures Lower(s[i]) == word[i] <==> SpellsLetter(s[..|word|][i], word[i]) {
        assert word[i] in word;
        SpelledLower(s[i], word[i]);
      }
      hide Lower, SpellsLetter;
      if word <= LowerAll(s) {
        assert forall i :: 0 <= i < |word| ==> LowerAll(s)[i] == word[i];
      }
    }
  }

  /** The space in front of the word is all the leading space of the text. */
  lemma SpelledAfterSpace(text: string, word: string, j: nat, k: nat)
    requires IsWord(word) && j + |word| <= |text| && AllSpace(text[..j]) && Spells(text[j..][..|word|], word)
    requires k <= |text| && (k == |text| || !IsSpace(text[k])) && forall i :: 0 <= i < k ==> IsSpace(text[i])
    ensures j == k
  {
    assert text[j..][..|word|][0] == text[j];
    assert word[0] in word;
    SpelledLower(text[j], word[0]);
    hide IsSpace, SpellsLetter;
  }

  lemma StartsWithWord(text: string, word: string)
    requires IsWord(word)
    ensures StartsWith(text, word) <==> word <= LowerAll(TrimLeft(text))
  {
    var trimmed := TrimLeft(text);
    var k :| 0 <= k <= |text| && trimmed == text[k..] && forall i :: 0 <= i < k ==> IsSpace(text[i]);
    assert trimmed != "" ==> trimmed[0] == text[k];
    SpelledPrefix(trimmed, word);
    hide IsSpace, Spells, LowerAll, IsWord;
    if word <= LowerAll(trimmed) {
      assert forall c | c in text[..k] :: IsSpace(c);
      assert k + |word| <= |text| && Spells(text[k..][..|word|], word);
    }
    if j: nat :| j + |word| <= |text| && AllSpace(text[..j]) && Spells(text[j..][..|word|], word) {
      SpelledAfterSpace(text, word, j, k);
    }
  }

  /** Exactly which texts are control statements: after any space, BEGIN, COMMIT, ROLLBACK or END TRANSACTION
      in any case, with anything behind.  Everything else is an ordinary statement. */
  lemma Recognised(text: string)
    ensures TextKindOf(text) == BeginText <==> StartsWith(text, "begin")
    ensures TextKindOf(text) == CommitText <==> StartsWith(text, "commit")
    ensures TextKindOf(text) == RollbackText <==> StartsWith(text, "rollback") || StartsWith(text, "end transaction")
  {
    FourWords();
    StartsWithWord(text, "begin");
    StartsWithWord(text, "commit");
    StartsWithWord(text, "rollback");
    StartsWithWord(text, "end transaction");
    var low := LowerAll(TrimLeft(text));
    hide LowerAll, TrimLeft, StartsWith, IsWord;
    OnlyOne(low, "begin", "commit");
    OnlyOne(low, "begin", "rollback");
    OnlyOne(low, "begin", "end transaction");
    OnlyOne(low, "commit", "rollback");
    OnlyOne(low, "commit", "end transaction");
  }

  lemma FourWords()
    ensures IsWord("begin") && IsWord("commit") && IsWord("rollback") && IsWord("end transaction")
    ensures "begin"[0] == 'b' && "commit"[0] == 'c' && "rollback"[0] == 'r' && "end transaction"[0] == 'e'
  {
  }

  lemma OnlyOne(low: string, a: string, b: string)
    requires a != "" && b != "" && a[0] != b[0]
    ensures !(a <= low && b <= low)
  {
  }

  /** Only the first word is looked at: a comment in front hides a control statement, and END counts
      only when it is spelled out as "end transaction". */
  lemma UnrecognisedControl(text: string)
    requires |text| > 0 && !IsSpace(text[0])
    requires Lower(text[0]) in {'/', '-', ';'} || (Lower(text[0]) == 'e' && |text| < |"end transaction"|)
    ensures TextKindOf(text) == Ordinary
  {
    assert TrimLeft(text) == text;
    var low := LowerAll(text);
    assert low[0] == Lower(text[0]) && |low| == |text|;
    assert "begin"[0] == 'b' && "commit"[0] == 'c' && "rollback"[0] == 'r' && "end transaction"[0] == 'e';
  }

  lemma LowerIs(s: string, low: string)
    requires |s| == |low| && forall i :: 0 <= i < |s| ==> Lower(s[i]) == low[i]
    ensures LowerAll(s) == low
  {
  }

  /** The texts that the server itself sends. */
  lemma ControlTexts()
    ensures TextKindOf("BEGIN") == BeginText
    ensures TextKindOf("COMMIT") == CommitText
    ensures TextKindOf("ROLLBACK") == RollbackText
  {
    assert !IsSpace('B') && !IsSpace('C') && !IsSpace('R');
    assert "begin"[0] == 'b' && "commit"[0] == 'c';
    LowerIs("BEGIN", "begin");
    LowerIs("COMMIT", "commit");
    LowerIs("ROLLBACK", "rollback");
    hide LowerAll, Lower, IsSpace;
  }
}
