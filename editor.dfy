/** The code editor's keyboard assistance and language switch. A key press is a
    function of the text, the selection and the key: it yields the new text, the
    new selection, and whether the editor took the key over (suppressing the
    browser's own handling). Text positions count characters. */
module Editor {
  import opened Wrappers
  import opened Catalogue
  import opened Texts

  /** The closer paired with an opener or quote, or nothing. */
  function Closer(key: string): (r: Option<string>)
    ensures r.Some? <==> key in {"(", "[", "{", "\"", "'", "`"}
    ensures r.Some? ==> |key| == 1 && |r.value| == 1
  {
    if key == "(" then Some(")")
    else if key == "[" then Some("]")
    else if key == "{" then Some("}")
    else if key == "\"" then Some("\"")
    else if key == "'" then Some("'")
    else if key == "`" then Some("`")
    else None
  }

  /** The keys the skip branch tests for. */
  const ClosingKeys: set<string> := {")", "]", "}", "\"", "'", "`"}

  /** `value[i]` in JavaScript: the one-character string at `i`, or undefined. */
  function CharAt(value: string, i: int): (r: Option<string>)
    ensures r.Some? <==> 0 <= i < |value|
    ensures r.Some? ==> r.value == [value[i]]
  {
    if 0 <= i < |value| then Some([value[i]]) else None
  }

  /** Looks an optional one-character string up among the pairs. */
  function PairOf(c: Option<string>): Option<string>
  {
    if c.Some? then Closer(c.value) else None
  }

  /** The characters JavaScript's `\s` matches. */
  predicate IsWhitespace(c: char)
  {
    c == '\t' || c == '\n' || c == '\U{000B}' || c == '\U{000C}' || c == '\r' || c == ' '
    || c == '\U{00A0}' || c == '\U{1680}' || ('\U{2000}' <= c <= '\U{200A}')
    || c == '\U{2028}' || c == '\U{2029}' || c == '\U{202F}' || c == '\U{205F}'
    || c == '\U{3000}' || c == '\U{FEFF}'
  }

  /** What `/^(\s*)/` captures: the longest prefix of whitespace. */
  function LeadingWhitespace(line: string): (r: string)
    ensures |r| <= |line| && r == line[..|r|]
    ensures forall i :: 0 <= i < |r| ==> IsWhitespace(r[i])
    ensures |r| < |line| ==> !IsWhitespace(line[|r|])
  {
    if line != [] && IsWhitespace(line[0]) then [line[0]] + LeadingWhitespace(line[1..]) else []
  }

  /** JavaScript's `s.split(sep)` for a one-character separator. */
  function Split(s: string, sep: char): (r: seq<string>)
    ensures |r| >= 1
  {
    if s == [] then [""]
    else
      var rest := Split(s[1..], sep);
      if s[0] == sep then [""] + rest else [[s[0]] + rest[0]] + rest[1..]
  }

  /** Splitting yields one piece more than there are separators. */
  lemma {:induction false} SplitCount(s: string, sep: char)
    ensures |Split(s, sep)| == multiset(s)[sep] + 1
  {
    if s != [] {
      SplitCount(s[1..], sep);
      assert s == [s[0]] + s[1..];
      assert multiset(s) == multiset([s[0]]) + multiset(s[1..]);
    }
  }

  /** Splitting loses nothing: joining the pieces with the separator gives the
      text back, and no piece holds the separator. */
  lemma {:induction false} SplitJoin(s: string, sep: char)
    ensures Joined(Split(s, sep), [sep]) == s
    ensures forall i :: 0 <= i < |Split(s, sep)| ==> sep !in Split(s, sep)[i]
  {
    if s != [] {
      SplitJoin(s[1..], sep);
      var rest := Split(s[1..], sep);
      assert s == [s[0]] + s[1..];
      if s[0] == sep {
        assert Split(s, sep) == [""] + rest;
        assert Joined([""] + rest, [sep]) == "" + [sep] + Joined(rest, [sep]);
      } else {
        assert Split(s, sep) == [[s[0]] + rest[0]] + rest[1..];
        JoinExtendFirst(s[0], rest, [sep]);
        ExtendFirstKeepsFree(s[0], rest, sep);
      }
    }
  }

  /** Putting a character in front of the first piece puts it in front of the
      joined text. */
  lemma JoinExtendFirst(c: char, parts: seq<string>, sep: string)
    requires |parts| >= 1
    ensures Joined([[c] + parts[0]] + parts[1..], sep) == [c] + Joined(parts, sep)
  {
  }

  /** Putting a character other than the separator in front of the first piece
      keeps every piece free of the separator. */
  lemma ExtendFirstKeepsFree(c: char, parts: seq<string>, sep: char)
    requires |parts| >= 1 && c != sep
    requires forall i :: 0 <= i < |parts| ==> sep !in parts[i]
    ensures forall i :: 0 <= i < |parts| ==> sep !in ([[c] + parts[0]] + parts[1..])[i]
  {
  }

  /** The line the cursor is on: the last piece of the text before it. */
  function CurrentLine(before: string): string
  {
    var lines := Split(before, '\n');
    lines[|lines| - 1]
  }

  /** The facts about the current line of `before`: a line-break-free suffix,
      preceded by a line break unless it is all of `before`, and all of it
      exactly when there is a single piece. */
  predicate IsLastLine(before: string, line: string, pieces: nat)
  {
    && |line| <= |before| && before[|before| - |line|..] == line
    && '\n' !in line
    && (|line| < |before| ==> before[|before| - |line| - 1] == '\n')
    && (pieces == 1 ==> line == before)
    && (pieces > 1 ==> |line| < |before|)
  }

  /** The current line is what follows the last line break before the cursor,
      and all of the text when there is none. */
  lemma {:induction false} CurrentLineIsLastLine(before: string)
    ensures IsLastLine(before, CurrentLine(before), |Split(before, '\n')|)
  {
    if before != [] {
      var tail := before[1..];
      CurrentLineIsLastLine(tail);
      var rest := Split(tail, '\n');
      var pieces := Split(before, '\n');
      if before[0] == '\n' {
        assert pieces == [""] + rest;
        assert CurrentLine(before) == CurrentLine(tail);
        LastLineAfterBreak(before, CurrentLine(tail), |rest|);
      } else if |rest| == 1 {
        assert pieces == [[before[0]] + rest[0]];
        assert CurrentLine(before) == [before[0]] + CurrentLine(tail);
        LastLineSingle(before, CurrentLine(tail));
      } else {
        assert pieces == [[before[0]] + rest[0]] + rest[1..];
        assert CurrentLine(before) == CurrentLine(tail);
        LastLineAfterChar(before, CurrentLine(tail), |rest|);
      }
    }
  }

  /** Another character in front of a single piece extends it. */
  lemma LastLineSingle(before: string, line: string)
    requires before != [] && before[0] != '\n'
    requires IsLastLine(before[1..], line, 1)
    ensures IsLastLine(before, [before[0]] + line, 1)
  {
  }

  /** A line break in front keeps the last line and adds a piece. */
  lemma LastLineAfterBreak(before: string, line: string, pieces: nat)
    requires before != [] && before[0] == '\n' && pieces >= 1
    requires IsLastLine(before[1..], line, pieces)
    ensures IsLastLine(before, line, pieces + 1)
  {
  }

  /** Another character in front of several pieces keeps the last line. */
  lemma LastLineAfterChar(before: string, line: string, pieces: nat)
    requires before != [] && pieces > 1
    requires IsLastLine(before[1..], line, pieces)
    ensures IsLastLine(before, line, pieces)
  {
  }

  /** The key press's effect on the text area. */
  datatype KeyResult = KeyResult(value: string, selStart: nat, selEnd: nat, handled: bool)

  /** `handleKeyDown`: auto-pairing and wrapping, pair deletion on Backspace,
      skipping over a closer, and indentation on Enter between brackets, tried in
      this order; any other key, or a branch whose conditions fail, leaves
      everything as it was and the key to the browser. */
  function KeyDown(value: string, selStart: nat, selEnd: nat, key: string): (r: KeyResult)
    requires selStart <= selEnd <= |value|
    ensures r.selStart <= r.selEnd <= |r.value|
    ensures r.handled ==> r.selStart == r.selEnd
    ensures !r.handled ==> r == KeyResult(value, selStart, selEnd, false)
  {
    var unhandled := KeyResult(value, selStart, selEnd, false);
    if Closer(key).Some? then
      var before := value[..selStart];
      var after := value[selEnd..];
      var selected := value[selStart..selEnd];
      if selected != "" then
        var cursor := selStart + 1 + |selected|;
        KeyResult(before + key + selected + Closer(key).value + after, cursor, cursor, true)
      else
        KeyResult(before + key + Closer(key).value + after, selStart + 1, selStart + 1, true)
    else if key == "Backspace" then
      var charBefore := CharAt(value, selStart - 1);
      var charAfter := CharAt(value, selStart);
      if PairOf(charBefore).Some? && PairOf(charBefore) == charAfter && selStart == selEnd then
        KeyResult(value[..selStart - 1] + value[selStart + 1..], selStart - 1, selStart - 1, true)
      else unhandled
    else if key in ClosingKeys then
      var charAfter := CharAt(value, selStart);
      if charAfter == Some(key) && selStart == selEnd then
        KeyResult(value, selStart + 1, selStart + 1, true)
      else unhandled
    else if key == "Enter" then
      var charBefore := CharAt(value, selStart - 1);
      var charAfter := CharAt(value, selStart);
      if (charBefore == Some("{") && charAfter == Some("}"))
        || (charBefore == Some("[") && charAfter == Some("]"))
        || (charBefore == Some("(") && charAfter == Some(")")) then
        OpenIndentedLine(value, selStart)
      else unhandled
    else unhandled
  }

  /** Enter between brackets: a line break and the current line's indentation
      plus two spaces before the cursor, a line break and the current
      indentation after it, and the cursor at the end of the new line. */
  function OpenIndentedLine(value: string, selStart: nat): (r: KeyResult)
    requires selStart <= |value|
    ensures r.handled && r.selStart == r.selEnd <= |r.value|
    ensures |r.value| == |value| + 4 + 2 * |LeadingWhitespace(CurrentLine(value[..selStart]))|
  {
    var currentIndent := LeadingWhitespace(CurrentLine(value[..selStart]));
    var newIndent := currentIndent + "  ";
    var cursor := selStart + 1 + |newIndent|;
    KeyResult(value[..selStart] + "\n" + newIndent + "\n" + currentIndent + value[selStart..], cursor, cursor, true)
  }

  /** An opener or quote typed with nothing selected: the key lands before the
      cursor and its closer right after it. */
  lemma TypePairInserts(value: string, cursor: nat, key: string)
    requires cursor <= |value| && Closer(key).Some?
    ensures var r := KeyDown(value, cursor, cursor, key);
            && r.handled && r.selStart == cursor + 1
            && |r.value| == |value| + 2
            && r.value[..r.selStart] == value[..cursor] + key
            && r.value[r.selStart..] == Closer(key).value + value[cursor..]
  {
  }

  /** An opener or quote typed over a selection: the selection is wrapped, the
      text grows by two, and the cursor lands just before the closer. */
  lemma TypePairWraps(value: string, selStart: nat, selEnd: nat, key: string)
    requires selStart < selEnd <= |value| && Closer(key).Some?
    ensures var r := KeyDown(value, selStart, selEnd, key);
            && r.handled && r.selStart == selStart + 1 + (selEnd - selStart)
            && |r.value| == |value| + 2
            && r.value[..r.selStart] == value[..selStart] + key + value[selStart..selEnd]
            && r.value[r.selStart..] == Closer(key).value + value[selEnd..]
  {
  }

  /** When Backspace removes a pair: exactly when nothing is selected and the
      cursor sits between an opener and its closer; both go, and the cursor
      moves back by one. */
  lemma BackspaceDeletesPair(value: string, selStart: nat, selEnd: nat)
    requires selStart <= selEnd <= |value|
    ensures var r := KeyDown(value, selStart, selEnd, "Backspace");
            && (r.handled <==> selStart == selEnd && 0 < selStart < |value|
                               && Closer([value[selStart - 1]]) == Some([value[selStart]]))
            && (r.handled ==> r.value == value[..selStart - 1] + value[selStart + 1..]
                              && r.selStart == selStart - 1)
  {
  }

  /** Backspace right after auto-pairing undoes it. */
  lemma TypePairThenBackspace(value: string, cursor: nat, key: string)
    requires cursor <= |value| && Closer(key).Some?
    ensures var typed := KeyDown(value, cursor, cursor, key);
            KeyDown(typed.value, cursor + 1, cursor + 1, "Backspace") == KeyResult(value, cursor, cursor, true)
  {
  }

  /** Typing `)`, `]` or `}` onto the same character with nothing selected steps
      over it and leaves the text alone; in every other case the key is left to
      the browser. */
  lemma ClosingKeySkips(value: string, selStart: nat, selEnd: nat, key: string)
    requires selStart <= selEnd <= |value| && key in {")", "]", "}"}
    ensures var r := KeyDown(value, selStart, selEnd, key);
            && (r.handled <==> selStart == selEnd && selStart < |value| && [value[selStart]] == key)
            && (r.handled ==> r.value == value && r.selStart == selStart + 1)
  {
  }

  /** Auto-pairing then typing the closer gives what plain typing of both
      characters gives. */
  lemma TypeOpenerThenCloser(value: string, cursor: nat, key: string)
    requires cursor <= |value| && key in {"(", "[", "{"}
    ensures var typed := KeyDown(value, cursor, cursor, key);
            var closed := KeyDown(typed.value, cursor + 1, cursor + 1, Closer(key).value);
            closed == KeyResult(value[..cursor] + key + Closer(key).value + value[cursor..], cursor + 2, cursor + 2, true)
  {
  }

  /** A quote is always paired, never stepped over: the skip branch is out of
      reach for quotes because the pairing branch takes them first. */
  lemma QuotesAlwaysPair(value: string, selStart: nat, selEnd: nat, key: string)
    requires selStart <= selEnd <= |value| && key in {"\"", "'", "`"}
    ensures var r := KeyDown(value, selStart, selEnd, key);
            r.handled && |r.value| == |value| + 2
  {
    if selStart < selEnd {
      TypePairWraps(value, selStart, selEnd, key);
    } else {
      TypePairInserts(value, selStart, key);
    }
  }

  /** Enter between `{}`, `[]` or `()` opens an indented line: the text before
      the cursor gains a line break and the current line's indentation plus two
      spaces, the text after it a line break and the current indentation, and
      the cursor sits at the end of the new line. The selection's end plays no
      part. Any other Enter is left to the browser. */
  lemma EnterBetweenBrackets(value: string, selStart: nat, selEnd: nat)
    requires selStart <= selEnd <= |value|
    ensures var r := KeyDown(value, selStart, selEnd, "Enter");
            var indent := LeadingWhitespace(CurrentLine(value[..selStart]));
            && (r.handled <==>
                  (0 < selStart < |value| && [value[selStart - 1], value[selStart]] in {"{}", "[]", "()"}))
            && (r.handled ==>
                  && r.selStart == selStart + 1 + |indent| + 2
                  && r.value[..r.selStart] == value[..selStart] + "\n" + indent + "  "
                  && r.value[r.selStart..] == "\n" + indent + value[selStart..]
                  && r == KeyDown(value, selStart, selStart, "Enter"))
  {
    var r := KeyDown(value, selStart, selEnd, "Enter");
    var indent := LeadingWhitespace(CurrentLine(value[..selStart]));
    if r.handled {
      var head := value[..selStart] + "\n" + indent + "  ";
      assert r.value == head + ("\n" + indent + value[selStart..]);
      assert |head| == selStart + 1 + |indent| + 2;
    }
  }

  /** The line whose indentation Enter copies is the text after the last line
      break before the cursor, or all the text before it when there is none. */
  lemma EnterCopiesCurrentLine(value: string, selStart: nat)
    requires selStart <= |value|
    ensures |CurrentLine(value[..selStart])| <= selStart
    ensures '\n' !in CurrentLine(value[..selStart])
    ensures value[selStart - |CurrentLine(value[..selStart])|..selStart] == CurrentLine(value[..selStart])
    ensures |CurrentLine(value[..selStart])| < selStart ==>
              value[selStart - |CurrentLine(value[..selStart])| - 1] == '\n'
  {
    CurrentLineIsLastLine(value[..selStart]);
    var line := CurrentLine(value[..selStart]);
    assert value[..selStart][selStart - |line|..] == value[selStart - |line|..selStart];
  }

  /** On the status bar, a handled Enter adds exactly two lines, and two line
      breaks plus the copied indentation twice plus two spaces of characters. */
  lemma EnterAddsTwoLines(value: string, selStart: nat, selEnd: nat)
    requires selStart <= selEnd <= |value|
    ensures var r := KeyDown(value, selStart, selEnd, "Enter");
            var indent := LeadingWhitespace(CurrentLine(value[..selStart]));
            r.handled ==>
              && LineCount(r.value) == LineCount(value) + 2
              && CharCount(r.value) == CharCount(value) + 4 + 2 * |indent|
  {
    if KeyDown(value, selStart, selEnd, "Enter").handled {
      assert KeyDown(value, selStart, selEnd, "Enter") == OpenIndentedLine(value, selStart);
      OpenedLineCounts(value, selStart);
    }
  }

  /** The status-bar counts after opening an indented line. */
  lemma OpenedLineCounts(value: string, selStart: nat)
    requires selStart <= |value|
    ensures LineCount(OpenIndentedLine(value, selStart).value) == LineCount(value) + 2
  {
    var before, after := value[..selStart], value[selStart..];
    var indent := LeadingWhitespace(CurrentLine(before));
    IndentHasNoBreak(before);
    OpenedLineShape(value, selStart);
    TwoBreaksInserted(before, indent, after);
    assert value == before + after;
    assert OpenIndentedLine(value, selStart).value == (before + "\n" + indent + "  ") + ("\n" + indent + after);
  }

  /** The opened text, grouped as what comes before and after the new cursor. */
  lemma OpenedLineShape(value: string, selStart: nat)
    requires selStart <= |value|
    ensures var indent := LeadingWhitespace(CurrentLine(value[..selStart]));
            OpenIndentedLine(value, selStart).value
              == (value[..selStart] + "\n" + indent + "  ") + ("\n" + indent + value[selStart..])
  {
  }

  /** The copied indentation holds no line break. */
  lemma IndentHasNoBreak(before: string)
    ensures '\n' !in LeadingWhitespace(CurrentLine(before))
  {
    CurrentLineIsLastLine(before);
    var line := CurrentLine(before);
    assert LeadingWhitespace(line) == line[..|LeadingWhitespace(line)|];
  }

  /** Inserting a line break, a break-free indentation and two spaces, then
      another line break and the indentation, adds two lines. */
  lemma TwoBreaksInserted(a: string, indent: string, b: string)
    requires '\n' !in indent
    ensures LineCount((a + "\n" + indent + "  ") + ("\n" + indent + b)) == LineCount(a + b) + 2
  {
  }

  /** The status bar's character count after a key the editor takes over:
      pairing adds the two characters, deleting a pair removes two, stepping
      over a closer changes nothing, and opening a line adds two line breaks,
      two spaces and the indentation twice. */
  lemma HandledKeyCharCount(value: string, selStart: nat, selEnd: nat, key: string)
    requires selStart <= selEnd <= |value|
    ensures var r := KeyDown(value, selStart, selEnd, key);
            var indent := LeadingWhitespace(CurrentLine(value[..selStart]));
            r.handled ==>
              CharCount(r.value) == CharCount(value)
                + (if Closer(key).Some? then 2
                   else if key == "Backspace" then -2
                   else if key == "Enter" then 4 + 2 * |indent|
                   else 0)
  {
    if Closer(key).Some? {
      if selStart < selEnd {
        TypePairWraps(value, selStart, selEnd, key);
      } else {
        TypePairInserts(value, selStart, key);
      }
    } else if key == "Backspace" {
      BackspaceDeletesPair(value, selStart, selEnd);
    } else if key == "Enter" {
      EnterAddsTwoLines(value, selStart, selEnd);
    }
  }

  /** Keys outside every branch are left to the browser. */
  lemma OtherKeysUntouched(value: string, selStart: nat, selEnd: nat, key: string)
    requires selStart <= selEnd <= |value|
    requires key !in {"(", "[", "{", "\"", "'", "`", ")", "]", "}", "Backspace", "Enter"}
    ensures KeyDown(value, selStart, selEnd, key) == KeyResult(value, selStart, selEnd, false)
  {
  }

  /** The part of the editor's state a language switch touches. */
  datatype EditorState = EditorState(selectedLanguage: string, code: string, output: string)

  /** The built-in starting texts, by language. */
  const DefaultCode: map<string, string> :=
    map["javascript" := " Welcome to the Online Code Compiler Please select a language and start coding!"]

  /** The editor as it opens. */
  function Initial(): EditorState
  {
    EditorState("javascript", DefaultCode["javascript"], "")
  }

  /** `handleLanguageChange`: select the language, load its starting text or a
      one-line placeholder comment, and clear the output. */
  function LanguageChange(st: EditorState, language: string): (r: EditorState)
    ensures r.selectedLanguage == language && r.output == ""
    ensures language in DefaultCode ==> r.code == DefaultCode[language]
    ensures language !in DefaultCode ==> r.code == "// " + language + " code here"
  {
    var starting := if language in DefaultCode && DefaultCode[language] != "" then DefaultCode[language]
                    else "// " + language + " code here";
    EditorState(language, starting, "")
  }

  /** A switch forgets everything about the state before it, so switching twice
      to the same language is the same as switching once, and switching back
      to the opening language restores the opening state. */
  lemma LanguageChangeForgets(st: EditorState, other: EditorState, language: string)
    ensures LanguageChange(st, language) == LanguageChange(other, language)
    ensures LanguageChange(LanguageChange(st, language), language) == LanguageChange(st, language)
    ensures LanguageChange(st, "javascript") == Initial()
  {
  }

  /** The selector offers the catalogue's names, none of which has a starting
      text, so every selection loads the placeholder, which is one line naming
      the language. */
  lemma CatalogueSelectionsGetPlaceholder(st: EditorState, i: nat)
    requires i < |AllLanguages()|
    ensures LanguageChange(st, AllLanguages()[i].name).code == "// " + AllLanguages()[i].name + " code here"
    ensures LineCount(LanguageChange(st, AllLanguages()[i].name).code) == 1
  {
    CatalogueNamesPlain(i);
    PlaceholderIsOneLine(AllLanguages()[i].name);
  }

  /** No catalogue name has a starting text or a line break. */
  lemma CatalogueNamesPlain(i: nat)
    requires i < |AllLanguages()|
    ensures AllLanguages()[i].name !in DefaultCode && '\n' !in AllLanguages()[i].name
  {
  }

  /** The placeholder for a name without line breaks is a single line. */
  lemma PlaceholderIsOneLine(language: string)
    requires '\n' !in language
    ensures LineCount("// " + language + " code here") == 1
  {
    var code := "// " + language + " code here";
    assert '\n' !in code;
    assert multiset(code)['\n'] == 0;
  }

  /** The status bar's line count: one more than the number of line breaks. */
  function LineCount(code: string): (n: nat)
    ensures n == multiset(code)['\n'] + 1
  {
    SplitCount(code, '\n');
    |Split(code, '\n')|
  }

  /** The status bar's character count. */
  function CharCount(code: string): (n: nat)
  {
    |code|
  }
}
