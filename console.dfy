/**
 * The server console's line editor: the input buffer and its cursor, the command history and
 * its browsing index, the validity flag that colours the prompt, and the display width rule.
 */
module Console {
  import opened Common
  import opened Text

  /** The prompt printed before the input. */
  const PrefixContent: string := "HyacineCore> "
  /** The number of history entries kept. */
  const HistoryMaxCount: nat := 10

  /** EastAsianWidth.GetLength: ASCII is one column wide, everything else two. */
  function CharWidth(c: char): (r: int)
    ensures r == 1 || r == 2
    ensures r == 1 <==> c as int <= 0x7F
  {
    if c as int <= 0x7F then 1 else 2
  }

  /** GetWidth: the sum of the character widths. */
  function GetWidth(s: string): int {
    if s == [] then 0 else GetWidth(s[..|s| - 1]) + CharWidth(s[|s| - 1])
  }

  /** A string is between one and two columns per character wide, exactly one per character when all ASCII. */
  lemma {:induction false} WidthBounds(s: string)
    ensures |s| <= GetWidth(s) <= 2 * |s|
    ensures GetWidth(s) == |s| <==> forall i :: 0 <= i < |s| ==> s[i] as int <= 0x7F
  {
    if s != [] {
      var init := s[..|s| - 1];
      WidthBounds(init);
      assert forall i :: 0 <= i < |init| ==> init[i] == s[i];
    }
  }

  /** The width of a concatenation is the sum of the widths. */
  lemma {:induction false} WidthAppend(a: string, b: string)
    ensures GetWidth(a + b) == GetWidth(a) + GetWidth(b)
  {
    if b == [] {
      assert a + b == a;
    } else {
      assert (a + b)[..|a + b| - 1] == a + b[..|b| - 1];
      WidthAppend(a, b[..|b| - 1]);
    }
  }

  /** The prompt is 13 columns wide. */
  lemma PrefixWidth()
    ensures GetWidth(PrefixContent) == 13
  {
    WidthBounds(PrefixContent);
  }

  /** The characters that make a command invalid. */
  predicate IsInvalidChar(c: char) {
    c == '@' || c == '#' || c == '$' || c == '%' || c == '&' || c == '*'
  }

  /** CheckCommandValid: valid unless some character is one of @ # $ % & *; the empty input is valid. */
  function CheckCommandValid(input: string): (r: bool)
    ensures r <==> forall i :: 0 <= i < |input| ==> !IsInvalidChar(input[i])
    ensures input == [] ==> r
  {
    if input == [] then true
    else !IsInvalidChar(input[0]) && CheckCommandValid(input[1..])
  }

  /** A concatenation is valid exactly when both parts are. */
  lemma CheckCommandValidAppend(a: string, b: string)
    ensures CheckCommandValid(a + b) <==> CheckCommandValid(a) && CheckCommandValid(b)
  {
    var ab := a + b;
    assert forall i :: 0 <= i < |a| ==> ab[i] == a[i];
    assert forall i :: 0 <= i < |b| ==> ab[|a| + i] == b[i];
  }

  /** `char.IsControl`: U+0000..U+001F and U+007F..U+009F. */
  predicate IsControl(c: char) {
    var u := c as int;
    u <= 0x1F || (0x7F <= u <= 0x9F)
  }

  /** `string.IsNullOrWhiteSpace`. */
  predicate IsBlank(s: string) {
    forall i :: 0 <= i < |s| ==> IsWhiteSpace(s[i])
  }

  /** The command an entered line runs: a leading '/' is dropped and the rest trimmed; otherwise the line itself. */
  function CommandOf(line: string): (r: string)
    ensures |line| > 0 && line[0] == '/' ==> r == Trim(line[1..], IsWhiteSpace)
    ensures !(|line| > 0 && line[0] == '/') ==> r == line
  {
    if |line| > 0 && line[0] == '/' then Trim(line[1..], IsWhiteSpace) else line
  }

  /** A slash command is trimmed: it neither starts nor ends with white space. */
  lemma SlashCommandTrimmed(line: string)
    requires |line| > 0 && line[0] == '/'
    ensures var c := CommandOf(line); |c| > 0 ==> !IsWhiteSpace(c[0]) && !IsWhiteSpace(c[|c| - 1])
    ensures |CommandOf(line)| < |line|
  {
    var t := TrimStart(line[1..], IsWhiteSpace);
    var c := TrimEnd(t, IsWhiteSpace);
    assert c == CommandOf(line);
    if |c| > 0 {
      assert c[0] == t[0];
    }
  }

  /** The history after a line is entered: the oldest entry goes when ten are kept. */
  function HistoryAfter(history: seq<string>, line: string): (r: seq<string>)
    ensures |history| <= HistoryMaxCount ==> |r| <= HistoryMaxCount
    ensures |r| > 0 && r[|r| - 1] == line
    ensures |history| < HistoryMaxCount ==> r == history + [line]
  {
    if |history| >= HistoryMaxCount then history[1..] + [line] else history + [line]
  }

  /** The input after a character is inserted at the cursor. */
  function Insert(input: string, cursor: int, c: char): (r: string)
    requires 0 <= cursor <= |input|
    ensures |r| == |input| + 1 && r[cursor] == c
    ensures r[..cursor] == input[..cursor] && r[cursor + 1..] == input[cursor..]
  {
    input[..cursor] + [c] + input[cursor..]
  }

  /** The input after the character before the cursor is removed. */
  function Delete(input: string, cursor: int): (r: string)
    requires 0 < cursor <= |input|
    ensures |r| == |input| - 1
    ensures r[..cursor - 1] == input[..cursor - 1] && r[cursor - 1..] == input[cursor..]
  {
    input[..cursor - 1] + input[cursor..]
  }

  /** Backspace undoes an insertion. */
  lemma DeleteUndoesInsert(input: string, cursor: int, c: char)
    requires 0 <= cursor <= |input|
    ensures Delete(Insert(input, cursor, c), cursor + 1) == input
  {
    var r := Insert(input, cursor, c);
    assert Delete(r, cursor + 1) == input[..cursor] + input[cursor..];
    assert input[..cursor] + input[cursor..] == input;
  }

  /** Re-inserting the removed character undoes a backspace. */
  lemma InsertUndoesDelete(input: string, cursor: int)
    requires 0 < cursor <= |input|
    ensures Insert(Delete(input, cursor), cursor - 1, input[cursor - 1]) == input
  {
    var d := Delete(input, cursor);
    var r := Insert(d, cursor - 1, input[cursor - 1]);
    assert r == input[..cursor - 1] + [input[cursor - 1]] + input[cursor..];
    assert input == input[..cursor - 1] + [input[cursor - 1]] + input[cursor..];
  }

  /** The console's editing state. `consoleAvailable` is IsConsoleAvailable, fixed for the run. */
  class ConsoleEditor {
    const consoleAvailable: bool
    var input: string
    var cursor: int
    var history: seq<string>
    var historyIndex: int
    var isCommandValid: bool

    /** The cursor is inside the input, at most ten entries are kept, and the browsing index is -1 or within them. */
    predicate Valid()
      reads this
    {
      && 0 <= cursor <= |input|
      && |history| <= HistoryMaxCount
      && -1 <= historyIndex <= |history|
    }

    constructor (consoleAvailable: bool)
      ensures Valid()
      ensures this.consoleAvailable == consoleAvailable
      ensures input == [] && cursor == 0 && history == [] && historyIndex == -1 && isCommandValid
    {
      this.consoleAvailable := consoleAvailable;
      input := [];
      cursor := 0;
      history := [];
      historyIndex := -1;
      isCommandValid := true;
    }

    /** The validity flag after RedrawInput: recomputed only when a console is attached. */
    function RedrawnValidity(line: string): bool
      reads this
    {
      if consoleAvailable then CheckCommandValid(line) else isCommandValid
    }

    /**
     * HandleEnter: a blank line changes nothing and runs nothing. Otherwise the line joins the
     * history (dropping the oldest at ten), browsing restarts after it, the input is cleared,
     * the prompt is valid again, and the line's command is run.
     */
    method HandleEnter() returns (command: Option<string>)
      requires Valid()
      modifies this
      ensures Valid()
      ensures IsBlank(old(input)) ==> command == None && unchanged(this)
      ensures !IsBlank(old(input)) ==>
        && command == Some(CommandOf(old(input)))
        && history == HistoryAfter(old(history), old(input))
        && historyIndex == |history|
        && input == [] && cursor == 0 && isCommandValid
    {
      var line := input;
      if forall i :: 0 <= i < |line| ==> IsWhiteSpace(line[i]) {
        return None;
      }
      input := [];
      cursor := 0;
      if |history| >= HistoryMaxCount {
        history := history[1..];
      }
      history := history + [line];
      historyIndex := |history|;
      var cmd := line;
      if |line| > 0 && line[0] == '/' {
        cmd := Trim(line[1..], IsWhiteSpace);
      }
      isCommandValid := true;
      return Some(cmd);
    }

    /** HandleBackspace: at the start nothing happens; otherwise the character before the cursor goes and the cursor follows. */
    method HandleBackspace()
      requires Valid()
      modifies this
      ensures Valid()
      ensures old(cursor) == 0 ==> unchanged(this)
      ensures old(cursor) > 0 ==>
        && input == Delete(old(input), old(cursor)) && cursor == old(cursor) - 1
        && history == old(history) && historyIndex == old(historyIndex)
        && isCommandValid == old(RedrawnValidity(Delete(input, cursor)))
    {
      if cursor <= 0 {
        return;
      }
      cursor := cursor - 1;
      input := input[..cursor] + input[cursor + 1..];
      if consoleAvailable {
        isCommandValid := CheckCommandValid(input);
      }
    }

    /**
     * HandleUpArrow: without history, or at its start, nothing happens; otherwise the previous
     * entry is loaded with the cursor at its end.
     */
    method HandleUpArrow()
      requires Valid()
      modifies this
      ensures Valid()
      ensures (|old(history)| == 0 || old(historyIndex) <= 0) ==> unchanged(this)
      ensures |old(history)| > 0 && old(historyIndex) > 0 ==>
        && history == old(history) && historyIndex == old(historyIndex) - 1
        && input == history[historyIndex] && cursor == |input|
        && isCommandValid == CheckCommandValid(input)
    {
      if |history| == 0 {
        return;
      }
      if historyIndex <= 0 {
        return;
      }
      historyIndex := historyIndex - 1;
      var entry := history[historyIndex];
      input := entry;
      cursor := |input|;
      isCommandValid := CheckCommandValid(entry);
    }

    /**
     * HandleDownArrow: past the end nothing happens; moving onto the end clears the input;
     * otherwise the next entry is loaded with the cursor at its end.
     */
    method HandleDownArrow()
      requires Valid()
      modifies this
      ensures Valid()
      ensures old(historyIndex) >= |old(history)| ==> unchanged(this)
      ensures old(historyIndex) < |old(history)| ==> history == old(history)
      ensures old(historyIndex) + 1 >= |old(history)| > old(historyIndex) ==>
        historyIndex == |history| && input == [] && cursor == 0 && isCommandValid
      ensures old(historyIndex) + 1 < |old(history)| ==>
        && historyIndex == old(historyIndex) + 1
        && input == history[historyIndex] && cursor == |input| && isCommandValid == CheckCommandValid(input)
    {
      if historyIndex >= |history| {
        return;
      }
      historyIndex := historyIndex + 1;
      if historyIndex >= |history| {
        historyIndex := |history|;
        input := [];
        cursor := 0;
        isCommandValid := true;
      } else {
        var entry := history[historyIndex];
        input := entry;
        cursor := |input|;
        isCommandValid := CheckCommandValid(entry);
      }
    }

    /** HandleLeftArrow: the cursor moves one left unless at the start. */
    method HandleLeftArrow()
      requires Valid()
      modifies this
      ensures Valid()
      ensures old(cursor) == 0 ==> unchanged(this)
      ensures old(cursor) > 0 ==>
        && cursor == old(cursor) - 1 && input == old(input) && history == old(history)
        && historyIndex == old(historyIndex) && isCommandValid == old(RedrawnValidity(input))
    {
      if cursor <= 0 {
        return;
      }
      cursor := cursor - 1;
      if consoleAvailable {
        isCommandValid := CheckCommandValid(input);
      }
    }

    /** HandleRightArrow: the cursor moves one right unless at the end. */
    method HandleRightArrow()
      requires Valid()
      modifies this
      ensures Valid()
      ensures old(cursor) == |old(input)| ==> unchanged(this)
      ensures old(cursor) < |old(input)| ==>
        && cursor == old(cursor) + 1 && input == old(input) && history == old(history)
        && historyIndex == old(historyIndex) && isCommandValid == old(RedrawnValidity(input))
    {
      if cursor >= |input| {
        return;
      }
      cursor := cursor + 1;
      if consoleAvailable {
        isCommandValid := CheckCommandValid(input);
      }
    }

    /** HandleInput(char): the character goes in at the cursor and the cursor moves past it. */
    method HandleInput(keyChar: char)
      requires Valid()
      modifies this
      ensures Valid()
      ensures input == Insert(old(input), old(cursor), keyChar) && cursor == old(cursor) + 1
      ensures history == old(history) && historyIndex == old(historyIndex)
      ensures isCommandValid == old(RedrawnValidity(Insert(input, cursor, keyChar)))
    {
      input := input[..cursor] + [keyChar] + input[cursor..];
      cursor := cursor + 1;
      if consoleAvailable {
        isCommandValid := CheckCommandValid(input);
      }
    }

    /**
     * HandleInput(ConsoleKeyInfo): control characters are dropped, and so is a character that
     * would make the input as wide as the console line minus the prompt; anything else is inserted.
     */
    method HandleKey(keyChar: char, bufferWidth: int)
      requires Valid()
      modifies this
      ensures Valid()
      ensures IsControl(keyChar) || GetWidth(old(input)) + CharWidth(keyChar) >= bufferWidth - GetWidth(PrefixContent) ==> unchanged(this)
      ensures !IsControl(keyChar) && GetWidth(old(input)) + CharWidth(keyChar) < bufferWidth - GetWidth(PrefixContent) ==>
        && input == Insert(old(input), old(cursor), keyChar) && cursor == old(cursor) + 1
        && history == old(history) && historyIndex == old(historyIndex)
        && isCommandValid == old(RedrawnValidity(Insert(input, cursor, keyChar)))
        && GetWidth(input) < bufferWidth - GetWidth(PrefixContent)
    {
      if IsControl(keyChar) {
        return;
      }
      PrefixWidth();
      var newWidth := GetWidth(input) + GetWidth([keyChar]);
      assert GetWidth([keyChar]) == CharWidth(keyChar) by {
        assert [keyChar][..0] == [];
      }
      if newWidth >= bufferWidth - GetWidth(PrefixContent) {
        return;
      }
      ghost var before := input;
      ghost var at := cursor;
      HandleInput(keyChar);
      WidthAppend(before[..at], [keyChar]);
      WidthAppend(before[..at] + [keyChar], before[at..]);
      WidthAppend(before[..at], before[at..]);
      assert before[..at] + before[at..] == before;
    }
  }

  /** A key read by ListenConsole: the named keys it handles, and any other key with its character. */
  datatype Key = Enter | Backspace | LeftArrow | RightArrow | UpArrow | DownArrow | Other(keyChar: char)

  /** One step of ListenConsole's loop: the key goes to its handler; only Enter can yield a command to run. */
  method Dispatch(editor: ConsoleEditor, key: Key, bufferWidth: int) returns (command: Option<string>)
    requires editor.Valid()
    modifies editor
    ensures editor.Valid()
    ensures !key.Enter? ==> command == None
    ensures command.Some? ==> !IsBlank(old(editor.input)) && command == Some(CommandOf(old(editor.input)))
    ensures editor.history == old(editor.history) || key.Enter?
    ensures key.Enter? && IsBlank(old(editor.input)) ==> command == None && unchanged(editor)
    ensures key.Enter? && !IsBlank(old(editor.input)) ==>
      && command == Some(CommandOf(old(editor.input)))
      && editor.history == HistoryAfter(old(editor.history), old(editor.input))
      && editor.historyIndex == |editor.history| && editor.input == [] && editor.cursor == 0
    ensures key.Backspace? && old(editor.cursor) == 0 ==> unchanged(editor)
    ensures key.Backspace? && old(editor.cursor) > 0 ==>
      editor.input == Delete(old(editor.input), old(editor.cursor)) && editor.cursor == old(editor.cursor) - 1
    ensures key.LeftArrow? ==>
      editor.input == old(editor.input) && editor.cursor == (if old(editor.cursor) > 0 then old(editor.cursor) - 1 else 0)
    ensures key.RightArrow? ==>
      && editor.input == old(editor.input)
      && editor.cursor == (if old(editor.cursor) < |old(editor.input)| then old(editor.cursor) + 1 else old(editor.cursor))
    ensures key.UpArrow? && (|old(editor.history)| == 0 || old(editor.historyIndex) <= 0) ==> unchanged(editor)
    ensures key.UpArrow? && |old(editor.history)| > 0 && old(editor.historyIndex) > 0 ==>
      && editor.historyIndex == old(editor.historyIndex) - 1
      && editor.input == old(editor.history)[old(editor.historyIndex) - 1] && editor.cursor == |editor.input|
    ensures key.DownArrow? && old(editor.historyIndex) >= |old(editor.history)| ==> unchanged(editor)
    ensures key.DownArrow? && old(editor.historyIndex) + 1 == |old(editor.history)| ==>
      editor.historyIndex == |editor.history| && editor.input == [] && editor.cursor == 0
    ensures key.DownArrow? && old(editor.historyIndex) + 1 < |old(editor.history)| ==>
      && editor.historyIndex == old(editor.historyIndex) + 1
      && editor.input == old(editor.history)[old(editor.historyIndex) + 1] && editor.cursor == |editor.input|
    ensures key.Other? && (IsControl(key.keyChar)
                           || GetWidth(old(editor.input)) + CharWidth(key.keyChar) >= bufferWidth - GetWidth(PrefixContent)) ==>
      unchanged(editor)
    ensures key.Other? && !IsControl(key.keyChar)
            && GetWidth(old(editor.input)) + CharWidth(key.keyChar) < bufferWidth - GetWidth(PrefixContent) ==>
      editor.input == Insert(old(editor.input), old(editor.cursor), key.keyChar) && editor.cursor == old(editor.cursor) + 1
  {
    command := None;
    match key {
      case Enter => command := editor.HandleEnter();
      case Backspace => editor.HandleBackspace();
      case LeftArrow => editor.HandleLeftArrow();
      case RightArrow => editor.HandleRightArrow();
      case UpArrow => editor.HandleUpArrow();
      case DownArrow => editor.HandleDownArrow();
      case Other(c) => editor.HandleKey(c, bufferWidth);
    }
  }

  /** No control characters in a string. */
  predicate NoControl(s: string) {
    forall i :: 0 <= i < |s| ==> !IsControl(s[i])
  }

  /** Inserting a character that is not a control character keeps a string free of them, and only such a character does. */
  lemma InsertKeepsControlOut(input: string, cursor: int, c: char)
    requires 0 <= cursor <= |input|
    requires NoControl(input)
    ensures NoControl(Insert(input, cursor, c)) <==> !IsControl(c)
  {
    var r := Insert(input, cursor, c);
    assert forall i :: 0 <= i < cursor ==> r[i] == input[i];
    assert forall i :: cursor < i < |r| ==> r[i] == input[i - 1];
  }
}
