/** The text handling of `rows_input.py`: a text area used as a queue of
    lines, whose first line is taken off, optionally stripped of surrounding
    whitespace, and reported in a status line and a "last input" label cut
    to 30 and 50 characters. The widget's text is a string field; typing
    the line into another window, the clipboard, the keyboard hook and the
    window itself are not modelled. */
module RowsInput {
  import opened Common

  // ---------------------------------------------------------------------
  // String operations

  /** `s.rstrip("\n")`: `s` without its trailing run of newlines. */
  function RStripNewlines(s: string): (r: string)
    ensures |r| <= |s| && r == s[..|r|]
    ensures r == [] || r[|r| - 1] != '\n'
  {
    if s != [] && s[|s| - 1] == '\n' then RStripNewlines(s[..|s| - 1]) else s
  }

  /** Everything `rstrip("\n")` removes is a newline. */
  lemma {:induction false} RStripDropsNewlines(s: string)
    ensures forall i :: |RStripNewlines(s)| <= i < |s| ==> s[i] == '\n'
  {
    if s != [] && s[|s| - 1] == '\n' {
      RStripDropsNewlines(s[..|s| - 1]);
    }
  }

  /** Tk's `get("1.0", END)` adds one newline after the text; stripping the
      trailing newlines removes it again together with the text's own. */
  lemma RStripTkNewline(s: string)
    ensures RStripNewlines(s + "\n") == RStripNewlines(s)
  {
    assert (s + "\n")[..|s|] == s;
  }

  /** Python's `str.isspace` for one character: the characters `str.strip()`
      removes when given no argument. */
  predicate IsSpace(c: char)
  {
    c == '\t' || c == '\n' || c == '\U{0b}' || c == '\U{0c}' || c == '\r'
    || ('\U{1c}' <= c <= '\U{1f}') || c == ' ' || c == '\U{85}' || c == '\U{a0}'
    || c == '\U{1680}' || ('\U{2000}' <= c <= '\U{200a}') || c == '\U{2028}'
    || c == '\U{2029}' || c == '\U{202f}' || c == '\U{205f}' || c == '\U{3000}'
  }

  /** How many whitespace characters `s` starts with. */
  function LeadingSpaces(s: string): (n: nat)
    ensures n <= |s|
    ensures forall i :: 0 <= i < n ==> IsSpace(s[i])
    ensures n == |s| || !IsSpace(s[n])
  {
    if s != [] && IsSpace(s[0]) then 1 + LeadingSpaces(s[1..]) else 0
  }

  /** How many whitespace characters `s` ends with. */
  function TrailingSpaces(s: string): (n: nat)
    ensures n <= |s|
    ensures forall i :: |s| - n <= i < |s| ==> IsSpace(s[i])
    ensures n == |s| || !IsSpace(s[|s| - n - 1])
  {
    if s != [] && IsSpace(s[|s| - 1]) then 1 + TrailingSpaces(s[..|s| - 1]) else 0
  }

  /** `s.strip()`. */
  function Strip(s: string): string
  {
    var t := s[LeadingSpaces(s)..];
    t[..|t| - TrailingSpaces(t)]
  }

  /** What `strip` keeps is a slice of the input whose ends are not
      whitespace, and everything it drops is whitespace. */
  lemma StripSlice(s: string)
    ensures exists i, j :: 0 <= i <= j <= |s| && Strip(s) == s[i..j]
              && (forall k :: 0 <= k < i ==> IsSpace(s[k]))
              && (forall k :: j <= k < |s| ==> IsSpace(s[k]))
    ensures Strip(s) == [] || (!IsSpace(Strip(s)[0]) && !IsSpace(Strip(s)[|Strip(s)| - 1]))
  {
    var i := LeadingSpaces(s);
    var t := s[i..];
    var j := |s| - TrailingSpaces(t);
    assert Strip(s) == s[i..j];
    forall k | j <= k < |s|
      ensures IsSpace(s[k])
    {
      assert s[k] == t[k - i];
    }
  }

  /** Stripping twice is stripping once. */
  lemma StripIdempotent(s: string)
    ensures Strip(Strip(s)) == Strip(s)
  {
    var r := Strip(s);
    StripSlice(s);
    if r != [] {
      assert LeadingSpaces(r) == 0;
      assert TrailingSpaces(r) == 0;
    }
  }

  /** `s if len(s) <= n else s[:n] + "..."`. */
  function Truncate(s: string, n: nat): string
  {
    if |s| <= n then s else s[..n] + "..."
  }

  /** The display shows the text unchanged exactly when it fits, or when it
      is three characters too long and already ends in "...". */
  lemma TruncateUnchanged(s: string, n: nat)
    ensures Truncate(s, n) == s <==> |s| <= n || (|s| == n + 3 && s[n..] == "...")
  {
    if |s| > n {
      if |s| == n + 3 && s[n..] == "..." {
        assert s == s[..n] + s[n..];
      }
      if Truncate(s, n) == s {
        assert s[n..] == Truncate(s, n)[n..];
      }
    }
  }

  /** The display keeps the first `min(n, |s|)` characters of the text and
      is never longer than `n + 3`. */
  lemma TruncatePrefix(s: string, n: nat)
    ensures |Truncate(s, n)| <= n + 3 && |Truncate(s, n)| <= |s| + 3
    ensures |s| <= n ==> Truncate(s, n) == s
    ensures |s| > n ==> Truncate(s, n)[..n] == s[..n] && Truncate(s, n)[n..] == "..."
  {
  }

  // ---------------------------------------------------------------------
  // The first line of the text

  datatype LineSplit = LineSplit(line: string, rest: string)

  /** The cut `get_first_line` makes at `content.find("\n")`: the text
      before the first newline and the text after it, or the whole content
      and nothing when there is no newline. */
  function SplitFirstLine(content: string): (r: LineSplit)
    ensures '\n' !in r.line
    ensures '\n' in content ==> r.line + "\n" + r.rest == content
    ensures '\n' !in content ==> r.line == content && r.rest == ""
  {
    match IndexOf(content, '\n', 0)
    case None => LineSplit(content, "")
    case Some(end) =>
      assert content == content[..end] + "\n" + content[end + 1..];
      LineSplit(content[..end], content[end + 1..])
  }

  // ---------------------------------------------------------------------
  // The window's state and its operations as functions

  const READY := "就绪 - 请输入文本"
  const NO_MORE_LINES := "没有更多文本行可输入"
  const TYPED_PREFIX := "已输入: "
  const LAST_INPUT_PREFIX := "上次输入: "
  const LAST_INPUT_NONE := "上次输入: 暂无"
  const TOPMOST_ON := "已开启窗口置顶"
  const TOPMOST_OFF := "已关闭窗口置顶"
  const TRIM_ON := "已开启去除文本前后空格"
  const TRIM_OFF := "已关闭去除文本前后空格"
  const PASTE_ON := "已开启粘贴模式"
  const PASTE_OFF := "已关闭粘贴模式"

  /** Everything of a `TextLineInputter` that its methods read or write:
      the text area's text (without the newline Tk keeps after it), the
      three switches, the last line typed, the status line and the label
      showing the last line. */
  datatype Inputter = Inputter(buffer: string, topmost: bool, trimWhitespace: bool,
                               pasteMode: bool, lastInput: string, status: string,
                               lastInputLabel: string)

  /** The state `__init__` leaves behind with an empty text area. */
  function Initial(): Inputter
  {
    Inputter("", false, false, false, "", READY, LAST_INPUT_NONE)
  }

  /** `get_first_line`: the new state and the line taken, or `None`. */
  function TakeFirstLine(s: Inputter): (Inputter, Option<string>)
  {
    var content := RStripNewlines(s.buffer + "\n");
    if content == [] then (s, None)
    else
      var split := SplitFirstLine(content);
      var line := if s.trimWhitespace then Strip(split.line) else split.line;
      (s.(buffer := split.rest), Some(line))
  }

  /** `input_first_line`: take the first line, type or paste it, and report
      it. `typed` is false when typing or the clipboard raised: the line has
      already left the text area, but the exception skips the report. */
  function InputLine(s: Inputter, typed: bool): Inputter
  {
    var (t, line) := TakeFirstLine(s);
    match line
    case None => t.(status := NO_MORE_LINES)
    case Some(l) =>
      if !typed then t
      else
        t.(status := TYPED_PREFIX + Truncate(l, 30), lastInput := l,
           lastInputLabel := LAST_INPUT_PREFIX + Truncate(l, 50))
  }

  function SetTopmost(s: Inputter, checked: bool): Inputter
  {
    s.(topmost := checked, status := if checked then TOPMOST_ON else TOPMOST_OFF)
  }

  function SetTrimWhitespace(s: Inputter, checked: bool): Inputter
  {
    s.(trimWhitespace := checked, status := if checked then TRIM_ON else TRIM_OFF)
  }

  function SetPasteMode(s: Inputter, checked: bool): Inputter
  {
    s.(pasteMode := checked, status := if checked then PASTE_ON else PASTE_OFF)
  }

  // ---------------------------------------------------------------------
  // What `get_first_line` and `input_first_line` promise

  /** There is no line to take exactly when the text is empty or only
      newlines, and then nothing changes. */
  lemma NoLineWhenBlank(s: Inputter)
    ensures TakeFirstLine(s).1.None? <==> RStripNewlines(s.buffer) == []
    ensures TakeFirstLine(s).1.None? ==> TakeFirstLine(s).0 == s
  {
    RStripTkNewline(s.buffer);
  }

  /** With a newline left after trailing newlines are stripped, the line
      taken (before any trimming) is the text before the first newline and
      the text area keeps exactly the text after it. */
  lemma TakesTextBeforeFirstNewline(s: Inputter)
    requires '\n' in RStripNewlines(s.buffer)
    ensures TakeFirstLine(s).1.Some?
    ensures var content := RStripNewlines(s.buffer);
            var line := SplitFirstLine(content).line;
            line + "\n" + TakeFirstLine(s).0.buffer == content
            && '\n' !in line
            && TakeFirstLine(s).1.value == (if s.trimWhitespace then Strip(line) else line)
  {
    RStripTkNewline(s.buffer);
  }

  /** Without a newline the whole remaining text is the line and the text
      area becomes empty. */
  lemma TakesWholeSingleLine(s: Inputter)
    requires RStripNewlines(s.buffer) != [] && '\n' !in RStripNewlines(s.buffer)
    ensures TakeFirstLine(s).0.buffer == ""
    ensures TakeFirstLine(s).1
            == Some(if s.trimWhitespace then Strip(RStripNewlines(s.buffer)) else RStripNewlines(s.buffer))
  {
    RStripTkNewline(s.buffer);
  }

  /** The text written back never ends in a newline, and a blank first line
      comes back as the empty line rather than as "no line". */
  lemma NewBufferHasNoTrailingNewline(s: Inputter)
    requires TakeFirstLine(s).1.Some?
    ensures var b := TakeFirstLine(s).0.buffer; b == [] || b[|b| - 1] != '\n'
    ensures s.buffer != [] && s.buffer[0] == '\n' ==> TakeFirstLine(s).1 == Some("")
  {
    var content := RStripNewlines(s.buffer + "\n");
    var split := SplitFirstLine(content);
    if '\n' in content {
      assert content == split.line + "\n" + split.rest;
      assert split.rest == content[|split.line| + 1..];
    }
    if s.buffer != [] && s.buffer[0] == '\n' {
      RStripTkNewline(s.buffer);
      assert content[0] == '\n';
      assert '\n' in content;
      assert (split.line + "\n" + split.rest)[|split.line|] == '\n';
    }
  }

  /** Trimming touches only the returned line: the text area ends up the
      same with the switch on or off, and switches and labels are left
      alone. */
  lemma TrimOnlyAffectsLine(s: Inputter)
    ensures TakeFirstLine(s.(trimWhitespace := true)).0.buffer
            == TakeFirstLine(s.(trimWhitespace := false)).0.buffer
    ensures TakeFirstLine(s).0 == s.(buffer := TakeFirstLine(s).0.buffer)
  {
  }

  /** With no line to take, only the status changes. */
  lemma InputWithoutLine(s: Inputter, typed: bool)
    requires RStripNewlines(s.buffer) == []
    ensures InputLine(s, typed) == s.(status := NO_MORE_LINES)
  {
    NoLineWhenBlank(s);
  }

  /** With a line typed, the last input is that line, the status shows it
      cut to 30 characters, the label cut to 50, and the text area loses it. */
  lemma InputWithLine(s: Inputter)
    requires RStripNewlines(s.buffer) != []
    ensures var (t, line) := TakeFirstLine(s);
            line.Some?
            && InputLine(s, true).buffer == t.buffer
            && InputLine(s, true).lastInput == line.value
            && InputLine(s, true).status == TYPED_PREFIX + Truncate(line.value, 30)
            && InputLine(s, true).lastInputLabel == LAST_INPUT_PREFIX + Truncate(line.value, 50)
            && '\n' !in InputLine(s, true).lastInput
  {
    NoLineWhenBlank(s);
    var content := RStripNewlines(s.buffer + "\n");
    var split := SplitFirstLine(content);
    if s.trimWhitespace {
      StripSlice(split.line);
    }
  }

  /** When typing raises, the line is lost: the text area is shorter than
      before, and the status, the last input and its label stay as they
      were. */
  lemma LineLostWhenTypingFails(s: Inputter)
    requires RStripNewlines(s.buffer) != []
    ensures InputLine(s, false) == s.(buffer := TakeFirstLine(s).0.buffer)
    ensures |InputLine(s, false).buffer| < |s.buffer|
  {
    NoLineWhenBlank(s);
    RStripTkNewline(s.buffer);
    var content := RStripNewlines(s.buffer + "\n");
    var split := SplitFirstLine(content);
    if '\n' in content {
      assert |split.line + "\n" + split.rest| == |content|;
    }
  }

  /** Each switch takes the checkbox's value and reports its new setting;
      setting it twice to the same value is the same as setting it once. */
  lemma TogglesFollowCheckbox(s: Inputter, checked: bool)
    ensures SetTopmost(s, checked).topmost == checked
            && SetTopmost(s, checked).status == (if checked then TOPMOST_ON else TOPMOST_OFF)
    ensures SetTrimWhitespace(s, checked).trimWhitespace == checked
            && SetTrimWhitespace(s, checked).status == (if checked then TRIM_ON else TRIM_OFF)
    ensures SetPasteMode(s, checked).pasteMode == checked
            && SetPasteMode(s, checked).status == (if checked then PASTE_ON else PASTE_OFF)
    ensures SetTopmost(SetTopmost(s, checked), checked) == SetTopmost(s, checked)
    ensures SetTrimWhitespace(SetTrimWhitespace(s, checked), checked) == SetTrimWhitespace(s, checked)
    ensures SetPasteMode(SetPasteMode(s, checked), checked) == SetPasteMode(s, checked)
  {
  }

  // ---------------------------------------------------------------------
  // The window object

  /** `TextLineInputter` with the fields its methods update in place. */
  class TextLineInputter {
    var buffer: string
    var topmost: bool
    var trimWhitespace: bool
    var pasteMode: bool
    var lastInput: string
    var status: string
    var lastInputLabel: string

    function State(): Inputter
      reads this
    {
      Inputter(buffer, topmost, trimWhitespace, pasteMode, lastInput, status, lastInputLabel)
    }

    /** `__init__`: all switches off, nothing typed yet, an empty text area. */
    constructor ()
      ensures State() == Initial()
    {
      buffer := "";
      topmost := false;
      trimWhitespace := false;
      pasteMode := false;
      lastInput := "";
      status := READY;
      lastInputLabel := LAST_INPUT_NONE;
    }

    method GetFirstLine() returns (line: Option<string>)
      modifies this
      ensures State() == TakeFirstLine(old(State())).0
      ensures line == TakeFirstLine(old(State())).1
    {
      ghost var s0 := State();
      var content := RStripNewlines(buffer + "\n");
      if content == [] {
        assert TakeFirstLine(s0) == (s0, None);
        return None;
      }
      var split := SplitFirstLine(content);
      var first := split.line;
      if trimWhitespace {
        first := Strip(first);
      }
      assert TakeFirstLine(s0) == (s0.(buffer := split.rest), Some(first));
      buffer := split.rest;
      return Some(first);
    }

    /** `typed` tells whether typing the line went through; when it raised,
        the handler stops before the report. */
    method InputFirstLine() returns (typed: bool)
      modifies this
      ensures State() == InputLine(old(State()), typed)
    {
      var line := GetFirstLine();
      if line.None? {
        status := NO_MORE_LINES;
        return false;
      }
      var l := line.value;
      typed :| true;
      if !typed {
        return;
      }
      status := TYPED_PREFIX + Truncate(l, 30);
      lastInput := l;
      lastInputLabel := LAST_INPUT_PREFIX + Truncate(l, 50);
    }

    method ToggleTopmost(checked: bool)
      modifies this
      ensures State() == SetTopmost(old(State()), checked)
    {
      topmost := checked;
      status := if topmost then TOPMOST_ON else TOPMOST_OFF;
    }

    method ToggleTrimWhitespace(checked: bool)
      modifies this
      ensures State() == SetTrimWhitespace(old(State()), checked)
    {
      trimWhitespace := checked;
      status := if trimWhitespace then TRIM_ON else TRIM_OFF;
    }

    method TogglePasteMode(checked: bool)
      modifies this
      ensures State() == SetPasteMode(old(State()), checked)
    {
      pasteMode := checked;
      status := if pasteMode then PASTE_ON else PASTE_OFF;
    }
  }
}
