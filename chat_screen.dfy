/** The chat screen of the client (chat.js): its state, the frame `draw`
    paints from that state, and the key and paste handlers that edit the input
    and repaint. */
module ChatScreen {
  import opened Strings
  import opened Canvas
  import opened LineWrap
  import opened CursorWalk
  import opened BubbleLayout
  import opened Events
  import opened ChatEditor

  /** A message as the client holds it (the `sentAt` stamp is not read). */
  datatype Message = Message(from: string, text: string)

  const InputBoxColor := "#bbb"
  const InputBubbleColor := "white"
  const CursorColor := "#000"

  /** The widest a line of a message bubble may be (chat.js:126). */
  function MaxMessageTextWidth(m: Metrics): real
  {
    m.width - m.margin - m.margin - m.padding - m.padding - m.margin
  }

  /** The widest a line of the input box may be (chat.js:133). */
  function MaxInputTextWidth(m: Metrics): real
  {
    m.width - m.margin - m.padding - m.padding - m.margin
  }

  /** `messages.map(..)` of `draw` (chat.js:127-132): every message keeps its
      sender and is wrapped to the message width. */
  function WrapChat(messages: seq<Message>, maxWidth: real, measure: string -> real): (chat: seq<WrappedMessage>)
    ensures |chat| == |messages|
    ensures forall i :: 0 <= i < |chat| ==>
      chat[i].from == messages[i].from && chat[i].lines == Wrap(maxWidth, messages[i].text, measure)
    decreases |messages|
  {
    if messages == [] then []
    else
      var last := messages[|messages| - 1];
      WrapChat(messages[..|messages| - 1], maxWidth, measure) + [WrappedMessage(last.from, Wrap(maxWidth, last.text, measure))]
  }

  /** No message text is lost in wrapping: each message has at least one line
      and its lines joined with spaces are its text behind one space. */
  lemma {:induction false} WrapChatKeepsText(messages: seq<Message>, maxWidth: real, measure: string -> real, i: nat)
    requires i < |messages|
    ensures var chat := WrapChat(messages, maxWidth, measure);
      |chat[i].lines| >= 1 && Join(chat[i].lines) == " " + messages[i].text
  {
    WrapJoin(maxWidth, messages[i].text, measure);
  }

  /** The input box is one line spacing taller than its lines (chat.js:140). */
  function InputBoxHeight(lineCount: nat, m: Metrics): real
  {
    Times(lineCount + 1, m.lineSpacing)
  }

  /** The input box across the bottom and the rounded input bubble inside it,
      one margin in from every edge (chat.js:139-147, chat.js:165-170). */
  function InputBox(m: Metrics, boxY: real, boxH: real): seq<Command>
  {
    [FillRect(0.0, boxY, m.width, boxH, InputBoxColor),
     RoundedRect(m.margin, boxY + m.margin, m.width - m.margin - m.margin, boxH - m.margin - m.margin, m.padding, InputBubbleColor)]
  }

  /** The top of row `row` of the input text: one padding into the bubble,
      then one line spacing per row. */
  function InputRowY(m: Metrics, boxY: real, row: nat): real
  {
    boxY + m.margin + m.padding + Times(row, m.lineSpacing)
  }

  /** Input line `i`, trimmed, inside the input bubble (chat.js:173-178). */
  function InputLineText(lines: seq<string>, i: nat, m: Metrics, boxY: real): Command
    requires i < |lines|
  {
    FillText(Trim(lines[i]), m.margin + m.padding, InputRowY(m, boxY, i), FontColor, Left)
  }

  /** The painting calls for input lines `0..n`, in order. */
  function InputLineCommands(lines: seq<string>, n: nat, m: Metrics, boxY: real): (cmds: seq<Command>)
    requires n <= |lines|
    ensures |cmds| == n
    ensures forall i :: 0 <= i < n ==> cmds[i] == InputLineText(lines, i, m, boxY)
  {
    if n == 0 then [] else InputLineCommands(lines, n - 1, m, boxY) + [InputLineText(lines, n - 1, m, boxY)]
  }

  /** The text measured to place the cursor, as written (chat.js:150): the
      line's leading whitespace goes first, then `col + 1` characters are kept. */
  function BeforeCursorAsWritten(line: string, col: nat): string
  {
    Take(TrimStart(line), col + 1)
  }

  /** The text measured to place the cursor: the first `col + 1` characters of
      the line (the extra one makes up for the separator the wrapper puts in
      front of the first line), then without their leading whitespace, which
      the trimmed painted line does not have either. */
  function BeforeCursor(line: string, col: nat): string
  {
    TrimStart(Take(line, col + 1))
  }

  /** The cursor stroke on input row `row`, after the measured text `before`
      (chat.js:151-152, chat.js:181-187). */
  function CursorStroke(row: nat, before: string, m: Metrics, boxY: real, measure: string -> real): Command
  {
    VerticalStroke(m.padding + m.margin + measure(before), InputRowY(m, boxY, row), m.fontHeight, CursorColor)
  }

  /** The input box, its lines and, while the cursor blinks on, the cursor
      on row `row` after the measured text `before` (chat.js:165-187). */
  function InputFrame(lines: seq<string>, m: Metrics, boxY: real, boxH: real, blink: bool,
                      row: nat, before: string, measure: string -> real): (cmds: seq<Command>)
    ensures |cmds| == 2 + |lines| + (if blink then 1 else 0)
    ensures cmds[..2] == InputBox(m, boxY, boxH)
    ensures forall i :: 0 <= i < |lines| ==> cmds[2 + i] == InputLineText(lines, i, m, boxY)
    ensures blink ==> cmds[2 + |lines|] == CursorStroke(row, before, m, boxY, measure)
  {
    InputBox(m, boxY, boxH) + InputLineCommands(lines, |lines|, m, boxY)
    + (if blink then [CursorStroke(row, before, m, boxY, measure)] else [])
  }

  /** The input part of `draw`: the box, the loop over the input lines and
      the cursor. */
  method PaintInput(lines: seq<string>, m: Metrics, boxY: real, boxH: real, blink: bool,
                    row: nat, before: string, measure: string -> real) returns (cmds: seq<Command>)
    ensures cmds == InputFrame(lines, m, boxY, boxH, blink, row, before, measure)
  {
    cmds := InputBox(m, boxY, boxH);
    for i := 0 to |lines|
      invariant cmds == InputBox(m, boxY, boxH) + InputLineCommands(lines, i, m, boxY)
    {
      cmds := cmds + [InputLineText(lines, i, m, boxY)];
    }
    if blink {
      cmds := cmds + [CursorStroke(row, before, m, boxY, measure)];
    }
  }

  /** The state `draw` reads. */
  datatype View = View(
    userID: string, title: string, inputText: string, cursor: nat,
    blink: bool, messages: seq<Message>, error: string)

  /** The input lines `draw` paints for a view. */
  function InputLines(v: View, m: Metrics, measure: string -> real): (lines: seq<string>)
    ensures |lines| >= 1 && Join(lines) == " " + v.inputText
  {
    WrapJoin(MaxInputTextWidth(m), v.inputText, measure);
    Wrap(MaxInputTextWidth(m), v.inputText, measure)
  }

  /** The top of the input box: the canvas height less the box height
      (chat.js:140-142). */
  function InputTop(v: View, m: Metrics, measure: string -> real): real
  {
    m.height - InputBoxHeight(|InputLines(v, m, measure)|, m)
  }

  /** The bubbles the chat loop paints for a view, stacked from the top of the
      input box (chat.js:190-217). */
  function ChatBubbles(v: View, m: Metrics, measure: string -> real): seq<Bubble>
  {
    var chat := WrapChat(v.messages, MaxMessageTextWidth(m), measure);
    StackFrom(chat, BubbleWidths(chat, m.padding, measure), |chat| - 1, InputTop(v, m, measure), v.userID, m)
  }

  /** Where the cursor of a view is drawn: the row and column the walk over
      the input lines reaches, always on an existing line (chat.js:149). */
  function CursorCell(v: View, m: Metrics, measure: string -> real): (rc: (nat, nat))
    requires v.cursor <= |v.inputText|
    ensures var lines := InputLines(v, m, measure);
      v.cursor < Offset(lines, |lines|) && rc == Walk(lines, v.cursor) && rc.0 < |lines|
  {
    CursorInRange(MaxInputTextWidth(m), v.inputText, measure, v.cursor);
    Walk(InputLines(v, m, measure), v.cursor)
  }

  /** The text `draw` measures to place the cursor, as written (chat.js:149-150):
      the cursor's input line without its leading whitespace, then the first
      `col + 1` characters. */
  function CursorTextAsWritten(v: View, m: Metrics, measure: string -> real): string
    requires v.cursor <= |v.inputText|
  {
    var rc := CursorCell(v, m, measure);
    BeforeCursorAsWritten(InputLines(v, m, measure)[rc.0], rc.1)
  }

  /** The text measured to place the cursor, corrected: the first `col + 1`
      characters of the cursor's input line, then without leading whitespace. */
  function CursorText(v: View, m: Metrics, measure: string -> real): string
    requires v.cursor <= |v.inputText|
  {
    var rc := CursorCell(v, m, measure);
    BeforeCursor(InputLines(v, m, measure)[rc.0], rc.1)
  }

  /** What `draw` paints while no error is set (chat.js:154-157, chat.js:165-225),
      with the cursor placed after the measured text `before`: the background,
      the input box with its lines and the cursor, the chat bubbles stacked
      upward from the input box, and the title bar last. */
  function ContentFrame(v: View, m: Metrics, measure: string -> real, before: string): seq<Command>
    requires v.cursor <= |v.inputText|
  {
    var lines := InputLines(v, m, measure);
    Background(m)
    + InputFrame(lines, m, InputTop(v, m, measure), InputBoxHeight(|lines|, m), v.blink, CursorCell(v, m, measure).0, before, measure)
    + AllBubbleCommands(ChatBubbles(v, m, measure), m) + TitleBar(m, v.title)
  }

  /** The frame `draw` paints, as written (chat.js:110-226): while an error is
      set, the background and the error text in the fill colour still in effect;
      otherwise the content, with the cursor measured as written. */
  function ChatFrameAsWritten(v: View, m: Metrics, measure: string -> real): seq<Command>
    requires v.cursor <= |v.inputText|
  {
    if v.error != "" then ErrorFrameAsWritten(m, v.error)
    else ContentFrame(v, m, measure, CursorTextAsWritten(v, m, measure))
  }

  /** The frame with both corrections: the error text in the font colour, and
      the cursor measured on the untrimmed line. */
  function ChatFrame(v: View, m: Metrics, measure: string -> real): seq<Command>
    requires v.cursor <= |v.inputText|
  {
    if v.error != "" then ErrorFrame(m, v.error)
    else ContentFrame(v, m, measure, CursorText(v, m, measure))
  }

  /** The corrected frame differs from the one painted as written in a single
      call: the colour of the error text while an error is set, and otherwise
      the cursor stroke, which is placed after the as-written measured text. */
  lemma {:induction false} FrameVersions(v: View, m: Metrics, measure: string -> real)
    requires v.cursor <= |v.inputText|
    ensures v.error != "" ==>
      ChatFrameAsWritten(v, m, measure) ==
      ChatFrame(v, m, measure)[2 := FillText("ERROR: " + v.error, 0.0, 0.0, BackgroundColor, Left)]
    ensures v.error == "" && !v.blink ==> ChatFrameAsWritten(v, m, measure) == ChatFrame(v, m, measure)
    ensures v.error == "" && v.blink ==>
      ChatFrameAsWritten(v, m, measure) ==
      ChatFrame(v, m, measure)[4 + |InputLines(v, m, measure)| :=
        CursorStroke(CursorCell(v, m, measure).0, CursorTextAsWritten(v, m, measure), m, InputTop(v, m, measure), measure)]
  {
    if v.error == "" {
      ContentFrameCursor(v, m, measure, CursorTextAsWritten(v, m, measure), CursorText(v, m, measure));
    }
  }

  /** The content frame as its three parts: the background, the input box and
      the bubbles with the title bar. */
  lemma ContentSplit(v: View, m: Metrics, measure: string -> real, before: string)
    requires v.cursor <= |v.inputText|
    ensures var lines := InputLines(v, m, measure);
      ContentFrame(v, m, measure, before) ==
      Background(m)
      + InputFrame(lines, m, InputTop(v, m, measure), InputBoxHeight(|lines|, m), v.blink, CursorCell(v, m, measure).0, before, measure)
      + (AllBubbleCommands(ChatBubbles(v, m, measure), m) + TitleBar(m, v.title))
  {
  }

  /** Content frames whose cursors are measured after different texts differ
      in the cursor stroke only. */
  lemma {:induction false} ContentFrameCursor(v: View, m: Metrics, measure: string -> real, before: string, before': string)
    requires v.cursor <= |v.inputText|
    ensures !v.blink ==> ContentFrame(v, m, measure, before) == ContentFrame(v, m, measure, before')
    ensures v.blink ==>
      ContentFrame(v, m, measure, before) ==
      ContentFrame(v, m, measure, before')[4 + |InputLines(v, m, measure)| :=
        CursorStroke(CursorCell(v, m, measure).0, before, m, InputTop(v, m, measure), measure)]
  {
    var lines := InputLines(v, m, measure);
    var boxY := InputTop(v, m, measure);
    var boxH := InputBoxHeight(|lines|, m);
    var row := CursorCell(v, m, measure).0;
    var head := InputBox(m, boxY, boxH) + InputLineCommands(lines, |lines|, m, boxY);
    var stroke := CursorStroke(row, before, m, boxY, measure);
    var stroke' := CursorStroke(row, before', m, boxY, measure);
    var tail := AllBubbleCommands(ChatBubbles(v, m, measure), m) + TitleBar(m, v.title);
    if v.blink {
      assert InputFrame(lines, m, boxY, boxH, true, row, before, measure) == head + [stroke];
      assert InputFrame(lines, m, boxY, boxH, true, row, before', measure) == head + [stroke'];
      assert (head + [stroke'])[|head| := stroke] == head + [stroke];
      ContentSplit(v, m, measure, before);
      ContentSplit(v, m, measure, before');
      UpdateMiddle(Background(m), head + [stroke'], tail, |head|, stroke);
    } else {
      ContentSplit(v, m, measure, before);
      ContentSplit(v, m, measure, before');
    }
  }

  /** Replacing an element in the middle part of a concatenation. */
  lemma {:induction false} UpdateMiddle(a: seq<Command>, b: seq<Command>, c: seq<Command>, k: nat, x: Command)
    requires k < |b|
    ensures (a + b + c)[|a| + k := x] == a + b[k := x] + c
  {
    var l := (a + b + c)[|a| + k := x];
    var r := a + b[k := x] + c;
    forall i | 0 <= i < |l| ensures l[i] == r[i] {
      if i < |a| {
      } else if i < |a| + |b| {
        assert r[i] == b[k := x][i - |a|];
      }
    }
  }

  /** While an error is set the frame is the background and the error text, and
      nothing else of the state shows; as written the text has the background's
      colour, corrected the font colour. */
  lemma {:induction false} ErrorShortCircuit(v: View, v': View, m: Metrics, measure: string -> real)
    requires v.cursor <= |v.inputText| && v'.cursor <= |v'.inputText|
    requires v.error != "" && v'.error == v.error
    ensures var cmds := ChatFrameAsWritten(v, m, measure);
      && |cmds| == 3 && cmds[..2] == Background(m)
      && cmds[2] == FillText("ERROR: " + v.error, 0.0, 0.0, BackgroundColor, Left)
    ensures var cmds := ChatFrame(v, m, measure);
      && |cmds| == 3 && cmds[..2] == Background(m)
      && cmds[2] == FillText("ERROR: " + v.error, 0.0, 0.0, FontColor, Left)
    ensures ChatFrameAsWritten(v, m, measure) == ChatFrameAsWritten(v', m, measure)
    ensures ChatFrame(v, m, measure) == ChatFrame(v', m, measure)
  {
  }

  /** Whatever text the cursor is measured after, the content frame starts with
      the background and the input box, and the input lines follow in order. */
  lemma {:induction false} FrameStart(v: View, m: Metrics, measure: string -> real, before: string)
    requires v.cursor <= |v.inputText|
    ensures var cmds := ContentFrame(v, m, measure, before);
      var lines := InputLines(v, m, measure);
      var boxY := InputTop(v, m, measure);
      && |cmds| >= 4 + |lines|
      && cmds[..4] == Background(m) + InputBox(m, boxY, InputBoxHeight(|lines|, m))
      && (forall i :: 0 <= i < |lines| ==> cmds[4 + i] == InputLineText(lines, i, m, boxY))
  {
    var lines := InputLines(v, m, measure);
    var boxY := InputTop(v, m, measure);
    var input := InputFrame(lines, m, boxY, InputBoxHeight(|lines|, m), v.blink, CursorCell(v, m, measure).0, before, measure);
    var tail := AllBubbleCommands(ChatBubbles(v, m, measure), m) + TitleBar(m, v.title);
    var cmds := ContentFrame(v, m, measure, before);
    ContentSplit(v, m, measure, before);
    Middle(Background(m), input, tail, 2);
    forall i | 0 <= i < |lines| ensures cmds[4 + i] == InputLineText(lines, i, m, boxY) {
      Middle(Background(m), input, tail, 2 + i);
    }
  }

  /** Positions of a concatenation that fall in its middle part. */
  lemma {:induction false} Middle(a: seq<Command>, b: seq<Command>, c: seq<Command>, k: nat)
    requires k <= |b|
    ensures (a + b + c)[..|a| + k] == a + b[..k]
    ensures k < |b| ==> (a + b + c)[|a| + k] == b[k]
  {
    assert (a + b + c)[..|a| + k] == (a + b)[..|a| + k];
  }

  /** The title bar is painted last, over anything stacked beneath it. */
  lemma {:induction false} FrameEnd(v: View, m: Metrics, measure: string -> real, before: string)
    requires v.cursor <= |v.inputText|
    ensures var cmds := ContentFrame(v, m, measure, before);
      |cmds| >= 6 && cmds[|cmds| - 2..] == TitleBar(m, v.title)
  {
    var lines := InputLines(v, m, measure);
    var input := InputFrame(lines, m, InputTop(v, m, measure), InputBoxHeight(|lines|, m), v.blink, CursorCell(v, m, measure).0, before, measure);
    var tail := AllBubbleCommands(ChatBubbles(v, m, measure), m) + TitleBar(m, v.title);
    var cmds := ContentFrame(v, m, measure, before);
    assert cmds == (Background(m) + input) + tail;
    assert cmds[|cmds| - 2..] == tail[|tail| - 2..];
  }

  /** Row `row` of `lineCount` input lines, one font height tall, lies inside the
      input bubble when the padding is non-negative. */
  lemma {:induction false} RowInsideInputBubble(lineCount: nat, row: nat, m: Metrics, boxY: real)
    requires row < lineCount && m.padding >= 0.0 && m.lineSpacing >= 0.0
    requires 2.0 * m.lineSpacing == m.margin + m.padding + m.fontHeight + m.padding + m.margin
    ensures var bubbleY := boxY + m.margin;
      var bubbleH := InputBoxHeight(lineCount, m) - m.margin - m.margin;
      bubbleY <= InputRowY(m, boxY, row) && InputRowY(m, boxY, row) + m.fontHeight <= bubbleY + bubbleH
  {
    TimesMonotone(0, row, m.lineSpacing);
    TimesMonotone(row, lineCount - 1, m.lineSpacing);
    TimesAdd(lineCount - 1, 2, m.lineSpacing);
    assert Times(2, m.lineSpacing) == 2.0 * m.lineSpacing;
  }

  /** On a canvas of positive width the cursor stroke lies vertically inside the
      input bubble, on one of the input lines. */
  lemma {:induction false} CursorInsideInputBubble(v: View, m: Metrics, measure: string -> real, before: string)
    requires v.cursor <= |v.inputText| && v.blink
    requires m.width > 0.0 && m == MetricsFor(m.width, m.height)
    ensures var lines := InputLines(v, m, measure);
      var boxY := InputTop(v, m, measure);
      var cmds := ContentFrame(v, m, measure, before);
      && |cmds| > 4 + |lines|
      && cmds[4 + |lines|].VerticalStroke?
      && boxY + m.margin <= cmds[4 + |lines|].y
      && cmds[4 + |lines|].y + cmds[4 + |lines|].length <= boxY + InputBoxHeight(|lines|, m) - m.margin
  {
    var lines := InputLines(v, m, measure);
    var boxY := InputTop(v, m, measure);
    var rc := CursorCell(v, m, measure);
    RowInsideInputBubble(|lines|, rc.0, m, boxY);
    var input := InputFrame(lines, m, boxY, InputBoxHeight(|lines|, m), v.blink, rc.0, before, measure);
    var tail := AllBubbleCommands(ChatBubbles(v, m, measure), m) + TitleBar(m, v.title);
    ContentSplit(v, m, measure, before);
    Middle(Background(m), input, tail, 2 + |lines|);
  }

  /** Every painted chat bubble lies between the title bar and the input box,
      on a canvas of positive width. */
  lemma {:induction false} BubblesBetweenBars(v: View, m: Metrics, measure: string -> real)
    requires m.padding >= 0.0 && m.lineSpacing > 2.0 * m.padding
    ensures var bubbles := ChatBubbles(v, m, measure);
      forall j :: 0 <= j < |bubbles| ==> m.titleBarHeight <= bubbles[j].y + bubbles[j].h < InputTop(v, m, measure)
  {
    var chat := WrapChat(v.messages, MaxMessageTextWidth(m), measure);
    var widths := BubbleWidths(chat, m.padding, measure);
    var top := InputTop(v, m, measure);
    PaintedBetween(chat, widths, v.userID, m, top);
    assert ChatBubbles(v, m, measure) == StackFrom(chat, widths, |chat| - 1, top, v.userID, m);
  }

  /** The first input line starts with a space (the wrapper appends the first
      word to an empty line with a separator), so it is a prefix of the joined
      text: its first `k + 1` characters are the space and the first `k`
      characters of the input. */
  lemma {:induction false} FirstLinePrefix(maxWidth: real, text: string, measure: string -> real, k: nat)
    requires k <= |text|
    requires var lines := Wrap(maxWidth, text, measure); k < |lines[0]|
    ensures var lines := Wrap(maxWidth, text, measure); lines[0][..k + 1] == " " + text[..k]
  {
    var lines := Wrap(maxWidth, text, measure);
    WrapJoin(maxWidth, text, measure);
    forall i | 0 <= i <= k ensures lines[0][i] == (" " + text)[i] {
      JoinAt(lines, 0, i);
    }
    assert lines[0][..k + 1] == (" " + text)[..k + 1];
  }

  /** As written, at offset 0 of the input "ab" the cursor is measured after
      "a", while nothing of the input precedes it. */
  lemma {:induction false} BeforeCursorAsWrittenCounterexample(maxWidth: real, measure: string -> real)
    ensures Wrap(maxWidth, "ab", measure) == [" ab"]
    ensures Walk([" ab"], 0) == (0, 0)
    ensures BeforeCursorAsWritten(" ab", 0) == "a"
    ensures BeforeCursor(" ab", 0) == ""
  {
    var b: string := "b";
    var ab: string := "ab";
    var e: seq<string> := [""];
    var sb: seq<string> := [b];
    assert Split("") == e && e[1..] == [];
    assert b[1..] == "" && Split(b) == [[b[0]] + e[0]] + e[1..];
    assert [b[0]] + e[0] == b;
    assert ab[1..] == b && sb[1..] == [];
    assert Split(ab) == [[ab[0]] + sb[0]] + sb[1..];
    assert [ab[0]] + b == ab;
    assert WrapWords([ab], maxWidth, measure) == Step(e, 0, ab, maxWidth, measure) by {
      assert [ab][..0] == [];
    }
    assert Step(e, 0, ab, maxWidth, measure) == [" ab"] by {
      assert e[..0] == [] && "" + " " + ab == " ab";
    }
    assert TrimStart(" ab") == "ab" by {
      assert " ab"[1..] == "ab";
    }
    assert TrimStart(" ") == "" by {
      assert " "[1..] == "";
    }
  }

  /** Corrected: while the cursor is on the first line, the measured text is
      exactly the input before the cursor, without its leading whitespace. */
  lemma {:induction false} BeforeCursorFirstRow(maxWidth: real, text: string, measure: string -> real, k: nat)
    requires k <= |text|
    requires var lines := Wrap(maxWidth, text, measure); k < |lines[0]|
    ensures var lines := Wrap(maxWidth, text, measure);
      && k <= Offset(lines, |lines|) && Walk(lines, k) == (0, k)
      && BeforeCursor(lines[0], k) == TrimStart(text[..k])
  {
    var lines := Wrap(maxWidth, text, measure);
    WalkFirstRow(lines, k);
    FirstLinePrefix(maxWidth, text, measure, k);
    assert (" " + text[..k])[1..] == text[..k];
  }

  /** The chat screen (chat.js:1-12 and the handlers at chat.js:228-275). */
  class ChatClient {
    const userID: string
    var title: string
    var inputText: string
    var cursorIndex: nat
    var blinkState: bool
    var messages: seq<Message>
    var error: string

    ghost predicate Valid()
      reads this
    {
      cursorIndex <= |inputText|
    }

    function Snapshot(): View
      reads this
    {
      View(userID, title, inputText, cursorIndex, blinkState, messages, error)
    }

    function Input(): Editor
      reads this
    {
      Editor(inputText, cursorIndex)
    }

    /** The state when the page loads. */
    constructor ()
      ensures Valid()
      ensures userID == "me" && title == "" && inputText == "" && cursorIndex == 0
      ensures blinkState && messages == [] && error == ""
    {
      userID := "me";
      title := "";
      inputText := "";
      cursorIndex := 0;
      blinkState := true;
      messages := [];
      error := "";
    }

    /** `draw` on a canvas of the given size (chat.js:110-226). */
    method Draw(width: real, height: real, measure: string -> real) returns (cmds: seq<Command>)
      requires Valid()
      ensures cmds == ChatFrameAsWritten(Snapshot(), MetricsFor(width, height), measure)
    {
      ghost var v := Snapshot();
      var m := MetricsFor(width, height);
      var inputLines := CalculateLines(MaxInputTextWidth(m), inputText, measure);
      assert inputLines == InputLines(v, m, measure);
      var inputBoxHeight := InputBoxHeight(|inputLines|, m);
      var inputBoxY := height - inputBoxHeight;
      assert inputBoxY == InputTop(v, m, measure);
      CursorInRange(MaxInputTextWidth(m), inputText, measure, cursorIndex);
      var cursorRow, cursorCol := CalculateCursorCoordinates(inputLines, cursorIndex);
      assert (cursorRow, cursorCol) == CursorCell(v, m, measure);
      var beforeCursor := Take(TrimStart(inputLines[cursorRow]), cursorCol + 1);
      assert beforeCursor == CursorTextAsWritten(v, m, measure);

      cmds := Background(m);
      if error != "" {
        cmds := cmds + [FillText("ERROR: " + error, 0.0, 0.0, BackgroundColor, Left)];
        return;
      }
      var input := PaintInput(inputLines, m, inputBoxY, inputBoxHeight, blinkState, cursorRow, beforeCursor, measure);
      var chat := WrapChat(messages, MaxMessageTextWidth(m), measure);
      var bubbles := StackBubbles(chat, userID, m, inputBoxY, measure);
      assert bubbles == ChatBubbles(v, m, measure);
      cmds := cmds + input + AllBubbleCommands(bubbles, m) + TitleBar(m, title);
    }

    /** The `keydown` handler: the editor step, the action it asks of the page,
        and the repainted frame, or no frame when the handler returns early. */
    method OnKeyDown(e: KeyEvent, width: real, height: real, measure: string -> real)
      returns (action: Action, frame: seq<Command>)
      requires Valid()
      modifies this
      ensures Valid()
      ensures var o := KeyDown(old(Input()), e, userID);
        && Input() == o.editor && action == o.action
        && frame == if o.redraw then ChatFrameAsWritten(Snapshot(), MetricsFor(width, height), measure) else []
      ensures title == old(title) && blinkState == old(blinkState)
      ensures messages == old(messages) && error == old(error)
    {
      var o := KeyDown(Input(), e, userID);
      inputText, cursorIndex := o.editor.text, o.editor.cursor;
      action := o.action;
      frame := [];
      if o.redraw {
        frame := Draw(width, height, measure);
      }
    }

    /** The `paste` handler: the pasted text goes in at the cursor and the
        screen is repainted. */
    method OnPaste(paste: string, width: real, height: real, measure: string -> real)
      returns (frame: seq<Command>)
      requires Valid()
      modifies this
      ensures Valid()
      ensures Input() == Paste(old(Input()), paste)
      ensures frame == ChatFrameAsWritten(Snapshot(), MetricsFor(width, height), measure)
      ensures title == old(title) && blinkState == old(blinkState)
      ensures messages == old(messages) && error == old(error)
    {
      var ed := Paste(Input(), paste);
      inputText, cursorIndex := ed.text, ed.cursor;
      frame := Draw(width, height, measure);
    }
  }
}
