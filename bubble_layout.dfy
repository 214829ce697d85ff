/** Chat-bubble sizing and stacking of the chat client (chat.js): the width of a
    bubble (`calculateBubbleWidth`), its height, the total line count of a chat
    (`countLines`) and the loop that stacks bubbles upward from the input box. */
module BubbleLayout {
  import opened Strings
  import opened Canvas

  /** A message after wrapping: its sender and its lines. */
  datatype WrappedMessage = WrappedMessage(from: string, lines: seq<string>)

  /** One bubble as painted: its box, whether it is the local user's
      own message (right-aligned) and the lines written inside it. */
  datatype Bubble = Bubble(x: real, y: real, w: real, h: real, sent: bool, lines: seq<string>)

  const SentBubbleColor := "#aaa"
  const ReceivedBubbleColor := "#ccc"

  /** The width of a line as painted: trimmed, then measured. */
  function LineWidth(line: string, measure: string -> real): real
  {
    measure(Trim(line))
  }

  /** The widest painted line, starting from 0 as the loop of
      `calculateBubbleWidth` does. */
  function WidestLine(lines: seq<string>, measure: string -> real): real
    decreases |lines|
  {
    if |lines| == 0 then 0.0
    else
      var prev := WidestLine(lines[..|lines| - 1], measure);
      var w := LineWidth(lines[|lines| - 1], measure);
      if w > prev then w else prev
  }

  /** `WidestLine` is the maximum of 0 and the painted line widths: it bounds
      every line and is either 0 or the width of one of the lines. */
  lemma {:induction false} WidestLineIsMax(lines: seq<string>, measure: string -> real)
    ensures WidestLine(lines, measure) >= 0.0
    ensures forall i :: 0 <= i < |lines| ==> LineWidth(lines[i], measure) <= WidestLine(lines, measure)
    ensures WidestLine(lines, measure) == 0.0 ||
      exists i :: 0 <= i < |lines| && WidestLine(lines, measure) == LineWidth(lines[i], measure)
    decreases |lines|
  {
    if |lines| > 0 {
      var n := |lines|;
      var init := lines[..n - 1];
      WidestLineIsMax(init, measure);
      var prev := WidestLine(init, measure);
      var w := LineWidth(lines[n - 1], measure);
      assert WidestLine(lines, measure) == if w > prev then w else prev;
      forall i | 0 <= i < n ensures LineWidth(lines[i], measure) <= WidestLine(lines, measure) {
        if i < n - 1 {
          assert lines[i] == init[i];
        }
      }
      if !(w > prev) && prev != 0.0 {
        var j :| 0 <= j < |init| && prev == LineWidth(init[j], measure);
        assert lines[j] == init[j];
      }
    }
  }

  /** `calculateBubbleWidth`: the widest trimmed line plus the padding on both sides. */
  method CalculateBubbleWidth(msg: WrappedMessage, padding: real, measure: string -> real) returns (width: real)
    ensures width == WidestLine(msg.lines, measure) + padding * 2.0
  {
    var widestLine := 0.0;
    var k := 0;
    while k < |msg.lines|
      invariant 0 <= k <= |msg.lines|
      invariant widestLine == WidestLine(msg.lines[..k], measure)
    {
      var w := LineWidth(msg.lines[k], measure);
      if w > widestLine {
        widestLine := w;
      }
      assert msg.lines[..k + 1][..k] == msg.lines[..k];
      k := k + 1;
    }
    assert msg.lines[..|msg.lines|] == msg.lines;
    width := widestLine + padding * 2.0;
  }

  /** A bubble is never narrower than its padding, and every trimmed line fits
      inside it between the paddings. */
  lemma BubbleWidthBounds(lines: seq<string>, padding: real, measure: string -> real)
    ensures WidestLine(lines, measure) + padding * 2.0 >= padding * 2.0
    ensures forall i :: 0 <= i < |lines| ==>
      LineWidth(lines[i], measure) + padding * 2.0 <= WidestLine(lines, measure) + padding * 2.0
  {
    WidestLineIsMax(lines, measure);
  }

  /** The height of a bubble holding `lineCount` lines (chat.js:199). */
  function BubbleHeight(lineCount: nat, padding: real, lineSpacing: real): real
  {
    padding + Times(lineCount, lineSpacing) + padding
  }

  /** More lines never give a lower bubble. */
  lemma BubbleHeightMonotone(a: nat, b: nat, padding: real, lineSpacing: real)
    requires a <= b && lineSpacing >= 0.0
    ensures BubbleHeight(a, padding, lineSpacing) <= BubbleHeight(b, padding, lineSpacing)
  {
    TimesMonotone(a, b, lineSpacing);
  }

  /** The lines of a chat counting one extra line of gap per message. */
  function TotalLines(chat: seq<WrappedMessage>): nat
  {
    if chat == [] then 0 else |chat[0].lines| + 1 + TotalLines(chat[1..])
  }

  lemma {:induction false} TotalLinesAppend(a: seq<WrappedMessage>, b: seq<WrappedMessage>)
    ensures TotalLines(a + b) == TotalLines(a) + TotalLines(b)
    decreases |a|
  {
    if a == [] {
      assert a + b == b;
    } else {
      TotalLinesAppend(a[1..], b);
      assert (a + b)[0] == a[0];
      assert (a + b)[1..] == a[1..] + b;
      assert TotalLines(a + b) == |a[0].lines| + 1 + TotalLines(a[1..] + b);
    }
  }

  /** `countLines`: each message's lines plus one gap line. */
  method CountLines(chat: seq<WrappedMessage>) returns (total: nat)
    ensures total == TotalLines(chat)
  {
    total := 0;
    var k := 0;
    while k < |chat|
      invariant 0 <= k <= |chat|
      invariant total == TotalLines(chat[..k])
    {
      TotalLinesAppend(chat[..k], [chat[k]]);
      assert chat[..k + 1] == chat[..k] + [chat[k]];
      assert TotalLines([chat[k]]) == |chat[k].lines| + 1;
      total := total + |chat[k].lines| + 1;
      k := k + 1;
    }
    assert chat[..|chat|] == chat;
  }

  /** How far the stacking cursor has moved up once messages `i..` have been
      placed: one gap line plus the message's lines, per message. */
  function Depth(chat: seq<WrappedMessage>, i: nat, lineSpacing: real): real
    requires i <= |chat|
    decreases |chat| - i
  {
    if i == |chat| then 0.0
    else lineSpacing + Times(|chat[i].lines|, lineSpacing) + Depth(chat, i + 1, lineSpacing)
  }

  /** The stacking depth is the line count of `countLines` times the line spacing. */
  lemma {:induction false} DepthIsLineCount(chat: seq<WrappedMessage>, i: nat, lineSpacing: real)
    requires i <= |chat|
    ensures Depth(chat, i, lineSpacing) == Times(TotalLines(chat[i..]), lineSpacing)
    decreases |chat| - i
  {
    if i < |chat| {
      DepthIsLineCount(chat, i + 1, lineSpacing);
      assert chat[i..][1..] == chat[i + 1..];
      TimesAdd(|chat[i].lines| + 1, TotalLines(chat[i + 1..]), lineSpacing);
    }
  }

  /** The stacking depth is never negative while the line spacing is not. */
  lemma DepthNonNegative(chat: seq<WrappedMessage>, i: nat, lineSpacing: real)
    requires i <= |chat| && lineSpacing >= 0.0
    ensures Depth(chat, i, lineSpacing) >= 0.0
  {
    DepthIsLineCount(chat, i, lineSpacing);
    TimesMonotone(0, TotalLines(chat[i..]), lineSpacing);
  }

  /** The bubble width of every message, as `calculateBubbleWidth` computes it:
      the widest trimmed line plus the padding on both sides. */
  function BubbleWidths(chat: seq<WrappedMessage>, padding: real, measure: string -> real): (ws: seq<real>)
    ensures |ws| == |chat|
    decreases |chat|
  {
    if chat == [] then []
    else BubbleWidths(chat[..|chat| - 1], padding, measure) + [WidestLine(chat[|chat| - 1].lines, measure) + padding * 2.0]
  }

  /** Where the bubble of message `k` is painted, given the bubble widths: `top`
      is the top of the input box, from which bubbles are stacked upward, newest
      first. Own messages are anchored to the right margin with the sent colour,
      others to the left margin with the received colour. */
  function BubbleAt(chat: seq<WrappedMessage>, widths: seq<real>, k: nat, userID: string, m: Metrics, top: real): Bubble
    requires |widths| == |chat| && k < |chat|
  {
    var msg := chat[k];
    var w := widths[k];
    var sent := msg.from == userID;
    Bubble(if sent then m.width - m.margin - w else m.margin,
           top - Depth(chat, k, m.lineSpacing),
           w,
           BubbleHeight(|msg.lines|, m.padding, m.lineSpacing),
           sent, msg.lines)
  }

  /** A bubble is painted only while its bottom edge is not above the title bar. */
  predicate Visible(b: Bubble, m: Metrics)
  {
    b.y + b.h >= m.titleBarHeight
  }

  /** The bubbles of messages `i`, `i - 1`, ..., `0`, newest first, as if the
      screen were unbounded. */
  function Placed(chat: seq<WrappedMessage>, widths: seq<real>, i: int, userID: string, m: Metrics, top: real): (bs: seq<Bubble>)
    requires |widths| == |chat| && -1 <= i < |chat|
    ensures |bs| == i + 1
    decreases i + 1
  {
    if i < 0 then [] else [BubbleAt(chat, widths, i, userID, m, top)] + Placed(chat, widths, i - 1, userID, m, top)
  }

  /** Entry `j` of `Placed` is the bubble of message `i - j`. */
  lemma {:induction false} PlacedAt(chat: seq<WrappedMessage>, widths: seq<real>, i: int, j: nat, userID: string, m: Metrics, top: real)
    requires |widths| == |chat| && -1 <= i < |chat| && j <= i
    ensures Placed(chat, widths, i, userID, m, top)[j] == BubbleAt(chat, widths, i - j, userID, m, top)
    decreases i + 1
  {
    if j > 0 {
      PlacedAt(chat, widths, i - 1, j - 1, userID, m, top);
    }
  }

  /** The longest run of visible bubbles at the front of `bs`. */
  function VisiblePrefix(bs: seq<Bubble>, m: Metrics): seq<Bubble>
  {
    if bs == [] || !Visible(bs[0], m) then [] else [bs[0]] + VisiblePrefix(bs[1..], m)
  }

  /** `VisiblePrefix` keeps bubbles from the front, in order, all of them
      visible, and stops only before a bubble that is not visible. */
  lemma {:induction false} VisiblePrefixSpec(bs: seq<Bubble>, m: Metrics)
    ensures var r := VisiblePrefix(bs, m);
      && r <= bs
      && (forall j :: 0 <= j < |r| ==> Visible(r[j], m))
      && (|r| < |bs| ==> !Visible(bs[|r|], m))
  {
    if bs != [] && Visible(bs[0], m) {
      VisiblePrefixSpec(bs[1..], m);
      var r := VisiblePrefix(bs, m);
      forall j | 0 <= j < |r| ensures Visible(r[j], m) {
        if j > 0 {
          assert r[j] == VisiblePrefix(bs[1..], m)[j - 1];
        }
      }
    }
  }

  /** The chat loop of `draw` from message `i` down, with the stacking cursor
      at `y`, as a recursive function: the turn for message `i` computes its
      bubble and either stops or goes on with the message before it. */
  function StackFrom(chat: seq<WrappedMessage>, widths: seq<real>, i: int, y: real, userID: string, m: Metrics): seq<Bubble>
    requires |widths| == |chat| && -1 <= i < |chat|
    decreases i + 1
  {
    if i < 0 then []
    else
      var msg := chat[i];
      var sent := msg.from == userID;
      var w := widths[i];
      var y' := y - m.lineSpacing - Times(|msg.lines|, m.lineSpacing);
      var h := m.padding + Times(|msg.lines|, m.lineSpacing) + m.padding;
      var b := Bubble(if sent then m.width - m.margin - w else m.margin, y', w, h,
                      sent, msg.lines);
      if y' + h < m.titleBarHeight then [] else [b] + StackFrom(chat, widths, i - 1, y', userID, m)
  }

  /** One turn of the chat loop, on the values the loop computes: the bubble
      either ends the loop or is the next one `StackFrom` paints. */
  lemma StackStep(chat: seq<WrappedMessage>, widths: seq<real>, i: nat, y0: real, userID: string, m: Metrics,
                  sent: bool, w: real, x: real, y: real, h: real)
    requires |widths| == |chat| && i < |chat|
    requires sent == (chat[i].from == userID)
    requires w == widths[i]
    requires x == if sent then m.width - m.margin - w else m.margin
    requires y == y0 - m.lineSpacing - Times(|chat[i].lines|, m.lineSpacing)
    requires h == m.padding + Times(|chat[i].lines|, m.lineSpacing) + m.padding
    ensures StackFrom(chat, widths, i, y0, userID, m) ==
      if y + h < m.titleBarHeight then [] else [Bubble(x, y, w, h, sent, chat[i].lines)] + StackFrom(chat, widths, i - 1, y, userID, m)
  {
    var msg := chat[i];
    assert msg.lines == chat[i].lines && msg.from == chat[i].from;
  }

  /** The chat loop of `draw` (chat.js:190-217): newest message first, the
      stacking cursor `y` drops by one gap line and the message's lines, and the
      loop stops at the first bubble whose bottom is above the title bar. */
  method StackBubbles(chat: seq<WrappedMessage>, userID: string, m: Metrics, top: real, measure: string -> real)
    returns (bubbles: seq<Bubble>)
    ensures bubbles == StackFrom(chat, BubbleWidths(chat, m.padding, measure), |chat| - 1, top, userID, m)
  {
    ghost var widths := BubbleWidths(chat, m.padding, measure);
    bubbles := [];
    var y := top;
    var i := |chat| - 1;
    while i >= 0
      invariant -1 <= i < |chat|
      invariant bubbles + StackFrom(chat, widths, i, y, userID, m) == StackFrom(chat, widths, |chat| - 1, top, userID, m)
    {
      ghost var y0 := y;
      var msg := chat[i];
      var sent := msg.from == userID;
      var w := CalculateBubbleWidth(msg, m.padding, measure);
      BubbleWidthsAt(chat, m.padding, measure, i);
      var x := if sent then m.width - m.margin - w else m.margin;
      y := y - m.lineSpacing;
      y := y - Times(|msg.lines|, m.lineSpacing);
      var h := m.padding + Times(|msg.lines|, m.lineSpacing) + m.padding;
      StackStep(chat, widths, i, y0, userID, m, sent, w, x, y, h);
      if y + h < m.titleBarHeight {
        assert bubbles + [] == bubbles;
        break;
      }
      var b := Bubble(x, y, w, h, sent, msg.lines);
      ghost var rest := StackFrom(chat, widths, i - 1, y, userID, m);
      assert bubbles + [b] + rest == bubbles + ([b] + rest);
      bubbles := bubbles + [b];
      i := i - 1;
    }
    if i < 0 {
      assert bubbles + [] == bubbles;
    }
  }

  lemma BubbleWidthsAt(chat: seq<WrappedMessage>, padding: real, measure: string -> real, k: nat)
    requires k < |chat|
    ensures BubbleWidths(chat, padding, measure)[k] == WidestLine(chat[k].lines, measure) + padding * 2.0
    decreases |chat|
  {
    if k < |chat| - 1 {
      BubbleWidthsAt(chat[..|chat| - 1], padding, measure, k);
    }
  }

  /** The bubble of message `i`, given the stacking cursor after the newer
      messages: the cursor drops by one gap line and the message's lines. */
  lemma BubbleAtStep(chat: seq<WrappedMessage>, widths: seq<real>, i: nat, userID: string, m: Metrics, top: real, y: real)
    requires |widths| == |chat| && i < |chat|
    requires y == top - Depth(chat, i + 1, m.lineSpacing)
    ensures y - m.lineSpacing - Times(|chat[i].lines|, m.lineSpacing) == top - Depth(chat, i, m.lineSpacing)
    ensures var msg := chat[i];
      var sent := msg.from == userID;
      var w := widths[i];
      BubbleAt(chat, widths, i, userID, m, top) ==
        Bubble(if sent then m.width - m.margin - w else m.margin,
               y - m.lineSpacing - Times(|msg.lines|, m.lineSpacing),
               w,
               m.padding + Times(|msg.lines|, m.lineSpacing) + m.padding,
                   sent, msg.lines)
  {
  }

  /** The loop, started at the top of the input box, paints exactly the visible
      run at the front of the bubbles placed by `BubbleAt`, newest first. */
  lemma {:induction false} StackFromIsVisiblePrefix(chat: seq<WrappedMessage>, widths: seq<real>, i: int, y: real, userID: string, m: Metrics, top: real)
    requires |widths| == |chat| && -1 <= i < |chat|
    requires y == top - Depth(chat, i + 1, m.lineSpacing)
    ensures StackFrom(chat, widths, i, y, userID, m) == VisiblePrefix(Placed(chat, widths, i, userID, m, top), m)
    decreases i + 1
  {
    if i >= 0 {
      var msg := chat[i];
      var sent := msg.from == userID;
      var w := widths[i];
      var x := if sent then m.width - m.margin - w else m.margin;
      var y' := y - m.lineSpacing - Times(|msg.lines|, m.lineSpacing);
      var h := m.padding + Times(|msg.lines|, m.lineSpacing) + m.padding;
      StackStep(chat, widths, i, y, userID, m, sent, w, x, y', h);
      BubbleAtStep(chat, widths, i, userID, m, top, y);
      StackFromIsVisiblePrefix(chat, widths, i - 1, y', userID, m, top);
      var b := Bubble(x, y', w, h, sent, msg.lines);
      var rest := Placed(chat, widths, i - 1, userID, m, top);
      var all := Placed(chat, widths, i, userID, m, top);
      assert all == [b] + rest;
      assert all[0] == b && all[1..] == rest;
    }
  }

  /** What the chat loop paints, stated on the messages: bubble `j` is that of
      the `j`-th newest message, every painted bubble is visible, and the loop
      stops only at a message whose bubble is not. */
  lemma PaintedBubbles(chat: seq<WrappedMessage>, widths: seq<real>, userID: string, m: Metrics, top: real)
    requires |widths| == |chat|
    ensures var bs := StackFrom(chat, widths, |chat| - 1, top, userID, m);
      && |bs| <= |chat|
      && (forall j :: 0 <= j < |bs| ==> bs[j] == BubbleAt(chat, widths, |chat| - 1 - j, userID, m, top))
      && (forall j :: 0 <= j < |bs| ==> Visible(bs[j], m))
      && (|bs| < |chat| ==> !Visible(BubbleAt(chat, widths, |chat| - 1 - |bs|, userID, m, top), m))
  {
    var all := Placed(chat, widths, |chat| - 1, userID, m, top);
    StackFromIsVisiblePrefix(chat, widths, |chat| - 1, top, userID, m, top);
    VisiblePrefixSpec(all, m);
    var bs := VisiblePrefix(all, m);
    forall j | 0 <= j < |bs| ensures bs[j] == BubbleAt(chat, widths, |chat| - 1 - j, userID, m, top) {
      assert bs[j] == all[j];
      PlacedAt(chat, widths, |chat| - 1, j, userID, m, top);
    }
    if |bs| < |chat| {
      PlacedAt(chat, widths, |chat| - 1, |bs|, userID, m, top);
    }
  }

  /** Every bubble the loop paints lies between the title bar and the top of
      the input box it is stacked from, while the line spacing exceeds twice
      the padding. */
  lemma PaintedBetween(chat: seq<WrappedMessage>, widths: seq<real>, userID: string, m: Metrics, top: real)
    requires |widths| == |chat| && m.padding >= 0.0 && m.lineSpacing > 2.0 * m.padding
    ensures var bs := StackFrom(chat, widths, |chat| - 1, top, userID, m);
      forall j :: 0 <= j < |bs| ==> m.titleBarHeight <= bs[j].y + bs[j].h < top
  {
    var bs := StackFrom(chat, widths, |chat| - 1, top, userID, m);
    PaintedBubbles(chat, widths, userID, m, top);
    forall j | 0 <= j < |bs| ensures m.titleBarHeight <= bs[j].y + bs[j].h < top {
      assert Visible(bs[j], m);
      BubbleAboveTop(chat, widths, |chat| - 1 - j, userID, m, top);
    }
  }

  /** Consecutive bubbles keep a fixed gap: the bottom of an older bubble is
      `lineSpacing - 2 * padding` above the top of the next newer one, so they
      never overlap while the line spacing exceeds twice the padding. */
  lemma StackGap(chat: seq<WrappedMessage>, widths: seq<real>, k: nat, userID: string, m: Metrics, top: real)
    requires |widths| == |chat| && k + 1 < |chat|
    ensures var older := BubbleAt(chat, widths, k, userID, m, top);
      var newer := BubbleAt(chat, widths, k + 1, userID, m, top);
      older.y + older.h == newer.y - (m.lineSpacing - 2.0 * m.padding)
  {
  }

  /** Every bubble ends above the top of the input box it is stacked from: its
      bottom edge is the depth of the newer messages plus one gap line, less
      the two paddings, above `top`. */
  lemma BubbleAboveTop(chat: seq<WrappedMessage>, widths: seq<real>, k: nat, userID: string, m: Metrics, top: real)
    requires |widths| == |chat| && k < |chat| && m.lineSpacing >= 0.0
    ensures var b := BubbleAt(chat, widths, k, userID, m, top);
      b.y + b.h == top - Depth(chat, k + 1, m.lineSpacing) - (m.lineSpacing - 2.0 * m.padding)
    ensures var b := BubbleAt(chat, widths, k, userID, m, top);
      b.y + b.h <= top - (m.lineSpacing - 2.0 * m.padding)
  {
    DepthNonNegative(chat, k + 1, m.lineSpacing);
  }

  /** Older bubbles sit higher: with a non-negative line spacing the bottom edge
      never moves down as the loop goes back in time, so once a bubble is above
      the title bar every older one is too, and the early exit loses nothing
      that would have been visible. */
  lemma {:induction false} CutoffIsFinal(chat: seq<WrappedMessage>, widths: seq<real>, k: nat, k': nat, userID: string, m: Metrics, top: real)
    requires |widths| == |chat| && k' <= k < |chat| && m.lineSpacing >= 0.0
    requires !Visible(BubbleAt(chat, widths, k, userID, m, top), m)
    ensures !Visible(BubbleAt(chat, widths, k', userID, m, top), m)
    decreases k - k'
  {
    if k' < k {
      var older := BubbleAt(chat, widths, k - 1, userID, m, top);
      var newer := BubbleAt(chat, widths, k, userID, m, top);
      TimesMonotone(0, |chat[k].lines|, m.lineSpacing);
      assert older.y + older.h <= newer.y + newer.h;
      CutoffIsFinal(chat, widths, k - 1, k', userID, m, top);
    }
  }

  /** The painting calls for one bubble (chat.js:203-216): the rounded box, then
      each trimmed line, right-aligned against the right padding for own
      messages and left-aligned inside the box otherwise. */
  function BubbleCommands(b: Bubble, m: Metrics): (cmds: seq<Command>)
    ensures |cmds| == 1 + |b.lines|
    ensures cmds[0] == RoundedRect(b.x, b.y, b.w, b.h, m.margin, if b.sent then SentBubbleColor else ReceivedBubbleColor)
    ensures forall i :: 0 <= i < |b.lines| ==>
      cmds[i + 1] == FillText(Trim(b.lines[i]), if b.sent then m.width - m.margin - m.padding else b.x + m.padding,
                              b.y + m.padding + Times(i, m.lineSpacing), FontColor, if b.sent then Right else Left)
  {
    [RoundedRect(b.x, b.y, b.w, b.h, m.margin, (if b.sent then SentBubbleColor else ReceivedBubbleColor))] +
    seq(|b.lines|, i requires 0 <= i < |b.lines| =>
      if b.sent then FillText(Trim(b.lines[i]), m.width - m.margin - m.padding, b.y + m.padding + Times(i, m.lineSpacing), FontColor, Right)
      else FillText(Trim(b.lines[i]), b.x + m.padding, b.y + m.padding + Times(i, m.lineSpacing), FontColor, Left))
  }

  /** The lines of a painted bubble lie inside it: each row, one line spacing
      tall, sits between the top and bottom paddings, and its text is anchored
      one padding in from the bubble's edge on the side it is aligned to. */
  lemma BubbleLinesInside(chat: seq<WrappedMessage>, widths: seq<real>, k: nat, userID: string, m: Metrics, top: real, i: nat)
    requires |widths| == |chat| && k < |chat| && i < |chat[k].lines| && m.lineSpacing >= 0.0
    ensures var b := BubbleAt(chat, widths, k, userID, m, top);
      var text := BubbleCommands(b, m)[i + 1];
      && b.y + m.padding <= text.y && text.y + m.lineSpacing <= b.y + b.h - m.padding
      && text.x == (if b.sent then b.x + b.w - m.padding else b.x + m.padding)
  {
    TimesMonotone(0, i, m.lineSpacing);
    TimesMonotone(i + 1, |chat[k].lines|, m.lineSpacing);
  }

  /** The painting calls for a list of bubbles, in order. */
  function AllBubbleCommands(bubbles: seq<Bubble>, m: Metrics): seq<Command>
  {
    if bubbles == [] then [] else BubbleCommands(bubbles[0], m) + AllBubbleCommands(bubbles[1..], m)
  }
}
