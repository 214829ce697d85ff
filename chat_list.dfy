/** The chat list screen of the client (chats.js): a list of chat ids with one
    selected row, moved with the arrow keys and opened with the right arrow
    or Enter. */
module ChatList {
  import opened Canvas
  import opened Events

  const SelectedColor := "blue"
  const SelectedFontColor := "white"
  const UnselectedColor := "white"
  const UnselectedFontColor := "black"

  /** The height of a list row: two line spacings. */
  function RowHeight(m: Metrics): real
  {
    m.lineSpacing * 2.0
  }

  /** The top of row `i`: the rows start right under the title bar. */
  function RowTop(m: Metrics, i: nat): real
  {
    m.titleBarHeight + Times(i, RowHeight(m))
  }

  /** The painting calls for row `i` (chats.js:69-81): the row's strip across
      the canvas, then its chat id two margins in; the selected row is filled
      blue with white text, the others white with black text. */
  function Row(chatID: string, i: nat, selected: nat, m: Metrics): seq<Command>
  {
    if selected == i then
      [FillRect(0.0, RowTop(m, i), m.width, RowHeight(m), SelectedColor),
       FillText(chatID, m.margin * 2.0, RowTop(m, i) + m.margin * 2.0, SelectedFontColor, Left)]
    else
      [FillRect(0.0, RowTop(m, i), m.width, RowHeight(m), UnselectedColor),
       FillText(chatID, m.margin * 2.0, RowTop(m, i) + m.margin * 2.0, UnselectedFontColor, Left)]
  }

  /** The painting calls for rows `0..n`, in order. */
  function Rows(chatIDs: seq<string>, selected: nat, m: Metrics, n: nat): (cmds: seq<Command>)
    requires n <= |chatIDs|
    ensures |cmds| == 2 * n
  {
    if n == 0 then [] else Rows(chatIDs, selected, m, n - 1) + Row(chatIDs[n - 1], n - 1, selected, m)
  }

  /** Rows `i` of the painted rows sits at positions `2 * i` and `2 * i + 1`. */
  lemma {:induction false} RowsAt(chatIDs: seq<string>, selected: nat, m: Metrics, n: nat, i: nat)
    requires i < n <= |chatIDs|
    ensures Rows(chatIDs, selected, m, n)[2 * i] == Row(chatIDs[i], i, selected, m)[0]
    ensures Rows(chatIDs, selected, m, n)[2 * i + 1] == Row(chatIDs[i], i, selected, m)[1]
    decreases n
  {
    if i < n - 1 {
      RowsAt(chatIDs, selected, m, n - 1, i);
    }
  }

  /** Consecutive rows touch and never overlap: the first starts at the bottom
      of the title bar, each starts where the previous one ends, and with a
      non-negative line spacing an earlier row ends before a later one starts. */
  lemma {:induction false} RowGeometry(m: Metrics, i: nat, j: nat)
    requires i < j && m.lineSpacing >= 0.0
    ensures RowTop(m, 0) == m.titleBarHeight
    ensures RowTop(m, i + 1) == RowTop(m, i) + RowHeight(m)
    ensures RowTop(m, i) + RowHeight(m) <= RowTop(m, j)
  {
    TimesMonotone(i + 1, j, RowHeight(m));
  }

  /** The state `draw` reads. */
  datatype ListView = ListView(title: string, chatIDs: seq<string>, selected: nat, error: string)

  /** What `draw` paints while no error is set (chats.js:49-52, chats.js:60-82):
      the background, the title bar, and one row per chat id. */
  function ListContent(v: ListView, m: Metrics): seq<Command>
  {
    Background(m) + TitleBar(m, v.title) + Rows(v.chatIDs, v.selected, m, |v.chatIDs|)
  }

  /** The frame `draw` paints, as written (chats.js:28-83): while an error is
      set, the background and the error text in the fill colour still in
      effect; otherwise the content. */
  function ListFrameAsWritten(v: ListView, m: Metrics): seq<Command>
  {
    if v.error != "" then ErrorFrameAsWritten(m, v.error) else ListContent(v, m)
  }

  /** The frame with the error text in the font colour. */
  function ListFrame(v: ListView, m: Metrics): seq<Command>
  {
    if v.error != "" then ErrorFrame(m, v.error) else ListContent(v, m)
  }

  /** The corrected frame differs from the one painted as written only in the
      colour of the error text. */
  lemma ListFrameVersions(v: ListView, m: Metrics)
    ensures v.error != "" ==>
      ListFrameAsWritten(v, m) == ListFrame(v, m)[2 := FillText("ERROR: " + v.error, 0.0, 0.0, BackgroundColor, Left)]
    ensures v.error == "" ==> ListFrameAsWritten(v, m) == ListFrame(v, m)
  {
    if v.error != "" {
      assert ListFrame(v, m)[2 := FillText("ERROR: " + v.error, 0.0, 0.0, BackgroundColor, Left)]
        == ErrorFrameAsWritten(m, v.error);
    }
  }

  /** While an error is set the frame is the background and the error text, and
      nothing else of the state shows; as written the text has the background's
      colour, corrected the font colour. */
  lemma ListErrorShortCircuit(v: ListView, v': ListView, m: Metrics)
    requires v.error != "" && v'.error == v.error
    ensures var cmds := ListFrameAsWritten(v, m);
      && |cmds| == 3 && cmds[..2] == Background(m)
      && cmds[2] == FillText("ERROR: " + v.error, 0.0, 0.0, BackgroundColor, Left)
    ensures var cmds := ListFrame(v, m);
      && |cmds| == 3 && cmds[..2] == Background(m)
      && cmds[2] == FillText("ERROR: " + v.error, 0.0, 0.0, FontColor, Left)
    ensures ListFrameAsWritten(v, m) == ListFrameAsWritten(v', m)
    ensures ListFrame(v, m) == ListFrame(v', m)
  {
  }

  /** Without an error, row `i` shows chat id `i` in its strip, and exactly the
      selected row has the selected colours. */
  lemma ListRow(v: ListView, m: Metrics, i: nat)
    requires v.error == "" && i < |v.chatIDs|
    ensures var cmds := ListFrame(v, m);
      var sel := v.selected == i;
      && |cmds| == 4 + 2 * |v.chatIDs|
      && cmds[4 + 2 * i] == FillRect(0.0, RowTop(m, i), m.width, RowHeight(m), if sel then SelectedColor else UnselectedColor)
      && cmds[5 + 2 * i] == FillText(v.chatIDs[i], m.margin * 2.0, RowTop(m, i) + m.margin * 2.0,
                                     if sel then SelectedFontColor else UnselectedFontColor, Left)
  {
    var head := Background(m) + TitleBar(m, v.title);
    var rows := Rows(v.chatIDs, v.selected, m, |v.chatIDs|);
    RowsAt(v.chatIDs, v.selected, m, |v.chatIDs|, i);
    assert ListFrame(v, m) == head + rows;
    assert (head + rows)[4 + 2 * i] == rows[2 * i];
    assert (head + rows)[5 + 2 * i] == rows[2 * i + 1];
  }

  /** `openChat` (chats.js:85-91): the path of the selected chat, or that of a
      new chat when the selection is past the end of the list. */
  function OpenChat(selected: nat, chatIDs: seq<string>): string
  {
    if selected >= |chatIDs| then "/chats/new" else "/chats/" + chatIDs[selected]
  }

  /** Every path `openChat` produces is under "/chats/": the selected chat's id
      when there is one, "new" otherwise, and always "new" for the empty list
      the screen starts with. */
  lemma OpenChatRoute(selected: nat, chatIDs: seq<string>)
    ensures var path := OpenChat(selected, chatIDs);
      && |path| >= 7 && path[..7] == "/chats/"
      && (selected < |chatIDs| ==> path[7..] == chatIDs[selected])
      && (selected >= |chatIDs| ==> path[7..] == "new")
    ensures chatIDs == [] ==> OpenChat(selected, chatIDs) == "/chats/new"
  {
  }

  /** The selection is on a row, or at 0 when there are no rows. */
  predicate InRange(selected: nat, count: nat)
  {
    selected == 0 || selected < count
  }

  /** What a key does to the list: the new selection, the action asked of the
      page, and whether the handler repaints. */
  datatype ListOutcome = ListOutcome(selected: nat, action: Action, redraw: bool)

  /** The `keydown` handler (chats.js:93-115). */
  function KeyDown(selected: nat, chatIDs: seq<string>, e: KeyEvent): (o: ListOutcome)
    ensures InRange(selected, |chatIDs|) ==> InRange(o.selected, |chatIDs|)
    ensures o.selected != selected ==> o.redraw && o.action == Stay
  {
    if e.ctrlKey || e.metaKey then ListOutcome(selected, Stay, false)
    else if e.key == "ArrowRight" || e.key == "Enter" then
      ListOutcome(selected, Navigate(OpenChat(selected, chatIDs)), false)
    else if e.key == "ArrowDown" then
      if selected + 1 < |chatIDs| then ListOutcome(selected + 1, Stay, true)
      else ListOutcome(selected, Stay, false)
    else if e.key == "ArrowUp" then
      if selected > 0 then ListOutcome(selected - 1, Stay, true)
      else ListOutcome(selected, Stay, false)
    else ListOutcome(selected, Stay, false)
  }

  /** The arrow keys move the selection one row, and only within the list;
      a move repaints, a refused move does nothing. */
  lemma SelectionMoves(selected: nat, chatIDs: seq<string>)
    ensures var o := KeyDown(selected, chatIDs, KeyEvent("ArrowDown", false, false));
      if selected + 1 < |chatIDs| then o == ListOutcome(selected + 1, Stay, true)
      else o == ListOutcome(selected, Stay, false)
    ensures var o := KeyDown(selected, chatIDs, KeyEvent("ArrowUp", false, false));
      if selected > 0 then o == ListOutcome(selected - 1, Stay, true)
      else o == ListOutcome(selected, Stay, false)
  {
  }

  /** Down then up comes back to the same row when down could move. */
  lemma DownThenUp(selected: nat, chatIDs: seq<string>)
    requires selected + 1 < |chatIDs|
    ensures var down := KeyDown(selected, chatIDs, KeyEvent("ArrowDown", false, false)).selected;
      KeyDown(down, chatIDs, KeyEvent("ArrowUp", false, false)).selected == selected
  {
  }

  /** The right arrow and Enter open the selected chat and change nothing. */
  lemma OpenKeys(selected: nat, chatIDs: seq<string>, key: string)
    requires key == "ArrowRight" || key == "Enter"
    ensures KeyDown(selected, chatIDs, KeyEvent(key, false, false)) ==
      ListOutcome(selected, Navigate(OpenChat(selected, chatIDs)), false)
  {
  }

  /** Every other key, and every key held with ctrl or meta, leaves the state
      alone, asks nothing of the page and does not repaint. */
  lemma IgnoredKeys(selected: nat, chatIDs: seq<string>, e: KeyEvent)
    requires e.ctrlKey || e.metaKey || e.key !in {"ArrowRight", "Enter", "ArrowDown", "ArrowUp"}
    ensures KeyDown(selected, chatIDs, e) == ListOutcome(selected, Stay, false)
  {
  }

  /** The chat list screen (chats.js:1-9 and the handler at chats.js:93-115). */
  class ChatListScreen {
    var title: string
    var chatIDs: seq<string>
    var selected: nat
    var error: string

    ghost predicate Valid()
      reads this
    {
      InRange(selected, |chatIDs|)
    }

    function Snapshot(): ListView
      reads this
    {
      ListView(title, chatIDs, selected, error)
    }

    /** The state when the page loads. */
    constructor ()
      ensures Valid()
      ensures title == "Chats" && chatIDs == [] && selected == 0 && error == ""
    {
      title := "Chats";
      chatIDs := [];
      selected := 0;
      error := "";
    }

    /** `draw` on a canvas of the given size (chats.js:28-83). */
    method Draw(width: real, height: real) returns (cmds: seq<Command>)
      ensures cmds == ListFrameAsWritten(Snapshot(), MetricsFor(width, height))
    {
      var m := MetricsFor(width, height);
      cmds := Background(m);
      if error != "" {
        cmds := cmds + [FillText("ERROR: " + error, 0.0, 0.0, BackgroundColor, Left)];
        return;
      }
      cmds := cmds + TitleBar(m, title);
      ghost var head := cmds;
      for i := 0 to |chatIDs|
        invariant cmds == head + Rows(chatIDs, selected, m, i)
      {
        var top := m.titleBarHeight + Times(i, m.lineSpacing * 2.0);
        if selected == i {
          cmds := cmds + [FillRect(0.0, top, m.width, m.lineSpacing * 2.0, SelectedColor),
                          FillText(chatIDs[i], m.margin * 2.0, top + m.margin * 2.0, SelectedFontColor, Left)];
        } else {
          cmds := cmds + [FillRect(0.0, top, m.width, m.lineSpacing * 2.0, UnselectedColor),
                          FillText(chatIDs[i], m.margin * 2.0, top + m.margin * 2.0, UnselectedFontColor, Left)];
        }
      }
    }

    /** The `keydown` handler: the selection step, the navigation it asks for,
        and the repainted frame, or no frame when the handler does not draw. */
    method OnKeyDown(e: KeyEvent, width: real, height: real) returns (action: Action, frame: seq<Command>)
      requires Valid()
      modifies this
      ensures Valid()
      ensures var o := KeyDown(old(selected), chatIDs, e);
        && selected == o.selected && action == o.action
        && frame == if o.redraw then ListFrameAsWritten(Snapshot(), MetricsFor(width, height)) else []
      ensures title == old(title) && chatIDs == old(chatIDs) && error == old(error)
    {
      var o := KeyDown(selected, chatIDs, e);
      selected := o.selected;
      action := o.action;
      frame := [];
      if o.redraw {
        frame := Draw(width, height);
      }
    }
  }
}
