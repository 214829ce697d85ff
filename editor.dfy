/** The input editor of the chat screen (the `keydown` and `paste` handlers of
    chat.js) as step functions over the text and the cursor offset. */
module ChatEditor {
  import opened Strings
  import opened Events

  /** `inputText` and `cursorIndex`. */
  datatype Editor = Editor(text: string, cursor: nat)

  /** The cursor sits at an offset of the text: before a character or at the end. */
  predicate Valid(ed: Editor)
  {
    ed.cursor <= |ed.text|
  }

  /** The editor after a key, what the page is asked to do, and whether the
      handler repaints (`draw()`) before it returns. */
  datatype Outcome = Outcome(editor: Editor, action: Action, redraw: bool)

  /** `text.slice(0, c) + s + text.slice(c)`, with the cursor moved past `s`. */
  function Insert(ed: Editor, s: string): Editor
  {
    Editor(Take(ed.text, ed.cursor) + s + Drop(ed.text, ed.cursor), ed.cursor + |s|)
  }

  /** The `keydown` handler (chat.js:228-265). Modified keys return before
      anything happens; every other key ends with a repaint. */
  function KeyDown(ed: Editor, e: KeyEvent, userID: string): (o: Outcome)
    ensures Valid(ed) ==> Valid(o.editor)
  {
    var text, c := ed.text, ed.cursor;
    if e.ctrlKey || e.metaKey then Outcome(ed, Stay, false)
    else if e.key == "ArrowLeft" then
      if c > 0 then Outcome(Editor(text, c - 1), Stay, true)
      else Outcome(ed, Navigate("/chats"), true)
    else if e.key == "ArrowRight" then
      if c < |text| then Outcome(Editor(text, c + 1), Stay, true) else Outcome(ed, Stay, true)
    else if e.key == "Backspace" then
      if c > 0 then Outcome(Editor(Take(text, c - 1) + Drop(text, c), c - 1), Stay, true)
      else Outcome(ed, Stay, true)
    else if e.key == "Delete" then
      if c < |text| then Outcome(Editor(Take(text, c) + Drop(text, c + 1), c), Stay, true)
      else Outcome(ed, Stay, true)
    else if e.key == "Enter" then
      if Trim(text) != "" then Outcome(Editor("", 0), Send(userID, Trim(text)), true)
      else Outcome(ed, Stay, true)
    else if |e.key| == 1 then Outcome(Insert(ed, e.key), Stay, true)
    else Outcome(ed, Stay, true)
  }

  /** The `paste` handler (chat.js:267-275): a non-empty paste is inserted at the
      cursor and the cursor moves past it. */
  function Paste(ed: Editor, paste: string): (ed': Editor)
    ensures Valid(ed) ==> Valid(ed')
  {
    if paste != "" then Insert(ed, paste) else ed
  }

  /** Inserting at a valid cursor splits the text there. */
  lemma InsertSpec(ed: Editor, s: string)
    requires Valid(ed)
    ensures Insert(ed, s) == Editor(ed.text[..ed.cursor] + s + ed.text[ed.cursor..], ed.cursor + |s|)
    ensures Valid(Insert(ed, s))
  {
  }

  /** Keys held with ctrl or meta change nothing and do not repaint. */
  lemma ModifiedKeyIgnored(ed: Editor, e: KeyEvent, userID: string)
    requires e.ctrlKey || e.metaKey
    ensures KeyDown(ed, e, userID) == Outcome(ed, Stay, false)
  {
  }

  /** Left arrow moves the cursor back; at offset 0 it leaves the state alone and
      navigates to the chat list instead. Right arrow moves forward up to the end
      of the text. */
  lemma ArrowKeys(ed: Editor, userID: string)
    requires Valid(ed)
    ensures var o := KeyDown(ed, KeyEvent("ArrowLeft", false, false), userID);
      if ed.cursor > 0 then o == Outcome(Editor(ed.text, ed.cursor - 1), Stay, true)
      else o == Outcome(ed, Navigate("/chats"), true)
    ensures var o := KeyDown(ed, KeyEvent("ArrowRight", false, false), userID);
      if ed.cursor < |ed.text| then o == Outcome(Editor(ed.text, ed.cursor + 1), Stay, true)
      else o == Outcome(ed, Stay, true)
  {
  }

  /** Backspace removes the character before the cursor and Delete the one after
      it; at the respective end of the text they change nothing. */
  lemma DeletionKeys(ed: Editor, userID: string)
    requires Valid(ed)
    ensures var c := ed.cursor;
      var o := KeyDown(ed, KeyEvent("Backspace", false, false), userID);
      if c > 0 then o == Outcome(Editor(ed.text[..c - 1] + ed.text[c..], c - 1), Stay, true)
      else o == Outcome(ed, Stay, true)
    ensures var c := ed.cursor;
      var o := KeyDown(ed, KeyEvent("Delete", false, false), userID);
      if c < |ed.text| then o == Outcome(Editor(ed.text[..c] + ed.text[c + 1..], c), Stay, true)
      else o == Outcome(ed, Stay, true)
  {
  }

  /** A one-character key other than the named ones is typed at the cursor. */
  lemma PrintableKey(ed: Editor, ch: char, userID: string)
    requires Valid(ed)
    ensures KeyDown(ed, KeyEvent([ch], false, false), userID) ==
      Outcome(Editor(ed.text[..ed.cursor] + [ch] + ed.text[ed.cursor..], ed.cursor + 1), Stay, true)
  {
  }

  /** Enter sends the trimmed text and clears the editor, unless the text is all
      whitespace, in which case nothing is sent and nothing changes. */
  lemma EnterKey(ed: Editor, userID: string)
    ensures var o := KeyDown(ed, KeyEvent("Enter", false, false), userID);
      if AllWhitespace(ed.text) then o == Outcome(ed, Stay, true)
      else o == Outcome(Editor("", 0), Send(userID, Trim(ed.text)), true)
  {
    TrimEmptyIff(ed.text);
  }

  /** Any other named key (longer than one character) only repaints. */
  lemma OtherKey(ed: Editor, e: KeyEvent, userID: string)
    requires !e.ctrlKey && !e.metaKey && |e.key| != 1
    requires e.key !in {"ArrowLeft", "ArrowRight", "Backspace", "Delete", "Enter"}
    ensures KeyDown(ed, e, userID) == Outcome(ed, Stay, true)
  {
  }

  /** Paste inserts at the cursor; an empty paste changes nothing. */
  lemma PasteSpec(ed: Editor, paste: string)
    requires Valid(ed)
    ensures paste == "" ==> Paste(ed, paste) == ed
    ensures paste != "" ==>
      Paste(ed, paste) == Editor(ed.text[..ed.cursor] + paste + ed.text[ed.cursor..], ed.cursor + |paste|)
  {
  }

  /** Typing a character and then pressing Backspace gives back the editor. */
  lemma TypeThenBackspace(ed: Editor, ch: char, userID: string)
    requires Valid(ed)
    ensures var typed := KeyDown(ed, KeyEvent([ch], false, false), userID).editor;
      KeyDown(typed, KeyEvent("Backspace", false, false), userID).editor == ed
  {
    var c := ed.cursor;
    var t := ed.text[..c] + [ch] + ed.text[c..];
    PrintableKey(ed, ch, userID);
    DeletionKeys(Editor(t, c + 1), userID);
    assert t[..c] == ed.text[..c] && t[c + 1..] == ed.text[c..];
    assert ed.text[..c] + ed.text[c..] == ed.text;
  }

  /** Left then right arrow leaves the editor where it was, away from offset 0. */
  lemma LeftThenRight(ed: Editor, userID: string)
    requires Valid(ed) && ed.cursor > 0
    ensures var left := KeyDown(ed, KeyEvent("ArrowLeft", false, false), userID).editor;
      KeyDown(left, KeyEvent("ArrowRight", false, false), userID).editor == ed
  {
  }
}
