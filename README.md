# edge: the chat client screens, the chat server's listing and the bitmap text renderer

This project models the core of `edge`:

- **The chat screen (`chat.js`).** It greedily wraps the input text and every message to the canvas width (`calculateLines`). It walks the cursor offset over the wrapped lines (`calculateCursorCoordinates`). It sizes each chat bubble (`calculateBubbleWidth`) and stacks the bubbles upward from the input box, newest first, stopping at the first bubble whose bottom edge would be above the title bar. It paints the whole frame, or only the error text while an error is set. Its `keydown` and `paste` handlers edit the input text and the cursor, navigate back to the chat list, or send a message. Its `countLines` helper is never called; it is modelled as a standalone loop, and `BubbleLayout.DepthIsLineCount` relates its total to how far the stacking moves.
- **The chat list screen (`chats.js`).** It paints one row per chat id, with the selected row highlighted. The arrow keys move the selection, and the right arrow or Enter opens the selected chat (or a new one).
- **The server (`main.go`).** `listJSONFiles` turns a directory listing into chat ids, and the POST handler appends a message to a chat.
- **The bitmap renderer (`pkg/graphics`).** `TUI` paints a byte string onto a 40 x 15 grid of 8 x 16 character cells, in a 320 x 240 RGBA image, using `getPixel`, `Glyph.Pixel` and `bitAt`.

The model works as follows:

- **Drawing.** Painting is modelled as the list of canvas calls a `draw` issues, in order (`Canvas.Command`).
- **Text measurement.** `ctx.measureText(..).width` is the parameter `measure`.
- **Layout arithmetic.** The layout scalars are exact reals. A whole number of line spacings is written as repeated addition (`Canvas.Times`), and `Canvas.TimesIsProduct` ties this to the product.
- **Handler effects.** What a handler asks of the page is a returned `Events.Action`: navigate to a path, or send a message.
- **Stateful code.** The screen state of each page is a class whose methods (`Draw`, `OnKeyDown`, `OnPaste`) are proved equal to pure step and frame functions, and the properties are lemmas about those functions.
- **Loops.** Loops stay loops: `CalculateLines`, `CalculateCursorCoordinates`, `CalculateBubbleWidth`, `CountLines`, `StackBubbles`, `PaintInput`, `ChatList.ChatListScreen.Draw`, `ListJSONFiles` and `TUI`. `ChatScreen.ChatClient.Draw` has no loop of its own: it calls the `PaintInput` and `StackBubbles` loops, while `messages.map` becomes the recursive `WrapChat` and the per-line `forEach` of a bubble becomes `BubbleCommands` and the recursive `AllBubbleCommands`.
- **Go semantics.** Go's truncating `/` and `%` are `GoDiv` and `GoMod`. Go panics are `Panic` results.

Two behaviours of the code worth noting:

- **Empty input.** `calculateLines` gives the single line `" "`, not an empty line (`LineWrap.WrapEmpty`).
- **Splitting and joining.** The text is split on single spaces, not on whitespace. The wrapped lines joined with spaces give back `" " + text` exactly, with no collapsing of repeated spaces.

## Model

| member | source | states |
|---|---|---|
| Strings.Split | chat.js:47 | `split(" ")` gives at least one piece and no piece contains a space |
| Strings.JoinSplit | chat.js:47 | joining the pieces of a split with single spaces gives back the string |
| Strings.SplitJoin | chat.js:47 | splitting the join of space-free pieces gives back the pieces |
| Strings.TrimStartSpec | chat.js:150 | `trimStart` removes exactly the leading whitespace: the rest is a suffix that is empty or starts with a non-whitespace character |
| Strings.TrimSpec | chat.js:88 | `trim` removes exactly the whitespace at both ends and keeps the middle slice |
| Strings.TrimEmptyIff | chat.js:249 | a trimmed string is empty exactly when the string is all whitespace (both directions) |
| Strings.Take | chat.js:241 | `slice(0, n)` is a prefix of length `min(n, length)`, so the whole string when `n` is past its end |
| Strings.Drop | chat.js:241 | `slice(0, n) + slice(n)` is the whole string |
| Strings.TrimSuffix | main.go:222 | with the suffix present, the result plus the suffix is the name; otherwise the name is unchanged |
| Canvas.MetricsFor | chat.js:111-125 | the layout scalars keep the canvas size and are positive on a positive width, and the line spacing exceeds two paddings |
| Canvas.MetricsScale | chats.js:33-43 | every layout scalar scales linearly with the canvas width |
| Canvas.TimesIsProduct | chat.js:198 | a count of line spacings added up is the count times the line spacing |
| Canvas.TimesMonotone | chat.js:198 | more lines never measure less with a non-negative line spacing |
| Canvas.ErrorFrameAsWritten | chat.js:154-163 | while an error is set the frame is the background and one text call, as written |
| Canvas.ErrorTextInvisible | chats.js:49-58 | as written, the error text is filled with the colour of the background under it |
| Canvas.ErrorFrame | chat.js:154-163 | the error frame is the background and the error text, nothing else |
| Canvas.ErrorTextVisible | chat.js:160-161 | corrected, the error text differs in colour from the background and reads "ERROR: " plus the error |
| LineWrap.WrapWords | chat.js:46-57 | the wrapper always yields at least one line |
| LineWrap.CalculateLines | chat.js:45-59 | the loop computes `Wrap`, and its lines joined with spaces are `" " + text` |
| LineWrap.FirstWord | chat.js:52-53 | the first word of a line is a space-free prefix, ended by a space or by the line's end |
| LineWrap.WrapWordsJoin | chat.js:47-57 | round trip: the lines joined with spaces are the words joined with spaces, behind one space |
| LineWrap.WrapJoin | chat.js:45-59 | round trip: the wrapped lines of `text`, joined with spaces, are `" " + text` |
| LineWrap.WrapWordsFirstLine | chat.js:46-49 | the first line starts with the separator the first word was given |
| LineWrap.WrapWordsFit | chat.js:49-56 | a line that took more than one word measures at most `maxWidth` |
| LineWrap.WrapWordsGreedy | chat.js:52-53 | every line break is forced: adding the next line's first word would have exceeded `maxWidth` |
| LineWrap.WrapProperties | chat.js:45-59 | at least one line, the round trip, the leading space, fit and greedy breaks, on the text |
| LineWrap.WrapEmpty | chat.js:46-57 | empty input gives the single line `" "` |
| CursorWalk.Walk | chat.js:99-106 | the walk stays on an existing row, or one past the end at column 0, and its row start plus its column is the offset |
| CursorWalk.CalculateCursorCoordinates | chat.js:96-108 | the loop computes the walk; an offset before the end lands on an existing row, and offset 0 is row 0, column 0 |
| CursorWalk.WalkFirstRow | chat.js:99-101 | within the first line the walk stays on row 0 with the column equal to the offset |
| CursorWalk.OffsetIncreasing | chat.js:102-105 | each row ends before any later row starts |
| CursorWalk.PositionUnique | chat.js:99-106 | no two in-range positions share an offset, so the walk's position is the only one |
| CursorWalk.JoinAt | chat.js:99-106 | offsets index the joined text: a column holds the line's character, and the end of a line holds the separating space |
| CursorWalk.OffsetJoinLength | chat.js:99-106 | the walk has one position per character of the joined lines, plus one |
| CursorWalk.CursorInRange | chat.js:149-150 | every cursor offset the editor can hold lands on an existing input line |
| BubbleLayout.WidestLineIsMax | chat.js:86-92 | the widest line is at least 0, bounds every trimmed line width, and is 0 or the width of one of the lines |
| BubbleLayout.CalculateBubbleWidth | chat.js:85-94 | the loop computes the widest trimmed line plus twice the padding |
| BubbleLayout.BubbleWidthBounds | chat.js:93 | a bubble is at least two paddings wide, and every trimmed line fits between the paddings |
| BubbleLayout.BubbleHeightMonotone | chat.js:199 | a bubble with more lines is never lower |
| BubbleLayout.TotalLinesAppend | chat.js:61-67 | the line count of two chats together is the sum of their counts |
| BubbleLayout.CountLines | chat.js:61-67 | the loop counts each message's lines plus one gap line |
| BubbleLayout.DepthIsLineCount | chat.js:197-198 | how far the stacking cursor moves is the `countLines` total times the line spacing |
| BubbleLayout.DepthNonNegative | chat.js:197-198 | the stacking cursor never moves down |
| BubbleLayout.BubbleWidths | chat.js:195 | one bubble width per message |
| BubbleLayout.Placed | chat.js:192-199 | one placed bubble per message from `i` down to 0 |
| BubbleLayout.PlacedAt | chat.js:192-199 | placed bubble `j` is that of message `i - j`, newest first |
| BubbleLayout.VisiblePrefixSpec | chat.js:200-202 | the kept bubbles are a prefix, all visible, ending only before an invisible bubble |
| BubbleLayout.StackBubbles | chat.js:190-217 | the loop paints exactly the recursive stacking from the top of the input box |
| BubbleLayout.StackFromIsVisiblePrefix | chat.js:190-202 | the stacking is the visible prefix of the bubbles placed newest first |
| BubbleLayout.PaintedBubbles | chat.js:190-203 | bubble `j` belongs to the `j`-th newest message, every painted bubble is visible, and the loop stops only at an invisible one |
| BubbleLayout.PaintedBetween | chat.js:190-203 | every painted bubble's bottom lies between the title bar and the top of the input box |
| BubbleLayout.StackGap | chat.js:197-199 | consecutive bubbles are separated by the line spacing less two paddings |
| BubbleLayout.BubbleAboveTop | chat.js:190-199 | every bubble ends above the input box, by the depth of the newer messages plus one gap |
| BubbleLayout.CutoffIsFinal | chat.js:200-202 | once a bubble is above the title bar every older one is too, so the early exit hides nothing visible |
| BubbleLayout.BubbleCommands | chat.js:203-216 | one rounded box in the sent or received colour by sender, then for each line its trimmed text at row `i` in the font colour, right-aligned at the right padding for sent messages and left-aligned at the left padding otherwise |
| BubbleLayout.BubbleLinesInside | chat.js:203-216 | every text row of a placed bubble lies inside the bubble between its paddings, at the padding edge on the sender's side |
| ChatScreen.WrapChat | chat.js:127-132 | one wrapped message per message, keeping its sender, with its text wrapped to the message width |
| ChatScreen.WrapChatKeepsText | chat.js:127-132 | no message text is lost: its lines joined with spaces are its text behind one space |
| ChatScreen.InputLineCommands | chat.js:174-178 | one text call per input line, line `i` trimmed at row `i` |
| ChatScreen.InputFrame | chat.js:165-187 | the input box and bubble, then the lines in order, then the cursor only while it blinks on |
| ChatScreen.PaintInput | chat.js:165-187 | the loop paints the input frame |
| ChatScreen.InputLines | chat.js:133-134 | the input wraps to at least one line, and the lines join to `" " + inputText` |
| ChatScreen.CursorCell | chat.js:149 | the cursor's row and column are the walk's, on an existing input line |
| ChatScreen.FrameVersions | chat.js:150-161 | the as-written frame and the corrected one differ in a single call: the error text's colour while an error is set, otherwise the cursor stroke while the cursor blinks |
| ChatScreen.ContentFrameCursor | chat.js:150-152 | the frame depends on the measured text before the cursor only through the cursor stroke |
| ChatScreen.ErrorShortCircuit | chat.js:154-163 | with an error set the frame is the background and the error text, in the background colour as written and the font colour corrected, and depends on nothing but the error |
| ChatScreen.FrameStart | chat.js:165-178 | without an error, whatever the cursor is measured after, the frame is the background, the input box, then the input lines in order |
| ChatScreen.FrameEnd | chat.js:219-225 | without an error, whatever the cursor is measured after, the title bar is painted last, over the bubbles |
| ChatScreen.RowInsideInputBubble | chat.js:144-152 | each input row, one font height tall, lies inside the input bubble |
| ChatScreen.CursorInsideInputBubble | chat.js:180-187 | whatever text the cursor is measured after, the cursor stroke is the call after the input lines and lies vertically inside the input bubble |
| ChatScreen.BubblesBetweenBars | chat.js:190-202 | every painted bubble ends between the title bar and the input box |
| ChatScreen.FirstLinePrefix | chat.js:46-49 | the first input line is a space followed by the start of the input |
| ChatScreen.BeforeCursorAsWrittenCounterexample | chat.js:150 | as written, at offset 0 of "ab" the cursor is measured after "a" |
| ChatScreen.BeforeCursorFirstRow | chat.js:149-151 | corrected, on the first line the measured text is exactly the input before the cursor, without its leading whitespace |
| ChatScreen.ChatClient.constructor | chat.js:4-12 | the page starts as user "me" with an empty input, the cursor at 0, the cursor shown, no messages and no error |
| ChatScreen.ChatClient.Draw | chat.js:110-226 | the painted calls are the as-written frame of the current state: error text in the background colour, cursor after the trimmed-then-sliced line |
| ChatScreen.ChatClient.OnKeyDown | chat.js:228-265 | the input follows the editor step, the action is the step's, the frame is repainted unless the handler returned early, and nothing else changes |
| ChatScreen.ChatClient.OnPaste | chat.js:267-275 | the input follows the paste step, the frame is repainted, and nothing else changes |
| ChatEditor.KeyDown | chat.js:228-265 | every key keeps the cursor within the text |
| ChatEditor.Paste | chat.js:267-275 | pasting keeps the cursor within the text |
| ChatEditor.InsertSpec | chat.js:260-261 | an insertion splits the text at the cursor and moves the cursor past the inserted text |
| ChatEditor.ModifiedKeyIgnored | chat.js:229 | keys held with ctrl or meta change nothing and do not repaint |
| ChatEditor.ArrowKeys | chat.js:231-238 | the arrows move the cursor by one within the text, and the left arrow at offset 0 navigates to "/chats" |
| ChatEditor.DeletionKeys | chat.js:239-247 | Backspace removes the character before the cursor and Delete the one after it; at the ends they change nothing |
| ChatEditor.PrintableKey | chat.js:259-261 | a single-character key is typed at the cursor |
| ChatEditor.EnterKey | chat.js:248-258 | Enter sends the trimmed text and clears the input unless the text is all whitespace, which changes nothing |
| ChatEditor.OtherKey | chat.js:259-264 | any other named key only repaints |
| ChatEditor.PasteSpec | chat.js:270-273 | a paste is inserted at the cursor, and an empty paste changes nothing |
| ChatEditor.TypeThenBackspace | chat.js:239-261 | typing a character then Backspace gives back the editor |
| ChatEditor.LeftThenRight | chat.js:231-238 | left then right arrow, away from offset 0, gives back the editor |
| ChatList.Rows | chats.js:68-82 | two painting calls per row |
| ChatList.RowsAt | chats.js:68-82 | row `i` occupies calls `2i` and `2i + 1` |
| ChatList.RowGeometry | chats.js:71-77 | rows start under the title bar, each starts where the previous ends, and they never overlap |
| ChatList.ListFrameVersions | chats.js:51-56 | the as-written frame and the corrected one differ only in the colour of the error text |
| ChatList.ListErrorShortCircuit | chats.js:49-58 | with an error set the frame is the background and the error text, in the background colour as written and the font colour corrected, and depends on nothing but the error |
| ChatList.ListRow | chats.js:68-82 | row `i` shows chat id `i`, and it has the selected colours exactly when it is the selected row |
| ChatList.OpenChatRoute | chats.js:85-91 | the path is "/chats/" plus the selected id, or plus "new" past the end of the list |
| ChatList.KeyDown | chats.js:93-115 | the selection stays in range, and a moved selection repaints and asks nothing of the page |
| ChatList.SelectionMoves | chats.js:99-108 | the down and up arrows move one row within the list and repaint, and do nothing at the ends |
| ChatList.DownThenUp | chats.js:99-108 | down then up comes back to the same row |
| ChatList.OpenKeys | chats.js:96-112 | the right arrow and Enter open the selected chat and change nothing |
| ChatList.IgnoredKeys | chats.js:94-114 | every other key, and any key with ctrl or meta, changes nothing and does not repaint |
| ChatList.ChatListScreen.constructor | chats.js:4-9 | the page starts titled "Chats" with no chats, row 0 selected and no error |
| ChatList.ChatListScreen.Draw | chats.js:28-83 | the painted calls are the as-written frame of the current state, with the error text in the background colour |
| ChatList.ChatListScreen.OnKeyDown | chats.js:93-115 | the selection follows the key step, the action is the step's, a frame is painted only when the step repaints, and nothing else changes |
| Server.ChatIDs | main.go:220-224 | never more ids than entries |
| Server.ListJSONFiles | main.go:211-226 | a missing directory lists nothing without error, another read error is returned without a list, and otherwise the ids of the chat files are listed in order |
| Server.ChatIDsAppend | main.go:220-224 | ids keep the order of the entries they come from |
| Server.ChatIDsSound | main.go:221-222 | every id plus ".json" is the name of a file entry |
| Server.ChatIDsComplete | main.go:220-224 | the id of every chat file is listed |
| Server.Chat.constructor | main.go:206-209 | a chat holds its title and messages |
| Server.Chat.Append | main.go:181 | the posted message becomes the last, while the earlier messages and the title stay |
| Graphics.GoDiv | pkg/graphics/tui.go:21 | Go's division agrees with Euclidean division on non-negative operands |
| Graphics.GoMod | pkg/graphics/tui.go:20 | Go's remainder agrees with `%` on a non-negative dividend, lies in (-b, 0] for a negative one, and is the dividend less the truncated quotient times the divisor |
| Graphics.BitAt | pkg/graphics/bit_at.go:3-8 | `bitAt` returns exactly for indices 0..7 and panics otherwise |
| Graphics.BitsAreBitAt | pkg/graphics/bit_at.go:7 | `bitAt(val, i)` is digit `i` of the byte's binary digits, most significant first |
| Graphics.BitOrder | pkg/graphics/bit_at.go:7 | index 0 is the high bit and index 7 the low bit |
| Graphics.BitsRoundTrip | pkg/graphics/bit_at.go:7 | the eight bits read, weighted by `2^(7 - i)`, give back the byte |
| Graphics.FromBitsRoundTrip | pkg/graphics/bit_at.go:7 | any eight bits make a byte whose bits they are |
| Graphics.BitAtConstants | pkg/graphics/bit_at.go:3-8 | the zero byte has no bit set and 0xFF has every bit set |
| Graphics.Pixel | pkg/graphics/glyph.go:3-7 | a glyph pixel is defined exactly inside the 8 x 16 cell and is the row byte's bit |
| Graphics.PixelRowLocal | pkg/graphics/glyph.go:5-7 | a pixel depends on its own row only |
| Graphics.PixelLeftmost | pkg/graphics/glyph.go:5-7 | the leftmost pixel is the row byte's high bit |
| Graphics.PixelRowExtremes | pkg/graphics/glyph.go:5-7 | a zero row is blank and a 0xFF row is fully shaded |
| Graphics.CellInRange | pkg/graphics/tui.go:19-24 | every pixel of the image reads one of the first 600 characters at a position inside its glyph |
| Graphics.GetPixel | pkg/graphics/tui.go:19-42 | every pixel of the image is opaque black or opaque white, without a panic |
| Graphics.BlackFallback | pkg/graphics/tui.go:25-32 | a character past the end of the string, or one without a glyph, paints black |
| Graphics.Shading | pkg/graphics/tui.go:33-41 | a pixel is white exactly when the glyph bit under it is set |
| Graphics.PixelIgnoresTail | pkg/graphics/tui.go:24-28 | characters past the first 600 never show |
| Graphics.Render | pkg/graphics/tui.go:11-17 | four bytes per pixel |
| Graphics.RenderAt | pkg/graphics/tui.go:13-14 | pixel `j` occupies bytes `4j` to `4j + 4` of the image |
| Graphics.TUI | pkg/graphics/tui.go:11-17 | the loop paints every pixel in turn, giving 4 x 320 x 240 bytes |
| Graphics.TwoColours | pkg/graphics/tui.go:11-42 | every pixel of the image is opaque black or opaque white |
| Graphics.GetCharIndexAsWrittenCounterexamples | pkg/graphics/tui.go:44-54 | as written, the index disagrees with `getPixel`'s cell, panics on a visible pixel, and lets 600 through |
| Graphics.GetCharIndex | pkg/graphics/tui.go:44-54 | corrected, every pixel of the image maps to the cell `getPixel` reads, and every index returned is below 600 |

## Left out

- The `fetch` of the chat or the list, the long-polling `update` loop and the response handling (chat.js:14-43, chats.js:11-26) are left out, because they are network I/O. The state they set (title, messages, chat ids, error) is a field of the screen classes.
- The POST of a sent message and its `sentAt` clock stamp (chat.js:250-255) are left out. Sending is the returned `Send` action.
- The server's HTTP handlers, file I/O, locks and watcher channels (main.go outside lines 181 and 200-226) are left out, because they are I/O and concurrency. `os.ReadDir` is the input `ReadDirResult`, and the decoded chat is a `Chat` object.
- The `textAlign` and `fillStyle` in effect are folded into each command as its alignment and colour.
- The fonts (the body font at chat.js:116 and chats.js:34, 72, 78; the bold title font at chat.js:222 and chats.js:63) and `textBaseline = "top"` (chat.js:3, chats.js:3) are left out: no command records them. No layout value depends on them, because `measure` is only called while the body font is set. chat.js:116 runs before every measurement in `draw`.
- The quadratic curves of `drawRoundedRect` are the single `RoundedRect` command.
- Text measurement is the parameter `measure`. Floating-point layout arithmetic is exact real arithmetic.
- The commented-out blink timer (chat.js:277-280) is left out. The blink state is a field that nothing toggles.
- The chats.js `paste` handler (chats.js:117-124) is left out, because it writes variables that page does not declare.
- The unused `userID` and `scrollOffset` of chats.js are left out, as are `selectingState` and `scrollOffset` of chat.js.
- `DefaultFont` (the glyph table of pkg/graphics) is not part of this model. It is the parameter `font`.
- Go's `string` indexing yields bytes, so `s` is a sequence of bytes.
- ChatEditor.KeyDown: a key counts as a single character when it is one Dafny `char`. JavaScript counts UTF-16 code units (chat.js:238, 241, 245, 259), so a key outside the Basic Multilingual Plane differs.
- ChatEditor.Paste: the cursor advances by the paste's length in Dafny `char`s, not in UTF-16 code units (chat.js:271-272), so text outside the Basic Multilingual Plane moves it differently.
- CursorWalk.Walk: line lengths and columns count Dafny `char`s, not UTF-16 code units (chat.js:100). All offsets and lengths in the model count this way.
- CursorWalk.CalculateCursorCoordinates: requires the cursor offset to be within the walk. The source would throw on reading past the last line. `CursorWalk.CursorInRange` shows that the editor's offsets always meet this requirement.
- ChatScreen.ChatClient.Draw: requires the cursor to be within the input text. Every handler keeps this invariant (`ChatEditor.KeyDown`, `ChatEditor.Paste`).
- Both screens paint as written: the error text in the background colour, and the cursor after the trimmed-then-sliced line. The corrected frames (`ChatScreen.ChatFrame`, `ChatList.ListFrame`) are kept beside them, and `ChatScreen.FrameVersions` and `ChatList.ListFrameVersions` show the two differ in that one call only (see Findings).
- The getCharIndex of pkg/graphics is not called in the code shown. The corrected `GetCharIndex` is related to `getPixel` by its contract.

## Findings

| source | as written | input that shows it | evidently intended | confidence | as-written member | corrected member |
|---|---|---|---|---|---|---|
| pkg/graphics/tui.go:49-50 | `cols*col + row` and a `>` bound | pixel 8 gives 40 where `getPixel` reads cell 1; pixel 128 panics; pixel 120 gives 600, past the last cell | `row*cols + col` with a `>=` bound, as in `getPixel` | not executed | Graphics.GetCharIndexAsWrittenCounterexamples | Graphics.GetCharIndex |
| chat.js:156-161 | the error text is filled with the background colour still in effect | any error string: white text on a white canvas | the error text in the font colour | not executed | Canvas.ErrorTextInvisible | Canvas.ErrorTextVisible |
| chat.js:150 | `trimStart` before `slice(0, cursorCol + 1)` | input "ab" with the cursor at 0 measures "a", so the cursor is drawn one character right | slice the untrimmed line, then trim | not executed | ChatScreen.BeforeCursorAsWrittenCounterexample | ChatScreen.BeforeCursorFirstRow |
