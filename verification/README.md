# jelly-text-editor: box layout and input controller

A Dafny model of the jelly-text-editor terminal scaffold, restricted to its
computation: where the bordered box and its title land on the screen, and how
key presses change the title's alignment.

- **Box layout** (`render_square` in `src/main.rs`). From a box size
  `(width, height)` and the application's `Title` (text and alignment) it
  either refuses the request (the source panics) or yields the strings it
  prints and where: the top border with the title formatted into it, a `│` at
  each end of every side row, and the bottom border. Each `execute!` write
  becomes a `Placement(col, row, text)` value; the refusal becomes
  `Failure(TooSmall)`.
- **Input controller** (`App::match_event` in `src/app/app.rs`). A pure step
  `(app, event) -> (app', Option<bool>)` over the mode and the title, together
  with the `Title` and `App` constructors and setters, and the quit test that
  `main` performs itself.

Modules, one per concept: `Wrappers` (Option, Result), `Text` (UTF-8 byte
length of a string, repeated characters), `Titles` (`Align`, `Title` and its
setters), `Events` (terminal events and the quit predicate), `Layout`
(`render_square`), `AppState` (`TypeMode`, `App`, `match_event`, a fold over an
event sequence), `MainLoop` (one pass of `main`'s loop).

Titles are `seq<char>` of Unicode scalar values. Formatting widths count
characters, as Rust's `std::fmt` does; the guard counts UTF-8 bytes, as
`String::len` does (`Text.ByteLen`). Terminal coordinates are the source's
`as u16` casts (`Layout.AsU16`, the value modulo 65536).

## Geometry and behaviour of the code

- A title that fits gives a top line of `width - 1` characters: `┌`, a field
  of `width - 3`, `┐` (src/main.rs:101-123). The side borders are at columns 0
  and `width - 2` (src/main.rs:127-135), so, for a title whose characters each
  take one terminal column, `┐` sits above the right border.
- The bottom line is `└`, `width - 3` dashes, `┘` at row `height - 1`
  (src/main.rs:137-148).
- Besides `width < 3` and `height < 3`, the guard refuses a title whose UTF-8
  byte length exceeds the height; the width is never compared with the title
  (src/main.rs:94).
- A title wider than the field (in characters) is printed whole, so the top
  line has more than `width - 1` characters and, for one-column characters,
  runs past the right border (src/main.rs:101-123; `Layout.GuardIgnoresWidth`).
- `main` runs its own quit test and never calls `match_event`
  (src/main.rs:56-83), so in the running program the arrow keys change
  nothing. `AppState.MatchEvent` models it as a pure step; nothing in `main`
  reaches it.

## Model

| member | source | states |
|---|---|---|
| `Titles.NewTitle` | src/main.rs:33-38 | a new title has empty text and `Left` alignment |
| `Titles.SetTitle` | src/main.rs:39-41 | `set_title` replaces the text and keeps the alignment |
| `Titles.SetAlign` | src/main.rs:42-44 | `set_align` replaces the alignment and keeps the text |
| `Titles.SettersIndependent` | src/main.rs:39-44 | the setters commute, the later of two calls of the same setter wins (for any two texts or alignments), and setting a field to its own value changes nothing |
| `Text.Utf8Len` | src/main.rs:94 | a character takes 1 to 4 bytes, and 1 exactly when it is ASCII |
| `Text.ByteLen` | src/main.rs:94 | `String::len` is zero exactly for the empty string |
| `Text.ByteLenBounds` | src/main.rs:94 | the byte length `String::len` is between the character count and four times it |
| `Text.ByteLenIsCharCountIffAscii` | src/main.rs:94 | byte length equals character count exactly for ASCII strings |
| `Events.IsQuitKey` | src/main.rs:62-73 | only character keys can match the quit pattern |
| `Events.QuitKeyCases` | src/main.rs:62-73 | the quit pattern admits `q` with any modifiers and `c` only with exactly CONTROL; Ctrl+Shift+c and `Q` do not quit |
| `Layout.AsU16` | src/main.rs:127-140 | the `as u16` cast leaves a coordinate below 65536 unchanged |
| `Layout.AsU16Periodic` | src/main.rs:127-140 | the `as u16` cast wraps: adding 65536 to a coordinate does not change where it is drawn |
| `Layout.Pad` | src/main.rs:101-123 | `std::fmt` fill/align: the result has `max(width, len)` characters, holds the value verbatim at the alignment's offset and the fill everywhere else |
| `Layout.PadLeft` | src/main.rs:102-108 | `<` puts the value first, then only fill |
| `Layout.PadMiddle` | src/main.rs:109-115 | `^` puts `pad / 2` fill before the value and `(pad + 1) / 2` after, so an odd pad character goes right |
| `Layout.PadRight` | src/main.rs:116-122 | `>` puts only fill before the value, which ends the string |
| `Layout.PadNoTruncation` | src/main.rs:101-123 | a value at least as wide as the field is printed unchanged, not truncated |
| `Layout.TopLine` | src/main.rs:100-123 | the top line is `┌`, then `max(width - 3, len)` characters, then `┐` |
| `Layout.TopLineShape` | src/main.rs:100-124 | the top line is `┌`, a field of `max(width - 3, len)` characters, `┐`; the title appears verbatim at its aligned offset and every other interior character is `─`; it has `width - 1` characters exactly when the title fits `width - 3` |
| `Layout.BottomLineShape` | src/main.rs:137-148 | the bottom line is `└`, `width - 3` dashes, `┘`: `width - 1` characters |
| `Layout.BottomLine` | src/main.rs:137-148 | the bottom line has `width - 1` characters, from `└` to `┘` |
| `Layout.BottomLineHasNoTitle` | src/main.rs:137-148 | no title holding a character other than the bottom's glyphs occurs anywhere in the bottom line |
| `Layout.Border` | src/main.rs:127-135 | a side border is a single `│` on the cast row, at column 0 (left) or the cast `width - 2` (right) |
| `Layout.SideRows` | src/main.rs:126-135 | the side-border loop writes two placements per row of its range |
| `Layout.SideRowsAt` | src/main.rs:127-135 | placement `j` of the side rows is the left (even `j`) or right (odd `j`) `│` of row `lo + j / 2` |
| `Layout.Render` | src/main.rs:92-150 | the request is rejected exactly when `width < 3`, `height < 3` or the title's byte length exceeds the height; otherwise it writes `2 * height - 2` placements |
| `Layout.RenderFrame` | src/main.rs:124-148 | an accepted frame is the top line at (0, 0), then the side rows `1 .. height - 2`: for each row `i` in `1 .. height - 2` a `│` at column 0 and one at column `width - 2`, then the bottom line at row `height - 1` |
| `Layout.RenderSideRows` | src/main.rs:127-135 | side placement `j` is a single `│` at column 0 or `width - 2` on row `(j + 1) / 2`, which lies between 1 and `height - 2` |
| `Layout.SideRowsDistinct` | src/main.rs:127-135 | when columns and rows fit in 16 bits, no two placements of the side rows (which `RenderFrame` shows are exactly the frame's middle placements) share a cell |
| `Layout.WideBoxFoldsRightBorder` | src/main.rs:132 | in a box 65538 columns wide the `as u16` cast puts the right border on top of the left one |
| `Layout.RenderTitleBound` | src/main.rs:94 | an accepted title has at most `height` characters; an ASCII title is accepted exactly when it has at most `height` characters, whatever the width |
| `Layout.GuardIgnoresWidth` | src/main.rs:94-123 | an ASCII title longer than the field but within the height is accepted and makes the top line longer than `width - 1` |
| `Layout.ByteBoundRejectsWideTitle` | src/main.rs:94 | the bound counts bytes: `éé` is rejected by a 3-row box that accepts `ee` |
| `AppState.NewApp` | src/app/app.rs:12-19 | a new application is in Normal mode with an empty, left-aligned title |
| `AppState.ArrowAlign` | src/app/app.rs:33-51 | only key events select an alignment, none of them a quit key, and Up alone selects Middle |
| `AppState.MatchEvent` | src/app/app.rs:20-61 | the step never changes mode or title text, never answers `Some(false)`, answers `Some(true)` exactly for a quit key in Normal mode, and then leaves the state unchanged |
| `AppState.MatchEventArrow` | src/app/app.rs:33-51 | in Normal mode Right, Left and Up (any modifiers) set the alignment to Right, Left and Middle, change nothing else and answer `None` |
| `AppState.MatchEventOther` | src/app/app.rs:53-55 | in Normal mode any other key or any non-key event answers `None` and changes nothing |
| `AppState.MatchEventOtherModes` | src/app/app.rs:57-59 | in Insert, Select and Command modes every event answers `None` and changes nothing |
| `AppState.MatchEventIdempotent` | src/app/app.rs:20-61 | handling the same event twice gives the same state and answer as handling it once |
| `AppState.Feed` | src/app/app.rs:20-61 | no sequence of events changes the mode or the title text |
| `AppState.FeedSnoc` | src/app/app.rs:20-61 | feeding one more event is one more step from the state reached so far |
| `AppState.LastArrowAlign` | src/app/app.rs:33-51 | a sequence without arrow keys keeps the starting alignment |
| `AppState.FeedLastArrowWins` | src/app/app.rs:33-51 | in Normal mode the alignment after a sequence of events is that of its last arrow key, or the initial one if it holds none |
| `AppState.FeedOutsideNormal` | src/app/app.rs:57-59 | outside Normal mode no sequence of events changes the state |
| `AppState.RightLeftUpFromNew` | src/app/app.rs:12-51 | from a new application, Right, Left, Up leaves an empty title aligned Middle |
| `MainLoop.MainTick` | src/main.rs:56-80 | one pass of the loop quits exactly on a quit key, and otherwise draws a 20 x 5 box that succeeds exactly when the title has at most 5 bytes, with the right border of row 1 at column 18 and the bottom line at row 4 |
| `MainLoop.MainQuitMatchesController` | src/main.rs:61-78 | in Normal mode the loop's quit test stops exactly when `match_event` answers `Some(true)`; both sources spell out the same pattern, so the model shares one predicate and this holds by construction |
| `MainLoop.InitialFrame` | src/main.rs:79 | from a new application every non-quit event draws `┌`+17 dashes+`┐` at row 0, `│` at columns 0 and 18 of rows 1 to 3, and `└`+17 dashes+`┘` at row 4 |

## Left out

- Terminal output (`execute!`, `MoveTo`, `Print`, `Clear`, `SetCursorStyle`, `clear_screen`): side effects; the model returns the placements instead, and the ignored results of those writes are not modelled.
- `show_curr_event` and `size()`: the debug echo of the raw event depends on the terminal's size, an external query.
- Raw-mode enable/disable and the 200 ms `poll` loop timing: operating-system and terminal state, and time.
- `EventStream` and `App::next_event`, and the `es` and `stdout` fields of `App`: a foreign asynchronous stream and output handle; an event is an input value.
- The main loop as a whole: only one pass after an event arrives is modelled (`MainLoop.MainTick`); since `main` never changes the application, every pass sees the same state.
- `panic!`: modelled as the `Failure(TooSmall)` result, not as a process abort.
- The `kind` and `state` fields of a key event, which no pattern inspects; the contents of mouse events; the terminal library's rarer key codes, collapsed into `OtherKey`, since no pattern names them.
- Display width: positions inside a printed string are counted in characters, as `std::fmt` counts them; a double-width or zero-width title character moves `┐` on screen, which the model does not track.
- Widths and heights are unbounded naturals rather than `usize`; only the `as u16` casts of coordinates are modelled, as they are where the width matters.
