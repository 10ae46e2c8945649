/** The terminal input events the program reacts to, as delivered by the
    terminal library: a key press carries a key code and a set of modifier
    flags; every other kind of event carries nothing the program inspects. */
module Events {

  /** One flag of the terminal library's modifier bit set. */
  datatype Modifier = Shift | Control | Alt | Super | Hyper | Meta

  /** The key codes of the terminal library; codes the program never tells
      apart from each other are collapsed into `OtherKey`. */
  datatype KeyCode =
    | Backspace | Enter | Left | Right | Up | Down | Home | End
    | PageUp | PageDown | Tab | BackTab | Delete | Insert | Esc | Null
    | F(n: nat)
    | Char(c: char)
    | OtherKey

  /** A key press; its `kind` and `state` fields are matched by no pattern. */
  datatype KeyEvent = KeyEvent(code: KeyCode, modifiers: set<Modifier>)

  datatype Event =
    | FocusGained
    | FocusLost
    | Key(key: KeyEvent)
    | Mouse
    | Paste(text: string)
    | Resize(cols: nat, rows: nat)

  /** The quit pattern, written out in both the main loop and the input
      controller: `q` with any modifiers, or `c` with exactly CONTROL. */
  predicate IsQuitKey(k: KeyEvent)
    ensures IsQuitKey(k) ==> k.code.Char?
  {
    k.code == Char('q') || (k.code == Char('c') && k.modifiers == {Control})
  }

  predicate IsQuitEvent(ev: Event)
  {
    ev.Key? && IsQuitKey(ev.key)
  }

  /** What the quit pattern admits: any `q`; a `c` only when CONTROL is the
      only modifier (Ctrl+Shift+c and a bare `c` do not quit); an upper-case
      `Q` and every non-character key never. */
  lemma QuitKeyCases(k: KeyEvent)
    ensures k.code == Char('q') ==> IsQuitKey(k)
    ensures k.code == Char('c') ==> (IsQuitKey(k) <==> k.modifiers == {Control})
    ensures IsQuitKey(k) ==> k.code == Char('q') || k.code == Char('c')
    ensures IsQuitKey(k) ==> Control in k.modifiers || k.code == Char('q')
    ensures !IsQuitKey(KeyEvent(Char('c'), {Control, Shift}))
    ensures !IsQuitKey(KeyEvent(Char('Q'), {Shift}))
  {
    assert {Control, Shift} != {Control} by {
      assert Shift in {Control, Shift};
    }
  }
}
