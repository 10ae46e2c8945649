/** One pass of `main`'s loop after `poll` reported an event: the loop's own
    quit test, then the box drawn at its fixed size. `main` never hands the
    event to the input controller, so the state it draws never changes. */
module MainLoop {
  import opened Wrappers
  import opened Text
  import opened Titles
  import opened Events
  import opened Layout
  import opened AppState

  /** The box size `main` passes to the layout. */
  const FrameWidth: nat := 20
  const FrameHeight: nat := 5

  /** The loop either stops, or draws the layout's answer (a frame, or the
      rejection the source raises as a panic). */
  datatype Tick = Quit | Draw(frame: Result<seq<Placement>, LayoutError>)

  /** One event handled by `main`: quits exactly on a quit key, and otherwise
      draws a 20 x 5 box around the current title. */
  function MainTick(app: App, ev: Event): (t: Tick)
    ensures t.Quit? <==> IsQuitEvent(ev)
    ensures t.Draw? ==> (t.frame.Success? <==> ByteLen(app.title.text) <= FrameHeight)
    ensures t.Draw? && t.frame.Success? ==>
      && |t.frame.value| == 8
      && t.frame.value[2] == Placement(18, 1, "│")
      && t.frame.value[7].row == 4
  {
    if IsQuitEvent(ev) then Quit
    else if ByteLen(app.title.text) > FrameHeight then Draw(Render(app.title, FrameWidth, FrameHeight))
    else
      // an accepted frame: its shape comes from the layout's frame lemma
      RenderFrame(app.title, FrameWidth, FrameHeight);
      Draw(Render(app.title, FrameWidth, FrameHeight))
  }

  /** The main loop and the controller write out the same quit pattern, so both
      use `IsQuitKey` here and this holds by construction: in Normal mode the
      loop stops exactly when `match_event` would answer `Some(true)`; in the
      other modes the loop still stops while the controller answers `None`. */
  lemma MainQuitMatchesController(app: App, ev: Event)
    requires app.mode == Normal
    ensures MainTick(app, ev).Quit? <==> MatchEvent(app, ev).signal == Some(true)
  {
  }

  /** The frame `main` draws from a fresh application on any other event:
      `┌`, 17 dashes, `┐` on row 0; `│` at columns 0 and 18 on rows 1 to 3;
      `└`, 17 dashes, `┘` on row 4. */
  lemma InitialFrame(ev: Event)
    requires !IsQuitEvent(ev)
    ensures MainTick(NewApp(), ev) == Draw(Success([
      Placement(0, 0, "┌─────────────────┐"),
      Placement(0, 1, "│"), Placement(18, 1, "│"),
      Placement(0, 2, "│"), Placement(18, 2, "│"),
      Placement(0, 3, "│"), Placement(18, 3, "│"),
      Placement(0, 4, "└─────────────────┘")]))
  {
    assert NewApp().title == NewTitle();
    InitialRender();
  }

  lemma InitialRender()
    ensures Render(NewTitle(), 20, 5) == Success([
      Placement(0, 0, "┌─────────────────┐"),
      Placement(0, 1, "│"), Placement(18, 1, "│"),
      Placement(0, 2, "│"), Placement(18, 2, "│"),
      Placement(0, 3, "│"), Placement(18, 3, "│"),
      Placement(0, 4, "└─────────────────┘")])
  {
    InitialBorders();
    InitialSides();
    assert ByteLen(NewTitle().text) == 0;
    var top := Placement(0, 0, TopLine(NewTitle(), 20));
    var bottom := Placement(0, 4, BottomLine(20));
    assert Render(NewTitle(), 20, 5) == Success([top] + SideRows(20, 1, 4) + [bottom]);
    assert [top] + SideRows(20, 1, 4) + [bottom]
      == [Placement(0, 0, "┌─────────────────┐"),
          Placement(0, 1, "│"), Placement(18, 1, "│"),
          Placement(0, 2, "│"), Placement(18, 2, "│"),
          Placement(0, 3, "│"), Placement(18, 3, "│"),
          Placement(0, 4, "└─────────────────┘")];
  }

  lemma InitialBorders()
    ensures TopLine(NewTitle(), 20) == "┌─────────────────┐"
    ensures BottomLine(20) == "└─────────────────┘"
  {
    var dashes := Repeat(Horizontal, 17);
    assert dashes == "─────────────────";
    PadLeft("", Horizontal, 17);
    BottomLineShape(20);
  }

  lemma InitialSides()
    ensures SideRows(20, 1, 4) == [Placement(0, 1, "│"), Placement(18, 1, "│"),
                                   Placement(0, 2, "│"), Placement(18, 2, "│"),
                                   Placement(0, 3, "│"), Placement(18, 3, "│")]
  {
    assert SideRows(20, 4, 4) == [];
    assert SideRows(20, 3, 4) == [Placement(0, 3, "│"), Placement(18, 3, "│")];
    assert SideRows(20, 2, 4) == [Placement(0, 2, "│"), Placement(18, 2, "│"),
                                  Placement(0, 3, "│"), Placement(18, 3, "│")];
  }
}
