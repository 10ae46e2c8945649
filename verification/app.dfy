/** The application state and its input controller, `App::match_event`, as a
    pure step function from a state and an event to the next state and an
    optional signal (`Some(true)` asks to quit). */
module AppState {
  import opened Wrappers
  import opened Titles
  import opened Events

  /** Which key table is active; only `Normal` has one. */
  datatype TypeMode = Normal | Insert | Select | Command

  /** The application state without its event stream and output handles. */
  datatype App = App(mode: TypeMode, title: Title)

  /** The state after one event and the value `match_event` returns. */
  datatype Step = Step(app: App, signal: Option<bool>)

  /** `App::new`: Normal mode, default title. */
  function NewApp(): (a: App)
    ensures a.mode == Normal
    ensures a.title.text == [] && a.title.align == Titles.Left
  {
    App(Normal, NewTitle())
  }

  /** The alignment an arrow key selects in Normal mode, whatever its
      modifiers: Right, Left and Up; no other event selects one. */
  function ArrowAlign(ev: Event): (a: Option<Align>)
    ensures a.Some? ==> ev.Key? && !IsQuitEvent(ev)
    ensures a == Some(Titles.Middle) <==> ev.Key? && ev.key.code == KeyCode.Up
  {
    if !ev.Key? then None
    else match ev.key.code
      case Right => Some(Titles.Right)
      case Left => Some(Titles.Left)
      case Up => Some(Titles.Middle)
      case _ => None
  }

  /** `App::match_event`. It never changes the mode or the title text, never
      answers `Some(false)`, answers `Some(true)` exactly for a quit key in
      Normal mode, and changes nothing when it asks to quit. */
  function MatchEvent(app: App, ev: Event): (r: Step)
    ensures r.app.mode == app.mode && r.app.title.text == app.title.text
    ensures r.signal != Some(false)
    ensures r.signal == Some(true) <==> app.mode == Normal && IsQuitEvent(ev)
    ensures r.signal.Some? ==> r.app == app
  {
    match app.mode
    case Normal =>
      (match ev
       case Key(k) =>
         if IsQuitKey(k) then Step(app, Some(true))
         else (match k.code
               case Right => Step(app.(title := SetAlign(app.title, Titles.Right)), None)
               case Left => Step(app.(title := SetAlign(app.title, Titles.Left)), None)
               case Up => Step(app.(title := SetAlign(app.title, Titles.Middle)), None)
               case _ => Step(app, None))
       case _ => Step(app, None))
    case Insert => Step(app, None)
    case Select => Step(app, None)
    case Command => Step(app, None)
  }

  /** Normal mode, arrow keys: the alignment becomes the arrow's, nothing else
      changes, and the answer is `None`. */
  lemma MatchEventArrow(app: App, ev: Event)
    requires app.mode == Normal && ArrowAlign(ev).Some?
    ensures MatchEvent(app, ev) == Step(app.(title := SetAlign(app.title, ArrowAlign(ev).value)), None)
  {
  }

  /** Normal mode, every event that is neither a quit key nor an arrow key
      (other keys, and all non-key events): state unchanged, answer `None`. */
  lemma MatchEventOther(app: App, ev: Event)
    requires app.mode == Normal && !IsQuitEvent(ev) && ArrowAlign(ev).None?
    ensures MatchEvent(app, ev) == Step(app, None)
  {
  }

  /** Insert, Select and Command modes swallow every event. */
  lemma MatchEventOtherModes(app: App, ev: Event)
    requires app.mode != Normal
    ensures MatchEvent(app, ev) == Step(app, None)
  {
  }

  /** Handling the same event twice is the same as handling it once. */
  lemma MatchEventIdempotent(app: App, ev: Event)
    ensures var once := MatchEvent(app, ev);
      MatchEvent(once.app, ev) == once
  {
  }

  /** The state after handling each of `evs` in turn; a quit answer changes no
      state, so dropping the answers loses nothing about the state. */
  function Feed(app: App, evs: seq<Event>): (r: App)
    ensures r.mode == app.mode && r.title.text == app.title.text
    decreases |evs|
  {
    if |evs| == 0 then app else Feed(MatchEvent(app, evs[0]).app, evs[1..])
  }

  /** The alignment of the last arrow key in `evs`, or `start` if there is none. */
  function LastArrowAlign(evs: seq<Event>, start: Align): (a: Align)
    ensures (forall i :: 0 <= i < |evs| ==> ArrowAlign(evs[i]).None?) ==> a == start
    decreases |evs|
  {
    if |evs| == 0 then start
    else match ArrowAlign(evs[|evs| - 1])
      case Some(a) => a
      case None => LastArrowAlign(evs[..|evs| - 1], start)
  }

  lemma {:induction false} FeedSnoc(app: App, evs: seq<Event>, ev: Event)
    ensures Feed(app, evs + [ev]) == MatchEvent(Feed(app, evs), ev).app
    decreases |evs|
  {
    if |evs| > 0 {
      assert (evs + [ev])[1..] == evs[1..] + [ev];
      FeedSnoc(MatchEvent(app, evs[0]).app, evs[1..], ev);
    }
  }

  /** Last arrow wins: in Normal mode, after any sequence of events the title is
      aligned as the last arrow key in it asked, or as it started if none did. */
  lemma {:induction false} FeedLastArrowWins(app: App, evs: seq<Event>)
    requires app.mode == Normal
    ensures Feed(app, evs).title.align == LastArrowAlign(evs, app.title.align)
    decreases |evs|
  {
    if |evs| > 0 {
      var init := evs[..|evs| - 1];
      var last := evs[|evs| - 1];
      assert evs == init + [last];
      FeedSnoc(app, init, last);
      FeedLastArrowWins(app, init);
      var mid := Feed(app, init);
      if ArrowAlign(last).Some? {
        MatchEventArrow(mid, last);
      } else if IsQuitEvent(last) {
        assert MatchEvent(mid, last).app == mid;
      } else {
        MatchEventOther(mid, last);
      }
    }
  }

  /** Outside Normal mode no sequence of events changes anything. */
  lemma {:induction false} FeedOutsideNormal(app: App, evs: seq<Event>)
    requires app.mode != Normal
    ensures Feed(app, evs) == app
    decreases |evs|
  {
    if |evs| > 0 {
      MatchEventOtherModes(app, evs[0]);
      FeedOutsideNormal(app, evs[1..]);
    }
  }

  /** From a fresh application, Right, Left, Up leaves the title centred. */
  lemma RightLeftUpFromNew(mods: set<Modifier>)
    ensures var arrows := [Key(KeyEvent(KeyCode.Right, mods)),
                           Key(KeyEvent(KeyCode.Left, mods)),
                           Key(KeyEvent(KeyCode.Up, mods))];
      Feed(NewApp(), arrows).title == Title("", Titles.Middle)
  {
    var arrows := [Key(KeyEvent(KeyCode.Right, mods)),
                   Key(KeyEvent(KeyCode.Left, mods)),
                   Key(KeyEvent(KeyCode.Up, mods))];
    FeedLastArrowWins(NewApp(), arrows);
  }
}
