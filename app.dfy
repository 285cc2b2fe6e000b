/** The application state machine of main.go: the Model, its initial value,
    Init, Update and View. */
module App {
  import opened Wrappers
  import opened Feed
  import opened Widgets
  import opened Messages
  import Delegate

  const HeaderHeight := 3
  const FooterHeight := 3

  /** The lipgloss styles View applies itself; the loading style is part of
      `Library.loadingPrompt`. */
  datatype StyleName = HeaderStyle | ListStyle

  /** Calls into code the model cannot see, taken as arbitrary functions:
      html-to-markdown conversion (which may fail), glamour rendering (its
      error is discarded), the three widgets' Update and View, the
      viewport footer, and lipgloss rendering. */
  datatype Library = Library(
    convert: seq<byte> -> Result<string, Error>,
    render: string -> string,
    listUpdate: (ListState, Msg) -> (ListState, Cmd),
    viewportUpdate: (Viewport, Msg) -> (Viewport, Cmd),
    spinnerUpdate: (Spinner, Msg) -> (Spinner, Cmd),
    listView: ListState -> string,
    viewportView: Viewport -> string,
    footer: Viewport -> string,
    spinnerView: Spinner -> string,
    loadingPrompt: string -> string,
    style: (StyleName, string) -> string)

  /** The application state, a Go struct passed and returned by value. */
  datatype Model = Model(
    stories: seq<Story>,
    selected: string,
    storyText: string,
    loading: bool,
    viewportReady: bool,
    err: Option<Error>,
    list: ListState,
    spinner: Spinner,
    viewport: Viewport)

  /** What Update returns: the next model and the command for the runtime. */
  datatype Step = Step(model: Model, cmd: Cmd)

  /** The model `main` starts the program with: an empty titled list of the
      delegate's size, a dot spinner, and a zero viewport. */
  function InitialModel(): Model
  {
    Model(
      stories := [],
      selected := "",
      storyText := "",
      loading := true,
      viewportReady := false,
      err := None,
      list := ListState([], [], 0, Unfiltered, "Top Stories", Delegate.ListWidth, Delegate.ListHeight),
      spinner := Spinner(Dot, 0),
      viewport := ZeroViewport)
  }

  /** The first command: fetch the top stories. */
  function Init(m: Model): Cmd
  {
    FetchTopStories
  }

  /** Sizes the viewport for a window of `width` by `height`: the first time
      it builds a fresh viewport below the header, later it only resizes. */
  function Resize(m: Model, width: int, height: int): Model
  {
    var verticalMargins := HeaderHeight + FooterHeight;
    if !m.viewportReady then
      m.(viewport := Viewport(width, height - verticalMargins, HeaderHeight + 1, 0, ""),
         viewportReady := true)
    else
      m.(viewport := m.viewport.(width := width, height := height - verticalMargins))
  }

  /** The state after the feed arrives: the stories replace the old ones,
      loading ends, and the stories go in front of the list's items. */
  function LoadStories(m: Model, stories: seq<Story>): Model
  {
    m.(stories := stories, loading := false, list := m.list.(items := Items(stories) + m.list.items))
  }

  /** The reaction to a story's bytes: the selection is cleared; a failed
      conversion records the error and quits; otherwise the text is shown
      in the viewport from its top. */
  function ShowStory(m: Model, bytes: seq<byte>, lib: Library): Step
  {
    var m1 := m.(selected := "");
    match lib.convert(bytes)
    case Failure(e) => Step(m1.(err := Some(e)), Quit)
    case Success(markdown) =>
      Step(m1.(storyText := markdown,
               viewport := SetContent(GotoTop(m1.viewport), lib.render(markdown))),
           NoCmd)
  }

  /** The URL `enter` selects: the highlighted story's, or the old selection
      when the highlighted entry is missing or not a story. */
  function Selection(m: Model): string
  {
    match SelectedItem(m.list)
    case Some(StoryItem(s)) => s.url
    case _ => m.selected
  }

  /** Hands the message to the list and then to the viewport, and batches a
      spinner tick with their two commands. */
  function Forward(m: Model, msg: Msg, lib: Library): Step
  {
    var listed := lib.listUpdate(m.list, msg);
    var scrolled := lib.viewportUpdate(m.viewport, msg);
    Step(m.(list := listed.0, viewport := scrolled.0), Batch([SpinnerTick, listed.1, scrolled.1]))
  }

  predicate IsQuitKey(key: string)
  {
    key == "ctrl+c" || key == "q"
  }

  /** `Model.Update` as a function of the old model and the message. */
  function Transition(m: Model, msg: Msg, lib: Library): (r: Step)
    // the feed is the only source of stories, and it ends loading for good
    ensures r.model.stories == (if msg.StoriesMsg? then msg.stories else m.stories)
    ensures r.model.loading == (m.loading && !msg.StoriesMsg?)
    // the viewport, once sized, stays sized
    ensures r.model.viewportReady == (m.viewportReady || msg.WindowSizeMsg?)
    // an error is never cleared, and recording one always quits
    ensures m.err.Some? ==> r.model.err.Some?
    ensures r.model.err != m.err ==> (msg.ErrMsg? || msg.StoryBytesMsg?) && r.cmd == Quit
    // only `enter` and arriving content change the selection; arriving content always clears it
    ensures r.model.selected != m.selected ==>
              (msg.StoryBytesMsg? && r.model.selected == "") || msg == KeyMsg("enter")
    // the story text changes only when content arrives or a quit key backs out
    ensures r.model.storyText != m.storyText ==>
              msg.StoryBytesMsg? || (msg.KeyMsg? && IsQuitKey(msg.key) && r.model.storyText == "")
  {
    match msg
    case WindowSizeMsg(width, height) => Forward(Resize(m, width, height), msg, lib)
    case StoriesMsg(stories) => Step(LoadStories(m, stories), NoCmd)
    case StoryBytesMsg(bytes) => ShowStory(m, bytes, lib)
    case ErrMsg(e) => Step(m.(err := Some(e)), Quit)
    case KeyMsg(key) =>
      if IsQuitKey(key) then
        if m.list.filterState == Filtering then Forward(m, msg, lib)
        else if m.storyText != "" then Step(m.(storyText := "", list := ResetSelected(m.list)), NoCmd)
        else Step(m, Quit)
      else if key == "enter" then
        var url := Selection(m);
        Step(m.(selected := url), FetchStory(url))
      else
        Forward(m, msg, lib)
    case TickMsg =>
      var (s, c) := lib.spinnerUpdate(m.spinner, msg);
      Step(m.(spinner := s), c)
    case OtherMsg(_) => Forward(m, msg, lib)
  }

  /** The loop of the feed case: inserts each story at its own index, in
      feed order, which puts the feed in front of the list's old items. */
  method InsertStories(l: ListState, stories: seq<Story>) returns (r: ListState)
    ensures r == l.(items := Items(stories) + l.items)
  {
    r := l;
    for i := 0 to |stories|
      invariant r == l.(items := Items(stories[..i]) + l.items)
    {
      ItemsExtend(stories, i, l.items);
      r := InsertItem(r, i, StoryItem(stories[i]));
    }
    assert stories[..|stories|] == stories;
  }

  /** `Model.Update`: works on a copy of the model, assigning its fields in
      turn, and either returns early or falls through to the widgets. */
  method Update(m: Model, msg: Msg, lib: Library) returns (next: Model, cmd: Cmd)
    ensures Step(next, cmd) == Transition(m, msg, lib)
  {
    next := m;
    cmd := NoCmd;
    var cmds: seq<Cmd> := [];
    match msg {
      case WindowSizeMsg(width, height) =>
        var verticalMargins := HeaderHeight + FooterHeight;
        if !next.viewportReady {
          next := next.(viewport := Viewport(width, height - verticalMargins, 0, 0, ""));
          next := next.(viewportReady := true);
          next := next.(viewport := next.viewport.(yPosition := HeaderHeight + 1));
        } else {
          next := next.(viewport := next.viewport.(width := width));
          next := next.(viewport := next.viewport.(height := height - verticalMargins));
        }
      case StoriesMsg(stories) =>
        next := next.(stories := stories);
        next := next.(loading := false);
        var list := InsertStories(next.list, next.stories);
        next := next.(list := list);
        return;
      case StoryBytesMsg(bytes) =>
        next := next.(selected := "");
        match lib.convert(bytes) {
          case Failure(e) =>
            next := next.(err := Some(e));
            cmd := Quit;
            return;
          case Success(markdown) =>
            next := next.(storyText := markdown);
            var rendered := lib.render(next.storyText);
            next := next.(viewport := GotoTop(next.viewport));
            next := next.(viewport := SetContent(next.viewport, rendered));
            return;
        }
      case ErrMsg(e) =>
        next := next.(err := Some(e));
        cmd := Quit;
        return;
      case KeyMsg(key) =>
        label keys: {
          if key == "ctrl+c" || key == "q" {
            if next.list.filterState == Filtering {
              break keys;
            }
            if next.storyText != "" {
              next := next.(storyText := "");
              next := next.(list := ResetSelected(next.list));
              return;
            }
            cmd := Quit;
            return;
          } else if key == "enter" {
            match SelectedItem(next.list) {
              case Some(StoryItem(s)) =>
                next := next.(selected := s.url);
              case _ =>
            }
            cmd := FetchStory(next.selected);
            return;
          }
        }
      case TickMsg =>
        var spun := lib.spinnerUpdate(next.spinner, msg);
        next := next.(spinner := spun.0);
        cmd := spun.1;
        return;
      case OtherMsg(_) =>
    }
    cmds := cmds + [SpinnerTick];
    var listed := lib.listUpdate(next.list, msg);
    next := next.(list := listed.0);
    cmd := listed.1;
    cmds := cmds + [cmd];
    var scrolled := lib.viewportUpdate(next.viewport, msg);
    next := next.(viewport := scrolled.0);
    cmd := scrolled.1;
    cmds := cmds + [cmd];
    cmd := Batch(cmds);
    assert cmds == [SpinnerTick, listed.1, scrolled.1];
  }

  /** The list screen, drawn by the list widget inside the list style. */
  function ListScreen(m: Model, lib: Library): string
  {
    lib.style(ListStyle, lib.listView(m.list))
  }

  /** The detail screen: the viewport's window above its footer. */
  function PagerScreen(m: Model, lib: Library): string
  {
    lib.viewportView(m.viewport) + "\n" + lib.footer(m.viewport)
  }

  /** The loading screen: the welcome header above the spinner's prompt. */
  function LoadingScreen(m: Model, lib: Library): string
  {
    lib.style(HeaderStyle, "Welcome to Gazette!") + " \n " + lib.loadingPrompt(lib.spinnerView(m.spinner))
  }

  /** `Model.View`: an error hides everything else; then a pending selection
      shows the list, loaded text the viewport, loading the spinner,
      and loaded stories the list. */
  function View(m: Model, lib: Library): (screen: string)
    ensures m.err.Some? ==> screen == m.err.value.message
    ensures m.err.None? ==> screen in {ListScreen(m, lib), PagerScreen(m, lib), LoadingScreen(m, lib), ""}
  {
    if m.err.Some? then m.err.value.message
    else if m.selected != "" then ListScreen(m, lib)
    else if m.storyText != "" then PagerScreen(m, lib)
    else if m.loading then LoadingScreen(m, lib)
    else if |m.stories| > 0 then ListScreen(m, lib)
    else
      match m.err
      case Some(e) => "\nWe had some trouble: " + e.message + "\n\n"
      case None => ""
  }

  /** The model after the runtime delivers `msgs` one at a time, in order. */
  function Run(m: Model, msgs: seq<Msg>, lib: Library): Model
    decreases |msgs|
  {
    if msgs == [] then m else Run(Transition(m, msgs[0], lib).model, msgs[1..], lib)
  }
}
