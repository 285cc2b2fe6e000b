/** What the state machine of main.go promises, stated over `App.Transition`,
    `App.View` and runs of several messages. */
module Properties {
  import opened Wrappers
  import opened Feed
  import opened Widgets
  import opened Messages
  import opened App

  /** The fields the application owns, as opposed to the widgets' state. */
  predicate SameAppFields(a: Model, b: Model)
  {
    && a.stories == b.stories
    && a.selected == b.selected
    && a.storyText == b.storyText
    && a.loading == b.loading
    && a.viewportReady == b.viewportReady
    && a.err == b.err
  }

  /** A key that neither quits, backs out, nor selects: it only navigates the widgets. */
  predicate IsNavigationKey(msg: Msg)
  {
    msg.KeyMsg? && !IsQuitKey(msg.key) && msg.key != "enter"
  }

  // ----- start-up -----

  /** The program starts loading, with nothing fetched, selected or failed,
      asks for the top stories, and shows the loading screen. */
  lemma InitialState(lib: Library)
    ensures var m := InitialModel();
            && m.loading && m.stories == [] && m.selected == "" && m.storyText == ""
            && m.err.None? && !m.viewportReady && m.list.items == []
            && Init(m) == FetchTopStories
            && View(m, lib) == LoadingScreen(m, lib)
  {
  }

  // ----- the feed -----

  /** The feed replaces the stories, ends loading, puts one list item per
      story in front of the old items, in feed order, and issues no command. */
  lemma StoriesFillList(m: Model, stories: seq<Story>, lib: Library)
    ensures var r := Transition(m, StoriesMsg(stories), lib);
            && r.cmd == NoCmd
            && r.model.stories == stories && !r.model.loading
            && r.model.list.items[..|stories|] == Items(stories)
            && r.model.list.items[|stories|..] == m.list.items
            && r.model == m.(stories := stories, loading := false, list := r.model.list)
            && r.model.list == m.list.(items := r.model.list.items)
  {
  }

  /** At start-up the list then holds exactly the feed, in order, each row
      filtered by its story's title, and a non-empty feed shows the list. */
  lemma {:induction false} FeedFromStart(stories: seq<Story>, lib: Library)
    ensures var m := Transition(InitialModel(), StoriesMsg(stories), lib).model;
            && |m.list.items| == |stories|
            && (forall k :: 0 <= k < |stories| ==>
                  m.list.items[k] == StoryItem(stories[k])
                  && FilterValue(m.list.items[k].story) == stories[k].title)
            && (stories != [] ==> View(m, lib) == ListScreen(m, lib))
  {
    var m := Transition(InitialModel(), StoriesMsg(stories), lib).model;
    assert m.list.items == Items(stories) + [];
  }

  // ----- window size -----

  /** The first resize builds the viewport below the header and marks it ready. */
  lemma FirstResize(m: Model, width: int, height: int)
    requires !m.viewportReady
    ensures var r := Resize(m, width, height);
            && r.viewport == Viewport(width, height - 6, 4, 0, "")
            && r == m.(viewport := r.viewport, viewportReady := true)
  {
  }

  /** Later resizes change the viewport's width and height only. */
  lemma LaterResize(m: Model, width: int, height: int)
    requires m.viewportReady
    ensures var r := Resize(m, width, height);
            && r.viewport == m.viewport.(width := width, height := height - 6)
            && r == m.(viewport := r.viewport)
  {
  }

  /** A resize then goes on to the widgets, and leaves the application's own
      fields alone except for marking the viewport ready. */
  lemma ResizeKeepsAppFields(m: Model, width: int, height: int, lib: Library)
    ensures var msg := WindowSizeMsg(width, height);
            var r := Transition(m, msg, lib);
            && r == Forward(Resize(m, width, height), msg, lib)
            && SameAppFields(r.model, m.(viewportReady := true))
            && r.cmd.Batch? && |r.cmd.cmds| == 3 && r.cmd.cmds[0] == SpinnerTick
  {
  }

  // ----- story content -----

  /** Content that does not convert clears the selection, records the
      converter's error, quits, and from then on the screen is that error. */
  lemma StoryConversionFails(m: Model, bytes: seq<byte>, lib: Library)
    requires lib.convert(bytes).Failure?
    ensures var e := lib.convert(bytes).error;
            var r := Transition(m, StoryBytesMsg(bytes), lib);
            && r == Step(m.(selected := "", err := Some(e)), Quit)
            && View(r.model, lib) == e.message
  {
  }

  /** Content that converts clears the selection, becomes the story text, and
      is rendered into the viewport scrolled to the top; the viewport's
      geometry and every other field stay as they were, and no command follows. */
  lemma StoryConversionSucceeds(m: Model, bytes: seq<byte>, lib: Library)
    requires lib.convert(bytes).Success?
    ensures var text := lib.convert(bytes).value;
            var r := Transition(m, StoryBytesMsg(bytes), lib);
            && r.cmd == NoCmd
            && r.model.selected == "" && r.model.storyText == text
            && r.model.viewport.yOffset == 0
            && r.model.viewport.content == lib.render(text)
            && r.model.viewport == m.viewport.(yOffset := 0, content := lib.render(text))
            && r.model == m.(selected := "", storyText := text, viewport := r.model.viewport)
            && (m.err.None? && text != "" ==> View(r.model, lib) == PagerScreen(r.model, lib))
  {
  }

  // ----- errors -----

  /** An error message records the error, quits, and changes nothing else. */
  lemma ErrorQuits(m: Model, e: Error, lib: Library)
    ensures Transition(m, ErrMsg(e), lib) == Step(m.(err := Some(e)), Quit)
    ensures View(Transition(m, ErrMsg(e), lib).model, lib) == ErrMsgText(ErrMsg(e))
  {
  }

  /** Once an error is recorded, no later message clears it, and the screen
      is the latest error's text whatever else happens. */
  lemma {:induction false} ErrorIsPermanent(m: Model, msgs: seq<Msg>, lib: Library)
    requires m.err.Some?
    ensures Run(m, msgs, lib).err.Some?
    ensures View(Run(m, msgs, lib), lib) == Run(m, msgs, lib).err.value.message
    decreases |msgs|
  {
    if msgs != [] {
      ErrorIsPermanent(Transition(m, msgs[0], lib).model, msgs[1..], lib);
    }
  }

  // ----- quit keys -----

  /** While the list is filtering, a quit key is handed to the widgets like
      any other key: the application's fields do not change. */
  lemma QuitKeyWhileFiltering(m: Model, key: string, lib: Library)
    requires IsQuitKey(key) && m.list.filterState == Filtering
    ensures var r := Transition(m, KeyMsg(key), lib);
            && r == Forward(m, KeyMsg(key), lib)
            && SameAppFields(r.model, m)
  {
  }

  /** Outside the filter, a quit key on a shown story goes back to the list:
      the text is cleared, the highlight returns to the first row, nothing
      else changes and no command is issued. */
  lemma QuitKeyLeavesStory(m: Model, key: string, lib: Library)
    requires IsQuitKey(key) && m.list.filterState != Filtering && m.storyText != ""
    ensures var r := Transition(m, KeyMsg(key), lib);
            && r == Step(m.(storyText := "", list := m.list.(index := 0)), NoCmd)
            && (m.err.None? && m.selected == "" && !m.loading && m.stories != [] ==>
                  View(r.model, lib) == ListScreen(r.model, lib))
  {
  }

  /** Outside the filter and with no story shown, a quit key quits. */
  lemma QuitKeyQuits(m: Model, key: string, lib: Library)
    requires IsQuitKey(key) && m.list.filterState != Filtering && m.storyText == ""
    ensures Transition(m, KeyMsg(key), lib) == Step(m, Quit)
  {
  }

  // ----- enter -----

  /** `enter`, in every mode and even while filtering, selects the highlighted
      story's URL (keeping the old selection when there is no highlighted
      story), fetches the selection, and never reaches the widgets. */
  lemma EnterFetches(m: Model, lib: Library)
    ensures var r := Transition(m, KeyMsg("enter"), lib);
            && r.cmd == FetchStory(r.model.selected)
            && r.model == m.(selected := r.model.selected)
            && var visible := VisibleItems(m.list);
               if m.list.index < |visible| && visible[m.list.index].StoryItem?
               then r.model.selected == visible[m.list.index].story.url
               else r.model.selected == m.selected
  {
  }

  /** Selecting a story and receiving its content: the fetch is for the
      story's URL, the list stays on screen meanwhile, and the arriving text
      is then shown from its top. */
  lemma SelectThenRead(m: Model, s: Story, bytes: seq<byte>, lib: Library)
    requires m.err.None? && SelectedItem(m.list) == Some(StoryItem(s)) && s.url != ""
    requires lib.convert(bytes).Success? && lib.convert(bytes).value != ""
    ensures var r1 := Transition(m, KeyMsg("enter"), lib);
            var r2 := Transition(r1.model, StoryBytesMsg(bytes), lib);
            && r1.cmd == FetchStory(s.url)
            && View(r1.model, lib) == ListScreen(r1.model, lib)
            && r2.model.storyText == lib.convert(bytes).value
            && r2.model.viewport.yOffset == 0
            && View(r2.model, lib) == PagerScreen(r2.model, lib)
  {
  }

  // ----- spinner and delegation -----

  /** A spinner tick reaches the spinner only and returns the spinner's command. */
  lemma TickOnlySpinner(m: Model, lib: Library)
    ensures var sc := lib.spinnerUpdate(m.spinner, TickMsg);
            Transition(m, TickMsg, lib) == Step(m.(spinner := sc.0), sc.1)
  {
  }

  /** Any other message, and any navigation key, updates the list and then
      the viewport, and batches the spinner tick with their commands in that order. */
  lemma OtherMessagesForwarded(m: Model, msg: Msg, lib: Library)
    requires msg.OtherMsg? || IsNavigationKey(msg)
    ensures var listed := lib.listUpdate(m.list, msg);
            var scrolled := lib.viewportUpdate(m.viewport, msg);
            Transition(m, msg, lib)
              == Step(m.(list := listed.0, viewport := scrolled.0),
                      Batch([SpinnerTick, listed.1, scrolled.1]))
  {
  }

  /** However many navigation keys arrive, the application's own fields, and
      so the screen View chooses, stay as they were. */
  lemma {:induction false} NavigationKeepsAppFields(m: Model, msgs: seq<Msg>, lib: Library)
    requires forall i :: 0 <= i < |msgs| ==> IsNavigationKey(msgs[i])
    ensures SameAppFields(Run(m, msgs, lib), m)
    decreases |msgs|
  {
    if msgs != [] {
      NavigationKeepsAppFields(Transition(m, msgs[0], lib).model, msgs[1..], lib);
    }
  }

  /** Loading lasts until the first feed arrives, and no message restarts it. */
  lemma {:induction false} LoadingUntilFeed(m: Model, msgs: seq<Msg>, lib: Library)
    ensures Run(m, msgs, lib).loading
            <==> m.loading && forall i :: 0 <= i < |msgs| ==> !msgs[i].StoriesMsg?
    decreases |msgs|
  {
    if msgs != [] {
      LoadingUntilFeed(Transition(m, msgs[0], lib).model, msgs[1..], lib);
      assert forall i :: 1 <= i < |msgs| ==> msgs[i] == msgs[1..][i - 1];
    }
  }

  // ----- the screen -----

  /** View's priority order: an error, then a pending selection (list), then
      story text (viewport and footer), then loading (header and spinner),
      then loaded stories (list), otherwise nothing. */
  lemma ViewPriority(m: Model, lib: Library)
    ensures m.err.Some? ==> View(m, lib) == m.err.value.message
    ensures m.err.None? && m.selected != "" ==> View(m, lib) == ListScreen(m, lib)
    ensures m.err.None? && m.selected == "" && m.storyText != "" ==> View(m, lib) == PagerScreen(m, lib)
    ensures m.err.None? && m.selected == "" && m.storyText == "" && m.loading ==>
              View(m, lib) == LoadingScreen(m, lib)
    ensures m.err.None? && m.selected == "" && m.storyText == "" && !m.loading && m.stories != [] ==>
              View(m, lib) == ListScreen(m, lib)
    ensures m.err.None? && m.selected == "" && m.storyText == "" && !m.loading && m.stories == [] ==>
              View(m, lib) == ""
  {
  }

  /** An error hides every other field: two models with the same error look the same. */
  lemma ErrorHidesEverything(a: Model, b: Model, lib: Library)
    requires a.err.Some? && a.err == b.err
    ensures View(a, lib) == View(b, lib)
  {
  }
}
