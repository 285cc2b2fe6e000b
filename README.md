# Gazette: the terminal Hacker News reader's state machine, in Dafny

Gazette is a Bubble Tea program. It fetches the top Hacker News stories,
shows them in a list, fetches and converts the page of the story the user
picks, and shows it in a scrollable viewport. This project models the core
of the program: the application state machine of `main.go` and the list
row delegate of `list.go`.

- `Messages` (messages.dfy): the messages the runtime delivers (`WindowSizeMsg`,
  `StoriesMsg`, `StoryBytesMsg`, `ErrMsg`, `KeyMsg`, `TickMsg`, `OtherMsg`) and
  the commands handed back (`NoCmd` for a nil command, `Quit`,
  `FetchTopStories`, `FetchStory(url)`, `SpinnerTick`, `WidgetCmd`, `Batch`).
  Commands are inert values.
- `Feed` (feed.dfy): the `story` record and `FilterValue`.
- `Widgets` (widgets.dfy): the parts of the bubbles list, viewport and spinner
  that the application reads or writes. For the list: items, filtered items,
  highlighted index and filter state. For the viewport: width, height,
  y-position, scroll offset and content. The operations the application
  calls (`SelectedItem`, `InsertItem`, `ResetSelected`, `GotoTop`,
  `SetContent`) are small functions.
- `App` (app.dfy): `Model` is a datatype, because the Go struct is passed and
  returned by value. `InitialModel` is the model `main` builds and `Init` is the
  first command. `Transition` is the specification of `Update`, one case per
  message kind. `Update` is the imperative version: it rebinds a local copy
  field by field, as the Go code does, runs the `InsertItem` loop (in
  `InsertStories`) and the `cmds` appends. Its contract is `Step(next, cmd) == Transition(m, msg, lib)`.
  `View` is the screen function. `Run` feeds a sequence of messages through
  `Transition`, one at a time.
- `Library` (in app.dfy): code the model cannot see, as a record of arbitrary
  total functions. This covers html-to-markdown conversion (which may fail),
  glamour rendering (its error is dropped), the widgets' Update and View,
  the viewport footer and lipgloss styling. Every property holds for every
  choice of these functions.
- `Delegate` (delegate.dfy): row height 3, spacing 0, an `Update` that does
  nothing, and `Render`. A lemma shows that, when the title and URL
  contain no line break, a row's two text lines and its one line of
  bottom padding fill the row height. `Render` returns the single write it makes: a plain
  "An error occurred" for a non-story item, or the row text with the
  `Highlighted` or `Normal` style tag.
- `Format` (format.dfy): Go's `%d` for integers, and a parser that reads the
  text back.
- `Properties` (properties.dfy): lemmas over `Transition`, `View` and `Run`.

Behaviours of the code that the model keeps:

- A quit key pressed while the list is filtering only leaves the inner
  `switch`. It then falls through to the widgets like any other key.
- `enter` is intercepted in every mode, even while filtering. It always
  issues a fetch of the current selection, even a repeated or empty one.
- Content is shown whenever it arrives, even after the user has backed
  out of the story it belongs to.
- After an error, messages are still handled. The error is never cleared,
  so the screen stays on the error (`ErrorIsPermanent`).
- Backing out of a story resets the list's highlight to the first row.
- A spinner tick reaches the spinner in every mode, not only while loading.
- A second feed message replaces `stories` but puts the new items in front
  of the list's old items, rather than replacing them.
- The second `err != nil` test in the story-bytes case (main.go:165-168)
  tests a variable that was already found nil, so it is dead code. The
  model leaves it out.
- `View`'s last error branch (main.go:260-262) cannot be reached, because
  the first test already returned on an error. It is kept with a `match`.

## Model

| member | source | states |
|---|---|---|
| `Format.NatDigits` | list.go:35 | the `%d` digits of a natural number: at least one digit, all digits, no leading zero unless the number is 0 |
| `Format.FormatInt` | list.go:35 | `%d` text is a well-formed integer that starts with a minus sign exactly when the number is negative |
| `Format.FormatIntRoundTrip` | list.go:35 | parsing the `%d` text of any integer gives that integer back |
| `Widgets.InsertAt` | main.go:148 | inserting adds one item at the clamped index and keeps the earlier items before it and the later ones after it, so the multiset gains just that item |
| `Widgets.ItemsExtend` | main.go:147-149 | inserting story i at index i after stories 0..i-1 extends the feed-ordered prefix by that story |
| `Delegate.RowFillsHeight` | list.go:25-35 | for a title and URL without line breaks, a row's text has exactly one line break, so its two lines plus the style's one line of bottom padding fill the row height of 3, with spacing 0; the delegate's update returns no command and leaves the list unchanged |
| `Delegate.Render` | list.go:28-45 | a non-story item writes exactly "An error occurred", unstyled; a story writes its row text once, highlighted if and only if its index is the list's index |
| `Delegate.RowTextShowsStory` | list.go:35 | a row starts with the title, then " -  (", then a score that parses back to the story's score, then " points) \n       (", the URL and ")" |
| `App.Transition` | main.go:124-222 | only a feed message changes the stories and it ends loading for good; the viewport stays ready once ready; an error is never cleared, and recording one always quits; only `enter` and arriving content change the selection, and arriving content always clears it; the story text changes only when content arrives or a quit key clears it |
| `App.InsertStories` | main.go:147-149 | inserting each story at its own index, in feed order, leaves the list's items as the feed followed by the old items, with every other list field unchanged |
| `App.Update` | main.go:124-222 | the field-by-field update, with the insertion loop and the command appends, computes exactly the transition |
| `App.View` | main.go:224-265 | with an error the screen is exactly the error's text; without one it is the list, the pager, the loading screen or empty |
| `Properties.InitialState` | main.go:274-285 | the start model is loading with no stories, selection, text, error or ready viewport; Init asks for the top stories; the first screen is the loading screen |
| `Properties.StoriesFillList` | main.go:143-151 | the feed replaces the stories, ends loading, puts its items in feed order in front of the old ones, changes nothing else, and issues no command |
| `Properties.FeedFromStart` | main.go:143-151 | from the start model the list holds one item per story in feed order, each filtered by its title, and a non-empty feed shows the list |
| `Properties.FirstResize` | main.go:134-137 | the first resize builds a viewport of width w and height h-6 at y-position 4, scrolled to the top and empty, marks it ready, and changes nothing else |
| `Properties.LaterResize` | main.go:138-141 | later resizes change only the viewport's width and height; its y-position, offset and content stay |
| `Properties.ResizeKeepsAppFields` | main.go:131-141 | a resize then goes on to the widgets with a three-command batch starting with the spinner tick; stories, selection, text, loading and error are unchanged |
| `Properties.StoryConversionFails` | main.go:153-162 | content that fails to convert clears the selection, records the converter's error, quits, and the screen becomes that error |
| `Properties.StoryConversionSucceeds` | main.go:153-174 | converted content clears the selection, becomes the story text, and is rendered into the viewport at offset 0 with its geometry unchanged; no command follows; without an error a non-empty text shows the pager |
| `Properties.ErrorQuits` | main.go:176-178 | an error message records the error, quits, changes nothing else, and the screen becomes its text |
| `Properties.ErrorIsPermanent` | main.go:225-227 | after an error, every sequence of messages keeps an error set and the screen is the latest error's text |
| `Properties.ErrorHidesEverything` | main.go:225-227 | two models with the same error show the same screen, whatever their other fields |
| `Properties.QuitKeyWhileFiltering` | main.go:184-188 | while filtering, a quit key goes to the widgets and leaves the application's fields unchanged |
| `Properties.QuitKeyLeavesStory` | main.go:190-194 | outside the filter, with a story shown, a quit key clears the text, resets the highlight to the first row, changes nothing else, issues no command, and returns to the list screen |
| `Properties.QuitKeyQuits` | main.go:196 | outside the filter, with no story shown, a quit key quits and changes nothing |
| `Properties.EnterFetches` | main.go:198-205 | `enter` in every mode, filtering or not, selects the URL of the story at the list's index among the visible items (otherwise keeps the old selection), fetches the selection, and changes no widget |
| `Properties.SelectThenRead` | main.go:198-205 | selecting a story fetches its URL and keeps the list on screen, and its converted content is then shown in the pager from the top |
| `Properties.TickOnlySpinner` | main.go:208-210 | a spinner tick updates only the spinner and returns the spinner's command |
| `Properties.OtherMessagesForwarded` | main.go:213-221 | other messages and navigation keys update the list, then the viewport, and batch the spinner tick, the list's command and the viewport's command in that order |
| `Properties.NavigationKeepsAppFields` | main.go:180-221 | any sequence of navigation keys leaves stories, selection, text, loading, readiness and error unchanged |
| `Properties.LoadingUntilFeed` | main.go:143-151 | after any sequence of messages the model is loading if and only if it was loading and no feed message came |
| `Properties.ViewPriority` | main.go:224-265 | the screen follows the priority order: error, pending selection (list), story text (pager), loading, non-empty stories (list), otherwise empty |

## Left out

- `getTopStories` and `fetchStory` (main.go:76-118) are network I/O: HTTP
  requests, JSON decoding and reading the body. Their results reach the
  model only as `StoriesMsg`, `StoryBytesMsg` and `ErrMsg`. The `m.err = err`
  inside `fetchStory` writes to a copy of the model and has no effect.
- html-to-markdown and glamour are foreign libraries. They are the
  `convert` and `render` functions of `Library`. Converting bytes to a
  string is folded into `convert`.
- The widgets' own Update and View, the viewport footer (floating-point
  scroll percentage, rune widths) and lipgloss styles are arbitrary
  functions of `Library`. The footer's layout is not modelled.
- The widget operations follow the documented behaviour of the bubbles
  widgets, whose source is not part of this model:
  - `SelectedItem` reads the visible items at the highlighted index.
  - `InsertItem` changes only the item slice. The filter refresh it starts
    is a discarded command, and pagination is not modelled.
  - `ResetSelected` moves the highlight to index 0.
  - `GotoTop` sets the offset to 0.
  - `SetContent` replaces the content. The widget also turns "\r\n" into
    "\n" and splits the text into lines; `content` stands for the text
    before that normalisation. Its scroll-to-bottom clamp cannot fire
    after `GotoTop`.
- Running commands, the asynchronous delivery of their results, program
  start-up and exit (main.go:289-296), and `tea.Quit`'s effect are
  runtime behaviour. Commands are values here.
- Width and height are unbounded integers. Go's 64-bit `int` cannot
  overflow at window sizes.
- Rendering the same model twice gives the same screen because `View` is
  a function. No lemma states this.
