/** The messages the Bubble Tea runtime delivers to the application and the
    commands the application hands back to it (main.go). Commands are inert
    values here: running them is the runtime's business. */
module Messages {
  import opened Feed

  type byte = x: int | 0 <= x < 256

  /** A Go `error`, reduced to the text its `Error()` method returns. */
  datatype Error = Error(message: string)

  datatype Msg =
    | WindowSizeMsg(width: int, height: int)   // tea.WindowSizeMsg
    | StoriesMsg(stories: seq<Story>)          // storiesMsg
    | StoryBytesMsg(bytes: seq<byte>)          // storyBytesMsg
    | ErrMsg(err: Error)                       // errMsg
    | KeyMsg(key: string)                      // tea.KeyMsg, by its String()
    | TickMsg                                  // spinner.TickMsg
    | OtherMsg(id: nat)                        // any other message, e.g. a mouse event

  datatype Cmd =
    | NoCmd                  // a nil tea.Cmd
    | Quit                   // tea.Quit
    | FetchTopStories        // getTopStories
    | FetchStory(url: string)  // the closure returned by fetchStory
    | SpinnerTick            // spinner.Tick
    | WidgetCmd(id: nat)     // a command produced inside a widget
    | Batch(cmds: seq<Cmd>)  // tea.Batch

  /** `errMsg.Error()`: the wrapped error's own text, unchanged. */
  function ErrMsgText(msg: Msg): string
    requires msg.ErrMsg?
  {
    msg.err.message
  }
}
