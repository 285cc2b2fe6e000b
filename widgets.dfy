/** The parts of the bubbles list, viewport and spinner widgets that the
    application reads or writes. Everything else about them (key handling,
    pagination, drawing) reaches the application only through the widget
    calls collected in `App.Library`. */
module Widgets {
  import opened Wrappers
  import opened Feed

  /** A `list.Item`: the application inserts only stories, but the list's
      item interface admits any other implementation. */
  datatype Item = StoryItem(story: Story) | ForeignItem(filterValue: string)

  datatype FilterState = Unfiltered | Filtering | FilterApplied

  /** The list widget: all items, the items matching the current filter, the
      highlighted position `Index()` among the visible items, and the filter state. */
  datatype ListState = ListState(
    items: seq<Item>,
    filtered: seq<Item>,
    index: nat,
    filterState: FilterState,
    title: string,
    width: int,
    height: int)

  /** The items the list currently shows: the filter's matches unless unfiltered. */
  function VisibleItems(l: ListState): seq<Item>
  {
    if l.filterState == Unfiltered then l.items else l.filtered
  }

  /** `list.Model.SelectedItem`: the highlighted visible item, or nil when the
      index is past the visible items. */
  function SelectedItem(l: ListState): Option<Item>
  {
    if l.index < |VisibleItems(l)| then Some(VisibleItems(l)[l.index]) else None
  }

  /** The list items for a sequence of stories, in the same order. */
  function Items(stories: seq<Story>): seq<Item>
  {
    seq(|stories|, k requires 0 <= k < |stories| => StoryItem(stories[k]))
  }

  /** The slice insertion behind `list.Model.InsertItem`: an index past the
      end appends, a negative index counts as 0, otherwise the item goes in at
      the index and the later items move up by one. */
  function InsertAt(items: seq<Item>, index: int, x: Item): (r: seq<Item>)
    ensures |r| == |items| + 1
    ensures multiset(r) == multiset(items) + multiset{x}
    ensures var k := if index < 0 then 0 else if index > |items| then |items| else index;
            r[k] == x && r[..k] == items[..k] && r[k + 1..] == items[k..]
  {
    if index >= |items| then
      items + [x]
    else
      var k := if index < 0 then 0 else index;
      assert items == items[..k] + items[k..];
      items[..k] + [x] + items[k..]
  }

  /** `list.Model.InsertItem`; the command it may return is discarded by the caller. */
  function InsertItem(l: ListState, index: int, x: Item): ListState
  {
    l.(items := InsertAt(l.items, index, x))
  }

  /** Inserting right after a prefix puts the item between the prefix and the rest. */
  lemma InsertAfterPrefix(prefix: seq<Item>, rest: seq<Item>, x: Item)
    ensures InsertAt(prefix + rest, |prefix|, x) == prefix + [x] + rest
  {
    var r := InsertAt(prefix + rest, |prefix|, x);
    assert (prefix + rest)[..|prefix|] == prefix;
    assert (prefix + rest)[|prefix|..] == rest;
    assert r == r[..|prefix|] + [r[|prefix|]] + r[|prefix| + 1..];
  }

  /** Inserting each story at its own index, in feed order, builds the list
      `Items(stories)` in front of whatever the list held before. */
  lemma {:induction false} ItemsExtend(stories: seq<Story>, i: nat, old_items: seq<Item>)
    requires i < |stories|
    ensures InsertAt(Items(stories[..i]) + old_items, i, StoryItem(stories[i]))
         == Items(stories[..i + 1]) + old_items
  {
    InsertAfterPrefix(Items(stories[..i]), old_items, StoryItem(stories[i]));
    assert Items(stories[..i + 1]) == Items(stories[..i]) + [StoryItem(stories[i])];
  }

  /** `list.Model.ResetSelected`: the highlight goes back to the first item of the first page. */
  function ResetSelected(l: ListState): ListState
  {
    l.(index := 0)
  }

  /** The viewport widget: its geometry, its scroll offset and its content. */
  datatype Viewport = Viewport(
    width: int,
    height: int,
    yPosition: int,
    yOffset: int,
    content: string)

  /** The zero value of `viewport.Model`. */
  const ZeroViewport := Viewport(0, 0, 0, 0, "")

  /** `viewport.Model.GotoTop`: scroll back to the first line. */
  function GotoTop(v: Viewport): Viewport
  {
    v.(yOffset := 0)
  }

  /** `viewport.Model.SetContent`. The widget also scrolls to the bottom when
      the offset lies past the last line; callers here always scroll to the
      top first, where that cannot happen. */
  function SetContent(v: Viewport, s: string): Viewport
  {
    v.(content := s)
  }

  datatype SpinnerKind = Line | Dot

  /** The spinner widget: which animation it plays and its current frame. */
  datatype Spinner = Spinner(kind: SpinnerKind, frame: nat)
}
