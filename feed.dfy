/** The Hacker News item record that the feed decodes (main.go). */
module Feed {

  /** One story as decoded from the item endpoint; `author` is the JSON field `by`, `storyType` is `type`. */
  datatype Story = Story(
    id: int,
    title: string,
    score: int,
    url: string,
    author: string,
    descendants: int,
    kids: seq<int>,
    time: int,
    storyType: string)

  /** The text the list widget filters on. */
  function FilterValue(s: Story): string
  {
    s.title
  }
}
