/** The row delegate of the story list (list.go): fixed row geometry and the
    text and style of one row. */
module Delegate {
  import opened Feed
  import opened Format
  import opened Widgets
  import opened Messages

  /** The list's size as created at startup. */
  const ListWidth := 30
  const ListHeight := 50

  /** Lines per row. */
  function Height(): int
  {
    3
  }

  /** Blank lines between rows. */
  function Spacing(): int
  {
    0
  }

  /** The delegate's reaction to a message: no command, list untouched. */
  function Update(msg: Msg, l: ListState): (r: (Cmd, ListState))
  {
    (NoCmd, l)
  }

  /** The two lipgloss styles a row can be drawn with. */
  datatype Style = Normal | Highlighted

  /** What one Render call writes to its writer. */
  datatype Write = Unstyled(text: string) | Styled(style: Style, text: string)

  const ScoreOpen := " -  ("
  const ScoreClose := " points) \n       ("

  /** The two-line text of a story row: title and score, then the URL. */
  function RowText(s: Story): string
  {
    s.title + ScoreOpen + FormatInt(s.score) + ScoreClose + s.url + ")"
  }

  /** Renders the row at `index` of list `l`: a non-story item writes a fixed
      message; a story writes its row text, highlighted exactly when it is
      the list's selected row. */
  function Render(l: ListState, index: int, item: Item): (w: Write)
    ensures !item.StoryItem? ==> w == Unstyled("An error occurred")
    ensures item.StoryItem? ==> w.Styled? && w.text == RowText(item.story)
    ensures item.StoryItem? ==> (w.style == Highlighted <==> index == l.index)
  {
    match item
    case ForeignItem(_) => Unstyled("An error occurred")
    case StoryItem(s) =>
      var str := RowText(s);
      var style := if index == l.index then Highlighted else Normal;
      Styled(style, str)
  }

  /** The row text shows the story's title first, then a score that reads
      back as the story's score, and ends with the URL in parentheses. */
  lemma RowTextShowsStory(s: Story)
    ensures var t := RowText(s);
            var a := |s.title| + |ScoreOpen|;
            var b := a + |FormatInt(s.score)|;
            && |t| == b + |ScoreClose| + |s.url| + 1
            && t[..|s.title|] == s.title
            && t[|s.title|..a] == ScoreOpen
            && IsIntText(t[a..b]) && ParseInt(t[a..b]) == s.score
            && t[b..b + |ScoreClose|] == ScoreClose
            && t[b + |ScoreClose|..|t| - 1] == s.url
            && t[|t| - 1] == ')'
  {
    RowTextTitle(s);
    RowTextScore(s);
    RowTextUrl(s);
  }

  lemma RowTextTitle(s: Story)
    ensures var t := RowText(s);
            && t[..|s.title|] == s.title
            && t[|s.title|..|s.title| + |ScoreOpen|] == ScoreOpen
  {
    var t := RowText(s);
    var rest := FormatInt(s.score) + ScoreClose + s.url + ")";
    assert t == s.title + ScoreOpen + rest;
    MiddleOf(s.title, ScoreOpen, rest);
  }

  lemma RowTextScore(s: Story)
    ensures var t := RowText(s);
            var a := |s.title| + |ScoreOpen|;
            var b := a + |FormatInt(s.score)|;
            && IsIntText(t[a..b]) && ParseInt(t[a..b]) == s.score
            && t[b..b + |ScoreClose|] == ScoreClose
  {
    var t := RowText(s);
    var d := FormatInt(s.score);
    var rest := ScoreClose + s.url + ")";
    assert t == (s.title + ScoreOpen) + d + rest;
    MiddleOf(s.title + ScoreOpen, d, rest);
    assert t == (s.title + ScoreOpen + d) + ScoreClose + (s.url + ")");
    MiddleOf(s.title + ScoreOpen + d, ScoreClose, s.url + ")");
    FormatIntRoundTrip(s.score);
  }

  lemma RowTextUrl(s: Story)
    ensures var t := RowText(s);
            var b := |s.title| + |ScoreOpen| + |FormatInt(s.score)|;
            && |t| == b + |ScoreClose| + |s.url| + 1
            && t[b + |ScoreClose|..|t| - 1] == s.url
            && t[|t| - 1] == ')'
  {
    var t := RowText(s);
    var front := s.title + ScoreOpen + FormatInt(s.score) + ScoreClose;
    assert t == front + s.url + ")";
    MiddleOf(front, s.url, ")");
  }

  /** The pieces of a three-part text sit at the positions their lengths say. */
  lemma MiddleOf(p: string, q: string, r: string)
    ensures (p + q + r)[..|p|] == p
    ensures (p + q + r)[|p|..|p| + |q|] == q
    ensures (p + q + r)[|p| + |q|..] == r
  {
  }

  /** The blank line `itemStyle` and `selectedItemStyle` pad each row with. */
  const RowPaddingBottom := 1

  /** The number of line breaks in a text. */
  function Newlines(s: string): nat
    decreases |s|
  {
    if s == [] then 0 else Newlines(s[..|s| - 1]) + (if s[|s| - 1] == '\n' then 1 else 0)
  }

  lemma {:induction false} NewlinesConcat(a: string, b: string)
    ensures Newlines(a + b) == Newlines(a) + Newlines(b)
    decreases |b|
  {
    if b == [] {
      assert a + b == a;
    } else {
      assert (a + b)[..|a + b| - 1] == a + b[..|b| - 1];
      NewlinesConcat(a, b[..|b| - 1]);
    }
  }

  lemma {:induction false} NoNewlines(s: string)
    requires '\n' !in s
    ensures Newlines(s) == 0
    decreases |s|
  {
    if s != [] {
      assert forall i :: 0 <= i < |s| - 1 ==> s[..|s| - 1][i] == s[i];
      NoNewlines(s[..|s| - 1]);
    }
  }

  /** For a title and URL on one line each, a row is two text lines, and with
      the style's bottom padding it fills exactly `Height()` lines, so rows
      need no `Spacing()`; the delegate's update issues no command and leaves
      the list alone. */
  lemma RowFillsHeight(s: Story, msg: Msg, l: ListState)
    requires '\n' !in s.title && '\n' !in s.url
    ensures Newlines(RowText(s)) == 1
    ensures Newlines(RowText(s)) + 1 + RowPaddingBottom == Height()
    ensures Spacing() == 0
    ensures Update(msg, l) == (NoCmd, l)
  {
    var d := FormatInt(s.score);
    assert '\n' !in d by {
      forall i | 0 <= i < |d| ensures d[i] != '\n' {
        if d[0] == '-' && i > 0 {
          assert d[1..][i - 1] == d[i];
        }
      }
    }
    NoNewlines(s.title);
    NoNewlines(ScoreOpen);
    NoNewlines(d);
    NoNewlines(s.url);
    NoNewlines(")");
    assert Newlines(ScoreClose) == 1 by {
      var i := 9;
      assert ScoreClose == ScoreClose[..i] + ScoreClose[i..i + 1] + ScoreClose[i + 1..];
      assert ScoreClose[i..i + 1] == "\n";
      NoNewlines(ScoreClose[..i]);
      NoNewlines(ScoreClose[i + 1..]);
      NewlinesConcat(ScoreClose[..i], ScoreClose[i..i + 1]);
      NewlinesConcat(ScoreClose[..i] + ScoreClose[i..i + 1], ScoreClose[i + 1..]);
    }
    NewlinesConcat(s.title, ScoreOpen);
    NewlinesConcat(s.title + ScoreOpen, d);
    NewlinesConcat(s.title + ScoreOpen + d, ScoreClose);
    NewlinesConcat(s.title + ScoreOpen + d + ScoreClose, s.url);
    NewlinesConcat(s.title + ScoreOpen + d + ScoreClose + s.url, ")");
  }
}
