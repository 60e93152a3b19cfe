/**
 * The ESC/POS builder calls the ticket printer makes, as abstract values,
 * and what they put on paper: text lines in the style in force when they
 * were written, blank lines, and cuts.
 */
module EscPos {
  datatype Command =
    | Flush
    | Font(family: string)
    | Align(alignment: string)
    | Size(width: int, height: int)
    | Text(content: string)
    | Feed
    | Cut(partial: bool, feedLines: int)

  /** The printer settings that formatting commands change. */
  datatype Style = Style(font: string, alignment: string, width: int, height: int)

  /** What one command leaves on the paper. */
  datatype Mark = Line(text: string, style: Style) | Blank | PaperCut(partial: bool, feedLines: int)

  /** The style after one command. */
  function Next(c: Command, st: Style): Style {
    match c
    case Font(f) => st.(font := f)
    case Align(a) => st.(alignment := a)
    case Size(w, h) => st.(width := w, height := h)
    case _ => st
  }

  /** The marks one command leaves, written in style `st`. */
  function Marks(c: Command, st: Style): seq<Mark> {
    match c
    case Text(t) => [Line(t, st)]
    case Feed => [Blank]
    case Cut(p, n) => [PaperCut(p, n)]
    case _ => []
  }

  /** The style after a whole command sequence. */
  function StyleAfter(cmds: seq<Command>, st: Style): Style
    decreases |cmds|
  {
    if cmds == [] then st else StyleAfter(cmds[1..], Next(cmds[0], st))
  }

  /** The paper a command sequence produces, starting in style `st`. */
  function Render(cmds: seq<Command>, st: Style): seq<Mark>
    decreases |cmds|
  {
    if cmds == [] then [] else Marks(cmds[0], st) + Render(cmds[1..], Next(cmds[0], st))
  }

  /** Rendering is sequential: the second part starts in the style the first part left. */
  lemma {:induction false} RenderAppend(a: seq<Command>, b: seq<Command>, st: Style)
    ensures Render(a + b, st) == Render(a, st) + Render(b, StyleAfter(a, st))
    ensures StyleAfter(a + b, st) == StyleAfter(b, StyleAfter(a, st))
    decreases |a|
  {
    if a == [] {
      assert a + b == b;
    } else {
      assert (a + b)[1..] == a[1..] + b;
      RenderAppend(a[1..], b, Next(a[0], st));
    }
  }
}
