/** The command sequence of the queue ticket of the `/ticket/print` route. */
module Ticket {
  import opened Wrappers
  import opened Phrase
  import opened EscPos

  /** The builder chain of the ticket: it starts by flushing and ends with a partial cut. */
  function QueueTicket(departmentName: string, currentLastNumber: string, queueLength: Option<int>): (r: seq<Command>)
    ensures |r| == 15 && r[0] == Flush && r[|r| - 1] == Cut(true, 3)
    ensures r[9] == Text(currentLastNumber) && r[11] == Text(QueuePhrase(queueLength))
  {
    [ Flush, Font("a"), Align("ct"), Size(2, 2),
      Text("Reparto"), Text(departmentName),
      Size(1, 1), Text("Il tuo numero e'"),
      Size(7, 7), Text(currentLastNumber),
      Size(1, 1), Text(QueuePhrase(queueLength)),
      Feed, Feed, Cut(true, 3) ]
  }

  /** One command, then the rest in the style it leaves. */
  lemma RenderCons(c: Command, rest: seq<Command>, st: Style)
    ensures Render([c] + rest, st) == Marks(c, st) + Render(rest, Next(c, st))
  {
    assert ([c] + rest)[1..] == rest;
  }

  lemma RenderClosing(phrase: string, st: Style)
    ensures Render([Size(1, 1), Text(phrase), Feed, Feed, Cut(true, 3)], st) ==
            [Line(phrase, st.(width := 1, height := 1)), Blank, Blank, PaperCut(true, 3)]
  {
    var normal := st.(width := 1, height := 1);
    RenderCons(Cut(true, 3), [], normal);
    assert [Cut(true, 3)] + [] == [Cut(true, 3)];
    RenderCons(Feed, [Cut(true, 3)], normal);
    RenderCons(Feed, [Feed, Cut(true, 3)], normal);
    RenderCons(Text(phrase), [Feed, Feed, Cut(true, 3)], normal);
    RenderCons(Size(1, 1), [Text(phrase), Feed, Feed, Cut(true, 3)], st);
  }

  lemma RenderNumber(number: string, phrase: string, st: Style)
    ensures Render([Size(7, 7), Text(number), Size(1, 1), Text(phrase), Feed, Feed, Cut(true, 3)], st) ==
            [Line(number, st.(width := 7, height := 7)), Line(phrase, st.(width := 1, height := 1)),
             Blank, Blank, PaperCut(true, 3)]
  {
    var huge := st.(width := 7, height := 7);
    var closing := [Size(1, 1), Text(phrase), Feed, Feed, Cut(true, 3)];
    RenderClosing(phrase, huge);
    RenderCons(Text(number), closing, huge);
    RenderCons(Size(7, 7), [Text(number)] + closing, st);
    assert [Size(7, 7)] + ([Text(number)] + closing) ==
           [Size(7, 7), Text(number), Size(1, 1), Text(phrase), Feed, Feed, Cut(true, 3)];
  }

  lemma RenderCaption(number: string, phrase: string, st: Style)
    ensures Render([Size(1, 1), Text("Il tuo numero e'"), Size(7, 7), Text(number), Size(1, 1), Text(phrase),
                    Feed, Feed, Cut(true, 3)], st) ==
            [Line("Il tuo numero e'", st.(width := 1, height := 1)), Line(number, st.(width := 7, height := 7)),
             Line(phrase, st.(width := 1, height := 1)), Blank, Blank, PaperCut(true, 3)]
  {
    var normal := st.(width := 1, height := 1);
    var rest := [Size(7, 7), Text(number), Size(1, 1), Text(phrase), Feed, Feed, Cut(true, 3)];
    RenderNumber(number, phrase, normal);
    RenderCons(Text("Il tuo numero e'"), rest, normal);
    RenderCons(Size(1, 1), [Text("Il tuo numero e'")] + rest, st);
    assert [Size(1, 1)] + ([Text("Il tuo numero e'")] + rest) ==
           [Size(1, 1), Text("Il tuo numero e'"), Size(7, 7), Text(number), Size(1, 1), Text(phrase),
            Feed, Feed, Cut(true, 3)];
  }

  lemma RenderHeading(departmentName: string, number: string, phrase: string, st: Style)
    ensures Render([Text("Reparto"), Text(departmentName), Size(1, 1), Text("Il tuo numero e'"), Size(7, 7),
                    Text(number), Size(1, 1), Text(phrase), Feed, Feed, Cut(true, 3)], st) ==
            [Line("Reparto", st), Line(departmentName, st),
             Line("Il tuo numero e'", st.(width := 1, height := 1)), Line(number, st.(width := 7, height := 7)),
             Line(phrase, st.(width := 1, height := 1)), Blank, Blank, PaperCut(true, 3)]
  {
    var rest := [Size(1, 1), Text("Il tuo numero e'"), Size(7, 7), Text(number), Size(1, 1), Text(phrase),
                 Feed, Feed, Cut(true, 3)];
    RenderCaption(number, phrase, st);
    RenderCons(Text(departmentName), rest, st);
    RenderCons(Text("Reparto"), [Text(departmentName)] + rest, st);
    assert [Text("Reparto")] + ([Text(departmentName)] + rest) ==
           [Text("Reparto"), Text(departmentName), Size(1, 1), Text("Il tuo numero e'"), Size(7, 7),
            Text(number), Size(1, 1), Text(phrase), Feed, Feed, Cut(true, 3)];
  }

  /** The opening commands select font a, centring and double size, and print nothing. */
  lemma RenderAfterSetup(rest: seq<Command>, st: Style)
    ensures Render([Flush, Font("a"), Align("ct"), Size(2, 2)] + rest, st) == Render(rest, Style("a", "ct", 2, 2))
  {
    var setup := [Flush, Font("a"), Align("ct"), Size(2, 2)];
    RenderAppend(setup, rest, st);
    assert setup[1..][1..][1..][1..] == [];
    assert Render(setup, st) == [] && StyleAfter(setup, st) == Style("a", "ct", 2, 2);
  }

  /**
   * Whatever style the printer was left in, the ticket prints the department
   * heading at double size, the number at size 7, the rest at normal size,
   * all centred in font a, then two blank lines and a partial cut.
   */
  lemma QueueTicketRender(departmentName: string, currentLastNumber: string, queueLength: Option<int>, st: Style)
    ensures Render(QueueTicket(departmentName, currentLastNumber, queueLength), st) ==
      [ Line("Reparto", Style("a", "ct", 2, 2)),
        Line(departmentName, Style("a", "ct", 2, 2)),
        Line("Il tuo numero e'", Style("a", "ct", 1, 1)),
        Line(currentLastNumber, Style("a", "ct", 7, 7)),
        Line(QueuePhrase(queueLength), Style("a", "ct", 1, 1)),
        Blank, Blank, PaperCut(true, 3) ]
  {
    var phrase := QueuePhrase(queueLength);
    var rest := [Text("Reparto"), Text(departmentName), Size(1, 1), Text("Il tuo numero e'"), Size(7, 7),
                 Text(currentLastNumber), Size(1, 1), Text(phrase), Feed, Feed, Cut(true, 3)];
    RenderHeading(departmentName, currentLastNumber, phrase, Style("a", "ct", 2, 2));
    RenderAfterSetup(rest, st);
    assert QueueTicket(departmentName, currentLastNumber, queueLength) ==
           [Flush, Font("a"), Align("ct"), Size(2, 2)] + rest;
  }
}
