/** Worked instances of the extractor on small documents. */
module NotesExamples {
  import opened OdfNames
  import opened Extractor
  import opened ExtractorFacts

  const PresentationNotes: Name := Name(PresentationNs, "notes")
  const TextSpan: Name := Name(TextNs, "span")

  function ClassAttr(value: string): map<Name, string> {
    map[PresentationClass := value]
  }

  /** A text box holding one paragraph. */
  function TitleBox(title: string): seq<Event> {
    [Start(DrawTextBox, map[]), Start(TextP, map[]), Chars(title), End(TextP), End(DrawTextBox)]
  }

  /** A title frame around that text box. */
  function TitleFrame(title: string): seq<Event> {
    FrameEvents(ClassAttr("title"), TitleBox(title))
  }

  /** The first notes paragraph, preceded by the text-box start. */
  function FirstNote(first: string): Paragraph {
    Paragraph([Start(DrawTextBox, map[])], map[], [Chars(first)])
  }

  /** The second notes paragraph, its text inside a span. */
  function SecondNote(second: string): Paragraph {
    Paragraph([], map[], [Start(TextSpan, map[]), Chars(second), End(TextSpan)])
  }

  /** A notes frame: a text box holding the two paragraphs. */
  function NotesFrame(first: string, second: string): seq<Event> {
    FrameEvents(ClassAttr("notes"),
      ParagraphsEvents([FirstNote(first), SecondNote(second)]) + [End(DrawTextBox)])
  }

  /** Slide 1: a title frame, then its notes page with two paragraphs. */
  function FirstSlideBody(title: string, first: string, second: string): seq<Event> {
    TitleFrame(title)
      + [Start(PresentationNotes, map[])]
      + NotesFrame(first, second)
      + [End(PresentationNotes)]
  }

  function TwoSlides(title: string, first: string, second: string): seq<Event> {
    PagesEvents([PageBlock(map[], FirstSlideBody(title, first, second), []), PageBlock(map[], [], [])])
  }

  lemma JoinSingle(x: string)
    ensures Join([x]) == x
  {
    var parts: seq<string> := [x];
    assert |parts[1..]| == 0;
  }

  lemma NotesWellFormed(first: string, second: string)
    ensures AllWellFormed([FirstNote(first), SecondNote(second)])
  {
    var body := SecondNote(second).body;
    assert IsInert(body[0]) && IsInert(body[1]) && IsInert(body[2]);
    var last: seq<Paragraph> := [SecondNote(second)];
    assert [FirstNote(first), SecondNote(second)][1..] == last;
    assert |last[1..]| == 0;
  }

  lemma FirstNoteLine(first: string)
    ensures NoteLine(FirstNote(first)) == first + "\n"
  {
    var p := FirstNote(first);
    TextOfSingle(Start(DrawTextBox, map[]));
    TextOfSingle(Chars(first));
    JoinSingle(first);
    assert TextOf(p.lead) + TextOf(p.body) == [first];
  }

  lemma SecondNoteLine(second: string)
    ensures NoteLine(SecondNote(second)) == second + "\n"
  {
    var p := SecondNote(second);
    TextOfAppend([Start(TextSpan, map[])], [Chars(second), End(TextSpan)]);
    TextOfAppend([Chars(second)], [End(TextSpan)]);
    TextOfSingle(Start(TextSpan, map[]));
    TextOfSingle(Chars(second));
    TextOfSingle(End(TextSpan));
    assert p.body == [Start(TextSpan, map[])] + ([Chars(second)] + [End(TextSpan)]);
    assert TextOf(p.body) == [] + ([second] + []);
    assert p.lead == [];
    JoinSingle(second);
    assert TextOf(p.lead) + TextOf(p.body) == [second];
  }

  lemma NotesOfTwo(first: string, second: string)
    ensures NoteLines([FirstNote(first), SecondNote(second)]) == [first + "\n", second + "\n"]
  {
    var p1, p2 := FirstNote(first), SecondNote(second);
    FirstNoteLine(first);
    SecondNoteLine(second);
    var last: seq<Paragraph> := [p2];
    assert [p1, p2][1..] == last;
    assert |last[1..]| == 0;
    assert NoteLines(last[1..]) == [];
    assert NoteLines(last) == [NoteLine(p2)] + NoteLines(last[1..]);
    assert NoteLines([p1, p2]) == [NoteLine(p1)] + NoteLines(last);
  }

  lemma RunThree(s: State, a: seq<Event>, b: seq<Event>, c: seq<Event>)
    ensures Run(s, a + b + c) == Run(Run(Run(s, a), b), c)
  {
    RunAppend(s, a + b, c);
    RunAppend(s, a, b);
  }

  lemma TitleBoxQuiet(title: string)
    ensures AllQuiet(TitleBox(title))
  {
    var box := TitleBox(title);
    assert IsQuiet(box[0]) && IsQuiet(box[1]) && IsQuiet(box[2]) && IsQuiet(box[3]) && IsQuiet(box[4]);
  }

  lemma TitleBoxText(title: string)
    ensures TextOf(TitleBox(title)) == [title]
  {
    var box := TitleBox(title);
    var tail := box[3..];
    TextOfAppend(box[..3], tail);
    assert box == box[..3] + tail;
    TextOfAppend([box[0], box[1]], [box[2]]);
    assert box[..3] == [box[0], box[1]] + [box[2]];
    TextOfAppend([box[0]], [box[1]]);
    assert [box[0], box[1]] == [box[0]] + [box[1]];
    TextOfAppend([box[3]], [box[4]]);
    assert tail == [box[3]] + [box[4]];
    TextOfSingle(box[0]);
    TextOfSingle(box[1]);
    TextOfSingle(box[2]);
    TextOfSingle(box[3]);
    TextOfSingle(box[4]);
  }

  /** The title frame only adds its text to the buffer. */
  lemma TitleFrameRun(s: State, title: string)
    requires !s.inNotes
    ensures Run(s, TitleFrame(title)) == s.(data := s.data + [title])
  {
    assert !IsNotesFrame(ClassAttr("title")) by {
      NotesClasses("title");
    }
    TitleBoxQuiet(title);
    OtherFrameSilent(s, ClassAttr("title"), TitleBox(title));
    TitleBoxText(title);
  }

  /** The notes frame gives its two lines and leaves the buffer empty. */
  lemma NotesFrameRun(s: State, first: string, second: string)
    ensures Run(s, NotesFrame(first, second))
         == s.(inNotes := false, data := [], out := s.out + [first + "\n", second + "\n"])
  {
    assert IsNotesFrame(ClassAttr("notes")) by {
      NotesClasses("notes");
    }
    NotesWellFormed(first, second);
    TextOfSingle(End(DrawTextBox));
    NotesFrameLines(s, ClassAttr("notes"), [FirstNote(first), SecondNote(second)], [End(DrawTextBox)]);
    NotesOfTwo(first, second);
  }

  lemma FirstSlideBodyRun(s: State, title: string, first: string, second: string)
    requires !s.inNotes
    ensures Run(s, FirstSlideBody(title, first, second))
         == s.(data := [], out := s.out + [first + "\n", second + "\n"])
  {
    var titleFrame := TitleFrame(title);
    var notesFrame := NotesFrame(first, second);
    var open := [Start(PresentationNotes, map[])];
    var close := [End(PresentationNotes)];
    TitleFrameRun(s, title);
    var s1 := Run(s, titleFrame);
    RunCons(s1, open[0], []);
    assert Run(s1, open) == s1;
    NotesFrameRun(s1, first, second);
    var s3 := Run(s1, notesFrame);
    RunCons(s3, close[0], []);
    assert Run(s3, close) == s3;
    RunThree(s, titleFrame, open, notesFrame);
    RunAppend(s, titleFrame + open + notesFrame, close);
  }

  /** Character data between two notes paragraphs (the indentation of
      pretty-printed XML, say) is not discarded: it opens the next line. */
  lemma LeadingTextJoinsNextLine(s: State, ws: string, text: string)
    requires s.inNotes && s.data == []
    ensures Run(s, ParagraphEvents(Paragraph([Chars(ws)], map[], [Chars(text)])))
         == s.(out := s.out + [ws + text + "\n"])
  {
    var p := Paragraph([Chars(ws)], map[], [Chars(text)]);
    ParagraphInNotes(s, p);
    TextOfSingle(Chars(ws));
    TextOfSingle(Chars(text));
    var parts: seq<string> := [ws, text];
    assert s.data + TextOf(p.lead) + TextOf(p.body) == parts;
    assert parts[1..] == [text];
    JoinSingle(text);
    assert Join(parts) == ws + text;
  }

  /** A slide with nothing after it: its start, its body, its end. */
  lemma SlideRun(s: State, page: PageBlock)
    requires page.trailer == []
    ensures Run(s, PageEvents(page))
         == Step(Run(Step(s, Start(DrawPage, page.attrs)), page.body), End(DrawPage))
  {
    var st := [Start(DrawPage, page.attrs)];
    assert PageEvents(page) == st + page.body + [End(DrawPage)];
    RunSnoc(s, st + page.body, End(DrawPage));
    RunAppend(s, st, page.body);
    RunCons(s, Start(DrawPage, page.attrs), []);
  }

  /** From a fresh handler, slide 1 gives its start marker, the two notes
      lines and its end marker. */
  lemma FirstSlideRun(title: string, first: string, second: string)
    ensures Run(Initial([]), PageEvents(PageBlock(map[], FirstSlideBody(title, first, second), [])))
         == State(1, false, [], [PageHeader(1), first + "\n", second + "\n", PageFooter(1)])
  {
    var s0 := Initial([]);
    var a := Step(s0, Start(DrawPage, map[]));
    assert a == State(1, false, [], [PageHeader(1)]);
    FirstSlideBodyRun(a, title, first, second);
    SlideRun(s0, PageBlock(map[], FirstSlideBody(title, first, second), []));
  }

  /** An empty slide gives only its two markers. */
  lemma EmptySlideRun(c: State)
    requires c.pagenum == 1 && !c.inNotes
    ensures Run(c, PageEvents(PageBlock(map[], [], [])))
         == c.(pagenum := 2, out := c.out + [PageHeader(2), PageFooter(2)])
  {
    SlideRun(c, PageBlock(map[], [], []));
    assert Run(Step(c, Start(DrawPage, map[])), []) == Step(c, Start(DrawPage, map[]));
  }

  /** The title text is collected but never written; the two notes
      paragraphs become one line each, between the markers of slide 1. */
  lemma TwoSlidesLines(title: string, first: string, second: string)
    ensures Extract(TwoSlides(title, first, second)) == [
      PageHeader(1), first + "\n", second + "\n", PageFooter(1), PageHeader(2), PageFooter(2)
    ]
  {
    var s0 := Initial([]);
    var p1 := PageBlock(map[], FirstSlideBody(title, first, second), []);
    var p2 := PageBlock(map[], [], []);
    assert TwoSlides(title, first, second) == PageEvents(p1) + PageEvents(p2) by {
      var rest: seq<PageBlock> := [p2];
      assert [p1, p2][1..] == rest;
      assert |rest[1..]| == 0;
      assert PagesEvents(rest) == PageEvents(p2) + PagesEvents(rest[1..]);
      assert PagesEvents([p1, p2]) == PageEvents(p1) + PagesEvents(rest);
    }
    RunAppend(s0, PageEvents(p1), PageEvents(p2));
    FirstSlideRun(title, first, second);
    EmptySlideRun(Run(s0, PageEvents(p1)));
  }

  lemma MarkerTexts()
    ensures PageHeader(1) == "<!-- page 1 start -->" && PageFooter(1) == "<!-- page 1 end -->"
    ensures PageHeader(2) == "<!-- page 2 start -->" && PageFooter(2) == "<!-- page 2 end -->"
  {
    assert Decimal.FromNat(1) == "1";
    assert Decimal.FromNat(2) == "2";
  }

  /** A text document, a near miss and a padded type are all refused. */
  lemma MimeNearMisses()
    ensures IsSupportedMime("application/vnd.oasis.opendocument.presentation")
    ensures IsSupportedMime("application/vnd.oasis.opendocument.presentation-template")
    ensures !IsSupportedMime("application/vnd.oasis.opendocument.text")
    ensures !IsSupportedMime("application/vnd.oasis.opendocument.presentation\n")
    ensures !IsSupportedMime("application/vnd.oasis.opendocument.presentation-templat")
  {
  }
}
