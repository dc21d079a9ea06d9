/** Properties of the notes extractor over whole event streams: page
    numbering, append-only output, the order of the page markers, and one
    output line per paragraph of a notes frame. */
module ExtractorFacts {
  import opened OdfNames
  import opened Extractor
  import Decimal

  // ---------------------------------------------------------------------
  // Composition of runs

  lemma {:induction false} RunAppend(s: State, a: seq<Event>, b: seq<Event>)
    ensures Run(s, a + b) == Run(Run(s, a), b)
    decreases |a|
  {
    if a == [] {
      assert a + b == b;
    } else {
      assert (a + b)[0] == a[0];
      assert (a + b)[1..] == a[1..] + b;
      RunAppend(Step(s, a[0]), a[1..], b);
    }
  }

  lemma RunSnoc(s: State, a: seq<Event>, e: Event)
    ensures Run(s, a + [e]) == Step(Run(s, a), e)
  {
    RunAppend(s, a, [e]);
    assert [e][1..] == [];
  }

  lemma RunCons(s: State, e: Event, a: seq<Event>)
    ensures Run(s, [e] + a) == Run(Step(s, e), a)
  {
    assert ([e] + a)[0] == e;
    assert ([e] + a)[1..] == a;
  }

  // ---------------------------------------------------------------------
  // Page numbering

  predicate IsPageStart(e: Event) {
    e.Start? && e.name == DrawPage
  }

  predicate IsPageEnd(e: Event) {
    e.End? && e.name == DrawPage
  }

  /** The number of draw:page starts in a stream. */
  function PageStarts(events: seq<Event>): nat
    decreases |events|
  {
    if events == [] then 0
    else (if IsPageStart(events[0]) then 1 else 0) + PageStarts(events[1..])
  }

  /** The counter goes up by exactly the number of page starts seen. */
  lemma {:induction false} PageCount(s: State, events: seq<Event>)
    ensures Run(s, events).pagenum == s.pagenum + PageStarts(events)
    decreases |events|
  {
    if events != [] {
      PageCount(Step(s, events[0]), events[1..]);
    }
  }

  /** A fresh handler's counter is the number of pages started. */
  lemma PagesCounted(events: seq<Event>)
    ensures Run(Initial([]), events).pagenum == PageStarts(events)
  {
    PageCount(Initial([]), events);
  }

  // ---------------------------------------------------------------------
  // Append-only output

  /** Earlier lines are never altered or removed, and each event adds at most
      one line. */
  lemma {:induction false} OutputGrows(s: State, events: seq<Event>)
    ensures s.out <= Run(s, events).out
    ensures |Run(s, events).out| <= |s.out| + |events|
    decreases |events|
  {
    if events != [] {
      var t := Step(s, events[0]);
      OutputGrows(t, events[1..]);
    }
  }

  // ---------------------------------------------------------------------
  // Page markers

  /** A page marker never ends in a newline; a notes line always does. */
  predicate IsMarkerLine(line: string) {
    |line| > 0 && line[|line| - 1] != '\n'
  }

  /** The page-marker lines of an output, in order. */
  function Markers(lines: seq<string>): seq<string>
    decreases |lines|
  {
    if lines == [] then []
    else
      var last := lines[|lines| - 1];
      Markers(lines[..|lines| - 1]) + (if IsMarkerLine(last) then [last] else [])
  }

  lemma MarkersSnoc(lines: seq<string>, line: string)
    ensures Markers(lines + [line]) == Markers(lines) + (if IsMarkerLine(line) then [line] else [])
  {
    assert (lines + [line])[..|lines|] == lines;
  }

  lemma MarkerShapes(page: nat, text: string)
    ensures IsMarkerLine(PageHeader(page)) && IsMarkerLine(PageFooter(page))
    ensures !IsMarkerLine(text + "\n")
  {
    var h := PageHeader(page);
    var f := PageFooter(page);
    assert h[|h| - 1] == '>';
    assert f[|f| - 1] == '>';
  }

  /** The markers that the page events of a stream produce, with p the page
      counter before the stream. */
  function PageMarkers(p: nat, events: seq<Event>): seq<string>
    decreases |events|
  {
    if events == [] then []
    else if IsPageStart(events[0]) then [PageHeader(p + 1)] + PageMarkers(p + 1, events[1..])
    else if IsPageEnd(events[0]) then [PageFooter(p)] + PageMarkers(p, events[1..])
    else PageMarkers(p, events[1..])
  }

  /** The output after one event: a page marker, a notes line, or nothing. */
  lemma StepOutput(s: State, e: Event)
    ensures IsPageStart(e) ==> Step(s, e).out == s.out + [PageHeader(s.pagenum + 1)]
    ensures IsPageEnd(e) ==> Step(s, e).out == s.out + [PageFooter(s.pagenum)]
    ensures !IsPageEvent(e) ==>
      Step(s, e).out == s.out || Step(s, e).out == s.out + [Join(s.data) + "\n"]
  {
  }

  /** One event adds to the marker lines exactly what its page markers say. */
  lemma StepMarkers(s: State, e: Event)
    ensures Markers(Step(s, e).out) == Markers(s.out) + PageMarkers(s.pagenum, [e])
    ensures Step(s, e).pagenum == s.pagenum + PageStarts([e])
  {
    var t := Step(s, e);
    var none: seq<Event> := [];
    assert [e][1..] == none;
    assert PageMarkers(s.pagenum + 1, none) == [] && PageMarkers(s.pagenum, none) == [];
    StepOutput(s, e);
    if IsPageStart(e) {
      assert PageMarkers(s.pagenum, [e]) == [PageHeader(s.pagenum + 1)];
      MarkerShapes(s.pagenum + 1, "");
      MarkersSnoc(s.out, PageHeader(s.pagenum + 1));
    } else if IsPageEnd(e) {
      assert PageMarkers(s.pagenum, [e]) == [PageFooter(s.pagenum)];
      MarkerShapes(s.pagenum, "");
      MarkersSnoc(s.out, PageFooter(s.pagenum));
    } else {
      assert PageMarkers(s.pagenum, [e]) == [];
      if t.out != s.out {
        MarkerShapes(s.pagenum, Join(s.data));
        MarkersSnoc(s.out, Join(s.data) + "\n");
      }
    }
  }


  /** On any stream, well-formed or not, the marker lines appended are
      exactly those the page events dictate. */
  lemma {:induction false} MarkersOfRun(s: State, events: seq<Event>)
    ensures Markers(Run(s, events).out) == Markers(s.out) + PageMarkers(s.pagenum, events)
    decreases |events|
  {
    if events != [] {
      var e := events[0];
      var t := Step(s, e);
      MarkersOfRun(t, events[1..]);
      StepMarkers(s, e);
      PageMarkersAppend(s.pagenum, [e], events[1..]);
      assert [e] + events[1..] == events;
    }
  }

  predicate IsPageEvent(e: Event) {
    IsPageStart(e) || IsPageEnd(e)
  }

  /** No draw:page start or end in the stream. */
  predicate PageFree(events: seq<Event>) {
    forall i :: 0 <= i < |events| ==> !IsPageEvent(events[i])
  }

  lemma {:induction false} PageFreeSilent(p: nat, events: seq<Event>)
    requires PageFree(events)
    ensures PageMarkers(p, events) == [] && PageStarts(events) == 0
    decreases |events|
  {
    if events != [] {
      assert !IsPageEvent(events[0]);
      PageFreeSilent(p, events[1..]);
    }
  }

  lemma {:induction false} PageMarkersAppend(p: nat, a: seq<Event>, b: seq<Event>)
    ensures PageMarkers(p, a + b) == PageMarkers(p, a) + PageMarkers(p + PageStarts(a), b)
    ensures PageStarts(a + b) == PageStarts(a) + PageStarts(b)
    decreases |a|
  {
    if a == [] {
      assert a + b == b;
    } else {
      assert (a + b)[0] == a[0];
      assert (a + b)[1..] == a[1..] + b;
      PageMarkersAppend(if IsPageStart(a[0]) then p + 1 else p, a[1..], b);
    }
  }

  /** One slide: its draw:page start (with any attributes), the events inside
      it, its draw:page end, and whatever follows before the next slide. */
  datatype PageBlock = PageBlock(attrs: map<Name, string>, body: seq<Event>, trailer: seq<Event>)

  function PageEvents(page: PageBlock): seq<Event> {
    [Start(DrawPage, page.attrs)] + page.body + [End(DrawPage)] + page.trailer
  }

  function PagesEvents(pages: seq<PageBlock>): seq<Event>
    decreases |pages|
  {
    if pages == [] then [] else PageEvents(pages[0]) + PagesEvents(pages[1..])
  }

  /** Slides are not nested and nothing between them is a page event. */
  predicate WellPaged(pages: seq<PageBlock>) {
    forall i :: 0 <= i < |pages| ==> PageFree(pages[i].body) && PageFree(pages[i].trailer)
  }

  /** start p+1, end p+1, ..., start p+n, end p+n. */
  function ExpectedMarkers(p: nat, n: nat): seq<string>
    decreases n
  {
    if n == 0 then [] else [PageHeader(p + 1), PageFooter(p + 1)] + ExpectedMarkers(p + 1, n - 1)
  }

  lemma {:induction false} ExpectedMarkersLength(p: nat, n: nat)
    ensures |ExpectedMarkers(p, n)| == 2 * n
    decreases n
  {
    if n > 0 {
      ExpectedMarkersLength(p + 1, n - 1);
    }
  }

  lemma ExpectedMarkersHead(p: nat, n: nat)
    requires n > 0
    ensures |ExpectedMarkers(p, n)| >= 2
    ensures ExpectedMarkers(p, n)[0] == PageHeader(p + 1)
    ensures ExpectedMarkers(p, n)[1] == PageFooter(p + 1)
  {
  }

  lemma ExpectedMarkersShift(p: nat, n: nat, j: nat)
    requires n > 0 && j < |ExpectedMarkers(p + 1, n - 1)|
    ensures j + 2 < |ExpectedMarkers(p, n)|
    ensures ExpectedMarkers(p, n)[j + 2] == ExpectedMarkers(p + 1, n - 1)[j]
  {
    var head := [PageHeader(p + 1), PageFooter(p + 1)];
    assert ExpectedMarkers(p, n) == head + ExpectedMarkers(p + 1, n - 1);
  }

  lemma {:induction false} ExpectedMarkersAt(p: nat, n: nat, k: nat)
    requires k < n
    ensures |ExpectedMarkers(p, n)| == 2 * n
    ensures ExpectedMarkers(p, n)[2 * k] == PageHeader(p + k + 1)
    ensures ExpectedMarkers(p, n)[2 * k + 1] == PageFooter(p + k + 1)
    decreases n
  {
    ExpectedMarkersLength(p, n);
    if k > 0 {
      var page := p + k + 1;
      assert (p + 1) + (k - 1) + 1 == page;
      ExpectedMarkersAt(p + 1, n - 1, k - 1);
      var rest := ExpectedMarkers(p + 1, n - 1);
      assert rest[2 * (k - 1)] == PageHeader(page) && rest[2 * (k - 1) + 1] == PageFooter(page);
      ExpectedMarkersShift(p, n, 2 * (k - 1));
      ExpectedMarkersShift(p, n, 2 * (k - 1) + 1);
    } else {
      ExpectedMarkersHead(p, n);
    }
  }

  lemma PageEventsMarkers(p: nat, page: PageBlock)
    requires PageFree(page.body) && PageFree(page.trailer)
    ensures PageMarkers(p, PageEvents(page)) == [PageHeader(p + 1), PageFooter(p + 1)]
    ensures PageStarts(PageEvents(page)) == 1
  {
    var st := [Start(DrawPage, page.attrs)];
    var en := [End(DrawPage)];
    PageFreeSilent(p + 1, page.body);
    PageFreeSilent(p + 1, page.trailer);
    assert PageMarkers(p, st) == [PageHeader(p + 1)];
    assert PageMarkers(p + 1, en) == [PageFooter(p + 1)];
    PageMarkersAppend(p, st, page.body);
    PageMarkersAppend(p, st + page.body, en);
    PageMarkersAppend(p, st + page.body + en, page.trailer);
  }

  lemma {:induction false} PagesMarkers(p: nat, pages: seq<PageBlock>)
    requires WellPaged(pages)
    ensures PageMarkers(p, PagesEvents(pages)) == ExpectedMarkers(p, |pages|)
    ensures PageStarts(PagesEvents(pages)) == |pages|
    decreases |pages|
  {
    if pages != [] {
      PageEventsMarkers(p, pages[0]);
      assert WellPaged(pages[1..]) by {
        forall i | 0 <= i < |pages[1..]|
          ensures PageFree(pages[1..][i].body) && PageFree(pages[1..][i].trailer)
        {
          assert pages[1..][i] == pages[i + 1];
        }
      }
      PagesMarkers(p + 1, pages[1..]);
      PageMarkersAppend(p, PageEvents(pages[0]), PagesEvents(pages[1..]));
    }
  }

  lemma DocumentPageMarkers(p: nat, lead: seq<Event>, pages: seq<PageBlock>)
    requires PageFree(lead) && WellPaged(pages)
    ensures PageMarkers(p, lead + PagesEvents(pages)) == ExpectedMarkers(p, |pages|)
    ensures PageStarts(lead + PagesEvents(pages)) == |pages|
  {
    PageFreeSilent(p, lead);
    PagesMarkers(p, pages);
    PageMarkersAppend(p, lead, PagesEvents(pages));
  }

  /** A document whose N slides follow some page-free preamble yields, among
      its output lines, the markers start 1, end 1, ..., start N, end N in
      that order, and leaves the counter at N. */
  lemma DocumentMarkers(lead: seq<Event>, pages: seq<PageBlock>)
    requires PageFree(lead) && WellPaged(pages)
    ensures Markers(Extract(lead + PagesEvents(pages))) == ExpectedMarkers(0, |pages|)
    ensures Run(Initial([]), lead + PagesEvents(pages)).pagenum == |pages|
  {
    DocumentMarkersFrom(Initial([]), lead, pages);
  }

  lemma DocumentMarkersFrom(s: State, lead: seq<Event>, pages: seq<PageBlock>)
    requires PageFree(lead) && WellPaged(pages)
    ensures Markers(Run(s, lead + PagesEvents(pages)).out)
         == Markers(s.out) + ExpectedMarkers(s.pagenum, |pages|)
    ensures Run(s, lead + PagesEvents(pages)).pagenum == s.pagenum + |pages|
  {
    var doc := lead + PagesEvents(pages);
    MarkersOfRun(s, doc);
    DocumentPageMarkers(s.pagenum, lead, pages);
    PageCount(s, doc);
  }

  /** Markers are unambiguous: different page numbers give different lines,
      and no start marker is an end marker. */
  lemma MarkersDistinct(a: nat, b: nat)
    ensures PageHeader(a) == PageHeader(b) ==> a == b
    ensures PageFooter(a) == PageFooter(b) ==> a == b
    ensures PageHeader(a) != PageFooter(b)
  {
    var da, db := Decimal.FromNat(a), Decimal.FromNat(b);
    var prefix := "<!-- page ";
    if PageHeader(a) == PageHeader(b) {
      assert |da| == |db|;
      assert da == PageHeader(a)[|prefix|..|prefix| + |da|];
      assert db == PageHeader(b)[|prefix|..|prefix| + |db|];
      Decimal.FromNatInjective(a, b);
    }
    if PageFooter(a) == PageFooter(b) {
      assert |da| == |db|;
      assert da == PageFooter(a)[|prefix|..|prefix| + |da|];
      assert db == PageFooter(b)[|prefix|..|prefix| + |db|];
      Decimal.FromNatInjective(a, b);
    }
    var h, f := PageHeader(a), PageFooter(b);
    if |h| == |f| {
      assert |db| == |da| + 2;
      assert h[|prefix| + |da| + 1] == 's';
      assert f[|prefix| + |da| + 1] == db[|da| + 1];
      assert Decimal.IsDigit(db[|da| + 1]);
    }
  }

  // ---------------------------------------------------------------------
  // Notes frames and their paragraphs

  /** Character events carrying the given fragments. */
  function CharsEvents(texts: seq<string>): seq<Event>
    decreases |texts|
  {
    if texts == [] then [] else [Chars(texts[0])] + CharsEvents(texts[1..])
  }

  /** The character data of a stream, fragment by fragment. */
  function TextOf(events: seq<Event>): seq<string>
    decreases |events|
  {
    if events == [] then []
    else (if events[0].Chars? then [events[0].text] else []) + TextOf(events[1..])
  }

  lemma {:induction false} TextOfAppend(a: seq<Event>, b: seq<Event>)
    ensures TextOf(a + b) == TextOf(a) + TextOf(b)
    decreases |a|
  {
    if a == [] {
      assert a + b == b;
    } else {
      assert (a + b)[0] == a[0];
      assert (a + b)[1..] == a[1..] + b;
      TextOfAppend(a[1..], b);
    }
  }

  /** An event that can occur inside a paragraph of a notes frame without
      ending it early: character data, a start other than a page or frame
      start (a text:span, a text:s, a text:line-break, a text-box), or an end
      other than a page, frame or paragraph end. */
  predicate IsInert(e: Event) {
    match e
    case Chars(_) => true
    case Start(name, _) => name != DrawPage && name != DrawFrame
    case End(name) => name != DrawPage && name != DrawFrame && name != TextP
  }

  predicate AllInert(events: seq<Event>) {
    forall i :: 0 <= i < |events| ==> IsInert(events[i])
  }

  /** An event that has no effect on the output while no notes frame is open:
      anything but a page event or the start of a notes frame. */
  predicate IsQuiet(e: Event) {
    !IsPageEvent(e) && !(e.Start? && e.name == DrawFrame && IsNotesFrame(e.attrs))
  }

  predicate AllQuiet(events: seq<Event>) {
    forall i :: 0 <= i < |events| ==> IsQuiet(events[i])
  }

  /** Joining is concatenation: joining two lists of fragments one after the
      other gives the two joins one after the other. */
  lemma {:induction false} JoinAppend(a: seq<string>, b: seq<string>)
    ensures Join(a + b) == Join(a) + Join(b)
    decreases |a|
  {
    if a == [] {
      assert a + b == b;
    } else {
      assert (a + b)[0] == a[0];
      assert (a + b)[1..] == a[1..] + b;
      JoinAppend(a[1..], b);
    }
  }

  lemma TextOfSingle(e: Event)
    ensures TextOf([e]) == (if e.Chars? then [e.text] else [])
  {
    assert [e][1..] == [];
  }

  lemma InertStep(s: State, e: Event)
    requires IsInert(e)
    ensures Step(s, e) == s.(data := s.data + TextOf([e]))
  {
    TextOfSingle(e);
    NamesDistinct();
  }

  lemma QuietStep(s: State, e: Event)
    requires !s.inNotes && IsQuiet(e)
    ensures Step(s, e) == s.(data := s.data + TextOf([e]))
  {
    TextOfSingle(e);
  }

  /** Inert events only collect their character data, inside a notes frame
      or not. */
  lemma {:induction false} InertRun(s: State, events: seq<Event>)
    requires AllInert(events)
    ensures Run(s, events) == s.(data := s.data + TextOf(events))
    decreases |events|
  {
    if events == [] {
      assert s.data + TextOf(events) == s.data;
    } else {
      var e, rest := events[0], events[1..];
      assert AllInert(rest) by {
        forall i | 0 <= i < |rest| ensures IsInert(rest[i]) {
          assert rest[i] == events[i + 1];
        }
      }
      var t := s.(data := s.data + TextOf([e]));
      calc {
        Run(s, events);
        Run(Step(s, e), rest);
        { InertStep(s, e); }
        Run(t, rest);
        { InertRun(t, rest); }
        t.(data := t.data + TextOf(rest));
        { TextOfAppend([e], rest); assert [e] + rest == events; }
        s.(data := s.data + TextOf(events));
      }
    }
  }

  /** While no notes frame is open, quiet events add no output line and
      leave the notes frame closed; their character data is collected. */
  lemma {:induction false} QuietRun(s: State, events: seq<Event>)
    requires !s.inNotes && AllQuiet(events)
    ensures Run(s, events) == s.(data := s.data + TextOf(events))
    decreases |events|
  {
    if events == [] {
      assert s.data + TextOf(events) == s.data;
    } else {
      var e, rest := events[0], events[1..];
      assert AllQuiet(rest) by {
        forall i | 0 <= i < |rest| ensures IsQuiet(rest[i]) {
          assert rest[i] == events[i + 1];
        }
      }
      var t := s.(data := s.data + TextOf([e]));
      calc {
        Run(s, events);
        Run(Step(s, e), rest);
        { QuietStep(s, e); }
        Run(t, rest);
        { QuietRun(t, rest); }
        t.(data := t.data + TextOf(rest));
        { TextOfAppend([e], rest); assert [e] + rest == events; }
        s.(data := s.data + TextOf(events));
      }
    }
  }

  /** Character data is collected whether or not a notes frame is open. */
  lemma {:induction false} CharsRun(s: State, texts: seq<string>)
    ensures Run(s, CharsEvents(texts)) == s.(data := s.data + texts)
    decreases |texts|
  {
    if texts == [] {
      assert s.data + texts == s.data;
    } else {
      RunCons(s, Chars(texts[0]), CharsEvents(texts[1..]));
      CharsRun(Step(s, Chars(texts[0])), texts[1..]);
      assert s.data + [texts[0]] + texts[1..] == s.data + texts;
    }
  }

  /** A text:p element with any attributes, preceded by whatever inert
      events come between it and the previous paragraph (a text-box start,
      whitespace), and holding inert events (text, spans, spaces, line
      breaks). */
  datatype Paragraph = Paragraph(lead: seq<Event>, attrs: map<Name, string>, body: seq<Event>)

  predicate WellFormed(p: Paragraph) {
    AllInert(p.lead) && AllInert(p.body)
  }

  predicate AllWellFormed(paras: seq<Paragraph>)
    decreases |paras|
  {
    paras == [] || (WellFormed(paras[0]) && AllWellFormed(paras[1..]))
  }

  function ParagraphEvents(p: Paragraph): seq<Event> {
    p.lead + [Start(TextP, p.attrs)] + p.body + [End(TextP)]
  }

  function ParagraphsEvents(paras: seq<Paragraph>): seq<Event>
    decreases |paras|
  {
    if paras == [] then [] else ParagraphEvents(paras[0]) + ParagraphsEvents(paras[1..])
  }

  /** A draw:frame with the given attributes around the given events. */
  function FrameEvents(attrs: map<Name, string>, inner: seq<Event>): seq<Event> {
    [Start(DrawFrame, attrs)] + inner + [End(DrawFrame)]
  }

  /** The line a paragraph gives inside a notes frame when the buffer was
      empty before it: the character data before it and inside it, joined,
      then a newline. */
  function NoteLine(p: Paragraph): string {
    Join(TextOf(p.lead) + TextOf(p.body)) + "\n"
  }

  /** One line per paragraph. */
  function NoteLines(paras: seq<Paragraph>): seq<string>
    decreases |paras|
  {
    if paras == [] then [] else [NoteLine(paras[0])] + NoteLines(paras[1..])
  }

  /** Inside a notes frame a paragraph end flushes everything collected into
      one line and empties the buffer: what was pending, the text before the
      paragraph and the text inside it, whatever its attributes and inline
      elements. */
  lemma ParagraphInNotes(s: State, p: Paragraph)
    requires s.inNotes && WellFormed(p)
    ensures Run(s, ParagraphEvents(p))
         == s.(data := [], out := s.out + [Join(s.data + TextOf(p.lead) + TextOf(p.body)) + "\n"])
  {
    var open := [Start(TextP, p.attrs)];
    InertRun(s, p.lead);
    var s1 := Run(s, p.lead);
    RunCons(s1, open[0], []);
    var s2 := Run(s1, open);
    InertRun(s2, p.body);
    RunAppend(s, p.lead, open);
    RunAppend(s, p.lead + open, p.body);
    RunSnoc(s, p.lead + open + p.body, End(TextP));
    assert s2.data == s.data + TextOf(p.lead);
  }

  /** Outside a notes frame a paragraph adds nothing to the output; all of
      its character data stays in the buffer. */
  lemma ParagraphOutsideNotes(s: State, p: Paragraph)
    requires !s.inNotes && WellFormed(p)
    ensures Run(s, ParagraphEvents(p)) == s.(data := s.data + TextOf(ParagraphEvents(p)))
  {
    var events := ParagraphEvents(p);
    assert AllQuiet(events) by {
      forall i | 0 <= i < |events| ensures IsQuiet(events[i]) {
        if i < |p.lead| {
          assert events[i] == p.lead[i];
        } else if i == |p.lead| {
          assert events[i] == Start(TextP, p.attrs);
        } else if i < |p.lead| + 1 + |p.body| {
          assert events[i] == p.body[i - |p.lead| - 1];
        } else {
          assert events[i] == End(TextP);
        }
      }
    }
    QuietRun(s, events);
  }

  /** With an empty buffer inside a notes frame, the first paragraph gives
      its own line and leaves the buffer empty for the rest. */
  lemma FirstParagraphInNotes(s: State, paras: seq<Paragraph>)
    requires s.inNotes && s.data == [] && paras != [] && WellFormed(paras[0])
    ensures Run(s, ParagraphsEvents(paras))
         == Run(s.(out := s.out + [NoteLine(paras[0])]), ParagraphsEvents(paras[1..]))
  {
    var p := paras[0];
    RunAppend(s, ParagraphEvents(p), ParagraphsEvents(paras[1..]));
    ParagraphInNotes(s, p);
    assert s.data + TextOf(p.lead) + TextOf(p.body) == TextOf(p.lead) + TextOf(p.body);
  }

  lemma NoteLinesCons(out: seq<string>, paras: seq<Paragraph>)
    requires paras != []
    ensures out + [NoteLine(paras[0])] + NoteLines(paras[1..]) == out + NoteLines(paras)
  {
    var line, rest := NoteLine(paras[0]), NoteLines(paras[1..]);
    assert NoteLines(paras) == [line] + rest;
    assert out + [line] + rest == out + ([line] + rest);
  }

  /** Inside a notes frame with an empty buffer, paragraphs give one line
      each, in order. */
  lemma {:induction false} ParagraphsInNotes(s: State, paras: seq<Paragraph>)
    requires s.inNotes && s.data == [] && AllWellFormed(paras)
    ensures Run(s, ParagraphsEvents(paras)) == s.(out := s.out + NoteLines(paras))
    decreases |paras|
  {
    if paras == [] {
      assert s.out + NoteLines(paras) == s.out;
    } else {
      FirstParagraphInNotes(s, paras);
      var t := s.(out := s.out + [NoteLine(paras[0])]);
      ParagraphsInNotes(t, paras[1..]);
      NoteLinesCons(s.out, paras);
    }
  }

  /** Outside a notes frame paragraphs add nothing; their character data
      accumulates in the buffer. */
  lemma {:induction false} ParagraphsOutsideNotes(s: State, paras: seq<Paragraph>)
    requires !s.inNotes && AllWellFormed(paras)
    ensures Run(s, ParagraphsEvents(paras)) == s.(data := s.data + TextOf(ParagraphsEvents(paras)))
    decreases |paras|
  {
    if paras == [] {
      assert s.data + TextOf(ParagraphsEvents(paras)) == s.data;
    } else {
      var a, b := ParagraphEvents(paras[0]), ParagraphsEvents(paras[1..]);
      RunAppend(s, a, b);
      ParagraphOutsideNotes(s, paras[0]);
      var t := s.(data := s.data + TextOf(a));
      ParagraphsOutsideNotes(t, paras[1..]);
      TextOfAppend(a, b);
      assert t.data + TextOf(b) == s.data + TextOf(a + b);
    }
  }

  /** Inside a freshly opened notes frame, paragraphs and then inert events
      give one line per paragraph and leave the trailing text in the
      buffer. */
  lemma NotesFrameInside(s: State, paras: seq<Paragraph>, tail: seq<Event>)
    requires s.inNotes && s.data == [] && AllWellFormed(paras) && AllInert(tail)
    ensures Run(s, ParagraphsEvents(paras) + tail)
         == s.(data := TextOf(tail), out := s.out + NoteLines(paras))
  {
    var body := ParagraphsEvents(paras);
    var t := s.(out := s.out + NoteLines(paras));
    calc {
      Run(s, body + tail);
      { RunAppend(s, body, tail); }
      Run(Run(s, body), tail);
      { ParagraphsInNotes(s, paras); }
      Run(t, tail);
      { InertRun(t, tail); }
      t.(data := [] + TextOf(tail));
      { assert [] + TextOf(tail) == TextOf(tail); }
      s.(data := TextOf(tail), out := s.out + NoteLines(paras));
    }
  }

  /** A notes frame whose content is paragraphs followed by inert events
      (typically the text-box end) yields exactly one line per paragraph, in
      order, an empty paragraph giving the line "\n". Text collected before
      the frame is discarded; the text after the last paragraph stays in the
      buffer; afterwards no notes frame is open. */
  lemma NotesFrameLines(s: State, attrs: map<Name, string>, paras: seq<Paragraph>, tail: seq<Event>)
    requires IsNotesFrame(attrs) && AllWellFormed(paras) && AllInert(tail)
    ensures Run(s, FrameEvents(attrs, ParagraphsEvents(paras) + tail))
         == s.(inNotes := false, data := TextOf(tail), out := s.out + NoteLines(paras))
  {
    var inner := ParagraphsEvents(paras) + tail;
    var s1 := s.(inNotes := true, data := []);
    assert Step(s, Start(DrawFrame, attrs)) == s1;
    assert FrameEvents(attrs, inner) == [Start(DrawFrame, attrs)] + (inner + [End(DrawFrame)]);
    RunCons(s, Start(DrawFrame, attrs), inner + [End(DrawFrame)]);
    RunSnoc(s1, inner, End(DrawFrame));
    NotesFrameInside(s1, paras, tail);
  }

  /** A frame that is not a notes frame, met while no notes frame is open,
      adds nothing to the output, whatever it contains short of page events
      and notes frames; its text only accumulates in the buffer. */
  lemma OtherFrameSilent(s: State, attrs: map<Name, string>, inner: seq<Event>)
    requires !s.inNotes && !IsNotesFrame(attrs) && AllQuiet(inner)
    ensures Run(s, FrameEvents(attrs, inner)) == s.(data := s.data + TextOf(inner))
  {
    var open := [Start(DrawFrame, attrs)];
    NamesDistinct();
    RunCons(s, open[0], []);
    assert Run(s, open) == s;
    QuietRun(s, inner);
    var t := s.(data := s.data + TextOf(inner));
    RunAppend(s, open, inner);
    RunSnoc(s, open + inner, End(DrawFrame));
    assert Step(t, End(DrawFrame)) == t;
  }

  /** The classes that open a notes frame are exactly the sixteen substrings
      of "notes", among them the empty string and "note"; "Notes",
      "notes " and "outline" are not among them. */
  const NotesSubstrings: set<string> := {
    "", "n", "o", "t", "e", "s", "no", "ot", "te", "es",
    "not", "ote", "tes", "note", "otes", "notes"
  }

  /** The substring of "notes" at i of length k is one of the sixteen. */
  lemma SliceOfNotes(i: nat, k: nat)
    requires i + k <= 5
    ensures "notes"[i..i + k] in NotesSubstrings
  {
    var hay := "notes";
    assert hay == ['n', 'o', 't', 'e', 's'];
    if i == 0 {
      if k == 0 {
        assert hay[0..0] == [];
      } else if k == 1 {
        assert hay[0..1] == ['n'] by {
          assert |hay[0..1]| == 1 && hay[0..1][0] == 'n';
        }
      } else if k == 2 {
        assert hay[0..2] == ['n', 'o'] by {
          assert |hay[0..2]| == 2 && hay[0..2][0] == 'n' && hay[0..2][1] == 'o';
        }
      } else if k == 3 {
        assert hay[0..3] == ['n', 'o', 't'] by {
          assert |hay[0..3]| == 3 && hay[0..3][0] == 'n' && hay[0..3][1] == 'o' && hay[0..3][2] == 't';
        }
      } else if k == 4 {
        assert hay[0..4] == ['n', 'o', 't', 'e'] by {
          assert |hay[0..4]| == 4 && hay[0..4][0] == 'n' && hay[0..4][1] == 'o' && hay[0..4][2] == 't' && hay[0..4][3] == 'e';
        }
      } else {
        assert hay[0..5] == ['n', 'o', 't', 'e', 's'] by {
          assert |hay[0..5]| == 5 && hay[0..5][0] == 'n' && hay[0..5][1] == 'o' && hay[0..5][2] == 't' && hay[0..5][3] == 'e' && hay[0..5][4] == 's';
        }
      }
    } else if i == 1 {
      if k == 0 {
        assert hay[1..1] == [];
      } else if k == 1 {
        assert hay[1..2] == ['o'] by {
          assert |hay[1..2]| == 1 && hay[1..2][0] == 'o';
        }
      } else if k == 2 {
        assert hay[1..3] == ['o', 't'] by {
          assert |hay[1..3]| == 2 && hay[1..3][0] == 'o' && hay[1..3][1] == 't';
        }
      } else if k == 3 {
        assert hay[1..4] == ['o', 't', 'e'] by {
          assert |hay[1..4]| == 3 && hay[1..4][0] == 'o' && hay[1..4][1] == 't' && hay[1..4][2] == 'e';
        }
      } else {
        assert hay[1..5] == ['o', 't', 'e', 's'] by {
          assert |hay[1..5]| == 4 && hay[1..5][0] == 'o' && hay[1..5][1] == 't' && hay[1..5][2] == 'e' && hay[1..5][3] == 's';
        }
      }
    } else if i == 2 {
      if k == 0 {
        assert hay[2..2] == [];
      } else if k == 1 {
        assert hay[2..3] == ['t'] by {
          assert |hay[2..3]| == 1 && hay[2..3][0] == 't';
        }
      } else if k == 2 {
        assert hay[2..4] == ['t', 'e'] by {
          assert |hay[2..4]| == 2 && hay[2..4][0] == 't' && hay[2..4][1] == 'e';
        }
      } else {
        assert hay[2..5] == ['t', 'e', 's'] by {
          assert |hay[2..5]| == 3 && hay[2..5][0] == 't' && hay[2..5][1] == 'e' && hay[2..5][2] == 's';
        }
      }
    } else if i == 3 {
      if k == 0 {
        assert hay[3..3] == [];
      } else if k == 1 {
        assert hay[3..4] == ['e'] by {
          assert |hay[3..4]| == 1 && hay[3..4][0] == 'e';
        }
      } else {
        assert hay[3..5] == ['e', 's'] by {
          assert |hay[3..5]| == 2 && hay[3..5][0] == 'e' && hay[3..5][1] == 's';
        }
      }
    } else if i == 4 {
      if k == 0 {
        assert hay[4..4] == [];
      } else {
        assert hay[4..5] == ['s'] by {
          assert |hay[4..5]| == 1 && hay[4..5][0] == 's';
        }
      }
    } else {
      assert hay[5..5] == [];
    }
  }

  /** Each of the sixteen occurs in "notes". */
  lemma NotesSubstringOccurs(v: string)
    requires v in NotesSubstrings
    ensures exists i :: OccursAt(v, "notes", i)
  {
    var hay := "notes";
    assert hay == ['n', 'o', 't', 'e', 's'];
    if v == "" {
      assert hay[0..0] == [];
      assert OccursAt(v, hay, 0);
    } else if v == "n" {
      assert hay[0..1] == ['n'] by {
        assert |hay[0..1]| == 1 && hay[0..1][0] == 'n';
      }
      assert OccursAt(v, hay, 0);
    } else if v == "o" {
      assert hay[1..2] == ['o'] by {
        assert |hay[1..2]| == 1 && hay[1..2][0] == 'o';
      }
      assert OccursAt(v, hay, 1);
    } else if v == "t" {
      assert hay[2..3] == ['t'] by {
        assert |hay[2..3]| == 1 && hay[2..3][0] == 't';
      }
      assert OccursAt(v, hay, 2);
    } else if v == "e" {
      assert hay[3..4] == ['e'] by {
        assert |hay[3..4]| == 1 && hay[3..4][0] == 'e';
      }
      assert OccursAt(v, hay, 3);
    } else if v == "s" {
      assert hay[4..5] == ['s'] by {
        assert |hay[4..5]| == 1 && hay[4..5][0] == 's';
      }
      assert OccursAt(v, hay, 4);
    } else if v == "no" {
      assert hay[0..2] == ['n', 'o'] by {
        assert |hay[0..2]| == 2 && hay[0..2][0] == 'n' && hay[0..2][1] == 'o';
      }
      assert OccursAt(v, hay, 0);
    } else if v == "ot" {
      assert hay[1..3] == ['o', 't'] by {
        assert |hay[1..3]| == 2 && hay[1..3][0] == 'o' && hay[1..3][1] == 't';
      }
      assert OccursAt(v, hay, 1);
    } else if v == "te" {
      assert hay[2..4] == ['t', 'e'] by {
        assert |hay[2..4]| == 2 && hay[2..4][0] == 't' && hay[2..4][1] == 'e';
      }
      assert OccursAt(v, hay, 2);
    } else if v == "es" {
      assert hay[3..5] == ['e', 's'] by {
        assert |hay[3..5]| == 2 && hay[3..5][0] == 'e' && hay[3..5][1] == 's';
      }
      assert OccursAt(v, hay, 3);
    } else if v == "not" {
      assert hay[0..3] == ['n', 'o', 't'] by {
        assert |hay[0..3]| == 3 && hay[0..3][0] == 'n' && hay[0..3][1] == 'o' && hay[0..3][2] == 't';
      }
      assert OccursAt(v, hay, 0);
    } else if v == "ote" {
      assert hay[1..4] == ['o', 't', 'e'] by {
        assert |hay[1..4]| == 3 && hay[1..4][0] == 'o' && hay[1..4][1] == 't' && hay[1..4][2] == 'e';
      }
      assert OccursAt(v, hay, 1);
    } else if v == "tes" {
      assert hay[2..5] == ['t', 'e', 's'] by {
        assert |hay[2..5]| == 3 && hay[2..5][0] == 't' && hay[2..5][1] == 'e' && hay[2..5][2] == 's';
      }
      assert OccursAt(v, hay, 2);
    } else if v == "note" {
      assert hay[0..4] == ['n', 'o', 't', 'e'] by {
        assert |hay[0..4]| == 4 && hay[0..4][0] == 'n' && hay[0..4][1] == 'o' && hay[0..4][2] == 't' && hay[0..4][3] == 'e';
      }
      assert OccursAt(v, hay, 0);
    } else if v == "otes" {
      assert hay[1..5] == ['o', 't', 'e', 's'] by {
        assert |hay[1..5]| == 4 && hay[1..5][0] == 'o' && hay[1..5][1] == 't' && hay[1..5][2] == 'e' && hay[1..5][3] == 's';
      }
      assert OccursAt(v, hay, 1);
    } else {
      assert v == "notes";
      assert hay[0..5] == ['n', 'o', 't', 'e', 's'] by {
        assert |hay[0..5]| == 5 && hay[0..5][0] == 'n' && hay[0..5][1] == 'o' && hay[0..5][2] == 't' && hay[0..5][3] == 'e' && hay[0..5][4] == 's';
      }
      assert OccursAt(v, hay, 0);
    }
  }

  lemma NotesClassesOnly(v: string)
    requires IsSubstring(v, "notes")
    ensures v in NotesSubstrings
  {
    var i :| OccursAt(v, "notes", i);
    SliceOfNotes(i, |v|);
  }

  lemma NotesClassesAll(v: string)
    requires v in NotesSubstrings
    ensures IsSubstring(v, "notes")
  {
    NotesSubstringOccurs(v);
  }

  /** The presentation:class values that open a notes frame are exactly the
      sixteen substrings of "notes". */
  lemma NotesClasses(v: string)
    ensures IsSubstring(v, "notes") <==> v in NotesSubstrings
  {
    if IsSubstring(v, "notes") {
      NotesClassesOnly(v);
    }
    if v in NotesSubstrings {
      NotesClassesAll(v);
    }
  }

  /** The frame test at a draw:frame start: the frame has a
      presentation:class attribute whose value is one of the sixteen
      substrings of "notes". A frame without the attribute never passes. */
  lemma NotesFrameTest(attrs: map<Name, string>)
    ensures IsNotesFrame(attrs)
        <==> PresentationClass in attrs && attrs[PresentationClass] in NotesSubstrings
  {
    if PresentationClass in attrs {
      NotesClasses(attrs[PresentationClass]);
    }
  }
}
