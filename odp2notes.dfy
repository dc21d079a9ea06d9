/** The SAX content handler that extracts speaker notes from the content
    stream of an OpenDocument presentation, and the entry point that checks
    the document's MIME type before feeding the stream to it. */
module Odp2Notes {
  import opened OdfNames
  import opened Extractor
  import ExtractorFacts

  /** The handler's four fields, updated in place by one method per parse
      callback. */
  class SlideHandler {
    /** Output lines, appended to in place (the caller's list). */
    var r: seq<string>
    /** Text fragments collected since the last flush. */
    var data: seq<string>
    /** Number of draw:page elements started so far. */
    var pagenum: nat
    /** Whether a notes frame is open. */
    var inNotes: bool

    /** The fields as a value of the pure state machine. */
    function Snapshot(): State
      reads this
    {
      State(pagenum, inNotes, data, r)
    }

    constructor (eater: seq<string>)
      ensures r == eater && data == [] && pagenum == 0 && !inNotes
      ensures Snapshot() == Initial(eater)
    {
      r := eater;
      data := [];
      pagenum := 0;
      inNotes := false;
    }

    /** Character data is collected whether or not a notes frame is open. */
    method Characters(text: string)
      modifies this
      ensures data == old(data) + [text]
      ensures r == old(r) && pagenum == old(pagenum) && inNotes == old(inNotes)
      ensures Snapshot() == Step(old(Snapshot()), Chars(text))
    {
      data := data + [text];
    }

    /** A page start counts the page and writes its start marker; it does not
        close an open notes frame. A frame start opens a notes frame and
        empties the buffer exactly when its class is a substring of "notes".
        Every other element start changes nothing. */
    method StartElementNS(tag: Name, attrs: map<Name, string>)
      modifies this
      ensures tag == DrawPage ==>
        pagenum == old(pagenum) + 1 && r == old(r) + [PageHeader(pagenum)]
      ensures tag != DrawPage ==> pagenum == old(pagenum) && r == old(r)
      ensures tag == DrawFrame && IsNotesFrame(attrs) ==> inNotes && data == []
      ensures !(tag == DrawFrame && IsNotesFrame(attrs)) ==>
        inNotes == old(inNotes) && data == old(data)
      ensures Snapshot() == Step(old(Snapshot()), Start(tag, attrs))
    {
      if tag == DrawPage {
        pagenum := pagenum + 1;
        r := r + [PageHeader(pagenum)];
      }
      if tag == DrawFrame {
        if PresentationClass in attrs && IsSubstring(attrs[PresentationClass], "notes") {
          inNotes := true;
          data := [];
        }
      }
    }

    /** A paragraph end inside a notes frame flushes the buffer as one line
        ending in a newline; the emptiness test on that line never fails, so
        an empty paragraph yields "\n". Outside a notes frame it changes
        nothing. A frame end closes the notes frame, whatever its class. A
        page end writes the end marker and closes any notes frame. */
    method EndElementNS(tag: Name)
      modifies this
      ensures pagenum == old(pagenum)
      ensures tag == TextP && old(inNotes) ==>
        r == old(r) + [Join(old(data)) + "\n"] && data == [] && inNotes
      ensures tag == TextP && !old(inNotes) ==>
        r == old(r) && data == old(data) && !inNotes
      ensures tag == DrawFrame ==> r == old(r) && data == old(data) && !inNotes
      ensures tag == DrawPage ==>
        r == old(r) + [PageFooter(pagenum)] && data == old(data) && !inNotes
      ensures tag != TextP && tag != DrawFrame && tag != DrawPage ==>
        r == old(r) && data == old(data) && inNotes == old(inNotes)
      ensures Snapshot() == Step(old(Snapshot()), End(tag))
    {
      NamesDistinct();
      if tag == TextP && inNotes {
        var line := Join(data) + "\n";
        data := [];
        if |line| > 0 {
          r := r + [line];
        }
      }
      if tag == DrawFrame && inNotes {
        inNotes := false;
      }
      if tag == DrawPage {
        r := r + [PageFooter(pagenum)];
        inNotes := false;
      }
    }

    /** The parser's loop: one callback per event, in stream order. */
    method Feed(events: seq<Event>)
      modifies this
      ensures Snapshot() == Run(old(Snapshot()), events)
    {
      ghost var s0 := Snapshot();
      for i := 0 to |events|
        invariant Snapshot() == Run(s0, events[..i])
      {
        ExtractorFacts.RunSnoc(s0, events[..i], events[i]);
        assert events[..i + 1] == events[..i] + [events[i]];
        match events[i]
        case Start(name, attrs) => StartElementNS(name, attrs);
        case End(name) => EndElementNS(name);
        case Chars(text) => Characters(text);
      }
      assert events[..|events|] == events;
    }
  }

  datatype Error = UnsupportedFileFormat

  datatype Result<T> = Ok(value: T) | Err(error: Error)

  /** The notes of a presentation, given its declared MIME type and its
      already-parsed content stream. A MIME type other than the two
      presentation types is refused before any event is processed. */
  method OdtNotes(mimetype: string, content: seq<Event>) returns (res: Result<seq<string>>)
    ensures IsSupportedMime(mimetype) ==> res == Ok(Extract(content))
    ensures !IsSupportedMime(mimetype) ==> res == Err(UnsupportedFileFormat)
  {
    var lines: seq<string> := [];
    if !(mimetype in SupportedMimes) {
      return Err(UnsupportedFileFormat);
    }
    var handler := new SlideHandler(lines);
    handler.Feed(content);
    res := Ok(handler.r);
  }
}
