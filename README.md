# odp2notes in Dafny

odp2notes extracts the speaker notes of an OpenDocument presentation. It
checks the archive's declared MIME type. It then runs a SAX content handler
over `content.xml`. The handler writes a start marker and an end marker for
every slide (`draw:page` element). Between them it writes one line for each
paragraph (`text:p`) of the slide's notes frame. A notes frame is a
`draw:frame` whose `presentation:class` attribute passes the notes test.

This project models that handler and the MIME test:

- `odf_names.dfy` (module `OdfNames`): the namespace URIs, the element names
  the handler compares against, and the parse events (`Start`, `End`,
  `Chars`). A name is a (namespace URI, local name) pair. The attributes of a
  start event are a map from names to values.
- `decimal.dfy` (module `Decimal`): decimal numerals for the page numbers in
  the markers, with the parse-back round trip.
- `extractor.dfy` (module `Extractor`): the handler as a pure state machine.
  `State` holds the handler's four fields. `Step` gives the effect of one
  event and `Run` the effect of a stream. `Extract` starts from a fresh handler.
  This module also holds the marker templates, the substring test used for
  the notes class, and the MIME acceptance function.
- `odp2notes.dfy` (module `Odp2Notes`): the handler itself, as the class
  `SlideHandler`. Its fields `r`, `data`, `pagenum` and `inNotes` are updated
  in place, one method per SAX callback. `Feed` is the parser's loop over the
  events. `OdtNotes` refuses unsupported MIME types, runs a fresh handler and
  returns its lines. Every callback method is proved to agree with `Step`, and
  `Feed` with `Run`.
- `extractor_facts.dfy` (module `ExtractorFacts`): properties of whole runs.
  These cover page counting, append-only output, and the order of the page
  markers on well-nested documents. They also prove that a notes frame yields
  exactly one line per paragraph and that other frames add nothing.
- `examples_run.dfy` (module `NotesExamples`): a two-slide presentation
  worked through line by line, plus some MIME near misses.

Behaviour worth noting, modelled as the code has it:

- There is no speech-markup output mode. The two marker templates
  (odp2notes.py:28-29) are constants.
- A `draw:page` start does not close an open notes frame. Only the
  `draw:page` end and a `draw:frame` end do (odp2notes.py:68-72).
- Empty notes paragraphs are not dropped. The line tested at odp2notes.py:66
  always ends in `"\n"`, so the length test always passes and an empty
  paragraph yields the line `"\n"`. `EndElementNS` keeps the test. Its
  postcondition forces the append, so the test always passes.
- Character data between two paragraphs of a notes frame is not discarded.
  Whitespace between elements, for instance, opens the next paragraph's line.
  The buffer is emptied only when a notes frame opens and when a paragraph
  ends inside a notes frame (odp2notes.py:60, 63-65). So whitespace `ws`
  followed by a paragraph holding `text` gives the line `ws + text + "\n"`
  (`NotesExamples.LeadingTextJoinsNextLine`). The same holds for text inside
  the `draw:text-box` before its first paragraph.
- Text after the last paragraph of a notes frame never reaches a line. It
  stays in the buffer, together with any text met outside notes frames,
  until the next notes frame opens and discards it (odp2notes.py:60).
- The notes test is a substring test. `('notes')` at odp2notes.py:58 is a
  string, not a one-element tuple. A frame is therefore a notes frame when its
  class value is one of the sixteen substrings of `"notes"`. That includes the
  empty string, `"note"` and `"s"`, but not `"Notes"` or `"notes "`
  (`ExtractorFacts.NotesClasses`).
- Notes lines already end in `"\n"`. The command-line loop prints each line
  with a further newline, so printed notes are followed by blank lines. The
  model stops at the list of lines.

The namespace constants come from `odf.namespaces`. That module is not part of
this model. The model uses the standard OpenDocument URIs and relies only on
the three being distinct.

## Model

| member | source | states |
|---|---|---|
| `Odp2Notes.SlideHandler.constructor` | odp2notes.py:44-48 | the output list is the given one, the buffer is empty, the page counter is 0 and no notes frame is open |
| `Odp2Notes.SlideHandler.Characters` | odp2notes.py:50-51 | the fragment is appended to the buffer whether or not a notes frame is open; nothing else changes |
| `Odp2Notes.SlideHandler.StartElementNS` | odp2notes.py:53-60 | a page start adds 1 to the counter and appends the start marker with the new number, leaving the notes flag alone; a frame start opens a notes frame and empties the buffer exactly when the frame passes the notes test; any other start changes nothing; the new state is `Step` of the old |
| `Odp2Notes.SlideHandler.EndElementNS` | odp2notes.py:62-72 | a paragraph end inside a notes frame appends exactly the joined buffer plus a newline and empties the buffer; outside one it changes nothing; a frame end closes the notes frame; a page end appends the end marker with the current number and closes the notes frame; the counter never changes; the new state is `Step` of the old |
| `Odp2Notes.SlideHandler.Feed` | odp2notes.py:89-91 | the parser's one callback per event, in order, leaves the handler in `Run` of its old state over the stream |
| `Odp2Notes.OdtNotes` | odp2notes.py:74-92 | a supported MIME type gives the lines of a fresh handler run over the content stream; any other type is refused with no lines |
| `Extractor.IsSupportedMime` | odp2notes.py:81-82 | accepted exactly when the type equals one of the two presentation types |
| `Extractor.IsSubstring` | odp2notes.py:58 | Python's `in` on strings: true exactly when the needle occurs at some position of the haystack |
| `Extractor.Step` | odp2notes.py:50-72 | one event never alters earlier output lines, adds at most one line, and raises the page counter by at most one, never lowering it |
| `Decimal.FromNat` | odp2notes.py:56 | the page number as `str` renders it: at least one digit, only digits, a leading zero exactly for 0, and a single digit exactly below ten, so 0 gives `"0"` and not `"00"` |
| `Decimal.RoundTrip` | odp2notes.py:56 | reading the rendered page number back gives the number |
| `Decimal.FromNatCanonical` | odp2notes.py:56 | the rendering has no superfluous leading zero, and 0 renders as `"0"` |
| `Decimal.Canonical` | odp2notes.py:56 | every numeral without superfluous leading zeros is the rendering of its value, so the rendering of each number is the only such numeral |
| `Extractor.HeaderReadsBack` | odp2notes.py:28 | a start marker is `"<!-- page "`, a canonical numeral whose value is the page, and `" start -->"` |
| `Extractor.FooterReadsBack` | odp2notes.py:29 | an end marker is `"<!-- page "`, a canonical numeral whose value is the page, and `" end -->"` |
| `ExtractorFacts.NotesFrameTest` | odp2notes.py:57-58 | a frame passes the notes test exactly when it has a `presentation:class` attribute and the value is one of the sixteen substrings of `"notes"` |
| `ExtractorFacts.RunAppend` | odp2notes.py:89-91 | the parser's pass over a stream is a left fold of the callbacks: running two streams one after the other equals running their concatenation |
| `ExtractorFacts.JoinAppend` | odp2notes.py:64 | `''.join` distributes over concatenation of the fragment lists |
| `ExtractorFacts.PageCount` | odp2notes.py:47-55 | after any stream the counter has gone up by exactly the number of page starts in it |
| `ExtractorFacts.PagesCounted` | odp2notes.py:47-55 | from a fresh handler the counter equals the number of page starts seen |
| `ExtractorFacts.OutputGrows` | odp2notes.py:53-72 | over any stream the old output is a prefix of the new one, with at most one line added per event |
| `ExtractorFacts.StepOutput` | odp2notes.py:53-72 | a page start appends its start marker, a page end appends its end marker, and any other event appends nothing or the joined buffer plus a newline |
| `ExtractorFacts.MarkersOfRun` | odp2notes.py:54-71 | on any stream, well-formed or not, the marker lines appended are exactly those its page starts and ends dictate, in order |
| `ExtractorFacts.DocumentMarkersFrom` | odp2notes.py:54-71 | a preamble without pages followed by N non-nested slides appends markers start p+1, end p+1, …, start p+N, end p+N and leaves the counter at p+N |
| `ExtractorFacts.DocumentMarkers` | odp2notes.py:54-71 | from a fresh handler the markers of an N-slide document are start 1, end 1, …, start N, end N, and the counter ends at N |
| `ExtractorFacts.ExpectedMarkersAt` | odp2notes.py:28-29 | in that marker list, position 2k holds the start marker of page p+k+1 and position 2k+1 its end marker |
| `ExtractorFacts.MarkersDistinct` | odp2notes.py:28-29 | markers of different pages differ, and no start marker equals an end marker |
| `ExtractorFacts.CharsRun` | odp2notes.py:50-51 | a run of character events appends exactly its fragments to the buffer and changes nothing else |
| `ExtractorFacts.InertRun` | odp2notes.py:50-72 | events that are character data, starts other than page and frame starts, or ends other than page, frame and paragraph ends only append their fragments to the buffer, inside a notes frame or not |
| `ExtractorFacts.QuietRun` | odp2notes.py:50-72 | with no notes frame open, any events short of page events and notes-frame starts add no line and leave the frame closed; their fragments accumulate in the buffer |
| `ExtractorFacts.ParagraphInNotes` | odp2notes.py:63-67 | inside a notes frame, a paragraph with any attributes, any inert events before it and any inert content (text, spans, spaces, line breaks) appends one line: the pending buffer, the text before it and its own text, joined, plus a newline; the buffer ends empty |
| `ExtractorFacts.ParagraphOutsideNotes` | odp2notes.py:63-67 | outside a notes frame such a paragraph appends no line, and all its character data stays in the buffer |
| `ExtractorFacts.ParagraphsInNotes` | odp2notes.py:60-67 | inside a notes frame with an empty buffer (as a notes-frame start leaves it), a sequence of such paragraphs appends one line per paragraph, in order, each from the text since the previous paragraph end |
| `ExtractorFacts.ParagraphsOutsideNotes` | odp2notes.py:63-67 | outside a notes frame such paragraphs append nothing and their character data accumulates in the buffer |
| `ExtractorFacts.NotesFrameLines` | odp2notes.py:57-69 | a notes frame holding such paragraphs and then inert events (the text-box end, say), from any state, appends exactly one line per paragraph, an empty one giving `"\n"`; it drops the text collected before the frame, keeps the trailing text in the buffer and closes the notes frame |
| `ExtractorFacts.OtherFrameSilent` | odp2notes.py:57-69 | a frame failing the notes test, outside any notes frame, with any content short of page events and notes frames, appends nothing, leaves the notes flag false and only adds its text to the buffer |
| `ExtractorFacts.NotesClasses` | odp2notes.py:58 | a class value passes the notes test exactly when it is one of the sixteen substrings of `"notes"` |
| `NotesExamples.LeadingTextJoinsNextLine` | odp2notes.py:50-67 | inside a notes frame with an empty buffer, whitespace before a paragraph becomes the start of that paragraph's line |
| `NotesExamples.TwoSlidesLines` | odp2notes.py:53-72 | a slide with a title frame and two notes paragraphs, then a slide without notes, gives start 1, the two lines, end 1, start 2, end 2 |
| `NotesExamples.MarkerTexts` | odp2notes.py:28-29 | the markers of pages 1 and 2 are `<!-- page 1 start -->`, `<!-- page 1 end -->`, `<!-- page 2 start -->` and `<!-- page 2 end -->` |
| `NotesExamples.MimeNearMisses` | odp2notes.py:81-82 | both presentation types are accepted; the text type, a trailing newline and a truncated template type are refused |
| `OdfNames.NamesDistinct` | odp2notes.py:24 | the element names the handler compares against are pairwise distinct |

## Left out

- Reading archive members (`getxmlpart`, odp2notes.py:31-36) is left out because it is zip I/O. The model takes the MIME type as a string and the content as an already-parsed event stream.
- The SAX parser is left out (`make_parser`, `setFeature`, `InputSource`, `parse` and the error handler, odp2notes.py:78-79, 87-91). This includes namespace resolution and the abort on malformed XML. `Feed` stands in for the parser's loop.
- UTF-8 decoding of the MIME type and the content (odp2notes.py:81, 90) is left out. Both are modelled as strings already decoded.
- The command-line block (odp2notes.py:95-105) and the message and `sys.exit(2)` at odp2notes.py:85-86 are left out. Refusal is the result `Err(UnsupportedFileFormat)`.
- Odp2Notes.OdtNotes: the source reads `content.xml` before testing the MIME type, so a missing member fails first there. The model has no archive and does not capture that order.
- Odp2Notes.SlideHandler.constructor: the source's output list is the caller's list, shared by reference. The model copies it into the field `r`, and `OdtNotes` returns the field, so aliasing is not modelled.
- The qualified-name argument of the callbacks is left out because the handler never reads it. The callbacks inherited from `ContentHandler` are left out because they do nothing.
- A name with no namespace, which the parser gives as `None`, is modelled as the empty namespace string. None of the compared namespaces equals it.
- The speech-markup mode is not modelled, because the code has no such mode.
- ExtractorFacts.NotesFrameLines: covers notes frames whose content is paragraphs followed by inert events. A notes frame that holds a nested `draw:frame` or a page event is described only by `Step` and `Run`, not by a lemma of its own.
- ExtractorFacts.ParagraphsInNotes: assumes an empty buffer at the first paragraph, as a notes-frame start leaves it. A non-empty pending buffer is covered one paragraph at a time by `ParagraphInNotes`.
- ExtractorFacts.OtherFrameSilent: covers frames met while no notes frame is open. Inside an open notes frame, a nested frame's end closes the notes frame (odp2notes.py:68-69). That case is left to `Step`.
