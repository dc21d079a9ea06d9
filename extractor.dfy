/** The notes extractor as a pure state machine: the state the handler keeps,
    the effect of one parse event on it, and the effect of a whole event
    stream. The class in Odp2Notes is proved to follow this definition. */
module Extractor {
  import opened OdfNames
  import Decimal

  /** The handler's four fields: the page counter, whether a notes frame is
      open, the text fragments collected since the last flush, and the output
      lines. */
  datatype State = State(pagenum: nat, inNotes: bool, data: seq<string>, out: seq<string>)

  /** The state of a fresh handler whose output list is `eater`. */
  function Initial(eater: seq<string>): State {
    State(0, false, [], eater)
  }

  /** The page-start marker template, filled in with a page number. */
  function PageHeader(page: nat): string {
    "<!-- page " + Decimal.FromNat(page) + " start -->"
  }

  /** The page-end marker template, filled in with a page number. */
  function PageFooter(page: nat): string {
    "<!-- page " + Decimal.FromNat(page) + " end -->"
  }

  lemma MarkerSlices(prefix: string, num: string, suffix: string)
    ensures var m := prefix + num + suffix;
      m[..|prefix|] == prefix && m[|prefix|..|m| - |suffix|] == num && m[|m| - |suffix|..] == suffix
  {
  }

  /** The page number can be read back from a start marker: between the
      fixed prefix and suffix it is written without superfluous leading
      zeros, and its value is the page. */
  lemma HeaderReadsBack(page: nat)
    ensures var h := PageHeader(page);
      |h| > 20 && h[..10] == "<!-- page " && h[|h| - 10..] == " start -->"
      && Decimal.IsCanonical(h[10..|h| - 10]) && Decimal.ToNat(h[10..|h| - 10]) == page
  {
    MarkerSlices("<!-- page ", Decimal.FromNat(page), " start -->");
    Decimal.RoundTrip(page);
  }

  /** The same for an end marker. */
  lemma FooterReadsBack(page: nat)
    ensures var f := PageFooter(page);
      |f| > 18 && f[..10] == "<!-- page " && f[|f| - 8..] == " end -->"
      && Decimal.IsCanonical(f[10..|f| - 8]) && Decimal.ToNat(f[10..|f| - 8]) == page
  {
    MarkerSlices("<!-- page ", Decimal.FromNat(page), " end -->");
    Decimal.RoundTrip(page);
  }

  /** The concatenation of a list of fragments (Python's ''.join). */
  function Join(parts: seq<string>): string
    decreases |parts|
  {
    if parts == [] then "" else parts[0] + Join(parts[1..])
  }

  /** needle occurs in hay starting at index i. */
  predicate OccursAt(needle: string, hay: string, i: int) {
    0 <= i && i + |needle| <= |hay| && hay[i..i + |needle|] == needle
  }

  /** Python's `needle in hay` on two strings: a substring test. */
  function IsSubstring(needle: string, hay: string): (b: bool)
    ensures b <==> exists i :: OccursAt(needle, hay, i)
    decreases |hay|
  {
    if |needle| > |hay| then false
    else if hay[..|needle|] == needle then assert OccursAt(needle, hay, 0); true
    else
      var b := IsSubstring(needle, hay[1..]);
      assert forall j :: OccursAt(needle, hay[1..], j) ==> OccursAt(needle, hay, j + 1) by {
        forall j | OccursAt(needle, hay[1..], j) ensures OccursAt(needle, hay, j + 1) {
          assert hay[1..][j..j + |needle|] == hay[j + 1..j + 1 + |needle|];
        }
      }
      assert forall i :: OccursAt(needle, hay, i) ==> OccursAt(needle, hay[1..], i - 1) by {
        forall i | OccursAt(needle, hay, i) ensures OccursAt(needle, hay[1..], i - 1) {
          assert i != 0;
          assert hay[1..][i - 1..i - 1 + |needle|] == hay[i..i + |needle|];
        }
      }
      b
  }

  /** The test applied to a draw:frame start: the frame has a
      presentation:class attribute and its value is a substring of "notes"
      (the source writes ('notes'), a string rather than a one-element
      tuple, so `in` tests for a substring). */
  predicate IsNotesFrame(attrs: map<Name, string>) {
    PresentationClass in attrs && IsSubstring(attrs[PresentationClass], "notes")
  }

  /** The effect of one parse event. The output only ever grows, by at most
      one line, and the page counter never goes down. */
  function Step(s: State, e: Event): (t: State)
    ensures s.out <= t.out && |t.out| <= |s.out| + 1
    ensures s.pagenum <= t.pagenum <= s.pagenum + 1
  {
    match e
    case Chars(text) => s.(data := s.data + [text])
    case Start(name, attrs) =>
      if name == DrawPage then
        s.(pagenum := s.pagenum + 1, out := s.out + [PageHeader(s.pagenum + 1)])
      else if name == DrawFrame && IsNotesFrame(attrs) then
        s.(inNotes := true, data := [])
      else s
    case End(name) =>
      if name == TextP && s.inNotes then
        s.(data := [], out := s.out + [Join(s.data) + "\n"])
      else if name == DrawFrame && s.inNotes then
        s.(inNotes := false)
      else if name == DrawPage then
        s.(inNotes := false, out := s.out + [PageFooter(s.pagenum)])
      else s
  }

  /** The effect of a stream of parse events, in order. */
  function Run(s: State, events: seq<Event>): State
    decreases |events|
  {
    if events == [] then s else Run(Step(s, events[0]), events[1..])
  }

  /** The output lines for a whole content stream, from a fresh handler. */
  function Extract(events: seq<Event>): seq<string> {
    Run(Initial([]), events).out
  }

  /** The two MIME types the tool accepts, as listed in its tuple. */
  const PresentationMime: string := "application/vnd.oasis.opendocument.presentation"
  const PresentationTemplateMime: string := "application/vnd.oasis.opendocument.presentation-template"
  const SupportedMimes: seq<string> := [PresentationMime, PresentationTemplateMime]

  /** Membership in the tuple of supported types: an exact match with one of
      the two, no prefix or case-insensitive matching. */
  function IsSupportedMime(mimetype: string): (ok: bool)
    ensures ok <==> mimetype == PresentationMime || mimetype == PresentationTemplateMime
  {
    mimetype in SupportedMimes
  }
}
