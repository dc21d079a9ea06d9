/** The part of the OpenDocument vocabulary that the notes extractor looks at,
    and the parse events a namespace-aware SAX parser delivers to it. */
module OdfNames {

  /** Namespace URIs of OASIS OpenDocument 1.2 Part 1. The extractor only
      compares names for equality, so all the model relies on is that the
      three are distinct. */
  const TextNs: string := "urn:oasis:names:tc:opendocument:xmlns:text:1.0"
  const DrawNs: string := "urn:oasis:names:tc:opendocument:xmlns:drawing:1.0"
  const PresentationNs: string := "urn:oasis:names:tc:opendocument:xmlns:presentation:1.0"

  /** A namespace-qualified name, the pair (namespace URI, local name) that the
      parser passes for elements and uses as the key of attributes. A name
      without a namespace has ns == "". */
  datatype Name = Name(ns: string, local: string)

  /** draw:page, one slide (OpenDocument 1.2 Part 1, section 9.1.4). */
  const DrawPage: Name := Name(DrawNs, "page")
  /** draw:frame, a frame on a slide or on its notes page
      (OpenDocument 1.2 Part 1, section 10.4.2). */
  const DrawFrame: Name := Name(DrawNs, "frame")
  /** draw:text-box, the usual sole child of a text frame. */
  const DrawTextBox: Name := Name(DrawNs, "text-box")
  /** text:p, a paragraph (OpenDocument 1.2 Part 1, section 5.1.3). */
  const TextP: Name := Name(TextNs, "p")
  /** The presentation:class attribute. */
  const PresentationClass: Name := Name(PresentationNs, "class")

  /** One parse event: an element start with its attributes, an element end,
      or a run of character data. The parser's qualified-name argument is
      never consulted by the handler and is not carried. */
  datatype Event =
    | Start(name: Name, attrs: map<Name, string>)
    | End(name: Name)
    | Chars(text: string)

  lemma NamesDistinct()
    ensures DrawPage != DrawFrame && DrawPage != TextP && DrawFrame != TextP
    ensures DrawTextBox != DrawPage && DrawTextBox != DrawFrame && DrawTextBox != TextP
  {
  }
}
