/**
 * The configuration document as the XML decoder hands it over: a flat list of tokens.
 * Names are local names; the encoder's indentation is not part of the model.
 */
module XmlTokens {
  datatype Attr = Attr(name: string, value: string)

  datatype Token =
    | Start(name: string, attrs: seq<Attr>)
    | End(name: string)
    | Other(text: string)  // character data, comments, processing instructions, directives

  /**
   * What the decoder produces for one document: the tokens it yields, in order, and whether
   * it then stops with a read error (malformed input) instead of reaching the end of input.
   */
  datatype Decoded = Decoded(tokens: seq<Token>, failed: bool)

  /** The only error a transform pass reports: the decoder could not read the next token. */
  datatype XmlError = TokenReadError
}
