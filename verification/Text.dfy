/** White space, as the Unicode standard and Go's strings.TrimSpace see it. */
module Text {

  predicate IsSpace(ch: char) {
    ch in "\t\n\r \U{0B}\U{0C}\U{85}\U{A0}\U{1680}\U{2028}\U{2029}\U{202F}\U{205F}\U{3000}"
    || '\U{2000}' <= ch <= '\U{200A}'
  }

  /** Nothing is left of the text once it is trimmed. */
  predicate Blank(s: string) {
    forall ch :: ch in s ==> IsSpace(ch)
  }
}
