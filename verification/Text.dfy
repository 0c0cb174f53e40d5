/** String operations of the runtime and of the database, on sequences of characters. */
module Text {
  /** The white space and line terminators that String.prototype.trim removes. */
  predicate IsSpace(c: char) {
    || '\U{0009}' <= c <= '\U{000D}' || c == ' ' || c == '\U{00A0}' || c == '\U{1680}' || '\U{2000}' <= c <= '\U{200A}'
    || c == '\U{2028}' || c == '\U{2029}' || c == '\U{202F}' || c == '\U{205F}' || c == '\U{3000}' || c == '\U{FEFF}'
  }

  function TrimLeft(s: string): string
    decreases |s|
  {
    if s != [] && IsSpace(s[0]) then TrimLeft(s[1..]) else s
  }

  function TrimRight(s: string): string
    decreases |s|
  {
    if s != [] && IsSpace(s[|s| - 1]) then TrimRight(s[..|s| - 1]) else s
  }

  function Trim(s: string): string { TrimRight(TrimLeft(s)) }

  /** Nothing to trim at either end. */
  predicate Trimmed(s: string) { s != [] ==> !IsSpace(s[0]) && !IsSpace(s[|s| - 1]) }

  lemma {:induction false} TrimRightEnds(s: string)
    ensures TrimRight(s) != [] ==> !IsSpace(TrimRight(s)[|TrimRight(s)| - 1])
    ensures s != [] && !IsSpace(s[0]) ==> TrimRight(s) != [] && TrimRight(s)[0] == s[0]
    decreases |s|
  {
    if s != [] && IsSpace(s[|s| - 1]) {
      TrimRightEnds(s[..|s| - 1]);
    }
  }

  lemma TrimmedIsFixed(s: string)
    requires Trimmed(s)
    ensures Trim(s) == s
  {
  }
}
