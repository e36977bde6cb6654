/**
 * Python's `repr` of a `str` and `str` of a `list` of strings, which is how
 * the post generator renders its category list.
 */
module PyRepr {
  import opened Text

  /** Characters `repr` writes as an escape: the ASCII control characters and DEL. */
  predicate IsControl(c: char) { c < ' ' || c == '\U{7f}' }

  /** A character that `repr` copies unchanged inside quotes `q`. */
  predicate PassesThrough(c: char, q: char) { c != q && c != '\\' && !IsControl(c) }

  /**
   * A string whose `repr` is the string itself between single quotes: no
   * single quote, no backslash and no control character.
   */
  predicate Plain(s: string) { forall i :: 0 <= i < |s| ==> PassesThrough(s[i], '\'') }

  predicate IsQuote(c: char) { c == '\'' || c == '"' }

  function HexDigit(n: nat): char
    requires n < 16
  {
    "0123456789abcdef"[n]
  }

  /**
   * `repr` quotes with `'` unless the text holds `'` and no `"`: the quote
   * chosen never occurs in the text when one of the two does not.
   */
  function QuoteFor(s: string): (q: char)
    ensures IsQuote(q)
    ensures ('\'' !in s || '"' !in s) ==> q !in s
    ensures q == '\'' <==> ('\'' !in s || '"' in s)
  {
    if '\'' in s && '"' !in s then '"' else '\''
  }

  /** How `repr` writes one character inside quotes `q`. */
  function EscapeChar(c: char, q: char): (e: string)
    requires IsQuote(q)
    ensures '\n' !in e
    ensures PassesThrough(c, q) <==> e == [c]
  {
    if c == q || c == '\\' then ['\\', c]
    else if c == '\t' then "\\t"
    else if c == '\n' then "\\n"
    else if c == '\r' then "\\r"
    else if IsControl(c) then ['\\', 'x', HexDigit(c as int / 16), HexDigit(c as int % 16)]
    else [c]
  }

  /** The text between the quotes of a `repr`. */
  function Escape(s: string, q: char): (r: string)
    requires IsQuote(q)
    ensures |r| >= |s|
    ensures '\n' !in r
    ensures (forall i :: 0 <= i < |s| ==> PassesThrough(s[i], q)) ==> r == s
  {
    if s == [] then [] else EscapeChar(s[0], q) + Escape(s[1..], q)
  }

  /** `repr(s)` for a `str`. */
  function StrRepr(s: string): (r: string)
    ensures |r| >= 2 && r[0] == QuoteFor(s) && r[|r| - 1] == QuoteFor(s)
    ensures '\n' !in r
    ensures Plain(s) ==> r == "'" + s + "'"
  {
    var q := QuoteFor(s);
    [q] + Escape(s, q) + [q]
  }

  function Reprs(items: seq<string>): (r: seq<string>)
    ensures |r| == |items|
    ensures forall i :: 0 <= i < |items| ==> r[i] == StrRepr(items[i])
  {
    seq(|items|, i requires 0 <= i < |items| => StrRepr(items[i]))
  }

  /** `str(items)` for a list of strings: the items' `repr`s, comma-and-space separated, in brackets. */
  function ListRepr(items: seq<string>): (r: string)
    ensures |r| >= 2 && r[0] == '[' && r[|r| - 1] == ']'
  {
    "[" + Join(Reprs(items), ", ") + "]"
  }

  /** Every `repr` escapes line breaks, so a rendered list is a single line. */
  lemma ListReprOneLine(items: seq<string>)
    ensures '\n' !in ListRepr(items)
  {
    JoinAvoids(Reprs(items), ", ", '\n');
  }
}
