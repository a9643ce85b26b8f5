/**
 * Python's `repr` of a string, as `str(e)` shows it: the `ValueError` of a
 * failed `int(text)` ends in `repr(text)` cut to 200 characters, and the
 * `KeyError` of a missing environment variable prints as `repr(name)`; the
 * list of processed ids in the success message shows each id through `repr`.
 *
 * `repr` picks the quote (`"` when the text holds a `'` and no `"`, `'`
 * otherwise) and escapes the backslash, the chosen quote, tab, newline,
 * carriage return and the other ASCII control characters. `Unescape` reads
 * the escapes back, so `repr` loses nothing.
 */
module PyRepr {
  const Backslash := '\\'

  /** The quote `repr` puts around `s`. */
  function QuoteFor(s: string): (q: char)
    ensures q == '\'' || q == '"'
    ensures q == '"' <==> '\'' in s && '"' !in s
  {
    if '\'' in s && '"' !in s then '"' else '\''
  }

  predicate IsQuote(q: char) {
    q == '\'' || q == '"'
  }

  /** A lower-case hexadecimal digit, as `\xNN` writes it. */
  function HexDigit(d: int): (c: char)
    requires 0 <= d < 16
    ensures ('0' <= c <= '9') || ('a' <= c <= 'f')
  {
    if d < 10 then ('0' as int + d) as char else ('a' as int + d - 10) as char
  }

  function HexValue(c: char): (d: int)
    ensures 0 <= d < 16
  {
    if '0' <= c <= '9' then c as int - '0' as int
    else if 'a' <= c <= 'f' then c as int - 'a' as int + 10
    else 0
  }

  /** An ASCII control character other than tab, newline and carriage return, or DEL. */
  predicate IsHexEscaped(c: char) {
    (c < ' ' && c != '\t' && c != '\n' && c != '\r') || c as int == 0x7f
  }

  /** What `repr` writes for `c` inside quotes `q`. */
  function EscapeChar(c: char, q: char): (e: string)
    ensures 1 <= |e| <= 4
    ensures e[0] == Backslash <==> c == Backslash || c == q || c == '\t' || c == '\n' || c == '\r' || IsHexEscaped(c)
  {
    if c == Backslash || c == q then [Backslash, c]
    else if c == '\t' then "\\t"
    else if c == '\n' then "\\n"
    else if c == '\r' then "\\r"
    else if IsHexEscaped(c) then [Backslash, 'x', HexDigit(c as int / 16), HexDigit(c as int % 16)]
    else [c]
  }

  function Escape(s: string, q: char): (r: string)
    ensures |r| >= |s|
  {
    if s == [] then [] else EscapeChar(s[0], q) + Escape(s[1..], q)
  }

  /** `repr(s)` */
  function Repr(s: string): (r: string)
    ensures |r| >= |s| + 2
    ensures r[0] == QuoteFor(s) && r[|r| - 1] == QuoteFor(s)
  {
    var q := QuoteFor(s);
    [q] + Escape(s, q) + [q]
  }

  /** The character an escaped text starts with, and how many characters encode it. */
  function UnescapeHead(x: string): (r: (char, int))
    requires x != []
    ensures 1 <= r.1 <= |x|
  {
    if x[0] != Backslash || |x| == 1 then (x[0], 1)
    else if x[1] == 't' then ('\t', 2)
    else if x[1] == 'n' then ('\n', 2)
    else if x[1] == 'r' then ('\r', 2)
    else if x[1] == 'x' && |x| >= 4 then ((16 * HexValue(x[2]) + HexValue(x[3])) as char, 4)
    else (x[1], 2)
  }

  /** Reads back the escapes of `repr`. */
  function Unescape(x: string): string
    decreases |x|
  {
    if x == [] then []
    else
      var head := UnescapeHead(x);
      [head.0] + Unescape(x[head.1..])
  }

  /** The text between the quotes, read back. */
  function Unquote(r: string): string {
    if |r| < 2 then [] else Unescape(r[1..|r| - 1])
  }

  /** The escape of one character is read back as that character, whatever follows it. */
  lemma UnescapeHeadChar(c: char, q: char, rest: string)
    requires IsQuote(q)
    ensures UnescapeHead(EscapeChar(c, q) + rest) == (c, |EscapeChar(c, q)|)
  {
    var e := EscapeChar(c, q);
    var x := e + rest;
    assert x[0] == e[0];
    if IsHexEscaped(c) && c != q && c != Backslash {
      var hi, lo := c as int / 16, c as int % 16;
      assert x[1] == 'x' && x[2] == HexDigit(hi) && x[3] == HexDigit(lo);
      assert HexValue(HexDigit(hi)) == hi;
      assert HexValue(HexDigit(lo)) == lo;
    } else if |e| == 2 {
      assert x[1] == e[1];
    }
  }

  /** A text of printable ASCII without the backslash and the quote is written as it is. */
  lemma {:induction false} EscapePlain(s: string, q: char)
    requires forall i | 0 <= i < |s| :: ' ' <= s[i] && s[i] as int != 0x7f && s[i] != Backslash && s[i] != q
    ensures Escape(s, q) == s
  {
    if s != [] {
      assert EscapeChar(s[0], q) == [s[0]];
      EscapePlain(s[1..], q);
    }
  }

  /** Printable ASCII without quotes and backslashes is shown between single quotes as it is. */
  lemma ReprPlain(s: string)
    requires forall i | 0 <= i < |s| :: ' ' <= s[i] && s[i] as int != 0x7f && s[i] != Backslash && s[i] != '\'' && s[i] != '"'
    ensures Repr(s) == "'" + s + "'"
  {
    assert '\'' !in s;
    EscapePlain(s, '\'');
  }

  /** Reading back the escapes gives the text. */
  lemma {:induction false} UnescapeEscape(s: string, q: char)
    requires IsQuote(q)
    ensures Unescape(Escape(s, q)) == s
  {
    if s != [] {
      var e, rest := EscapeChar(s[0], q), Escape(s[1..], q);
      UnescapeHeadChar(s[0], q, rest);
      assert (e + rest)[|e|..] == rest;
      UnescapeEscape(s[1..], q);
    }
  }

  /** `repr` loses nothing: the quoted text reads back as `s`. */
  lemma UnquoteRepr(s: string)
    ensures Unquote(Repr(s)) == s
  {
    var q := QuoteFor(s);
    var r := Repr(s);
    assert r[1..|r| - 1] == Escape(s, q);
    UnescapeEscape(s, q);
  }

  /** Different texts have different `repr`s. */
  lemma ReprInjective(s: string, t: string)
    ensures Repr(s) == Repr(t) ==> s == t
  {
    UnquoteRepr(s);
    UnquoteRepr(t);
  }

  /** `repr("it's") == "\"it's\""`: a text with only single quotes is put between double quotes. */
  lemma ReprDoubleQuoted()
    ensures Repr("it's") == "\"it's\""
  {
    assert "it's"[2] == '\'';
    assert QuoteFor("it's") == '"';
    EscapePlain("it's", '"');
  }

  /** `repr("a\n") == "'a\\n'"`: a newline is written as an escape. */
  lemma ReprNewline()
    ensures Repr("a\n") == "'a\\n'"
  {
    var s := "a\n";
    assert QuoteFor(s) == '\'';
    assert EscapeChar(s[1], '\'') == "\\n";
    assert Escape(s[1..], '\'') == "\\n" by {
      assert s[1..][1..] == [];
    }
  }
}
