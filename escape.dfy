/**
 * Escaping the draft for the `value="..."` attribute of the modal's input,
 * and the decoding an HTML parser applies to that attribute, restricted to
 * the two character references the escapes produce.
 */
module Escape {

  const Quot: string := "&quot;"
  const Amp: string := "&amp;"

  /** The escape the card applies: every `"` becomes `&quot;`, nothing else changes. */
  function EscapeQuotes(s: string): (r: string)
    ensures '"' !in r
    ensures |r| >= |s|
  {
    if s == [] then ""
    else (if s[0] == '"' then Quot else [s[0]]) + EscapeQuotes(s[1..])
  }

  /** The escape for one character in an attribute value: `&` and `"` become references. */
  function EscapeChar(c: char): (r: string)
    ensures '"' !in r && |r| >= 1
  {
    if c == '&' then Amp else if c == '"' then Quot else [c]
  }

  /** The attribute escape that keeps every value intact: `&` as well as `"` is escaped. */
  function EscapeAttribute(s: string): (r: string)
    ensures '"' !in r
    ensures |r| >= |s|
  {
    if s == [] then "" else EscapeChar(s[0]) + EscapeAttribute(s[1..])
  }

  /**
   * The HTML parser's decoding of the references `&quot;` and `&amp;` in a
   * quoted attribute value; text without `&` is kept.
   */
  function DecodeAttribute(s: string): (r: string)
    ensures |r| <= |s|
    ensures '&' !in s ==> r == s
    decreases |s|
  {
    if s == [] then ""
    else if s[0] != '&' then
      assert !(Quot <= s) && !(Amp <= s) && s == [s[0]] + s[1..];
      [s[0]] + DecodeAttribute(s[1..])
    else if Quot <= s then "\"" + DecodeAttribute(s[|Quot|..])
    else if Amp <= s then "&" + DecodeAttribute(s[|Amp|..])
    else [s[0]] + DecodeAttribute(s[1..])
  }

  /** Decoding reads an escaped character back and then carries on with the rest. */
  lemma DecodeEscapedChar(c: char, rest: string)
    ensures DecodeAttribute(EscapeChar(c) + rest) == [c] + DecodeAttribute(rest)
  {
    var s := EscapeChar(c) + rest;
    if c == '&' {
      assert s[1] == 'a';
      assert !(Quot <= s);
      assert Amp <= s && s[|Amp|..] == rest;
    } else if c == '"' {
      assert Quot <= s && s[|Quot|..] == rest;
    } else {
      assert s[0] == c && s[1..] == rest;
    }
  }

  /** The page shows in the input exactly the value that was escaped. */
  lemma {:induction false} AttributeRoundTrip(s: string)
    ensures DecodeAttribute(EscapeAttribute(s)) == s
  {
    if s != [] {
      DecodeEscapedChar(s[0], EscapeAttribute(s[1..]));
      AttributeRoundTrip(s[1..]);
      assert [s[0]] + s[1..] == s;
    }
  }

  /** The two escapes agree on every value without `&`. */
  lemma {:induction false} EscapesAgreeWithoutAmpersand(s: string)
    requires '&' !in s
    ensures EscapeAttribute(s) == EscapeQuotes(s)
  {
    if s != [] {
      assert s[0] != '&' && '&' !in s[1..];
      EscapesAgreeWithoutAmpersand(s[1..]);
    }
  }

  /** So the card's own escape round-trips every value without `&`. */
  lemma {:induction false} QuoteEscapeRoundTripWithoutAmpersand(s: string)
    requires '&' !in s
    ensures DecodeAttribute(EscapeQuotes(s)) == s
  {
    EscapesAgreeWithoutAmpersand(s);
    AttributeRoundTrip(s);
  }

  /** A value that holds `&amp;` is shown, and read back from the input, as `&`. */
  lemma QuoteEscapeLosesAmpersandReference()
    ensures EscapeQuotes(Amp) == Amp
    ensures DecodeAttribute(EscapeQuotes(Amp)) == "&"
    ensures DecodeAttribute(EscapeQuotes(Amp)) != Amp
  {
    assert EscapeQuotes(Amp) == Amp by {
      EscapeQuotesKeepsQuoteFree(Amp);
    }
    assert DecodeAttribute(Amp) == "&" + DecodeAttribute("") by {
      assert !(Quot <= Amp);
    }
  }

  /** The card's escape leaves a value without `"` as it is. */
  lemma {:induction false} EscapeQuotesKeepsQuoteFree(s: string)
    requires '"' !in s
    ensures EscapeQuotes(s) == s
  {
    if s != [] {
      assert s[0] != '"' && '"' !in s[1..];
      EscapeQuotesKeepsQuoteFree(s[1..]);
      assert [s[0]] + s[1..] == s;
    }
  }

  /** A value the browser keeps as it is: no line feed, carriage return or NUL. */
  predicate IsPlain(s: string) {
    '\n' !in s && '\r' !in s && '\0' !in s
  }

  /**
   * What the browser does to a text input's value besides decoding
   * references: the parser replaces NUL by U+FFFD, and the value
   * sanitization of a text input strips line feeds and carriage returns.
   */
  function Sanitize(s: string): (r: string)
    ensures IsPlain(r)
    ensures r == s <==> IsPlain(s)
    ensures |r| <= |s|
  {
    if s == [] then ""
    else
      var rest := Sanitize(s[1..]);
      assert s == [s[0]] + s[1..];
      if s[0] == '\n' || s[0] == '\r' then rest
      else if s[0] == '\0' then ['\U{FFFD}'] + rest
      else [s[0]] + rest
  }

  /** The text a text input shows, and a save reads, when its `value` attribute holds `attr`. */
  function InputText(attr: string): (r: string)
    ensures IsPlain(r)
    ensures '&' !in attr && IsPlain(attr) ==> r == attr
  {
    Sanitize(DecodeAttribute(attr))
  }

  /** With the corrected escape the input shows every draft, up to the browser's own sanitization. */
  lemma {:induction false} CorrectedInputText(s: string)
    ensures InputText(EscapeAttribute(s)) == Sanitize(s)
    ensures IsPlain(s) ==> InputText(EscapeAttribute(s)) == s
  {
    AttributeRoundTrip(s);
  }

  /** With the card's escape the input shows every plain draft without `&` exactly. */
  lemma {:induction false} QuoteEscapeInputText(s: string)
    requires '&' !in s
    ensures InputText(EscapeQuotes(s)) == Sanitize(s)
    ensures IsPlain(s) ==> InputText(EscapeQuotes(s)) == s
  {
    QuoteEscapeRoundTripWithoutAmpersand(s);
  }
}
