/** The text nlohmann's `json::dump` writes for strings, as far as
    src/gateway/gateway.cc and src/modifyValue/modifyHandle.cc rely on it, and a
    reader that recovers the string (section 7 of RFC 7159). */
module JsonText {
  datatype Reading = Broken | Read(text: string, rest: string)

  const BACKSPACE: char := 8 as char
  const FORM_FEED: char := 12 as char

  function Hex(d: nat): char
    requires d < 16
  {
    if d < 10 then '0' + d as char else 'a' + (d - 10) as char
  }

  function Digit(c: char): (d: nat)
    ensures d < 16
  {
    if '0' <= c <= '9' then (c - '0') as nat else if 'a' <= c <= 'f' then (c - 'a') as nat + 10 else 0
  }

  /** The letter after the backslash of a two-character escape, if `c` has one. */
  function Short(c: char): (r: char)
    ensures r != ' ' ==> r != 'u'
  {
    if c == '"' then '"'
    else if c == '\\' then '\\'
    else if c == '\n' then 'n'
    else if c == '\r' then 'r'
    else if c == '\t' then 't'
    else if c == BACKSPACE then 'b'
    else if c == FORM_FEED then 'f'
    else ' '
  }

  function Long(letter: char): char {
    if letter == 'n' then '\n'
    else if letter == 'r' then '\r'
    else if letter == 't' then '\t'
    else if letter == 'b' then BACKSPACE
    else if letter == 'f' then FORM_FEED
    else letter
  }

  function EscapeChar(c: char): (r: string)
    ensures r != []
  {
    if Short(c) != ' ' then ['\\', Short(c)]
    else if c < ' ' then ['\\', 'u', '0', '0', Hex(c as nat / 16), Hex(c as nat % 16)]
    else [c]
  }

  function Escape(s: string): string {
    if s == [] then [] else EscapeChar(s[0]) + Escape(s[1..])
  }

  function Quoted(s: string): string { ['"'] + Escape(s) + ['"'] }

  function Push(c: char, r: Reading): Reading {
    if r.Read? then Read([c] + r.text, r.rest) else Broken
  }

  /** Reads the inside of a string up to its closing quote. */
  function ReadInside(t: string): Reading
    decreases |t|
  {
    if t == [] then Broken
    else if t[0] == '"' then Read([], t[1..])
    else if t[0] != '\\' then Push(t[0], ReadInside(t[1..]))
    else if |t| < 2 then Broken
    else if t[1] != 'u' then Push(Long(t[1]), ReadInside(t[2..]))
    else if |t| < 6 || t[2] != '0' || t[3] != '0' then Broken
    else Push((Digit(t[4]) * 16 + Digit(t[5])) as char, ReadInside(t[6..]))
  }

  lemma ReadsShort(letter: char, rest: string)
    requires letter != 'u'
    ensures ReadInside(['\\', letter] + rest) == Push(Long(letter), ReadInside(rest))
  {
    assert (['\\', letter] + rest)[2..] == rest;
  }

  lemma HexReadsBack(d: nat)
    requires d < 16
    ensures Digit(Hex(d)) == d
  {
  }

  lemma ReadsHex(high: nat, low: nat, rest: string)
    requires high < 16 && low < 16
    ensures ReadInside(['\\', 'u', '0', '0', Hex(high), Hex(low)] + rest) ==
      Push((high * 16 + low) as char, ReadInside(rest))
  {
    var t := ['\\', 'u', '0', '0', Hex(high), Hex(low)] + rest;
    assert t[6..] == rest;
    assert t[4] == Hex(high) && t[5] == Hex(low);
    HexReadsBack(high);
    HexReadsBack(low);
  }

  lemma ReadsChar(c: char, rest: string)
    ensures ReadInside(EscapeChar(c) + rest) == Push(c, ReadInside(rest))
  {
    if Short(c) != ' ' {
      ReadsShort(Short(c), rest);
      assert Long(Short(c)) == c;
    } else if c < ' ' {
      ReadsHex(c as nat / 16, c as nat % 16, rest);
    } else {
      assert ([c] + rest)[1..] == rest;
    }
  }

  lemma {:induction false} ReadsInside(s: string, rest: string)
    ensures ReadInside(Escape(s) + (['"'] + rest)) == Read(s, rest)
  {
    if s == [] {
      assert Escape(s) + (['"'] + rest) == ['"'] + rest;
      assert (['"'] + rest)[1..] == rest;
    } else {
      var tail := Escape(s[1..]) + (['"'] + rest);
      assert Escape(s) + (['"'] + rest) == EscapeChar(s[0]) + tail;
      ReadsChar(s[0], tail);
      ReadsInside(s[1..], rest);
      assert [s[0]] + s[1..] == s;
    }
  }

  /** A dumped string reads back as itself and shows where it ends, whatever follows. */
  lemma QuotedReadsBack(s: string, rest: string)
    ensures (Quoted(s) + rest)[0] == '"'
    ensures ReadInside((Quoted(s) + rest)[1..]) == Read(s, rest)
  {
    assert (Quoted(s) + rest)[1..] == Escape(s) + (['"'] + rest);
    ReadsInside(s, rest);
  }

  /** So two texts that start with dumped strings agree only if both the strings
      and what follows them agree. */
  lemma QuotedIsPrefixFree(a: string, x: string, b: string, y: string)
    requires Quoted(a) + x == Quoted(b) + y
    ensures a == b && x == y
  {
    QuotedReadsBack(a, x);
    QuotedReadsBack(b, y);
  }
}
