/** The line scanner of `modifyYaml` (src/modifyValue/modifyHandle.cc): where a
    line's key, value and comment are, as functions of the text, and the
    scanning loops proved against them. */
module YamlScan {
  import opened Options

  predicate Blank(c: char) { c == ' ' || c == '\t' }

  /** Which quotes a scan is inside of. */
  datatype Quotes = Quotes(single: bool, double: bool)

  const UNQUOTED := Quotes(false, false)

  /** The quotes after passing character `i`. */
  function Pass(line: string, i: nat, q: Quotes): Quotes
    requires i < |line|
  {
    if line[i] == '\'' && !q.double then q.(single := !q.single)
    else if line[i] == '"' && !q.single && (i == 0 || line[i - 1] != '\\') then q.(double := !q.double)
    else q
  }

  /** The quotes just before character `i`, for a scan that starts at `from`. */
  function QuotesAt(line: string, from: nat, i: nat): Quotes
    requires i <= |line|
    decreases i
  {
    if i <= from then UNQUOTED else Pass(line, i - 1, QuotesAt(line, from, i - 1))
  }

  predicate IsColon(line: string, from: nat, i: nat)
    requires i < |line|
  {
    line[i] == ':' && QuotesAt(line, from, i) == UNQUOTED
  }

  predicate IsComment(line: string, from: nat, i: nat)
    requires i < |line|
  {
    line[i] == '#' && QuotesAt(line, from, i) == UNQUOTED && (i == from || (0 < i && Blank(line[i - 1])))
  }

  /** The first character at or after `i` that is not blank, or the end. */
  function SkipBlanks(line: string, i: nat): (r: nat)
    requires i <= |line|
    ensures i <= r <= |line|
    ensures forall j :: i <= j < r ==> Blank(line[j])
    ensures r < |line| ==> !Blank(line[r])
    decreases |line| - i
  {
    if i < |line| && Blank(line[i]) then SkipBlanks(line, i + 1) else i
  }

  /** The first separating colon at or after `i`, or the end. */
  function FirstColon(line: string, from: nat, i: nat): (r: nat)
    requires i <= |line|
    ensures i <= r <= |line|
    ensures forall j :: i <= j < r ==> !IsColon(line, from, j)
    ensures r < |line| ==> IsColon(line, from, r)
    decreases |line| - i
  {
    if i == |line| || IsColon(line, from, i) then i else FirstColon(line, from, i + 1)
  }

  /** The first comment sign at or after `i`, or the end. */
  function FirstComment(line: string, from: nat, i: nat): (r: nat)
    requires i <= |line|
    ensures i <= r <= |line|
    ensures forall j :: i <= j < r ==> !IsComment(line, from, j)
    ensures r < |line| ==> IsComment(line, from, r)
    decreases |line| - i
  {
    if i == |line| || IsComment(line, from, i) then i else FirstComment(line, from, i + 1)
  }

  /** `hi` without the blanks before it, but not below `lo`. */
  function TrimEnd(line: string, lo: nat, hi: nat): (r: nat)
    requires lo <= hi <= |line|
    ensures lo <= r <= hi
    ensures forall j :: r <= j < hi ==> Blank(line[j])
    ensures lo < r ==> !Blank(line[r - 1])
    decreases hi
  {
    if lo < hi && Blank(line[hi - 1]) then TrimEnd(line, lo, hi - 1) else hi
  }

  datatype Key = Key(indent: nat, name: string, colon: nat)

  /** The key of a line, unless it is empty, a comment or without a colon. */
  function KeyOf(line: string): (k: Option<Key>)
    ensures k.Some? ==> k.value.indent <= k.value.colon < |line|
  {
    var first := SkipBlanks(line, 0);
    if first == |line| || line[first] == '#' then None
    else
      var colon := FirstColon(line, first, first);
      if colon == |line| then None
      else Some(Key(first, line[first..TrimEnd(line, first, colon)], colon))
  }

  datatype Span = Span(start: nat, end: nat)

  /** The value after the colon: without blanks around it and without comment. */
  function ValueSpan(line: string, colon: nat): (v: Span)
    requires colon < |line|
    ensures colon < v.start <= v.end <= |line|
  {
    var start := SkipBlanks(line, colon + 1);
    Span(start, TrimEnd(line, start, FirstComment(line, start, start)))
  }

  /** What is left of a line when its value is replaced. */
  function Replace(line: string, v: Span, text: string): string
    requires v.start <= v.end <= |line|
  {
    line[..v.start] + text + line[v.end..]
  }

  // ---- what a key is ------------------------------------------------------------

  /** `first` is the first character that is neither space nor tab, and no comment sign;
      `colon` is the first colon after it outside quotes. */
  predicate KeyAt(line: string, first: nat, colon: nat) {
    && first <= colon < |line|
    && (forall j :: 0 <= j < first ==> line[j] == ' ' || line[j] == '\t')
    && line[first] != ' ' && line[first] != '\t' && line[first] != '#'
    && line[colon] == ':' && QuotesAt(line, first, colon) == UNQUOTED
    && forall j :: first <= j < colon ==> !(line[j] == ':' && QuotesAt(line, first, j) == UNQUOTED)
  }

  /** `name` is the text from `first` to the colon without blanks at its end. */
  predicate NameBetween(line: string, first: nat, colon: nat, name: string)
    requires first <= colon < |line|
  {
    var end := first + |name|;
    && end <= colon && line[first..end] == name
    && (forall j :: end <= j < colon ==> line[j] == ' ' || line[j] == '\t')
    && (name != "" ==> name[|name| - 1] != ' ' && name[|name| - 1] != '\t')
  }

  /** A line has a key exactly when there is such a colon; the indent is the position of
      the first character. */
  lemma KeyExactlyWhen(line: string)
    ensures KeyOf(line).Some? <==> exists first: nat, colon: nat :: KeyAt(line, first, colon)
    ensures forall first: nat, colon: nat :: KeyAt(line, first, colon) ==>
      && KeyOf(line).value.indent == first && KeyOf(line).value.colon == colon
      && NameBetween(line, first, colon, KeyOf(line).value.name)
  {
    if KeyOf(line).Some? {
      var first, colon := KeyOf(line).value.indent, KeyOf(line).value.colon;
      assert first == SkipBlanks(line, 0) && colon == FirstColon(line, first, first);
      assert IsColon(line, first, colon);
      forall j | first <= j < colon ensures !(line[j] == ':' && QuotesAt(line, first, j) == UNQUOTED) {
        assert !IsColon(line, first, j);
      }
      assert forall j :: 0 <= j < first ==> Blank(line[j]);
      assert KeyAt(line, first, colon);
    }
    forall first: nat, colon: nat | KeyAt(line, first, colon)
      ensures KeyOf(line).Some? && KeyOf(line).value.indent == first && KeyOf(line).value.colon == colon
      ensures NameBetween(line, first, colon, KeyOf(line).value.name)
    {
      KeyIsThere(line, first, colon);
    }
  }

  lemma KeyIsThere(line: string, first: nat, colon: nat)
    requires KeyAt(line, first, colon)
    ensures KeyOf(line).Some? && KeyOf(line).value.indent == first && KeyOf(line).value.colon == colon
    ensures NameBetween(line, first, colon, KeyOf(line).value.name)
  {
    var begin := SkipBlanks(line, 0);
    assert begin == first by {
      assert !(begin < first) && !(first < begin);
    }
    var c := FirstColon(line, first, first);
    assert IsColon(line, first, colon);
    assert !(c < colon) && !(colon < c);
  }

  /** A comment line or a blank line has no key. */
  lemma IgnoredHasNoKey(line: string, first: nat)
    requires first <= |line| && forall j :: 0 <= j < first ==> line[j] == ' ' || line[j] == '\t'
    requires first < |line| ==> line[first] == '#'
    ensures KeyOf(line) == None
  {
    assert !(SkipBlanks(line, 0) < first);
  }

  // ---- what quotes hide ----------------------------------------------------------------

  /** Within single quotes everything is text up to the next single quote. */
  lemma {:induction false} SingleQuotesHide(line: string, from: nat, open: nat, i: nat)
    requires from <= open < i <= |line| && QuotesAt(line, from, open) == UNQUOTED && line[open] == '\''
    requires forall j :: open < j < i ==> line[j] != '\''
    ensures QuotesAt(line, from, i) == Quotes(true, false)
    ensures i < |line| && line[i] == '\'' ==> QuotesAt(line, from, i + 1) == UNQUOTED
    decreases i
  {
    if open + 1 < i {
      SingleQuotesHide(line, from, open, i - 1);
    }
  }

  /** Within double quotes everything is text up to the next double quote that has no
      backslash before it. */
  lemma {:induction false} DoubleQuotesHide(line: string, from: nat, open: nat, i: nat)
    requires from <= open < i <= |line| && QuotesAt(line, from, open) == UNQUOTED && line[open] == '"'
    requires open > 0 ==> line[open - 1] != '\\'
    requires forall j :: open < j < i && line[j] == '"' ==> line[j - 1] == '\\'
    ensures QuotesAt(line, from, i) == Quotes(false, true)
    ensures i < |line| && line[i] == '"' && line[i - 1] != '\\' ==> QuotesAt(line, from, i + 1) == UNQUOTED
    decreases i
  {
    if open + 1 < i {
      DoubleQuotesHide(line, from, open, i - 1);
    }
  }

  /** A single quote, or a double one without a backslash before it. */
  predicate IsQuote(line: string, j: nat)
    requires j < |line|
  {
    line[j] == '\'' || (line[j] == '"' && (j == 0 || line[j - 1] != '\\'))
  }

  /** Outside quotes nothing else opens anything. */
  lemma {:induction false} PlainHidesNothing(line: string, from: nat, i: nat, k: nat)
    requires from <= i <= k <= |line| && QuotesAt(line, from, i) == UNQUOTED
    requires forall j :: i <= j < k ==> !IsQuote(line, j)
    ensures QuotesAt(line, from, k) == UNQUOTED
    decreases k
  {
    if i < k {
      PlainHidesNothing(line, from, i, k - 1);
      assert !IsQuote(line, k - 1);
    }
  }

  // ---- the loops ---------------------------------------------------------------

  method ScanKey(line: string) returns (key: Option<Key>)
    ensures key == KeyOf(line)
  {
    var first := 0;
    while first < |line| && Blank(line[first])
      invariant first <= |line| && SkipBlanks(line, first) == SkipBlanks(line, 0)
    {
      first := first + 1;
    }
    if first == |line| || line[first] == '#' {
      return None;
    }
    var single, double := false, false;
    var colon := first;
    while colon < |line|
      invariant first <= colon <= |line|
      invariant Quotes(single, double) == QuotesAt(line, first, colon)
      invariant FirstColon(line, first, colon) == FirstColon(line, first, first)
    {
      var c := line[colon];
      if c == '\'' && !double {
        single := !single;
      } else if c == '"' && !single && (colon == 0 || line[colon - 1] != '\\') {
        double := !double;
      } else if c == ':' && !single && !double {
        break;
      }
      colon := colon + 1;
    }
    if colon == |line| {
      return None;
    }
    var keyEnd := colon;
    while keyEnd > first && Blank(line[keyEnd - 1])
      invariant first <= keyEnd <= colon && TrimEnd(line, first, keyEnd) == TrimEnd(line, first, colon)
    {
      keyEnd := keyEnd - 1;
    }
    return Some(Key(first, line[first..keyEnd], colon));
  }

  method ScanValue(line: string, colon: nat) returns (v: Span)
    requires colon < |line|
    ensures v == ValueSpan(line, colon)
  {
    var start := colon + 1;
    while start < |line| && Blank(line[start])
      invariant colon < start <= |line| && SkipBlanks(line, start) == SkipBlanks(line, colon + 1)
    {
      start := start + 1;
    }
    var single, double := false, false;
    var comment := start;
    while comment < |line|
      invariant start <= comment <= |line|
      invariant Quotes(single, double) == QuotesAt(line, start, comment)
      invariant FirstComment(line, start, comment) == FirstComment(line, start, start)
    {
      var c := line[comment];
      if c == '\'' && !double {
        single := !single;
      } else if c == '"' && !single && line[comment - 1] != '\\' {
        double := !double;
      } else if c == '#' && !single && !double && (comment == start || Blank(line[comment - 1])) {
        break;
      }
      comment := comment + 1;
    }
    var end := comment;
    while end > start && Blank(line[end - 1])
      invariant start <= end <= comment && TrimEnd(line, start, end) == TrimEnd(line, start, comment)
    {
      end := end - 1;
    }
    return Span(start, end);
  }
}
