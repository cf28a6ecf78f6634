/** The laws of the YAML edit: reading, writing and rescanning agree, and where
    they do not, exactly when (src/modifyValue/modifyHandle.cc). */
module YamlLens {
  import opened Options
  import opened JsonText
  import opened YamlScan
  import opened YamlEdit

  // ---- the key does not depend on what follows it ------------------------------------

  predicate Agree(a: string, b: string, n: nat) {
    n <= |a| && n <= |b| && a[..n] == b[..n]
  }

  lemma {:induction false} SameQuotes(a: string, b: string, from: nat, i: nat, n: nat)
    requires Agree(a, b, n) && i <= n
    ensures QuotesAt(a, from, i) == QuotesAt(b, from, i)
    decreases i
  {
    if i > from {
      SameQuotes(a, b, from, i - 1, n);
      assert a[i - 1] == a[..n][i - 1] && b[i - 1] == b[..n][i - 1];
      if i > 1 {
        assert a[i - 2] == a[..n][i - 2] && b[i - 2] == b[..n][i - 2];
      }
    }
  }

  lemma SameBlanks(a: string, b: string, i: nat, n: nat)
    requires Agree(a, b, n) && i <= |a| && i <= |b| && SkipBlanks(a, i) < n
    ensures SkipBlanks(b, i) == SkipBlanks(a, i)
  {
  }

  lemma SameColon(a: string, b: string, from: nat, n: nat)
    requires Agree(a, b, n) && from <= |a| && from <= |b| && FirstColon(a, from, from) < n
    ensures FirstColon(b, from, from) == FirstColon(a, from, from)
  {
    var r, r' := FirstColon(a, from, from), FirstColon(b, from, from);
    forall j | from <= j < n ensures IsColon(a, from, j) == IsColon(b, from, j) {
      assert a[j] == a[..n][j] == b[..n][j] == b[j];
      SameQuotes(a, b, from, j, n);
    }
    assert IsColon(b, from, r);
  }

  lemma {:induction false} SameTrim(a: string, b: string, lo: nat, hi: nat, n: nat)
    requires Agree(a, b, n) && lo <= hi <= n
    ensures TrimEnd(a, lo, hi) == TrimEnd(b, lo, hi)
    decreases hi
  {
    if lo < hi {
      assert a[hi - 1] == a[..n][hi - 1] == b[..n][hi - 1] == b[hi - 1];
      SameTrim(a, b, lo, hi - 1, n);
    }
  }

  lemma SameKey(a: string, b: string)
    requires KeyOf(a).Some? && Agree(a, b, KeyOf(a).value.colon + 1)
    ensures KeyOf(b) == KeyOf(a)
  {
    var n := KeyOf(a).value.colon + 1;
    var first := KeyOf(a).value.indent;
    SameBlanks(a, b, 0, n);
    SameColon(a, b, first, n);
    SameTrim(a, b, first, n - 1, n);
    SameText(a, b, n, first, first + 1);
    assert a[first] == a[first..first + 1][0] && b[first] == b[first..first + 1][0];
    SameText(a, b, n, first, TrimEnd(a, first, n - 1));
  }

  lemma SameText(a: string, b: string, n: nat, i: nat, j: nat)
    requires Agree(a, b, n) && i <= j <= n
    ensures a[i..j] == b[i..j]
  {
    assert a[i..j] == a[..n][i..j];
    assert b[i..j] == b[..n][i..j];
  }

  lemma EditKeepsKey(line: string, text: string)
    requires KeyOf(line).Some?
    ensures KeyOf(Edited(line, text)) == KeyOf(line)
  {
    var n := KeyOf(line).value.colon + 1;
    assert Edited(line, text)[..n] == line[..n];
    SameKey(line, Edited(line, text));
  }

  // ---- so the paths do not move --------------------------------------------------------

  predicate SameKeys(a: seq<string>, b: seq<string>) {
    |a| == |b| && forall j :: 0 <= j < |a| ==> KeyOf(a[j]) == KeyOf(b[j])
  }

  lemma {:induction false} SameParent(a: seq<string>, b: seq<string>, k: nat, indent: nat)
    requires SameKeys(a, b) && k <= |a|
    ensures Parent(a, k, indent) == Parent(b, k, indent)
  {
    if k > 0 {
      assert Encloses(a, k - 1, indent) == Encloses(b, k - 1, indent);
      SameParent(a, b, k - 1, indent);
    }
  }

  lemma {:induction false} SameChain(a: seq<string>, b: seq<string>, k: nat, indent: nat)
    requires SameKeys(a, b) && k <= |a|
    ensures Chain(a, k, indent) == Chain(b, k, indent)
    decreases k
  {
    SameParent(a, b, k, indent);
    var p := Parent(a, k, indent);
    if p.Some? {
      SameChain(a, b, p.value, EntryAt(a, p.value).indent);
    }
  }

  lemma SameMatch(a: seq<string>, b: seq<string>, target: seq<string>)
    requires SameKeys(a, b)
    ensures FirstMatch(a, target, 0) == FirstMatch(b, target, 0)
  {
    forall j | 0 <= j < |a| ensures Matches(a, j, target) == Matches(b, j, target) {
      if KeyOf(a[j]).Some? {
        SameChain(a, b, j, EntryAt(a, j).indent);
      }
    }
    var r, r' := FirstMatch(a, target, 0), FirstMatch(b, target, 0);
    assert r < |a| ==> Matches(b, r, target);
    assert r' < |a| ==> Matches(a, r', target);
  }

  lemma PutKeepsKeys(lines: seq<string>, target: seq<string>, text: string)
    ensures SameKeys(lines, Put(lines, target, text))
  {
    var k := FirstMatch(lines, target, 0);
    if k < |lines| {
      EditKeepsKey(lines[k], text);
    }
  }

  /** After an edit the scanner finds the same line for every path. */
  lemma RescanFindsTheSameLine(lines: seq<string>, target: seq<string>, text: string, other: seq<string>)
    ensures FirstMatch(Put(lines, target, text), other, 0) == FirstMatch(lines, other, 0)
  {
    PutKeepsKeys(lines, target, text);
    SameMatch(lines, Put(lines, target, text), other);
  }

  /** Only the value of the one line changes: its start and its trailing comment stay. */
  lemma PutChangesOnlyTheValue(lines: seq<string>, target: seq<string>, text: string)
    requires Get(lines, target).Some?
    ensures var k := FirstMatch(lines, target, 0);
      var v := ValueOf(lines[k]);
      var after := Put(lines, target, text);
      && |after| == |lines|
      && (forall j :: 0 <= j < |lines| && j != k ==> after[j] == lines[j])
      && after[k][..v.start] == lines[k][..v.start]
      && after[k][v.start..v.start + |text|] == text
      && after[k][v.start + |text|..] == lines[k][v.end..]
      && lines[k][v.start..v.end] == Get(lines, target).value
  {
  }

  /** Writing one parameter leaves all others as they read before. */
  lemma PutLeavesOthers(lines: seq<string>, target: seq<string>, text: string, other: seq<string>)
    requires target != other
    ensures Get(Put(lines, target, text), other) == Get(lines, other)
  {
    RescanFindsTheSameLine(lines, target, text, other);
    var k := FirstMatch(lines, target, 0);
    var j := FirstMatch(lines, other, 0);
    assert k < |lines| && j < |lines| ==> k != j;
  }

  // ---- reading back what was written ----------------------------------------------------

  /** A value text that a scan does not mistake for something else. */
  predicate Tidy(r: string) {
    && r != "" && !Blank(r[0]) && !Blank(r[|r| - 1])
    && forall i :: 0 <= i < |r| ==> !IsComment(r, 0, i)
  }

  predicate Closes(r: string) { QuotesAt(r, 0, |r|) == UNQUOTED }

  function CommentOf(line: string): (c: nat)
    requires KeyOf(line).Some?
    ensures c <= |line|
  {
    FirstComment(line, ValueOf(line).start, ValueOf(line).start)
  }

  /** The condition under which a value can be read back: the line has no
      comment, or it has a value before its comment and the new text closes its
      quotes. */
  predicate ReadsBack(line: string, r: string)
    requires KeyOf(line).Some?
  {
    CommentOf(line) == |line| || (CommentOf(line) > ValueOf(line).start && Closes(r))
  }

  lemma {:induction false} ShiftedQuotes(p: string, r: string, s: string, i: nat)
    requires i <= |r| && (p != "" ==> p[|p| - 1] != '\\')
    ensures QuotesAt(p + r + s, |p|, |p| + i) == QuotesAt(r, 0, i)
    decreases i
  {
    if i > 0 {
      ShiftedQuotes(p, r, s, i - 1);
      assert (p + r + s)[|p| + i - 1] == r[i - 1];
      assert |p| + i >= 2 ==> (p + r + s)[|p| + i - 2] == if i >= 2 then r[i - 2] else p[|p| - 1];
    }
  }

  lemma {:induction false} BlanksKeepQuotes(line: string, from: nat, i: nat, j: nat)
    requires from <= i <= j <= |line| && forall m :: i <= m < j ==> Blank(line[m])
    ensures QuotesAt(line, from, j) == QuotesAt(line, from, i)
    decreases j
  {
    if i < j {
      BlanksKeepQuotes(line, from, i, j - 1);
    }
  }

  /** A scan of `p + r + s` from `r` sees no comment in a tidy `r`, nor in blanks after it. */
  lemma NoCommentBefore(p: string, r: string, s: string, n: nat, j: nat)
    requires Tidy(r) && p != "" && p[|p| - 1] != '\\'
    requires n <= |s| && forall m :: 0 <= m < n ==> Blank(s[m])
    requires |p| <= j < |p| + |r| + n
    ensures !IsComment(p + r + s, |p|, j)
  {
    var line := p + r + s;
    if j < |p| + |r| {
      ShiftedQuotes(p, r, s, j - |p|);
      assert line[j] == r[j - |p|];
      assert j > |p| ==> line[j - 1] == r[j - |p| - 1];
      assert !IsComment(r, 0, j - |p|);
    } else {
      assert line[j] == s[j - |p| - |r|];
    }
  }

  /** A comment sign after them is a comment if there is a blank and `r` closes its quotes. */
  lemma CommentSignAfter(p: string, r: string, s: string, n: nat)
    requires Tidy(r) && p != "" && p[|p| - 1] != '\\'
    requires n < |s| && s[n] == '#' && forall m :: 0 <= m < n ==> Blank(s[m])
    ensures IsComment(p + r + s, |p|, |p| + |r| + n) <==> (n > 0 && Closes(r))
  {
    var line, from, m := p + r + s, |p| + |r|, |p| + |r| + n;
    ShiftedQuotes(p, r, s, |r|);
    forall j | from <= j < m ensures Blank(line[j]) {
      assert line[j] == s[j - from];
    }
    BlanksKeepQuotes(line, |p|, from, m);
    assert line[m] == s[n];
    assert line[m - 1] == if n > 0 then s[n - 1] else r[|r| - 1];
  }

  /** Where the comment of `p + r + s` is found, for a scan from `r`, when `s` is
      `n` blanks, and then nothing or a comment. */
  lemma CommentAfter(p: string, r: string, s: string, n: nat)
    requires Tidy(r) && p != "" && p[|p| - 1] != '\\'
    requires n <= |s| && forall m :: 0 <= m < n ==> Blank(s[m])
    requires n < |s| ==> s[n] == '#'
    ensures var c := FirstComment(p + r + s, |p|, |p|);
      && c >= |p| + |r| + n
      && (c == |p| + |r| + n <==> n == |s| || (n > 0 && Closes(r)))
  {
    var c := FirstComment(p + r + s, |p|, |p|);
    if c < |p| + |r| + n {
      NoCommentBefore(p, r, s, n, c);
    }
    if n < |s| {
      CommentSignAfter(p, r, s, n);
    }
  }

  lemma TrimBack(line: string, lo: nat, mid: nat, hi: nat)
    requires lo < mid <= hi <= |line| && !Blank(line[mid - 1])
    requires forall j :: mid <= j < hi ==> Blank(line[j])
    ensures TrimEnd(line, lo, hi) == mid
  {
  }

  /** The value ends at `start + size`, unless the comment found is beyond `start + size + n`. */
  lemma ValueEnds(line: string, start: nat, size: nat, n: nat, c: nat)
    requires 0 < size && start + size + n <= c <= |line| && !Blank(line[start + size - 1])
    requires forall j :: start + size <= j < start + size + n ==> Blank(line[j])
    requires start + size + n < c ==> !Blank(line[start + size + n])
    ensures TrimEnd(line, start, c) >= start + size
    ensures TrimEnd(line, start, c) == start + size <==> c == start + size + n
  {
    if c == start + size + n {
      TrimBack(line, start, start + size, c);
    }
  }

  /** What stands at the end of a text put between `p` and `s`, and after it. */
  lemma EditedText(p: string, r: string, s: string, n: nat)
    requires r != "" && n <= |s|
    ensures (p + r + s)[|p| + |r| - 1] == r[|r| - 1]
    ensures forall j :: |p| + |r| <= j < |p| + |r| + n ==> (p + r + s)[j] == s[j - |p| - |r|]
    ensures n < |s| ==> (p + r + s)[|p| + |r| + n] == s[n]
  {
  }

  /** The end of a tidy text put between `p` and `s`, when `s` is `n` blanks, and then
      nothing or a comment. */
  lemma SpanAfter(p: string, r: string, s: string, n: nat)
    requires Tidy(r) && p != "" && p[|p| - 1] != '\\'
    requires n <= |s| && forall m :: 0 <= m < n ==> Blank(s[m])
    requires n < |s| ==> s[n] == '#'
    ensures var line := p + r + s;
      var end := TrimEnd(line, |p|, FirstComment(line, |p|, |p|));
      end >= |p| + |r| && (end == |p| + |r| <==> n == |s| || (n > 0 && Closes(r)))
  {
    CommentAfter(p, r, s, n);
    EditedText(p, r, s, n);
    ValueEnds(p + r + s, |p|, |r|, n, FirstComment(p + r + s, |p|, |p|));
  }

  /** The three parts of a line around its value. */
  lemma LineParts(line: string)
    requires KeyOf(line).Some?
    ensures var v, c := ValueOf(line), CommentOf(line);
      && v.start <= v.end <= c
      && (forall m :: v.end <= m < c ==> Blank(line[m]))
      && (c < |line| ==> line[c] == '#' && (c > v.start <==> c > v.end))
      && line[v.start - 1] != '\\'
  {
  }

  /** The new value span: where the text was put, and exactly that text when
      the condition holds; otherwise it swallows part of the comment. */
  lemma EditedSpan(line: string, r: string)
    requires KeyOf(line).Some? && Tidy(r)
    ensures KeyOf(Edited(line, r)) == KeyOf(line)
    ensures ValueOf(Edited(line, r)).start == ValueOf(line).start
    ensures ValueOf(Edited(line, r)).end == ValueOf(line).start + |r| <==> ReadsBack(line, r)
    ensures ValueOf(Edited(line, r)).end >= ValueOf(line).start + |r|
  {
    LineParts(line);
    StartStays(line, r);
    var v := ValueOf(line);
    SpanAfter(line[..v.start], r, line[v.end..], CommentOf(line) - v.end);
  }

  lemma StartStays(line: string, r: string)
    requires KeyOf(line).Some? && Tidy(r)
    ensures KeyOf(Edited(line, r)) == KeyOf(line)
    ensures ValueOf(Edited(line, r)).start == ValueOf(line).start
  {
    EditKeepsKey(line, r);
    var after, start := Edited(line, r), ValueOf(line).start;
    var colon := KeyOf(line).value.colon;
    assert after[..start] == line[..start];
    assert forall j :: 0 <= j < start ==> after[j] == after[..start][j] == line[..start][j] == line[j];
    assert after[start] == r[0];
  }

  // ---- the laws -----------------------------------------------------------------------------

  /** Reading back gives the text written, exactly when `ReadsBack` holds. */
  lemma PutGet(lines: seq<string>, target: seq<string>, r: string)
    requires Get(lines, target).Some? && Tidy(r)
    ensures Get(Put(lines, target, r), target) == Some(r) <==> ReadsBack(lines[FirstMatch(lines, target, 0)], r)
  {
    var k := FirstMatch(lines, target, 0);
    RescanFindsTheSameLine(lines, target, r, target);
    EditReadsBack(lines[k], r);
    assert Put(lines, target, r)[k] == Edited(lines[k], r);
  }

  lemma EditReadsBack(line: string, r: string)
    requires KeyOf(line).Some? && Tidy(r)
    ensures KeyOf(Edited(line, r)).Some?
    ensures var w := ValueOf(Edited(line, r)); Edited(line, r)[w.start..w.end] == r <==> ReadsBack(line, r)
  {
    EditedSpan(line, r);
    var start := ValueOf(line).start;
    assert Edited(line, r)[start..start + |r|] == r;
  }

  lemma EditTwice(line: string, r: string, last: string)
    requires KeyOf(line).Some? && Tidy(r)
    ensures KeyOf(Edited(line, r)).Some?
    ensures Edited(Edited(line, r), last) == Edited(line, last) <==> ReadsBack(line, r)
  {
    EditedSpan(line, r);
    var v, once := ValueOf(line), Edited(line, r);
    var w := ValueOf(once);
    assert once[..v.start] == line[..v.start];
    if ReadsBack(line, r) {
      assert once[w.end..] == line[v.end..];
    } else {
      assert |Edited(once, last)| < |Edited(line, last)|;
    }
  }

  lemma UpdateTwice(lines: seq<string>, k: nat, a: string, b: string, c: string)
    requires k < |lines|
    ensures lines[k := a][k := b] == lines[k := c] <==> b == c
  {
    assert lines[k := a][k := b][k] == b && lines[k := c][k] == c;
  }

  /** Writing twice is writing last, exactly when the first text can be read back. */
  lemma PutPut(lines: seq<string>, target: seq<string>, r: string, last: string)
    requires Get(lines, target).Some? && Tidy(r)
    ensures Put(Put(lines, target, r), target, last) == Put(lines, target, last) <==>
            ReadsBack(lines[FirstMatch(lines, target, 0)], r)
  {
    var k := FirstMatch(lines, target, 0);
    RescanFindsTheSameLine(lines, target, r, target);
    EditTwice(lines[k], r, last);
    UpdateTwice(lines, k, Edited(lines[k], r), Edited(Edited(lines[k], r), last), Edited(lines[k], last));
  }

  /** Writing the text already there changes nothing. */
  lemma GetPut(lines: seq<string>, target: seq<string>)
    requires Get(lines, target).Some?
    ensures Put(lines, target, Get(lines, target).value) == lines
  {
    var k := FirstMatch(lines, target, 0);
    var v := ValueOf(lines[k]);
    assert lines[k][..v.start] + lines[k][v.start..v.end] + lines[k][v.end..] == lines[k];
  }

  // ---- rendered scalars ------------------------------------------------------------------------

  /** A scalar as it arrives in a `set_param` message. */
  datatype Scalar = Null | Bool(b: bool) | Number(text: string) | Str(s: string)

  predicate NumberChar(c: char) {
    '0' <= c <= '9' || c == '+' || c == '-' || c == '.' || c == 'e' || c == 'E'
  }

  predicate WellFormed(v: Scalar) {
    v.Number? ==> v.text != "" && forall i :: 0 <= i < |v.text| ==> NumberChar(v.text[i])
  }

  function Dump(v: Scalar): string {
    match v
    case Null => "null"
    case Bool(b) => if b then "true" else "false"
    case Number(text) => text
    case Str(s) => Quoted(s)
  }

  predicate EndsInBackslash(v: Scalar) {
    v.Str? && v.s != "" && v.s[|v.s| - 1] == '\\'
  }

  /** Every quote inside a dumped string has a backslash before it. */
  predicate Guarded(t: string) {
    forall j :: 0 <= j < |t| && t[j] == '"' ==> j > 0 && t[j - 1] == '\\'
  }

  lemma GuardedAppend(a: string, b: string)
    requires Guarded(a) && Guarded(b)
    ensures Guarded(a + b)
  {
  }

  lemma EscapeCharEnds(c: char)
    ensures Guarded(EscapeChar(c))
    ensures var e := EscapeChar(c); e[|e| - 1] == '\\' <==> c == '\\'
  {
  }

  lemma {:induction false} EscapeEnds(s: string)
    ensures Guarded(Escape(s))
    ensures Escape(s) == "" <==> s == ""
    ensures s != "" ==> (Escape(s)[|Escape(s)| - 1] == '\\' <==> s[|s| - 1] == '\\')
  {
    if s != "" {
      EscapeCharEnds(s[0]);
      EscapeEnds(s[1..]);
      GuardedAppend(EscapeChar(s[0]), Escape(s[1..]));
    }
  }

  /** Inside a dumped string the scan is inside double quotes. */
  lemma {:induction false} InsideQuoted(s: string, i: nat)
    requires 0 < i < |Quoted(s)|
    ensures QuotesAt(Quoted(s), 0, i) == Quotes(false, true)
    decreases i
  {
    var r, e := Quoted(s), Escape(s);
    if i > 1 {
      InsideQuoted(s, i - 1);
      EscapeEnds(s);
      assert r[i - 1] == e[i - 2];
      if r[i - 1] == '"' {
        assert r[i - 2] == e[i - 3];
      }
    }
  }

  lemma QuotedScans(s: string)
    ensures Tidy(Quoted(s))
    ensures Closes(Quoted(s)) <==> !EndsInBackslash(Str(s))
  {
    var r := Quoted(s);
    forall i | 0 <= i < |r| ensures !IsComment(r, 0, i) {
      if i > 0 {
        InsideQuoted(s, i);
      }
    }
    InsideQuoted(s, |r| - 1);
    EscapeEnds(s);
    assert r[|r| - 2] == if s == "" then '"' else Escape(s)[|Escape(s)| - 1];
  }

  lemma {:induction false} PlainScans(r: string, i: nat)
    requires i <= |r| && forall j :: 0 <= j < |r| ==> r[j] != '"' && r[j] != '\''
    ensures QuotesAt(r, 0, i) == UNQUOTED
    decreases i
  {
    if i > 0 {
      PlainScans(r, i - 1);
    }
  }

  lemma ScalarScans(v: Scalar)
    requires WellFormed(v)
    ensures Tidy(Dump(v))
    ensures Closes(Dump(v)) <==> !EndsInBackslash(v)
  {
    if v.Str? {
      QuotedScans(v.s);
    } else {
      PlainScans(Dump(v), |Dump(v)|);
    }
  }

  /** For every scalar: it reads back as written exactly when the line has no
      comment, or has a value before its comment and the scalar is not a string
      ending in a backslash. */
  lemma ScalarReadsBack(lines: seq<string>, target: seq<string>, v: Scalar)
    requires Get(lines, target).Some? && WellFormed(v)
    ensures var line := lines[FirstMatch(lines, target, 0)];
      Get(Put(lines, target, Dump(v)), target) == Some(Dump(v)) <==>
      CommentOf(line) == |line| || (CommentOf(line) > ValueOf(line).start && !EndsInBackslash(v))
  {
    ScalarScans(v);
    PutGet(lines, target, Dump(v));
  }

  /** What a JSON reader makes of a text (section 3 of RFC 7159): a literal name, a string
      that its closing quote ends, or else a number. */
  function ScalarOf(text: string): Option<Scalar> {
    if text == "null" then Some(Null)
    else if text == "true" then Some(Bool(true))
    else if text == "false" then Some(Bool(false))
    else if text == "" then None
    else if text[0] == '"' then
      var r := ReadInside(text[1..]);
      if r.Read? && r.rest == "" then Some(Str(r.text)) else None
    else if forall i :: 0 <= i < |text| ==> NumberChar(text[i]) then Some(Number(text))
    else None
  }

  /** Every scalar is written as what it is. */
  lemma DumpReadsBack(v: Scalar)
    requires WellFormed(v)
    ensures ScalarOf(Dump(v)) == Some(v)
  {
    match v
    case Null =>
    case Bool(b) =>
    case Number(text) => assert NumberChar(text[0]);
    case Str(s) =>
      QuotedReadsBack(s, "");
      assert Quoted(s) + "" == Quoted(s);
  }

  /** The text read back names one scalar only. */
  lemma DumpIsInjective(v: Scalar, w: Scalar)
    requires WellFormed(v) && WellFormed(w) && Dump(v) == Dump(w)
    ensures v == w
  {
    DumpReadsBack(v);
    DumpReadsBack(w);
  }

  /** An empty value before a comment: the comment becomes part of the value. */
  lemma CommentSwallowed()
    ensures var line := "a: # n";
      KeyOf(line).Some? && Edited(line, "1") == "a: 1# n" && !ReadsBack(line, "1")
  {
    var line := "a: # n";
    assert SkipBlanks(line, 0) == 0;
    assert IsColon(line, 0, 1) && FirstColon(line, 0, 0) == 1;
    assert SkipBlanks(line, 2) == 3;
    assert IsComment(line, 3, 3);
    assert ValueOf(line) == Span(3, 3);
    assert line[..3] + "1" + line[3..] == "a: 1# n";
  }

  /** A string ending in a backslash: its closing quote is taken as escaped. */
  lemma BackslashSwallowsComment()
    ensures EndsInBackslash(Str("x\\")) && !Closes(Dump(Str("x\\")))
    ensures KeyOf("a: 1 # n").Some? && !ReadsBack("a: 1 # n", Dump(Str("x\\")))
  {
    ScalarScans(Str("x\\"));
    var line := "a: 1 # n";
    assert SkipBlanks(line, 0) == 0;
    assert IsColon(line, 0, 1) && FirstColon(line, 0, 0) == 1;
    assert SkipBlanks(line, 2) == 3;
    assert QuotesAt(line, 3, 4) == UNQUOTED && QuotesAt(line, 3, 5) == UNQUOTED;
    assert IsComment(line, 3, 5);
  }

  // ---- lines that are not looked at --------------------------------------------------------------

  /** Blank lines and comment lines. */
  predicate Ignored(line: string) {
    exists first: nat :: first <= |line| && IgnoredFrom(line, first)
  }

  predicate IgnoredFrom(line: string, first: nat)
    requires first <= |line|
  {
    (forall j :: 0 <= j < first ==> line[j] == ' ' || line[j] == '\t') && (first < |line| ==> line[first] == '#')
  }

  function Inserted(lines: seq<string>, n: nat, line: string): seq<string>
    requires n <= |lines|
  {
    lines[..n] + [line] + lines[n..]
  }

  /** Where line `k` has gone. */
  function Shifted(n: nat, k: nat): nat { if k < n then k else k + 1 }

  lemma {:induction false} StackBefore(lines: seq<string>, n: nat, line: string, k: nat)
    requires k <= n <= |lines|
    ensures StackAfter(Inserted(lines, n, line), k) == StackAfter(lines, k)
    decreases k
  {
    if k > 0 {
      StackBefore(lines, n, line, k - 1);
      assert Inserted(lines, n, line)[k - 1] == lines[k - 1];
    }
  }

  lemma {:induction false} StackBehind(lines: seq<string>, n: nat, line: string, k: nat)
    requires n <= k <= |lines| && KeyOf(line) == None
    ensures StackAfter(Inserted(lines, n, line), k + 1) == StackAfter(lines, k)
    decreases k
  {
    var after := Inserted(lines, n, line);
    if k == n {
      StackBefore(lines, n, line, n);
      assert after[n] == line;
    } else {
      StackBehind(lines, n, line, k - 1);
      assert after[k] == lines[k - 1];
    }
  }

  lemma ShiftedMatches(lines: seq<string>, n: nat, line: string, target: seq<string>, k: nat)
    requires n <= |lines| && k < |lines| && KeyOf(line) == None
    ensures Inserted(lines, n, line)[Shifted(n, k)] == lines[k]
    ensures Matches(Inserted(lines, n, line), Shifted(n, k), target) <==> Matches(lines, k, target)
  {
    ShiftedStack(lines, n, line, k);
    SameHit(lines, k, Inserted(lines, n, line), Shifted(n, k), target);
  }

  lemma ShiftedStack(lines: seq<string>, n: nat, line: string, k: nat)
    requires n <= |lines| && k < |lines| && KeyOf(line) == None
    ensures Inserted(lines, n, line)[Shifted(n, k)] == lines[k]
    ensures StackAfter(Inserted(lines, n, line), Shifted(n, k) + 1) == StackAfter(lines, k + 1)
  {
    if k < n {
      StackBefore(lines, n, line, k + 1);
    } else {
      StackBehind(lines, n, line, k + 1);
    }
  }

  lemma SameHit(a: seq<string>, i: nat, b: seq<string>, j: nat, target: seq<string>)
    requires i < |a| && j < |b| && a[i] == b[j] && StackAfter(a, i + 1) == StackAfter(b, j + 1)
    ensures Matches(a, i, target) <==> Matches(b, j, target)
  {
    HitIsMatch(a, i, target);
    HitIsMatch(b, j, target);
  }

  lemma InsertedNeverMatches(lines: seq<string>, n: nat, line: string, target: seq<string>)
    requires n <= |lines| && KeyOf(line) == None
    ensures !Matches(Inserted(lines, n, line), n, target)
  {
    assert Inserted(lines, n, line)[n] == line;
  }

  lemma MissShifts(lines: seq<string>, n: nat, line: string, target: seq<string>, k: nat)
    requires n <= |lines| && KeyOf(line) == None && k < |lines| && !Matches(lines, k, target)
    ensures !Matches(Inserted(lines, n, line), Shifted(n, k), target)
  {
    ShiftedMatches(lines, n, line, target, k);
  }

  /** Before the first match there is none after the insertion either. */
  lemma NoMatchBefore(lines: seq<string>, n: nat, line: string, target: seq<string>, r: nat, k: nat)
    requires n <= |lines| && KeyOf(line) == None && r <= |lines| && k < Shifted(n, r)
    requires forall j: nat :: j < r ==> !Matches(lines, j, target)
    ensures !Matches(Inserted(lines, n, line), k, target)
  {
    if k == n {
      InsertedNeverMatches(lines, n, line, target);
    } else {
      MissShifts(lines, n, line, target, if k < n then k else k - 1);
    }
  }

  lemma FirstMatchShifts(lines: seq<string>, n: nat, line: string, target: seq<string>)
    requires n <= |lines| && KeyOf(line) == None
    ensures FirstMatch(Inserted(lines, n, line), target, 0) == Shifted(n, FirstMatch(lines, target, 0))
  {
    var after, r := Inserted(lines, n, line), FirstMatch(lines, target, 0);
    forall k: nat | k < Shifted(n, r) && k < |after| ensures !Matches(after, k, target) {
      NoMatchBefore(lines, n, line, target, r, k);
    }
    if r < |lines| {
      ShiftedMatches(lines, n, line, target, r);
    }
    IsFirstMatch(after, target, 0, Shifted(n, r));
  }

  lemma IsFirstMatch(lines: seq<string>, target: seq<string>, k: nat, r: nat)
    requires k <= r <= |lines|
    requires forall j: nat :: k <= j < r ==> !Matches(lines, j, target)
    requires r < |lines| ==> Matches(lines, r, target)
    ensures FirstMatch(lines, target, k) == r
  {
  }

  /** A blank line or a comment line, wherever it is inserted, changes neither what is
      read under any path nor what is written. */
  lemma IgnoredLinesDoNotMatter(lines: seq<string>, n: nat, line: string, target: seq<string>, text: string)
    requires n <= |lines| && Ignored(line)
    ensures Get(Inserted(lines, n, line), target) == Get(lines, target)
    ensures Put(Inserted(lines, n, line), target, text) == Inserted(Put(lines, target, text), n, line)
  {
    var first: nat :| first <= |line| && IgnoredFrom(line, first);
    IgnoredHasNoKey(line, first);
    FirstMatchShifts(lines, n, line, target);
    var r := FirstMatch(lines, target, 0);
    if r < |lines| {
      ShiftedMatches(lines, n, line, target, r);
      UpdateShifts(lines, n, line, r, Edited(lines[r], text));
    }
  }

  lemma UpdateShifts(lines: seq<string>, n: nat, line: string, r: nat, x: string)
    requires n <= |lines| && r < |lines|
    ensures Inserted(lines, n, line)[Shifted(n, r) := x] == Inserted(lines[r := x], n, line)
  {
  }
}
