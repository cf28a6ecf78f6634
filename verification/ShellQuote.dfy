/** Quoting for the shell (`shell_quote` in src/CommandExecutor.cc, the same loop as
    `shell_single_quote` in include/common/utils.h), the commands built with it,
    and a reader by sections 2.2.1, 2.2.2 and 2.3 of the POSIX Shell Command
    Language. The reader stops at text it does not interpret: double quotes,
    expansions, patterns and comments. */
module ShellQuote {
  // ---- quoting --------------------------------------------------------------------

  function QuoteChar(c: char): string {
    if c == '\'' then "'\\''" else [c]
  }

  function Body(s: string): string {
    if s == "" then "" else QuoteChar(s[0]) + Body(s[1..])
  }

  function Quote(s: string): string { "'" + (Body(s) + "'") }

  lemma {:induction false} BodyAppends(s: string, c: char)
    ensures Body(s + [c]) == Body(s) + QuoteChar(c)
    decreases |s|
  {
    if s == "" {
      assert (s + [c])[1..] == "";
    } else {
      assert (s + [c])[1..] == s[1..] + [c];
      BodyAppends(s[1..], c);
    }
  }

  method Quoted(value: string) returns (quoted: string)
    ensures quoted == Quote(value)
  {
    quoted := "'";
    for i := 0 to |value|
      invariant quoted == "'" + Body(value[..i])
    {
      BodyAppends(value[..i], value[i]);
      assert value[..i + 1] == value[..i] + [value[i]];
      if value[i] == '\'' {
        quoted := quoted + "'\\''";
      } else {
        quoted := quoted + [value[i]];
      }
    }
    assert value[..|value|] == value;
    quoted := quoted + "'";
  }

  // ---- the commands ----------------------------------------------------------------

  // fixed text of `script_log_command` after the path, the tag and the log file
  const PIPE := "2>&1 | while IFS= read -r line; do printf '[%s] [info] [%s] [script:%s] %s\\n' " +
                "\"$(date '+%Y-%m-%d %H:%M:%S.%3N')\" \"$$\" "
  const SINK := " \"$line\"; done >> "
  const EXIT := "; exit ${PIPESTATUS[0]}"

  /** `script_log_command`: runs a script and copies its output to the log. */
  function ScriptCommand(path: string, tag: string, log: string): string {
    "set -o pipefail; bash " + (Quote(path) + (" " + (PIPE + (Quote(tag) + (SINK + (Quote(log) + EXIT))))))
  }

  /** The post-processing command handed to `system`. */
  function BashCommand(script: string): string { "/bin/bash -c " + Quote(script) }

  function ChmodCommand(path: string): string { "chmod +x " + Quote(path) }

  /** What a C function sees of a text: everything before the first NUL. */
  function CText(s: string): string {
    if s == "" || s[0] == '\0' then "" else [s[0]] + CText(s[1..])
  }

  // ---- the reader --------------------------------------------------------------------

  datatype Token = Word(text: string) | Operator(c: char) | Unterminated | Uninterpreted

  /** Between words, in a word, or inside single quotes. */
  datatype Mode = Between | InWord(text: string) | InQuote(text: string)

  predicate IsBlank(c: char) { c == ' ' || c == '\t' }

  predicate IsOperator(c: char) {
    c == ';' || c == '|' || c == '&' || c == '<' || c == '>' || c == '(' || c == ')' || c == '\n'
  }

  predicate IsUninterpreted(c: char, m: Mode) {
    c == '"' || c == '$' || c == '`' || c == '*' || c == '?' || c == '[' || c == '~' || (c == '#' && m == Between)
  }

  function Begun(m: Mode): string { if m == Between then "" else m.text }

  function Ended(m: Mode): seq<Token> { if m.InWord? then [Word(m.text)] else [] }

  function Read(t: string, m: Mode): seq<Token>
    decreases |t|
  {
    if t == "" then if m.InQuote? then [Unterminated] else Ended(m)
    else if m.InQuote? then
      Read(t[1..], if t[0] == '\'' then InWord(m.text) else InQuote(m.text + [t[0]]))
    else if t[0] == '\'' then Read(t[1..], InQuote(Begun(m)))
    else if t[0] == '\\' then
      if |t| == 1 then [Unterminated]
      else Read(t[2..], if t[1] == '\n' then m else InWord(Begun(m) + [t[1]]))
    else if IsBlank(t[0]) then Ended(m) + Read(t[1..], Between)
    else if IsOperator(t[0]) then Ended(m) + [Operator(t[0])] + Read(t[1..], Between)
    else if IsUninterpreted(t[0], m) then Ended(m) + [Uninterpreted]
    else Read(t[1..], InWord(Begun(m) + [t[0]]))
  }

  // ---- one quoted word ------------------------------------------------------------------

  lemma ReadsQuoteChar(c: char, rest: string, w: string)
    ensures Read(QuoteChar(c) + rest, InQuote(w)) == Read(rest, InQuote(w + [c]))
  {
    var t := QuoteChar(c) + rest;
    if c == '\'' {
      assert t[1..] == "\\''" + rest;
      assert t[1..][2..] == "'" + rest;
      assert t[1..][2..][1..] == rest;
      assert Read(t, InQuote(w)) == Read(t[1..], InWord(w));
      assert Read(t[1..], InWord(w)) == Read(t[1..][2..], InWord(w + [c]));
    } else {
      assert t[1..] == rest;
    }
  }

  lemma {:induction false} ReadsBody(s: string, rest: string, w: string)
    ensures Read(Body(s) + rest, InQuote(w)) == Read(rest, InQuote(w + s))
    decreases |s|
  {
    if s == "" {
      assert Body(s) + rest == rest && w + s == w;
    } else {
      assert Body(s) + rest == QuoteChar(s[0]) + (Body(s[1..]) + rest);
      ReadsQuoteChar(s[0], Body(s[1..]) + rest, w);
      ReadsBody(s[1..], rest, w + [s[0]]);
      assert w + s == (w + [s[0]]) + s[1..];
    }
  }

  /** Wherever a quoted text stands outside quotes, it adds exactly that text to the word. */
  lemma ReadsQuote(s: string, rest: string, m: Mode)
    requires !m.InQuote?
    ensures Read(Quote(s) + rest, m) == Read(rest, InWord(Begun(m) + s))
  {
    var t := Quote(s) + rest;
    assert t[1..] == Body(s) + ("'" + rest);
    ReadsBody(s, "'" + rest, Begun(m));
    assert ("'" + rest)[1..] == rest;
  }

  /** A quoted text alone is one word: the text. */
  lemma QuoteIsOneWord(s: string)
    ensures Read(Quote(s), Between) == [Word(s)]
  {
    assert Quote(s) + "" == Quote(s);
    ReadsQuote(s, "", Between);
    assert "" + s == s;
  }

  /** Different texts never quote the same. */
  lemma QuoteIsInjective(s: string, t: string)
    requires Quote(s) == Quote(t)
    ensures s == t
  {
    QuoteIsOneWord(s);
    QuoteIsOneWord(t);
  }

  // ---- in a command ------------------------------------------------------------------------

  predicate IsPlain(p: string) {
    forall i :: 0 <= i < |p| ==>
      p[i] != '\'' && p[i] != '\\' && !IsBlank(p[i]) && !IsOperator(p[i]) && !IsUninterpreted(p[i], Between)
  }

  lemma {:induction false} ReadsPlain(p: string, rest: string, m: Mode)
    requires IsPlain(p) && p != "" && !m.InQuote?
    ensures Read(p + rest, m) == Read(rest, InWord(Begun(m) + p))
    decreases |p|
  {
    var next := InWord(Begun(m) + [p[0]]);
    assert (p + rest)[1..] == p[1..] + rest;
    if |p| == 1 {
      assert p[1..] + rest == rest && [p[0]] == p;
    } else {
      ReadsPlain(p[1..], rest, next);
      assert Begun(m) + p == (Begun(m) + [p[0]]) + p[1..];
    }
  }

  lemma ReadsWord(p: string, rest: string)
    requires IsPlain(p) && p != ""
    ensures Read(p + (" " + rest), Between) == [Word(p)] + Read(rest, Between)
  {
    ReadsPlain(p, " " + rest, Between);
    assert "" + p == p;
    assert (" " + rest)[1..] == rest;
  }

  lemma ReadsQuotedArgument(s: string, rest: string)
    ensures Read(Quote(s) + (" " + rest), Between) == [Word(s)] + Read(rest, Between)
    ensures Read(Quote(s), Between) == [Word(s)]
  {
    ReadsQuote(s, " " + rest, Between);
    assert "" + s == s;
    assert (" " + rest)[1..] == rest;
    QuoteIsOneWord(s);
  }

  lemma ReadsBash(argument: string)
    ensures Read("/bin/bash -c " + argument, Between) == [Word("/bin/bash"), Word("-c")] + Read(argument, Between)
  {
    assert "/bin/bash -c " + argument == "/bin/bash" + (" " + ("-c" + (" " + argument)));
    ReadsWord("/bin/bash", "-c" + (" " + argument));
    ReadsWord("-c", argument);
  }

  /** The shell runs `/bin/bash -c` with exactly the script as its argument. */
  lemma BashGetsTheScript(script: string)
    ensures Read(BashCommand(script), Between) == [Word("/bin/bash"), Word("-c"), Word(script)]
  {
    ReadsBash(Quote(script));
    QuoteIsOneWord(script);
  }

  lemma ChmodGetsThePath(path: string)
    ensures Read(ChmodCommand(path), Between) == [Word("chmod"), Word("+x"), Word(path)]
  {
    var q := Quote(path);
    assert ChmodCommand(path) == "chmod" + (" " + ("+x" + (" " + q)));
    ReadsWord("chmod", "+x" + (" " + q));
    ReadsWord("+x", q);
    QuoteIsOneWord(path);
  }

  lemma ReadsOperator(p: string, c: char, rest: string)
    requires IsPlain(p) && p != "" && IsOperator(c)
    ensures Read(p + ([c] + rest), Between) == [Word(p), Operator(c)] + Read(rest, Between)
  {
    ReadsPlain(p, [c] + rest, Between);
    assert "" + p == p;
    OperatorEndsWord(p, c, rest);
  }

  lemma OperatorEndsWord(p: string, c: char, rest: string)
    requires IsOperator(c)
    ensures Read([c] + rest, InWord(p)) == [Word(p), Operator(c)] + Read(rest, Between)
  {
    assert ([c] + rest)[1..] == rest;
  }

  lemma ReadsBlank(rest: string)
    ensures Read(" " + rest, Between) == Read(rest, Between)
  {
  }

  lemma ReadsOptions(rest: string)
    ensures Read("set" + (" " + ("-o" + (" " + ("pipefail" + (";" + rest))))), Between) ==
      [Word("set"), Word("-o"), Word("pipefail"), Operator(';')] + Read(rest, Between)
  {
    var t := "pipefail" + (";" + rest);
    ReadsWord("set", "-o" + (" " + t));
    ReadsWord("-o", t);
    ReadsOperator("pipefail", ';', rest);
  }

  lemma ScriptStart(t: string)
    ensures "set -o pipefail; bash " + t ==
      "set" + (" " + ("-o" + (" " + ("pipefail" + (";" + (" " + ("bash" + (" " + t))))))))
  {
  }

  /** And that inner bash runs exactly the script file, whatever its path contains. */
  lemma ScriptRunsThePath(path: string, rest: string)
    ensures Read("set -o pipefail; bash " + (Quote(path) + (" " + rest)), Between) ==
      [Word("set"), Word("-o"), Word("pipefail"), Operator(';'), Word("bash"), Word(path)] + Read(rest, Between)
  {
    var t4 := Quote(path) + (" " + rest);
    var t3 := " " + ("bash" + (" " + t4));
    ScriptStart(t4);
    ReadsOptions(t3);
    ReadsBlank("bash" + (" " + t4));
    ReadsWord("bash", t4);
    ReadsQuotedArgument(path, rest);
    Regroups([Word("set"), Word("-o"), Word("pipefail"), Operator(';')], Word("bash"), Word(path), Read(rest, Between));
  }

  lemma Regroups(a: seq<Token>, b: Token, c: Token, rest: seq<Token>)
    ensures a + ([b] + ([c] + rest)) == a + [b, c] + rest
  {
  }

  predicate StartsWith(a: seq<Token>, b: seq<Token>) { b <= a }

  /** Both levels together: the outer shell passes the script on unchanged, and in
      it the quoted path comes out as itself. */
  lemma NestedQuotingRoundTrips(path: string, tag: string, log: string)
    ensures var script := ScriptCommand(path, tag, log);
      && Read(BashCommand(script), Between) == [Word("/bin/bash"), Word("-c"), Word(script)]
      && StartsWith(Read(script, Between),
           [Word("set"), Word("-o"), Word("pipefail"), Operator(';'), Word("bash"), Word(path)])
  {
    var script := ScriptCommand(path, tag, log);
    BashGetsTheScript(script);
    ScriptRunsThePath(path, PIPE + (Quote(tag) + (SINK + (Quote(log) + EXIT))));
  }

  // ---- as C strings ---------------------------------------------------------------------------

  lemma {:induction false} CTextOf(a: string, b: string)
    requires '\0' !in a
    ensures CText(a + b) == a + CText(b)
    decreases |a|
  {
    if a == "" {
      assert a + b == b;
    } else {
      assert (a + b)[1..] == a[1..] + b;
      CTextOf(a[1..], b);
    }
  }

  lemma {:induction false} BodyHasNoNul(s: string)
    requires '\0' !in s
    ensures '\0' !in Body(s)
  {
    if s != "" {
      BodyHasNoNul(s[1..]);
    }
  }

  /** Up to a NUL, the body is the body of the text up to the NUL. */
  lemma {:induction false} CutBody(s: string, rest: string)
    requires '\0' in s
    ensures CText(Body(s) + rest) == Body(CText(s))
    decreases |s|
  {
    if s[0] != '\0' {
      assert s == [s[0]] + s[1..];
      assert Body(s) + rest == QuoteChar(s[0]) + (Body(s[1..]) + rest);
      CTextOf(QuoteChar(s[0]), Body(s[1..]) + rest);
      CutBody(s[1..], rest);
      assert CText(s)[1..] == CText(s[1..]);
    }
  }

  lemma {:induction false} NoNulStays(s: string)
    requires '\0' !in s
    ensures CText(s) == s
  {
    if s != "" {
      NoNulStays(s[1..]);
    }
  }

  /** A text with a NUL is cut inside its quotes. */
  lemma CutQuoteIsOpen(s: string)
    requires '\0' in s
    ensures Read(CText(Quote(s)), Between) == [Unterminated]
  {
    CTextOf("'", Body(s) + "'");
    CutBody(s, "'");
    var t := "'" + Body(CText(s));
    assert t[1..] == Body(CText(s)) + "";
    ReadsBody(CText(s), "", "");
  }

  /** Handed over as a C string, a quoted text arrives exactly when it has no NUL. */
  lemma RoundTripsExactlyWithoutNul(s: string)
    ensures Read(CText(Quote(s)), Between) == [Word(s)] <==> '\0' !in s
  {
    if '\0' in s {
      CutQuoteIsOpen(s);
    } else {
      BodyHasNoNul(s);
      NoNulStays(Quote(s));
      QuoteIsOneWord(s);
    }
  }

  /** So `system` runs the whole script exactly when the script has no NUL. */
  lemma SystemRunsTheScriptExactlyWithoutNul(script: string)
    ensures Read(CText(BashCommand(script)), Between) == [Word("/bin/bash"), Word("-c"), Word(script)] <==>
            '\0' !in script
  {
    CTextOf("/bin/bash -c ", Quote(script));
    ReadsBash(CText(Quote(script)));
    RoundTripsExactlyWithoutNul(script);
    var words := Read(CText(Quote(script)), Between);
    assert ([Word("/bin/bash"), Word("-c")] + words)[2..] == words;
    assert [Word("/bin/bash"), Word("-c"), Word(script)][2..] == [Word(script)];
  }
}
