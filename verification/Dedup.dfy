/** The window of recent commands (`is_duplicate_command` in
    src/gateway/gateway.cc): its keys, and the deque with its set. */
module Dedup {
  import opened Options
  import opened JsonText

  const LIMIT := 100

  // ---- keys ---------------------------------------------------------------------------

  datatype Field = Absent | Text(s: string) | Integer(n: int) | OtherField

  datatype Payload = Payload(
    kind: string,
    commandId: Field,
    cmdId: Field,
    requestId: Field,
    msgId: Field,
    number: Field,
    device: Field,
    id: Field)

  const NAMES: seq<string> := ["command_id", "cmd_id", "request_id", "msg_id"]

  function Ids(p: Payload): seq<Field> { [p.commandId, p.cmdId, p.requestId, p.msgId] }

  function Decimal(n: nat): string {
    if n < 10 then ['0' + n as char] else Decimal(n / 10) + ['0' + (n % 10) as char]
  }

  function IntText(n: int): string {
    if n < 0 then "-" + Decimal(-n) else Decimal(n)
  }

  /** The text of a field that can identify a command, or nothing. */
  function ValueText(f: Field): string {
    match f
    case Text(s) => s
    case Integer(n) => IntText(n)
    case _ => ""
  }

  predicate IsBroadcast(kind: string) {
    kind == "broadcast" || kind == "roboticarm" || kind == "ai_recognition"
  }

  function BroadcastKey(kind: string, device: string, number: int, id: string): string {
    "[" + (Quoted(kind) + ("," + (Quoted(device) + ("," + (IntText(number) + ("," + (Quoted(id) + "]")))))))
  }

  function OrdinaryKey(kind: string, name: string, value: string): string {
    kind + (":" + (name + (":" + value)))
  }

  /** The first field at or after `i` with a usable value. */
  function FirstUsable(fields: seq<Field>, i: nat): (r: nat)
    requires i <= |fields|
    ensures i <= r <= |fields|
    ensures forall j :: i <= j < r ==> ValueText(fields[j]) == ""
    ensures r < |fields| ==> ValueText(fields[r]) != ""
    decreases |fields| - i
  {
    if i == |fields| || ValueText(fields[i]) != "" then i else FirstUsable(fields, i + 1)
  }

  function KeyOf(p: Payload): Option<string> {
    if IsBroadcast(p.kind) then
      if p.number.Integer? && p.device.Text? && p.id.Text? && p.device.s != "" && p.id.s != ""
      then Some(BroadcastKey(p.kind, p.device.s, p.number.n, p.id.s))
      else None
    else
      var i := FirstUsable(Ids(p), 0);
      if i < |NAMES| then Some(OrdinaryKey(p.kind, NAMES[i], ValueText(Ids(p)[i]))) else None
  }

  // ---- which field identifies a command ----------------------------------------------------

  predicate Usable(f: Field) { f.Integer? || (f.Text? && f.s != "") }

  /** `t` is the text itself, or the decimal digits of the number with a sign if it is negative. */
  predicate Writes(t: string, f: Field) {
    match f
    case Text(s) => t == s
    case Integer(n) => if n < 0 then t != "" && t[0] == '-' && IsNumber(t[1..], -n) else IsNumber(t, n)
    case _ => false
  }

  predicate IsNumber(t: string, n: nat) { t != "" && Digits(t) && NumberOf(t) == n }

  lemma UsableIsWritten(f: Field)
    ensures Usable(f) <==> ValueText(f) != ""
    ensures Usable(f) ==> Writes(ValueText(f), f)
  {
    if f.Integer? {
      DecimalReadsBack(if f.n < 0 then -f.n else f.n);
      if f.n < 0 {
        assert IntText(f.n)[1..] == Decimal(-f.n);
      }
    }
  }

  /** The key has the first usable field of the four, and its name. */
  ghost predicate KeyedBy(p: Payload, name: string, f: Field) {
    Usable(f) && KeyOf(p).Some? && exists t :: Writes(t, f) && KeyOf(p).value == OrdinaryKey(p.kind, name, t)
  }

  /** An ordinary command is identified by its `command_id`, or else its `cmd_id`, its
      `request_id` or its `msg_id`: by the first that is a nonempty text or an integer. */
  lemma FirstUsableFieldIdentifies(p: Payload)
    requires p.kind != "broadcast" && p.kind != "roboticarm" && p.kind != "ai_recognition"
    ensures
      if Usable(p.commandId) then KeyedBy(p, "command_id", p.commandId)
      else if Usable(p.cmdId) then KeyedBy(p, "cmd_id", p.cmdId)
      else if Usable(p.requestId) then KeyedBy(p, "request_id", p.requestId)
      else if Usable(p.msgId) then KeyedBy(p, "msg_id", p.msgId)
      else KeyOf(p) == None
  {
    UsableIsWritten(p.commandId);
    UsableIsWritten(p.cmdId);
    UsableIsWritten(p.requestId);
    UsableIsWritten(p.msgId);
    var fields := Ids(p);
    assert fields[0] == p.commandId && fields[1] == p.cmdId && fields[2] == p.requestId && fields[3] == p.msgId;
    if Usable(p.commandId) {
      KeyedAt(p, 0);
    } else if Usable(p.cmdId) {
      KeyedAt(p, 1);
    } else if Usable(p.requestId) {
      KeyedAt(p, 2);
    } else if Usable(p.msgId) {
      KeyedAt(p, 3);
    }
  }

  lemma KeyedAt(p: Payload, i: nat)
    requires !IsBroadcast(p.kind) && i < |NAMES| && Usable(Ids(p)[i])
    requires forall j :: 0 <= j < i ==> ValueText(Ids(p)[j]) == ""
    ensures KeyedBy(p, NAMES[i], Ids(p)[i])
  {
    UsableIsWritten(Ids(p)[i]);
    assert FirstUsable(Ids(p), 0) == i;
    assert Writes(ValueText(Ids(p)[i]), Ids(p)[i]);
  }

  /** A broadcast is identified exactly when it has all three fields, whatever else it has. */
  lemma BroadcastIsIdentified(p: Payload)
    requires p.kind == "broadcast" || p.kind == "roboticarm" || p.kind == "ai_recognition"
    ensures KeyOf(p).Some? <==> p.number.Integer? && p.device.Text? && p.device.s != "" && p.id.Text? && p.id.s != ""
    ensures KeyOf(p).Some? ==> KeyOf(p).value == BroadcastKey(p.kind, p.device.s, p.number.n, p.id.s)
  {
  }

  // ---- equal keys mean equal commands -------------------------------------------------------

  lemma {:induction false} SplitsAtMark(a: string, x: string, b: string, y: string, mark: char)
    requires mark !in a && mark !in b && a + ([mark] + x) == b + ([mark] + y)
    ensures a == b && x == y
    decreases |a|
  {
    var s, t := a + ([mark] + x), b + ([mark] + y);
    assert s[0] == (if a == "" then mark else a[0]) && t[0] == (if b == "" then mark else b[0]);
    if a == "" || b == "" {
      assert a == b == "";
      assert s[1..] == x && t[1..] == y;
    } else {
      assert s[1..] == a[1..] + ([mark] + x) && t[1..] == b[1..] + ([mark] + y);
      SplitsAtMark(a[1..], x, b[1..], y, mark);
      assert a == [a[0]] + a[1..] && b == [b[0]] + b[1..];
    }
  }

  lemma NamesHaveNoColon(i: nat)
    requires i < |NAMES|
    ensures ':' !in NAMES[i]
  {
  }

  /** `longer` is `shorter`, a colon and the field name `i`, and then ends or goes on with a colon. */
  predicate ExtendsBy(longer: string, shorter: string, i: nat)
    requires i < |NAMES|
  {
    var head := shorter + (":" + NAMES[i]);
    head <= longer && (|head| < |longer| ==> longer[|head|] == ':')
  }

  predicate Extends(longer: string, shorter: string) {
    exists i: nat :: i < |NAMES| && ExtendsBy(longer, shorter, i)
  }

  /** A text that starts with `m` and a colon: where its other parse at a colon ends. */
  lemma ColonParses(m: string, v: string, c: string, rest: string)
    requires ':' !in m && m + (":" + v) == c + (":" + rest)
    ensures m <= c && (|m| < |c| ==> c[|m|] == ':')
  {
    var t, u := m + (":" + v), c + (":" + rest);
    assert u[|c|] == ':' && t[|m|] == ':';
    assert forall k :: 0 <= k < |m| ==> t[k] == m[k];
    assert |m| <= |c|;
    assert m == t[..|m|] && u[..|m|] == c[..|m|];
    assert |m| < |c| ==> u[|m|] == c[|m|];
  }

  /** Equal keys of types of different length: the longer extends the shorter. */
  lemma LongerTypeExtends(a: string, i: nat, v: string, b: string, j: nat, w: string)
    requires i < |NAMES| && j < |NAMES| && |a| < |b|
    requires OrdinaryKey(a, NAMES[i], v) == OrdinaryKey(b, NAMES[j], w)
    ensures ExtendsBy(b, a, i)
  {
    var inner, outer := NAMES[i] + (":" + v), NAMES[j] + (":" + w);
    var s, t := a + (":" + inner), b + (":" + outer);
    assert s == t;
    var c := b[|a| + 1..];
    assert forall k :: 0 <= k < |a| ==> s[k] == a[k] && t[k] == b[k];
    assert s[|a|] == ':' && t[|a|] == b[|a|];
    assert b == a + (":" + c);
    assert s[|a| + 1..] == inner && t[|a| + 1..] == c + (":" + outer);
    NamesHaveNoColon(i);
    ColonParses(NAMES[i], v, c, outer);
    var head := a + (":" + NAMES[i]);
    assert head <= b;
    assert |head| < |b| ==> b[|head|] == c[|NAMES[i]|];
  }

  lemma SameLengthSameType(a: string, x: string, b: string, y: string)
    requires |a| == |b| && a + x == b + y
    ensures a == b && x == y
  {
    assert a == (a + x)[..|a|] && b == (b + y)[..|b|];
    assert x == (a + x)[|a|..] && y == (b + y)[|b|..];
  }

  /** Where neither type extends the other, equal ordinary keys have the same type,
      field and value. */
  lemma OrdinaryKeysDiffer(a: string, i: nat, v: string, b: string, j: nat, w: string)
    requires !Extends(a, b) && !Extends(b, a) && i < |NAMES| && j < |NAMES|
    requires OrdinaryKey(a, NAMES[i], v) == OrdinaryKey(b, NAMES[j], w)
    ensures a == b && NAMES[i] == NAMES[j] && v == w
  {
    if |a| < |b| {
      LongerTypeExtends(a, i, v, b, j, w);
    } else if |b| < |a| {
      LongerTypeExtends(b, j, w, a, i, v);
    } else {
      SameLengthSameType(a, ":" + (NAMES[i] + (":" + v)), b, ":" + (NAMES[j] + (":" + w)));
      assert (":" + (NAMES[i] + (":" + v)))[1..] == NAMES[i] + (":" + v);
      assert (":" + (NAMES[j] + (":" + w)))[1..] == NAMES[j] + (":" + w);
      NamesHaveNoColon(i);
      NamesHaveNoColon(j);
      SplitsAtMark(NAMES[i], v, NAMES[j], w, ':');
    }
  }

  /** Types without a colon extend nothing, so their keys tell everything apart. */
  lemma ColonFreeKeysDiffer(a: string, i: nat, v: string, b: string, j: nat, w: string)
    requires ':' !in a && ':' !in b && i < |NAMES| && j < |NAMES|
    requires OrdinaryKey(a, NAMES[i], v) == OrdinaryKey(b, NAMES[j], w)
    ensures a == b && NAMES[i] == NAMES[j] && v == w
  {
    ExtensionHasColon(a, b);
    ExtensionHasColon(b, a);
    OrdinaryKeysDiffer(a, i, v, b, j, w);
  }

  lemma ExtensionHasColon(longer: string, shorter: string)
    ensures Extends(longer, shorter) ==> ':' in longer && |shorter| < |longer|
  {
    if i: nat :| i < |NAMES| && ExtendsBy(longer, shorter, i) {
      assert (shorter + (":" + NAMES[i]))[|shorter|] == ':';
      assert longer[|shorter|] == ':';
    }
  }

  /** A value for the shorter type that meets any key of the longer one. */
  lemma ExtensionsMeet(a: string, i: nat, b: string, j: nat, w: string) returns (v: string)
    requires i < |NAMES| && j < |NAMES| && ExtendsBy(b, a, i)
    ensures v != "" && OrdinaryKey(a, NAMES[i], v) == OrdinaryKey(b, NAMES[j], w)
  {
    var head := a + (":" + NAMES[i]);
    var tail, last := b[|head|..], NAMES[j] + (":" + w);
    assert b == head + tail;
    if tail == "" {
      v := last;
    } else {
      v := tail[1..] + (":" + last);
      assert tail == ":" + tail[1..];
    }
    KeyAfterHead(a, NAMES[i], v);
    KeyAfterType(head, tail, NAMES[j], w);
  }

  lemma KeyAfterHead(kind: string, name: string, value: string)
    ensures OrdinaryKey(kind, name, value) == kind + (":" + name) + (":" + value)
  {
  }

  lemma KeyAfterType(head: string, tail: string, name: string, value: string)
    ensures OrdinaryKey(head + tail, name, value) == head + (tail + (":" + (name + (":" + value))))
  {
  }

  /** A command with one identifying field. */
  function WithId(kind: string, i: nat, v: string): Payload {
    Payload(kind, if i == 0 then Text(v) else Absent, if i == 1 then Text(v) else Absent,
            if i == 2 then Text(v) else Absent, if i == 3 then Text(v) else Absent, Absent, Absent, Absent)
  }

  lemma KeyOfWithId(kind: string, i: nat, v: string)
    requires !IsBroadcast(kind) && i < |NAMES| && v != ""
    ensures KeyOf(WithId(kind, i, v)) == Some(OrdinaryKey(kind, NAMES[i], v))
  {
    var fields := Ids(WithId(kind, i, v));
    assert ValueText(fields[i]) == v;
    assert forall j :: 0 <= j < i ==> ValueText(fields[j]) == "";
    assert FirstUsable(fields, 0) == i;
  }

  /** Some commands of the two types share a key. */
  ghost predicate CanCollide(a: string, b: string) {
    exists p, q :: Collide(p, q) && p.kind == a && q.kind == b
  }

  predicate Collide(p: Payload, q: Payload) { KeyOf(p).Some? && KeyOf(p) == KeyOf(q) }

  lemma ExtensionCollides(a: string, b: string)
    requires !IsBroadcast(a) && !IsBroadcast(b) && Extends(b, a)
    ensures CanCollide(a, b) && CanCollide(b, a)
  {
    var i: nat :| i < |NAMES| && ExtendsBy(b, a, i);
    var v := ExtensionsMeet(a, i, b, 0, "x");
    KeyOfWithId(a, i, v);
    KeyOfWithId(b, 0, "x");
    assert Collide(WithId(a, i, v), WithId(b, 0, "x")) && Collide(WithId(b, 0, "x"), WithId(a, i, v));
  }

  lemma CollisionExtends(p: Payload, q: Payload)
    requires !IsBroadcast(p.kind) && !IsBroadcast(q.kind) && p.kind != q.kind && Collide(p, q)
    ensures Extends(p.kind, q.kind) || Extends(q.kind, p.kind)
  {
    var i, j := FirstUsable(Ids(p), 0), FirstUsable(Ids(q), 0);
    if !Extends(p.kind, q.kind) && !Extends(q.kind, p.kind) {
      OrdinaryKeysDiffer(p.kind, i, ValueText(Ids(p)[i]), q.kind, j, ValueText(Ids(q)[j]));
    }
  }

  /** Two different types can share a key exactly when one of them extends the other. */
  lemma TypesCollideExactlyWhen(a: string, b: string)
    requires !IsBroadcast(a) && !IsBroadcast(b) && a != b
    ensures CanCollide(a, b) <==> Extends(a, b) || Extends(b, a)
  {
    if Extends(a, b) {
      ExtensionCollides(b, a);
    }
    if Extends(b, a) {
      ExtensionCollides(a, b);
    }
    if p, q :| Collide(p, q) && p.kind == a && q.kind == b {
      CollisionExtends(p, q);
    }
  }

  /** Two commands with one key. */
  lemma ColonTypesCollide()
    ensures OrdinaryKey("a", "cmd_id", "cmd_id:x") == OrdinaryKey("a:cmd_id", "cmd_id", "x")
  {
    assert OrdinaryKey("a", "cmd_id", "cmd_id:x") == "a:cmd_id:cmd_id:x";
  }

  predicate Digits(s: string) {
    forall i :: 0 <= i < |s| ==> '0' <= s[i] <= '9'
  }

  function NumberOf(s: string): nat
    requires Digits(s)
  {
    if s == "" then 0 else NumberOf(s[..|s| - 1]) * 10 + (s[|s| - 1] - '0') as nat
  }

  lemma {:induction false} DecimalReadsBack(n: nat)
    ensures Decimal(n) != "" && Digits(Decimal(n)) && NumberOf(Decimal(n)) == n
  {
    if n >= 10 {
      DecimalReadsBack(n / 10);
      assert Decimal(n)[..|Decimal(n)| - 1] == Decimal(n / 10);
    }
  }

  lemma IntTextDiffers(m: int, n: int)
    requires IntText(m) == IntText(n)
    ensures m == n
  {
    DecimalReadsBack(if m < 0 then -m else m);
    DecimalReadsBack(if n < 0 then -n else n);
    assert IntText(m)[0] == IntText(n)[0];
    assert m < 0 <==> n < 0;
    if m < 0 {
      assert IntText(m)[1..] == Decimal(-m) && IntText(n)[1..] == Decimal(-n);
    }
  }

  lemma IntTextHasNoComma(n: int)
    ensures ',' !in IntText(n)
  {
    DecimalReadsBack(if n < 0 then -n else n);
  }

  lemma AfterComma(a: string, x: string, b: string, y: string)
    requires Quoted(a) + ("," + x) == Quoted(b) + ("," + y)
    ensures a == b && x == y
  {
    QuotedIsPrefixFree(a, "," + x, b, "," + y);
    assert ("," + x)[1..] == x && ("," + y)[1..] == y;
  }

  /** Equal broadcast keys have the same type, device, sequence number and id,
      whatever characters they contain. */
  lemma BroadcastKeysDiffer(a: string, d: string, m: int, x: string, b: string, e: string, n: int, y: string)
    requires BroadcastKey(a, d, m, x) == BroadcastKey(b, e, n, y)
    ensures a == b && d == e && m == n && x == y
  {
    var s2, t2 := IntText(m) + ("," + (Quoted(x) + "]")), IntText(n) + ("," + (Quoted(y) + "]"));
    var s1, t1 := Quoted(d) + ("," + s2), Quoted(e) + ("," + t2);
    assert BroadcastKey(a, d, m, x)[1..] == Quoted(a) + ("," + s1);
    assert BroadcastKey(b, e, n, y)[1..] == Quoted(b) + ("," + t1);
    AfterComma(a, s1, b, t1);
    AfterComma(d, s2, e, t2);
    IntTextHasNoComma(m);
    IntTextHasNoComma(n);
    SplitsAtMark(IntText(m), Quoted(x) + "]", IntText(n), Quoted(y) + "]", ',');
    IntTextDiffers(m, n);
    QuotedIsPrefixFree(x, "]", y, "]");
  }

  /** An ordinary command never shares its key with a broadcast one, unless its type starts with a bracket. */
  lemma OrdinaryKeyIsNotBroadcast(kind: string, name: string, value: string, b: string, d: string, n: int, id: string)
    requires kind == "" || kind[0] != '['
    ensures OrdinaryKey(kind, name, value) != BroadcastKey(b, d, n, id)
  {
    assert BroadcastKey(b, d, n, id)[0] == '[';
    assert OrdinaryKey(kind, name, value)[0] == if kind == "" then ':' else kind[0];
  }

  // ---- when an ordinary key is a broadcast one --------------------------------------------------

  /** A broadcast key up to its device text, and up to its id text. */
  function DeviceHead(b: string): string { "[" + (Quoted(b) + ("," + "\"")) }

  function NumberPart(n: int): string { "\"" + ("," + (IntText(n) + ("," + "\""))) }

  function IdHead(b: string, d: string, n: int): string { DeviceHead(b) + (Escape(d) + NumberPart(n)) }

  ghost predicate StopsInDevice(t: string) {
    exists b, x :: IsBroadcast(b) && t == DeviceHead(b) + Escape(x)
  }

  ghost predicate StopsInId(t: string) {
    exists b, d, n, x :: IsBroadcast(b) && d != "" && t == IdHead(b, d, n) + Escape(x)
  }

  lemma Regroup(a: string, b: string, c: string, d: string, rest: string)
    ensures (a + (b + (c + d))) + rest == a + (b + (c + (d + rest)))
  {
    assert (c + d) + rest == c + (d + rest);
    assert (b + (c + d)) + rest == b + ((c + d) + rest);
  }

  lemma QuotedThen(s: string, rest: string)
    ensures Quoted(s) + rest == "\"" + (Escape(s) + ("\"" + rest))
  {
    var e := Escape(s);
    assert (['"'] + e + ['"']) + rest == ['"'] + (e + (['"'] + rest));
  }

  lemma KeyParts(b: string, d: string, n: int, id: string)
    ensures BroadcastKey(b, d, n, id) == DeviceHead(b) + (Escape(d) + (NumberPart(n) + (Escape(id) + "\"]")))
    ensures BroadcastKey(b, d, n, id) == IdHead(b, d, n) + (Escape(id) + "\"]")
  {
    var last := Escape(id) + "\"]";
    QuotedThen(id, "]");
    assert "\"" + "]" == "\"]";
    var number := "," + (IntText(n) + ("," + ("\"" + last)));
    Regroup(",", IntText(n), ",", "\"", last);
    assert NumberPart(n) + last == "\"" + ((("," + (IntText(n) + ("," + "\""))) + last));
    QuotedThen(d, number);
    Regroup("[", Quoted(b), ",", "\"", Escape(d) + (NumberPart(n) + last));
    HeadThen(DeviceHead(b), Escape(d), NumberPart(n), last);
  }

  lemma HeadThen(a: string, b: string, c: string, rest: string)
    ensures a + (b + (c + rest)) == (a + (b + c)) + rest
  {
    assert (b + c) + rest == b + (c + rest);
  }

  lemma {:induction false} EscapeJoins(s: string, t: string)
    ensures Escape(s + t) == Escape(s) + Escape(t)
  {
    if s == "" {
      assert s + t == t;
    } else {
      EscapeJoins(s[1..], t);
      assert (s + t)[0] == s[0] && (s + t)[1..] == s[1..] + t;
      JoinsLater(EscapeChar(s[0]), Escape(s[1..]), Escape(t));
    }
  }

  lemma JoinsLater(a: string, b: string, c: string)
    ensures a + (b + c) == (a + b) + c
  {
  }

  predicate Plain(c: char) { c >= ' ' && c != '"' && c != '\\' }

  lemma {:induction false} PlainEscape(s: string)
    requires forall c :: c in s ==> Plain(c)
    ensures Escape(s) == s
  {
    if s != "" {
      assert Plain(s[0]);
      assert EscapeChar(s[0]) == [s[0]];
      PlainEscape(s[1..]);
      assert [s[0]] + s[1..] == s;
    }
  }

  /** A colon stays as it is, and no other character brings one in. */
  lemma EscapedColon(c: char)
    ensures if c == ':' then EscapeChar(c) == ":" else ':' !in EscapeChar(c)
  {
  }

  /** A colon lies behind a text that has none. */
  lemma PastPlain(u: string, v: string, p: string, rest: string)
    requires ':' !in p && u + (":" + v) == p + rest
    ensures p <= u && u[|p|..] + (":" + v) == rest
  {
    var k := u + (":" + v);
    assert k[|u|] == ':';
    assert forall i :: 0 <= i < |p| ==> k[i] == p[i];
    assert |p| <= |u|;
    assert p == k[..|p|] == u[..|p|];
    assert rest == k[|p|..];
  }

  /** What one escaped character takes of a text in which a colon comes later. */
  lemma PastChar(u: string, v: string, c: char, rest: string)
    requires u + (":" + v) == EscapeChar(c) + rest && (u != "" || c != ':')
    ensures EscapeChar(c) <= u && u[|EscapeChar(c)|..] + (":" + v) == rest
  {
    EscapedColon(c);
    if c == ':' {
      var k := u + (":" + v);
      assert u[0] == k[0] && k[1..] == u[1..] + (":" + v) == rest;
    } else {
      PastPlain(u, v, EscapeChar(c), rest);
    }
  }

  /** A colon in an escaped text cuts it at a colon of the text, or lies behind it. */
  lemma {:induction false} CutAtColon(u: string, v: string, s: string, rest: string) returns (x: string)
    requires u + (":" + v) == Escape(s) + rest
    ensures u == Escape(x) || (Escape(s) <= u && u[|Escape(s)|..] + (":" + v) == rest)
    decreases |s|
  {
    x := "";
    if s != "" && (u != "" || s[0] != ':') {
      var head := EscapeChar(s[0]);
      JoinsLater(head, Escape(s[1..]), rest);
      PastChar(u, v, s[0], Escape(s[1..]) + rest);
      var y := CutAtColon(u[|head|..], v, s[1..], rest);
      assert u == head + u[|head|..];
      x := [s[0]] + y;
      assert x[1..] == y;
    } else if s != "" {
      assert u == Escape("");
    }
  }

  lemma HeadsHaveNoColon(b: string, n: int)
    requires ':' !in b
    ensures ':' !in DeviceHead(b) && ':' !in NumberPart(n)
  {
    DecimalReadsBack(if n < 0 then -n else n);
    EscapeKeepsLetters(b);
  }

  lemma {:induction false} EscapeKeepsLetters(s: string)
    ensures ':' !in s ==> ':' !in Escape(s)
  {
    if s != "" {
      EscapedColon(s[0]);
      EscapeKeepsLetters(s[1..]);
    }
  }

  /** Where the type of an ordinary command ends in a broadcast key. */
  lemma BroadcastKeyCut(t: string, v: string, b: string, d: string, n: int, id: string) returns (x: string, y: string)
    requires ':' !in b && t + (":" + v) == BroadcastKey(b, d, n, id)
    ensures t == DeviceHead(b) + Escape(x) || t == IdHead(b, d, n) + Escape(y)
  {
    HeadsHaveNoColon(b, n);
    KeyParts(b, d, n, id);
    var rest := NumberPart(n) + (Escape(id) + "\"]");
    PastPlain(t, v, DeviceHead(b), Escape(d) + rest);
    var u := t[|DeviceHead(b)|..];
    assert t == DeviceHead(b) + u;
    x, y := DeviceKeyCut(u, v, d, n, id);
    if u != Escape(x) {
      HeadThen(DeviceHead(b), Escape(d), NumberPart(n), Escape(y));
    }
  }

  lemma DeviceKeyCut(u: string, v: string, d: string, n: int, id: string) returns (x: string, y: string)
    requires ':' !in NumberPart(n)
    requires u + (":" + v) == Escape(d) + (NumberPart(n) + (Escape(id) + "\"]"))
    ensures u == Escape(x) || u == Escape(d) + (NumberPart(n) + Escape(y))
  {
    y := "";
    x := CutAtColon(u, v, d, NumberPart(n) + (Escape(id) + "\"]"));
    if u != Escape(x) {
      y := NumberKeyCut(u[|Escape(d)|..], v, n, id);
      SplitTwice(u, Escape(d), NumberPart(n), Escape(y));
    }
  }

  lemma NumberKeyCut(u: string, v: string, n: int, id: string) returns (y: string)
    requires ':' !in NumberPart(n) && u + (":" + v) == NumberPart(n) + (Escape(id) + "\"]")
    ensures NumberPart(n) <= u && u[|NumberPart(n)|..] == Escape(y)
  {
    PastPlain(u, v, NumberPart(n), Escape(id) + "\"]");
    y := IdKeyCut(u[|NumberPart(n)|..], v, id);
  }

  lemma SplitTwice(u: string, p: string, q: string, y: string)
    requires p <= u && q <= u[|p|..] && y == u[|p|..][|q|..]
    ensures u == p + (q + y)
  {
    assert u[|p|..] == q + y;
  }

  lemma IdKeyCut(u: string, v: string, id: string) returns (y: string)
    requires u + (":" + v) == Escape(id) + "\"]"
    ensures u == Escape(y)
  {
    y := CutAtColon(u, v, id, "\"]");
    NoColonLeft(u[if Escape(id) <= u then |Escape(id)| else 0..], v);
  }

  lemma NoColonLeft(u: string, v: string)
    ensures u + (":" + v) != "\"]"
  {
    assert (u + (":" + v))[|u|] == ':';
  }

  /** A broadcast command with all its fields. */
  function Broadcast(b: string, d: string, n: int, id: string): Payload {
    Payload(b, Absent, Absent, Absent, Absent, Integer(n), Text(d), Text(id))
  }

  /** Some ordinary command of type `t` shares its key with a broadcast one. */
  ghost predicate MeetsBroadcast(t: string) {
    exists p, q :: Collide(p, q) && p.kind == t && IsBroadcast(q.kind)
  }

  lemma CutMeets(t: string, v: string, b: string, d: string, n: int, id: string)
    requires !IsBroadcast(t) && IsBroadcast(b) && d != "" && id != "" && v != ""
    requires BroadcastKey(b, d, n, id) == OrdinaryKey(t, "cmd_id", v)
    ensures MeetsBroadcast(t)
  {
    KeyOfWithId(t, 1, v);
    assert Collide(WithId(t, 1, v), Broadcast(b, d, n, id));
  }

  lemma FieldIsPlain()
    ensures Escape(":cmd_id:y") == ":cmd_id:y"
  {
    var field := ":cmd_id:y";
    assert forall i :: 0 <= i < |field| ==> Plain(field[i]);
    PlainEscape(field);
  }

  lemma EscapedField(x: string)
    ensures Escape(x + ":cmd_id:y") == Escape(x) + ":cmd_id:y"
  {
    EscapeJoins(x, ":cmd_id:y");
    FieldIsPlain();
  }

  /** A text that continues with a field is an ordinary key. */
  lemma FieldThen(head: string, x: string, rest: string)
    ensures head + (Escape(x + ":cmd_id:y") + rest) == OrdinaryKey(head + Escape(x), "cmd_id", "y" + rest)
  {
    EscapedField(x);
    FieldSplits(head, Escape(x), rest);
  }

  lemma FieldSplits(head: string, e: string, rest: string)
    ensures head + ((e + ":cmd_id:y") + rest) == OrdinaryKey(head + e, "cmd_id", "y" + rest)
  {
    assert ":cmd_id:y" + rest == ":" + ("cmd_id" + (":" + ("y" + rest)));
    JoinsLater(e, ":cmd_id:y", rest);
    JoinsLater(head, e, ":cmd_id:y" + rest);
  }

  lemma DeviceMeets(t: string, b: string, x: string)
    requires !IsBroadcast(t) && IsBroadcast(b) && t == DeviceHead(b) + Escape(x)
    ensures MeetsBroadcast(t)
  {
    var rest := NumberPart(1) + (Escape("z") + "\"]");
    KeyParts(b, x + ":cmd_id:y", 1, "z");
    FieldThen(DeviceHead(b), x, rest);
    CutMeets(t, "y" + rest, b, x + ":cmd_id:y", 1, "z");
  }

  lemma IdMeets(t: string, b: string, d: string, n: int, x: string)
    requires !IsBroadcast(t) && IsBroadcast(b) && d != "" && t == IdHead(b, d, n) + Escape(x)
    ensures MeetsBroadcast(t)
  {
    KeyParts(b, d, n, x + ":cmd_id:y");
    FieldThen(IdHead(b, d, n), x, "\"]");
    CutMeets(t, "y" + "\"]", b, d, n, x + ":cmd_id:y");
  }

  lemma MeetingStops(p: Payload, q: Payload)
    requires Collide(p, q) && !IsBroadcast(p.kind) && IsBroadcast(q.kind)
    ensures StopsInDevice(p.kind) || StopsInId(p.kind)
  {
    var i := FirstUsable(Ids(p), 0);
    NoColonInBroadcast(q.kind);
    var x, y := BroadcastKeyCut(p.kind, NAMES[i] + (":" + ValueText(Ids(p)[i])), q.kind, q.device.s, q.number.n, q.id.s);
  }

  lemma NoColonInBroadcast(b: string)
    requires IsBroadcast(b)
    ensures ':' !in b
  {
  }

  /** An ordinary command can have a broadcast key exactly when its type is the
      start of one, up to some point inside the device or the id. */
  lemma BroadcastsMeetExactlyWhen(t: string)
    requires !IsBroadcast(t)
    ensures MeetsBroadcast(t) <==> StopsInDevice(t) || StopsInId(t)
  {
    if StopsInDevice(t) {
      var b, x :| IsBroadcast(b) && t == DeviceHead(b) + Escape(x);
      DeviceMeets(t, b, x);
    }
    if StopsInId(t) {
      var b, d, n, x :| IsBroadcast(b) && d != "" && t == IdHead(b, d, n) + Escape(x);
      IdMeets(t, b, d, n, x);
    }
    if p, q :| Collide(p, q) && p.kind == t && IsBroadcast(q.kind) {
      MeetingStops(p, q);
    }
  }

  // ---- the window ---------------------------------------------------------------------------------

  function Last(s: seq<string>): seq<string> {
    if |s| <= LIMIT then s else s[|s| - LIMIT..]
  }

  predicate NoRepeats(s: seq<string>) {
    forall i, j :: 0 <= i < j < |s| ==> s[i] != s[j]
  }

  /** One keyed command on the window. */
  function Remember(window: seq<string>, key: string): seq<string> {
    if key in window then window else Last(window + [key])
  }

  function WindowAfter(keys: seq<string>): seq<string> {
    if keys == [] then [] else Remember(WindowAfter(keys[..|keys| - 1]), keys[|keys| - 1])
  }

  /** All keys accepted, in order: those not among the last hundred accepted before. */
  function Accepted(keys: seq<string>): seq<string> {
    if keys == [] then []
    else
      var before := Accepted(keys[..|keys| - 1]);
      if keys[|keys| - 1] in Last(before) then before else before + [keys[|keys| - 1]]
  }

  lemma LastOfAppended(s: seq<string>, key: string)
    ensures Last(Last(s) + [key]) == Last(s + [key])
  {
  }

  /** The window is the last hundred accepted keys. */
  lemma {:induction false} WindowIsLastAccepted(keys: seq<string>)
    ensures WindowAfter(keys) == Last(Accepted(keys))
    decreases |keys|
  {
    if keys != [] {
      WindowIsLastAccepted(keys[..|keys| - 1]);
      LastOfAppended(Accepted(keys[..|keys| - 1]), keys[|keys| - 1]);
    }
  }

  lemma LastHolds(s: seq<string>, i: nat)
    requires i < |s| && |s| - i <= LIMIT
    ensures s[i] in Last(s)
  {
    assert Last(s)[i - (|s| - |Last(s)|)] == s[i];
  }

  /** A key is accepted again only after a hundred others. */
  lemma {:induction false} RepeatsAreFarApart(keys: seq<string>, i: nat, j: nat)
    requires i < j < |Accepted(keys)| && Accepted(keys)[i] == Accepted(keys)[j]
    ensures j - i > LIMIT
    decreases |keys|
  {
    var before := Accepted(keys[..|keys| - 1]);
    if j < |before| {
      RepeatsAreFarApart(keys[..|keys| - 1], i, j);
    } else {
      if j - i <= LIMIT {
        LastHolds(before, i);
      }
    }
  }

  lemma LastComesFrom(s: seq<string>, key: string) returns (i: nat)
    requires key in Last(s)
    ensures i < |s| && |s| - i <= LIMIT && s[i] == key
  {
    var j: nat :| j < |Last(s)| && Last(s)[j] == key;
    i := j + (|s| - |Last(s)|);
  }

  predicate AmongLast(s: seq<string>, key: string) {
    exists i :: 0 <= i < |s| && |s| - i <= LIMIT && s[i] == key
  }

  /** A keyed command is a duplicate exactly when its key is one of the last
      hundred accepted. */
  lemma DuplicateExactlyWhenRecent(keys: seq<string>, key: string)
    ensures key in WindowAfter(keys) <==> AmongLast(Accepted(keys), key)
  {
    var all := Accepted(keys);
    WindowIsLastAccepted(keys);
    if key in Last(all) {
      var i := LastComesFrom(all, key);
      assert AmongLast(all, key);
    }
    if AmongLast(all, key) {
      var i :| 0 <= i < |all| && |all| - i <= LIMIT && all[i] == key;
      LastHolds(all, i);
    }
  }

  lemma RememberingKeepsDistinct(window: seq<string>, key: string)
    requires NoRepeats(window)
    ensures NoRepeats(Remember(window, key)) && |Remember(window, key)| <= if |window| > LIMIT then |window| else LIMIT
  {
  }

  /** The window never repeats a key and never exceeds a hundred. */
  lemma {:induction false} WindowHasNoRepeats(keys: seq<string>)
    ensures NoRepeats(WindowAfter(keys)) && |WindowAfter(keys)| <= LIMIT
    decreases |keys|
  {
    if keys != [] {
      WindowHasNoRepeats(keys[..|keys| - 1]);
      RememberingKeepsDistinct(WindowAfter(keys[..|keys| - 1]), keys[|keys| - 1]);
    }
  }

  class CommandWindow {
    var recent: seq<string>
    var known: set<string>

    ghost predicate Valid()
      reads this
    {
      NoRepeats(recent) && |recent| <= LIMIT && known == set k | k in recent
    }

    constructor ()
      ensures Valid() && recent == []
    {
      recent, known := [], {};
    }

    method DedupKey(p: Payload) returns (key: string)
      ensures KeyOf(p) == if key == "" then None else Some(key)
    {
      if IsBroadcast(p.kind) {
        if !p.number.Integer? || !p.device.Text? || !p.id.Text? || p.device.s == "" || p.id.s == "" {
          return "";
        }
        return BroadcastKey(p.kind, p.device.s, p.number.n, p.id.s);
      }
      var fields := Ids(p);
      for i := 0 to |fields|
        invariant FirstUsable(fields, i) == FirstUsable(fields, 0)
      {
        var value := ValueText(fields[i]);
        if value != "" {
          return OrdinaryKey(p.kind, NAMES[i], value);
        }
      }
      return "";
    }

    method Evict()
      requires NoRepeats(recent) && known == set k | k in recent
      modifies this
      ensures Valid() && recent == Last(old(recent))
    {
      while |recent| > LIMIT
        invariant NoRepeats(recent) && known == set k | k in recent
        invariant |recent| >= LIMIT || recent == old(recent)
        invariant Last(recent) == Last(old(recent))
        decreases |recent|
      {
        var oldest := recent[0];
        assert recent == [oldest] + recent[1..];
        known := known - {oldest};
        recent := recent[1..];
      }
    }

    /** Reports a duplicate exactly when the key is in the window, and otherwise
        remembers it, forgetting the oldest beyond a hundred. */
    method IsDuplicateCommand(p: Payload) returns (duplicate: bool)
      requires Valid()
      modifies this
      ensures Valid()
      ensures match KeyOf(p)
        case None => !duplicate && recent == old(recent)
        case Some(key) => duplicate == (key in old(recent)) && recent == Remember(old(recent), key)
    {
      var key := DedupKey(p);
      if key == "" {
        return false;
      }
      if key in known {
        return true;
      }
      recent := recent + [key];
      known := known + {key};
      Evict();
      return false;
    }
  }
}
