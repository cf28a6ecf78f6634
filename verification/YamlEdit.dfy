/** `modifyYaml` (src/modifyValue/modifyHandle.cc): the stack of enclosing keys,
    what it means, and the edit in place. */
module YamlEdit {
  import opened Options
  import opened YamlScan

  datatype Entry = Entry(indent: nat, name: string)

  // ---- the stack the loop keeps ---------------------------------------------------

  function Popped(stack: seq<Entry>, indent: nat): (r: seq<Entry>)
    ensures r <= stack
    ensures r != [] ==> r[|r| - 1].indent < indent
    ensures |r| < |stack| ==> stack[|r|].indent >= indent
  {
    if stack != [] && stack[|stack| - 1].indent >= indent then Popped(stack[..|stack| - 1], indent) else stack
  }

  function Pushed(stack: seq<Entry>, k: Option<Key>): seq<Entry> {
    match k
    case None => stack
    case Some(key) => Popped(stack, key.indent) + [Entry(key.indent, key.name)]
  }

  function StackAfter(lines: seq<string>, k: nat): seq<Entry>
    requires k <= |lines|
  {
    if k == 0 then [] else Pushed(StackAfter(lines, k - 1), KeyOf(lines[k - 1]))
  }

  // ---- what it stands for -----------------------------------------------------------

  predicate Encloses(lines: seq<string>, j: nat, indent: nat)
    requires j < |lines|
  {
    KeyOf(lines[j]).Some? && KeyOf(lines[j]).value.indent < indent
  }

  /** The nearest key line before line `k` with a strictly smaller indent. */
  function Parent(lines: seq<string>, k: nat, indent: nat): (p: Option<nat>)
    requires k <= |lines|
    ensures p.Some? ==> p.value < k && Encloses(lines, p.value, indent)
    ensures forall j :: (if p.Some? then p.value + 1 else 0) <= j < k ==> !Encloses(lines, j, indent)
  {
    if k == 0 then None
    else if Encloses(lines, k - 1, indent) then Some(k - 1)
    else Parent(lines, k - 1, indent)
  }

  function EntryAt(lines: seq<string>, k: nat): Entry
    requires k < |lines| && KeyOf(lines[k]).Some?
  {
    Entry(KeyOf(lines[k]).value.indent, KeyOf(lines[k]).value.name)
  }

  /** The keys around a line `k` indented by `indent`: its parent, that one's
      parent, and so on, outermost first. */
  function Chain(lines: seq<string>, k: nat, indent: nat): seq<Entry>
    requires k <= |lines|
    decreases k
  {
    match Parent(lines, k, indent)
    case None => []
    case Some(p) => Chain(lines, p, EntryAt(lines, p).indent) + [EntryAt(lines, p)]
  }

  /** The path of the key on line `k`. */
  function PathOf(lines: seq<string>, k: nat): seq<Entry>
    requires k < |lines| && KeyOf(lines[k]).Some?
  {
    Chain(lines, k, EntryAt(lines, k).indent) + [EntryAt(lines, k)]
  }

  predicate Increasing(s: seq<Entry>) {
    forall i, j :: 0 <= i < j < |s| ==> s[i].indent < s[j].indent
  }

  lemma {:induction false} PopTwice(stack: seq<Entry>, n: nat, m: nat)
    requires m <= n
    ensures Popped(Popped(stack, n), m) == Popped(stack, m)
  {
    if stack != [] && stack[|stack| - 1].indent >= n {
      PopTwice(stack[..|stack| - 1], n, m);
    }
  }

  lemma PopLast(stack: seq<Entry>, e: Entry, m: nat)
    ensures Popped(stack + [e], m) == if e.indent >= m then Popped(stack, m) else stack + [e]
  {
  }

  lemma ChainSkips(lines: seq<string>, k: nat, indent: nat)
    requires 0 < k <= |lines|
    ensures Chain(lines, k, indent) ==
      if Encloses(lines, k - 1, indent)
      then Chain(lines, k - 1, EntryAt(lines, k - 1).indent) + [EntryAt(lines, k - 1)]
      else Chain(lines, k - 1, indent)
  {
  }

  /** One more key line: pushing it and popping again agrees with the chain. */
  lemma PushedIsChain(lines: seq<string>, k: nat, indent: nat, before: seq<Entry>)
    requires 0 < k <= |lines| && KeyOf(lines[k - 1]).Some?
    requires Popped(before, EntryAt(lines, k - 1).indent) == Chain(lines, k - 1, EntryAt(lines, k - 1).indent)
    requires Popped(before, indent) == Chain(lines, k - 1, indent)
    ensures Popped(Pushed(before, KeyOf(lines[k - 1])), indent) == Chain(lines, k, indent)
  {
    var e := EntryAt(lines, k - 1);
    ChainSkips(lines, k, indent);
    PopLast(Popped(before, e.indent), e, indent);
    if e.indent >= indent {
      PopTwice(before, e.indent, indent);
    }
  }

  /** What a key at `indent` leaves on the stack is exactly the chain around it. */
  lemma {:induction false} StackIsChain(lines: seq<string>, k: nat, indent: nat)
    requires k <= |lines|
    ensures Popped(StackAfter(lines, k), indent) == Chain(lines, k, indent)
    decreases k
  {
    if k > 0 {
      var before := StackAfter(lines, k - 1);
      StackIsChain(lines, k - 1, indent);
      if KeyOf(lines[k - 1]).Some? {
        StackIsChain(lines, k - 1, EntryAt(lines, k - 1).indent);
        PushedIsChain(lines, k, indent, before);
      } else {
        ChainSkips(lines, k, indent);
      }
    }
  }

  /** After a key line the stack is the path of that key, outermost first. */
  lemma StackIsPath(lines: seq<string>, k: nat)
    requires k < |lines| && KeyOf(lines[k]).Some?
    ensures StackAfter(lines, k + 1) == PathOf(lines, k)
  {
    StackIsChain(lines, k, EntryAt(lines, k).indent);
  }

  lemma PushIncreases(stack: seq<Entry>, e: Entry)
    requires Increasing(stack)
    ensures Increasing(Popped(stack, e.indent) + [e])
  {
  }

  lemma {:induction false} StackIncreases(lines: seq<string>, k: nat)
    requires k <= |lines|
    ensures Increasing(StackAfter(lines, k))
    decreases k
  {
    if k > 0 {
      StackIncreases(lines, k - 1);
      if KeyOf(lines[k - 1]).Some? {
        PushIncreases(StackAfter(lines, k - 1), EntryAt(lines, k - 1));
      }
    }
  }

  // ---- the edited line -------------------------------------------------------------------

  function Names(path: seq<Entry>): (r: seq<string>)
    ensures |r| == |path| && forall i :: 0 <= i < |r| ==> r[i] == path[i].name
  {
    seq(|path|, i requires 0 <= i < |path| => path[i].name)
  }

  predicate Matches(lines: seq<string>, k: nat, target: seq<string>)
    requires k < |lines|
  {
    KeyOf(lines[k]).Some? && Names(PathOf(lines, k)) == target
  }

  /** What the loop sees on a line is whether it matches. */
  lemma HitIsMatch(lines: seq<string>, k: nat, target: seq<string>)
    requires k < |lines|
    ensures Matches(lines, k, target) <==> KeyOf(lines[k]).Some? && Names(StackAfter(lines, k + 1)) == target
  {
    if KeyOf(lines[k]).Some? {
      StackIsPath(lines, k);
    }
  }

  /** The first line at or after `k` whose path is the target, or the end. */
  function FirstMatch(lines: seq<string>, target: seq<string>, k: nat): (r: nat)
    requires k <= |lines|
    ensures k <= r <= |lines|
    ensures forall j :: k <= j < r ==> !Matches(lines, j, target)
    ensures r < |lines| ==> Matches(lines, r, target)
    decreases |lines| - k
  {
    if k == |lines| || Matches(lines, k, target) then k else FirstMatch(lines, target, k + 1)
  }

  function ValueOf(line: string): Span
    requires KeyOf(line).Some?
  {
    ValueSpan(line, KeyOf(line).value.colon)
  }

  function Edited(line: string, text: string): string
    requires KeyOf(line).Some?
  {
    Replace(line, ValueOf(line), text)
  }

  /** The value text found under `target`. */
  function Get(lines: seq<string>, target: seq<string>): Option<string> {
    var k := FirstMatch(lines, target, 0);
    if k == |lines| then None else Some(lines[k][ValueOf(lines[k]).start..ValueOf(lines[k]).end])
  }

  /** The lines with the value under `target` replaced, and nothing else. */
  function Put(lines: seq<string>, target: seq<string>, text: string): seq<string> {
    var k := FirstMatch(lines, target, 0);
    if k == |lines| then lines else lines[k := Edited(lines[k], text)]
  }

  // ---- the path of a parameter ------------------------------------------------------------

  function Add(keys: seq<string>, key: string): seq<string> {
    if key == "" then keys else keys + [key]
  }

  /** The nonempty pieces between slashes; `key` is the piece begun before `i`. */
  function Pieces(path: string, i: nat, key: string): seq<string>
    requires i <= |path|
    decreases |path| - i
  {
    if i == |path| then Add([], key)
    else if path[i] == '/' then Add([], key) + Pieces(path, i + 1, "")
    else Pieces(path, i + 1, key + [path[i]])
  }

  function Join(keys: seq<string>): string {
    if keys == [] then "" else if |keys| == 1 then keys[0] else keys[0] + "/" + Join(keys[1..])
  }

  predicate Piece(key: string) { key != "" && '/' !in key }

  lemma {:induction false} ReadsPiece(prefix: string, key: string, rest: string, begun: string)
    requires '/' !in key
    ensures Pieces(prefix + key + rest, |prefix|, begun) == Pieces(prefix + key + rest, |prefix + key|, begun + key)
    decreases |key|
  {
    if key == "" {
      assert begun + key == begun;
    } else {
      var path := prefix + key + rest;
      assert path == (prefix + [key[0]]) + key[1..] + rest;
      assert begun + key == (begun + [key[0]]) + key[1..];
      ReadsPiece(prefix + [key[0]], key[1..], rest, begun + [key[0]]);
    }
  }

  lemma ReadsFirstPiece(prefix: string, key: string, rest: string)
    requires Piece(key)
    ensures var path := prefix + key + "/" + rest;
      Pieces(path, |prefix|, "") == [key] + Pieces(path, |prefix + key + "/"|, "")
  {
    assert prefix + key + "/" + rest == prefix + key + ("/" + rest);
    ReadsPiece(prefix, key, "/" + rest, "");
    assert "" + key == key;
  }

  lemma {:induction false} PiecesFromJoin(prefix: string, keys: seq<string>)
    requires forall i :: 0 <= i < |keys| ==> Piece(keys[i])
    ensures Pieces(prefix + Join(keys), |prefix|, "") == keys
    decreases |keys|
  {
    if keys == [] {
    } else if |keys| == 1 {
      assert prefix + Join(keys) == prefix + keys[0] + "";
      ReadsPiece(prefix, keys[0], "", "");
      assert "" + keys[0] == keys[0];
    } else {
      ReadsFirstPiece(prefix, keys[0], Join(keys[1..]));
      PiecesFromJoin(prefix + keys[0] + "/", keys[1..]);
      assert prefix + Join(keys) == (prefix + keys[0] + "/") + Join(keys[1..]);
      assert keys == [keys[0]] + keys[1..];
    }
  }

  /** Every list of usable keys is the reading of its own path. */
  lemma SplitJoins(keys: seq<string>)
    requires forall i :: 0 <= i < |keys| ==> Piece(keys[i])
    ensures Pieces(Join(keys), 0, "") == keys
  {
    assert "" + Join(keys) == Join(keys);
    PiecesFromJoin("", keys);
  }

  lemma {:induction false} PiecesOfSuffix(prefix: string, path: string, i: nat, key: string)
    requires i <= |path|
    ensures Pieces(prefix + path, |prefix| + i, key) == Pieces(path, i, key)
    decreases |path| - i
  {
    if i < |path| {
      assert (prefix + path)[|prefix| + i] == path[i];
      PiecesOfSuffix(prefix, path, i + 1, "");
      PiecesOfSuffix(prefix, path, i + 1, key + [path[i]]);
    }
  }

  lemma {:induction false} SplitsAtSlash(path: string, rest: string, i: nat, key: string)
    requires i <= |path|
    ensures Pieces(path + ("/" + rest), i, key) == Pieces(path, i, key) + Pieces(rest, 0, "")
    decreases |path| - i
  {
    var all := path + ("/" + rest);
    if i == |path| {
      assert all[i] == '/' && all == (path + "/") + rest;
      PiecesOfSuffix(path + "/", rest, 0, "");
    } else {
      assert all[i] == path[i];
      SplitsAtSlash(path, rest, i + 1, "");
      SplitsAtSlash(path, rest, i + 1, key + [path[i]]);
      assert path[i] == '/' ==> Pieces(path, i, key) == Add([], key) + Pieces(path, i + 1, "");
    }
  }

  lemma NoSlashNoSplit(path: string)
    requires '/' !in path
    ensures Pieces(path, 0, "") == if path == "" then [] else [path]
  {
    ReadsPiece("", path, "", "");
    assert "" + path + "" == path && "" + path == path;
  }

  /** Every slash separates, and empty pieces do not count; a text without slash is one piece. */
  lemma SlashesSeparate(path: string, rest: string)
    ensures Pieces(path + "/" + rest, 0, "") == Pieces(path, 0, "") + Pieces(rest, 0, "")
    ensures '/' !in path ==> Pieces(path, 0, "") == if path == "" then [] else [path]
  {
    assert path + "/" + rest == path + ("/" + rest);
    SplitsAtSlash(path, rest, 0, "");
    if '/' !in path {
      NoSlashNoSplit(path);
    }
  }

  method SplitPath(path: string) returns (keys: seq<string>)
    ensures keys == Pieces(path, 0, "")
  {
    keys := [];
    var key := "";
    var i := 0;
    while i < |path|
      invariant i <= |path| && keys + Pieces(path, i, key) == Pieces(path, 0, "")
    {
      if path[i] == '/' {
        if key != "" {
          keys := keys + [key];
        }
        key := "";
      } else {
        key := key + [path[i]];
      }
      i := i + 1;
    }
    if key != "" {
      keys := keys + [key];
    }
  }

  // ---- the edit in place --------------------------------------------------------------------

  method PathMatches(stack: seq<Entry>, target: seq<string>) returns (matches: bool)
    ensures matches == (Names(stack) == target)
  {
    if |stack| != |target| {
      return false;
    }
    for i := 0 to |target|
      invariant forall j :: 0 <= j < i ==> stack[j].name == target[j]
    {
      if stack[i].name != target[i] {
        return false;
      }
    }
    return true;
  }

  method PopTo(stack: seq<Entry>, indent: nat) returns (r: seq<Entry>)
    ensures r == Popped(stack, indent)
  {
    r := stack;
    while r != [] && r[|r| - 1].indent >= indent
      invariant Popped(r, indent) == Popped(stack, indent)
    {
      r := r[..|r| - 1];
    }
  }

  /** One line of the loop: the new stack, and the key when its path is the target. */
  method VisitLine(stack: seq<Entry>, line: string, target: seq<string>)
    returns (after: seq<Entry>, hit: Option<Key>)
    ensures after == Pushed(stack, KeyOf(line))
    ensures hit == if KeyOf(line).Some? && Names(after) == target then KeyOf(line) else None
  {
    var key := ScanKey(line);
    if key == None {
      return stack, None;
    }
    after := PopTo(stack, key.value.indent);
    after := after + [Entry(key.value.indent, key.value.name)];
    var matches := PathMatches(after, target);
    hit := if matches then key else None;
  }

  method EditLines(lines: array<string>, target: seq<string>, text: string) returns (modified: bool)
    modifies lines
    ensures modified == (FirstMatch(old(lines[..]), target, 0) < lines.Length)
    ensures lines[..] == Put(old(lines[..]), target, text)
  {
    ghost var start := lines[..];
    var stack: seq<Entry> := [];
    var k := 0;
    while k < lines.Length
      invariant k <= lines.Length && lines[..] == start
      invariant stack == StackAfter(start, k)
      invariant FirstMatch(start, target, k) == FirstMatch(start, target, 0)
    {
      var line := lines[k];
      var hit;
      stack, hit := VisitLine(stack, line, target);
      HitIsMatch(start, k, target);
      if hit.Some? {
        var v := ScanValue(line, hit.value.colon);
        lines[k] := line[..v.start] + text + line[v.end..];
        return true;
      }
      k := k + 1;
    }
    return false;
  }

  /** The parameter file; it is replaced as a whole, by renaming. */
  class ParameterFile {
    var lines: seq<string>

    method ModifyYaml(path: string, text: string, readable: bool, saved: bool) returns (ok: bool)
      modifies this
      ensures var target := Pieces(path, 0, "");
        && ok == (target != [] && readable && saved && Get(old(lines), target).Some?)
        && lines == if ok then Put(old(lines), target, text) else old(lines)
    {
      var target := SplitPath(path);
      if target == [] || !readable {
        return false;
      }
      var work := new string[|lines|](i requires 0 <= i < |lines| reads this => lines[i]);
      assert work[..] == lines;
      var modified := EditLines(work, target, text);
      if !modified || !saved {
        return false;
      }
      lines := work[..];
      return true;
    }
  }
}
