/** The order in which a configuration file declares its groups, read off its text
    because the decoded table does not keep it. */
module GroupOrder {

  predicate IsBlank(c: char) {
    c == ' ' || c == '\t' || c == '\r'
  }

  ghost predicate Distinct(s: seq<string>) {
    forall i, j :: 0 <= i < j < |s| ==> s[i] != s[j]
  }

  // ------------------------------------------------------------- scanning helpers

  /** The lines of a text; a text without a line break is one line. */
  function Lines(s: string): seq<string> {
    if s == "" then [""]
    else
      var before, c := Lines(s[..|s| - 1]), s[|s| - 1];
      if c == '\n' || before == [] then before + [""] else before[|before| - 1 := before[|before| - 1] + [c]]
  }

  function Joined(lines: seq<string>): string {
    if lines == [] then ""
    else if |lines| == 1 then lines[0]
    else Joined(lines[..|lines| - 1]) + "\n" + lines[|lines| - 1]
  }

  /** Splitting loses nothing and leaves no line break in a line. */
  lemma {:induction false} LinesJoin(s: string)
    ensures Lines(s) != [] && Joined(Lines(s)) == s
    ensures forall i :: 0 <= i < |Lines(s)| ==> '\n' !in Lines(s)[i]
  {
    if s != "" {
      var n := |s| - 1;
      LinesJoin(s[..n]);
      var before := Lines(s[..n]);
      assert s == s[..n] + [s[n]];
      if s[n] == '\n' {
        assert (before + [""])[..|before|] == before;
        assert Joined(before + [""]) == s[..n] + "\n" + "";
      } else {
        var m := |before| - 1;
        var after := before[m := before[m] + [s[n]]];
        assert after[..m] == before[..m];
        assert m > 0 ==> Joined(after) == Joined(before[..m]) + "\n" + (before[m] + [s[n]]);
      }
    }
  }

  method SplitLines(s: string) returns (out: seq<string>)
    ensures out == Lines(s)
  {
    out := [];
    var start := 0;
    assert s[..0] == "";
    for i := 0 to |s|
      invariant 0 <= start <= i && out + [s[start..i]] == Lines(s[..i])
    {
      assert s[..i + 1][..i] == s[..i];
      assert s[start..i] + [s[i]] == s[start..i + 1];
      if s[i] == '\n' {
        out := out + [s[start..i]];
        start := i + 1;
        assert s[start..i + 1] == "";
      } else {
        assert (out + [s[start..i]])[|out| := s[start..i] + [s[i]]] == out + [s[start..i + 1]];
      }
    }
    assert s[..|s|] == s && s[start..|s|] == s[start..];
    out := out + [s[start..]];
  }

  function TrimStart(s: string): string {
    if s != "" && IsBlank(s[0]) then TrimStart(s[1..]) else s
  }

  function TrimEnd(s: string): string {
    if s != "" && IsBlank(s[|s| - 1]) then TrimEnd(s[..|s| - 1]) else s
  }

  function Trimmed(s: string): string {
    TrimEnd(TrimStart(s))
  }

  method TrimSpace(s: string) returns (r: string)
    ensures r == Trimmed(s)
  {
    var i := 0;
    while i < |s| && IsBlank(s[i])
      invariant i <= |s| && TrimStart(s) == TrimStart(s[i..])
    {
      assert s[i..][1..] == s[i + 1..];
      i := i + 1;
    }
    assert TrimStart(s) == s[i..];
    var j := |s|;
    assert s[i..j] == s[i..];
    while j > i && IsBlank(s[j - 1])
      invariant i <= j <= |s| && Trimmed(s) == TrimEnd(s[i..j])
    {
      assert s[i..j][..j - 1 - i] == s[i..j - 1];
      j := j - 1;
    }
    r := s[i..j];
  }

  function Unquoted(s: string): string {
    if |s| >= 2 && ((s[0] == '"' && s[|s| - 1] == '"') || (s[0] == '\'' && s[|s| - 1] == '\'')) then s[1..|s| - 1] else s
  }

  /** What comes before the first `c`, or everything. */
  function UpTo(s: string, c: char): string {
    if s == "" || s[0] == c then "" else [s[0]] + UpTo(s[1..], c)
  }

  method IndexByte(s: string, c: char) returns (at: int)
    ensures if c in s then 0 <= at < |s| && s[at] == c && s[..at] == UpTo(s, c) else at == -1 && UpTo(s, c) == s
  {
    at := 0;
    assert s == s[0..];
    while at < |s|
      invariant 0 <= at <= |s| && c !in s[..at] && UpTo(s, c) == s[..at] + UpTo(s[at..], c)
    {
      if s[at] == c { return; }
      assert s[at..][1..] == s[at + 1..] && s[..at] + [s[at]] == s[..at + 1];
      at := at + 1;
    }
    assert s[..|s|] == s;
    at := -1;
  }

  method CutComment(s: string) returns (r: string)
    ensures r == UpTo(s, '#')
  {
    var i := IndexByte(s, '#');
    r := if i >= 0 then s[..i] else s;
  }

  // ------------------------------------------------------------------- the scan

  /** What the scan makes of a line. */
  datatype Line = Header(groups: bool) | KeyLine(key: string) | OtherLine

  function Reading(line: string): Line {
    var t := Trimmed(line);
    if t == "" || t[0] == '#' then OtherLine
    else if |t| > 1 && t[0] == '[' then Header(Trimmed(UpTo(t, '#')) == "[groups]")
    else if '=' in t then KeyLine(Trimmed(Unquoted(Trimmed(UpTo(t, '=')))))
    else OtherLine
  }

  /** The last table header read is that of the groups. */
  predicate InGroups(lines: seq<string>) {
    if lines == [] then false
    else
      match Reading(lines[|lines| - 1])
      case Header(groups) => groups
      case _ => InGroups(lines[..|lines| - 1])
  }

  /** The group keys in the order the document first names them. */
  function Scanned(lines: seq<string>, groups: map<string, seq<string>>): seq<string> {
    if lines == [] then []
    else
      var before, last := lines[..|lines| - 1], Reading(lines[|lines| - 1]);
      var front := Scanned(before, groups);
      if last.KeyLine? && InGroups(before) && last.key in groups && last.key !in front then front + [last.key] else front
  }

  lemma DistinctAppend(s: seq<string>, last: string)
    requires Distinct(s) && last !in s
    ensures Distinct(s + [last])
  {
  }

  method ReadLine(line: string) returns (read: Line)
    ensures read == Reading(line)
  {
    var t := TrimSpace(line);
    if t == "" || t[0] == '#' { return OtherLine; }
    if |t| > 1 && t[0] == '[' {
      var cut := CutComment(t);
      var header := TrimSpace(cut);
      return Header(header == "[groups]");
    }
    var eq := IndexByte(t, '=');
    if eq < 0 { return OtherLine; }
    var key := TrimSpace(t[..eq]);
    key := TrimSpace(Unquoted(key));
    read := KeyLine(key);
  }

  /** Document order first, then, in any order, the groups the scan missed; every
      group exactly once. */
  method OrderedGroupKeys(data: string, groups: map<string, seq<string>>) returns (order: seq<string>)
    ensures Distinct(order) && forall g :: g in order <==> g in groups
    ensures Scanned(Lines(data), groups) <= order
  {
    hide Reading, Lines;
    order := [];
    var seen: set<string> := {};
    var inGroups := false;
    var lines := SplitLines(data);
    var i := 0;
    while i < |lines|
      invariant i <= |lines| && Distinct(order) && forall g :: g in order ==> g in groups
      invariant forall g :: g in seen <==> g in order
      invariant order == Scanned(lines[..i], groups) && inGroups == InGroups(lines[..i])
    {
      assert lines[..i + 1][..i] == lines[..i];
      var read := ReadLine(lines[i]);
      match read {
        case Header(g) => inGroups := g;
        case KeyLine(key) =>
          if inGroups && key in groups && key !in seen {
            DistinctAppend(order, key);
            seen := seen + {key};
            order := order + [key];
          }
        case OtherLine =>
      }
      i := i + 1;
    }
    assert lines[..|lines|] == lines;
    order := AppendMissed(order, seen, groups);
  }

  method AppendMissed(scanned: seq<string>, seen: set<string>, groups: map<string, seq<string>>) returns (order: seq<string>)
    requires Distinct(scanned) && (forall g :: g in scanned ==> g in groups) && forall g :: g in seen <==> g in scanned
    ensures Distinct(order) && scanned <= order && forall g :: g in order <==> g in groups
  {
    order := scanned;
    var missed := groups.Keys - seen;
    while missed != {}
      invariant Distinct(order) && scanned <= order
      invariant forall g :: g in missed ==> g in groups && g !in order
      invariant forall g :: g in groups <==> g in order || g in missed
      decreases |missed|
    {
      var g :| g in missed;
      DistinctAppend(order, g);
      order := order + [g];
      missed := missed - {g};
    }
  }

  // ------------------------------------------------------- plainly written documents

  /** A bare key: no space, no quotes, no sign that means something else. */
  predicate IsPlain(key: string) {
    key != "" && forall c | c in key :: !IsBlank(c) && c != '=' && c != '#' && c != '[' && c != '"' && c != '\''
  }

  lemma {:induction false} UpToEquals(key: string, rest: string)
    requires '=' !in key
    ensures UpTo(key + "=" + rest, '=') == key
  {
    if key == "" {
      assert key + "=" + rest == "=" + rest;
    } else {
      assert (key + "=" + rest)[1..] == key[1..] + "=" + rest;
      UpToEquals(key[1..], rest);
    }
  }

  lemma StartKept(s: string)
    requires s == "" || !IsBlank(s[0])
    ensures TrimStart(s) == s
  {
  }

  lemma EndKept(s: string)
    requires s == "" || !IsBlank(s[|s| - 1])
    ensures TrimEnd(s) == s
  {
  }

  /** Trimming the end keeps everything up to the last character that is not blank. */
  lemma {:induction false} EndKeeps(front: string, rest: string)
    requires front != "" && !IsBlank(front[|front| - 1])
    ensures front <= TrimEnd(front + rest)
    decreases |rest|
  {
    var s := front + rest;
    if rest != "" && IsBlank(s[|s| - 1]) {
      assert s[..|s| - 1] == front + rest[..|rest| - 1];
      EndKeeps(front, rest[..|rest| - 1]);
    }
  }

  lemma KeyTrims(key: string)
    requires IsPlain(key)
    ensures Trimmed(key + " ") == key && Trimmed(key) == key && Unquoted(key) == key
  {
    assert key[0] in key && key[|key| - 1] in key;
    StartKept(key);
    StartKept(key + " ");
    EndKept(key);
    assert (key + " ")[..|key|] == key;
  }

  /** A line that gives a plain key a value is read as that key. */
  lemma PlainReads(key: string, value: string)
    requires IsPlain(key)
    ensures Reading(key + " = " + value) == KeyLine(key)
  {
    var line := key + " = " + value;
    assert key[0] in key && line[0] == key[0];
    StartKept(line);
    assert line == (key + " =") + (" " + value);
    EndKeeps(key + " =", " " + value);
    var t := Trimmed(line);
    assert t == (key + " ") + "=" + t[|key| + 2..];
    assert '=' !in key + " ";
    UpToEquals(key + " ", t[|key| + 2..]);
    assert t[|key| + 1] == '=';
    KeyTrims(key);
  }

  function KeyLines(keys: seq<string>, values: seq<string>): seq<string>
    requires |keys| == |values|
  {
    seq(|keys|, i requires 0 <= i < |keys| => keys[i] + " = " + values[i])
  }

  lemma HeaderReads()
    ensures Reading("[groups]") == Header(true)
  {
    var t := "[groups]";
    StartKept(t);
    EndKept(t);
    NoComment(t);
  }

  lemma {:induction false} NoComment(s: string)
    requires '#' !in s
    ensures UpTo(s, '#') == s
  {
    if s != "" { NoComment(s[1..]); }
  }

  lemma TableOpens(before: seq<string>, groups: map<string, seq<string>>)
    ensures var lines := before + ["[groups]"] + KeyLines([], []);
            Scanned(lines, groups) == Scanned(before, groups) && InGroups(lines)
  {
    hide Reading;
    var lines := before + ["[groups]"] + KeyLines([], []);
    assert lines[..|lines| - 1] == before && lines[|lines| - 1] == "[groups]";
    HeaderReads();
  }

  lemma OneMoreKey(lines: seq<string>, key: string, value: string, groups: map<string, seq<string>>)
    requires InGroups(lines) && IsPlain(key) && key in groups && key !in Scanned(lines, groups)
    ensures Scanned(lines + [key + " = " + value], groups) == Scanned(lines, groups) + [key]
    ensures InGroups(lines + [key + " = " + value])
  {
    hide IsPlain, Reading;
    PlainReads(key, value);
    assert (lines + [key + " = " + value])[..|lines|] == lines;
  }

  lemma LinesNext(before: seq<string>, keys: seq<string>, values: seq<string>)
    requires |keys| == |values| && keys != []
    ensures var n := |keys| - 1;
            before + ["[groups]"] + KeyLines(keys, values)
            == (before + ["[groups]"] + KeyLines(keys[..n], values[..n])) + [keys[n] + " = " + values[n]]
  {
  }

  /** For a table written plainly the scan finds every group, in the order in which
      the document declares them, whatever comes before the table. */
  lemma {:induction false} PlainOrder(before: seq<string>, keys: seq<string>, values: seq<string>, groups: map<string, seq<string>>)
    requires |keys| == |values| && Distinct(keys) && Scanned(before, groups) == []
    requires forall i :: 0 <= i < |keys| ==> IsPlain(keys[i]) && keys[i] in groups
    ensures var lines := before + ["[groups]"] + KeyLines(keys, values);
            Scanned(lines, groups) == keys && InGroups(lines)
  {
    hide IsPlain, Reading, Scanned, InGroups, KeyLines;
    if keys == [] {
      TableOpens(before, groups);
    } else {
      var n := |keys| - 1;
      PlainOrder(before, keys[..n], values[..n], groups);
      LinesNext(before, keys, values);
      assert keys[n] !in keys[..n];
      assert keys == keys[..n] + [keys[n]];
      OneMoreKey(before + ["[groups]"] + KeyLines(keys[..n], values[..n]), keys[n], values[n], groups);
    }
  }
}
