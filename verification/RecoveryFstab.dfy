/** The lookup of a block device in a non-unified recovery fstab: a line reader,
    a trimmer and strtok, which agree with a first-match search of the table. */
module RecoveryFstab {
  import opened Common

  /** fgets reads at most one character less than the buffer holds. */
  const BUFFER_SIZE: nat := 1024

  /** NullDevice: the matching line has no third token, and a null pointer is copied. */
  datatype Result = Found(device: string) | NotFound | NullDevice

  predicate IsSpace(c: char) {
    c == ' ' || c == '\t' || c == '\n' || c == '\U{000B}' || c == '\U{000C}' || c == '\r'
  }

  predicate IsDelim(c: char) {
    c == ' ' || c == '\t' || c == '\n'
  }

  // ----- the parser as functions -----

  /** Length of the first line, its newline included. */
  function LineLen(s: string): (n: nat)
    ensures n <= |s| && (s != "" ==> n > 0)
  {
    if s == "" then 0 else if s[0] == '\n' then 1 else 1 + LineLen(s[1..])
  }

  function ChunkLen(s: string): (n: nat)
    ensures n <= |s| && (s != "" ==> n > 0)
  {
    if LineLen(s) < BUFFER_SIZE then LineLen(s) else BUFFER_SIZE - 1
  }

  function Trim(s: string): string {
    if s != "" && IsSpace(s[0]) then Trim(s[1..]) else s
  }

  function SkipDelims(s: string): (r: string)
    ensures |r| <= |s| && (r == "" || !IsDelim(r[0]))
  {
    if s != "" && IsDelim(s[0]) then SkipDelims(s[1..]) else s
  }

  function TokenLen(s: string): (n: nat)
    ensures n <= |s|
  {
    if s == "" || IsDelim(s[0]) then 0 else 1 + TokenLen(s[1..])
  }

  /** strtok: the next token, and what is left behind the delimiter that ends it. */
  function Tok(s: string): (Option<string>, string) {
    var t := SkipDelims(s);
    if t == "" then (None, "")
    else
      var n := TokenLen(t);
      (Some(t[..n]), if n < |t| then t[n + 1..] else "")
  }

  function LookupLine(line: string, mount: string): Option<Result> {
    var t := Trim(line);
    if t == "" || t[0] == '#' then None
    else
      var (mountPoint, r1) := Tok(t);
      if mountPoint != Some(mount) then None
      else
        var (_, r2) := Tok(r1);
        var (device, _) := Tok(r2);
        Some(if device.Some? then Found(device.value) else NullDevice)
  }

  function Lookup(s: string, mount: string): Result
    decreases |s|
  {
    if s == "" then NotFound
    else
      var n := ChunkLen(s);
      var r := LookupLine(s[..n], mount);
      if r.Some? then r.value else Lookup(s[n..], mount)
  }

  // ----- the parser in the code's own form -----

  /** One fgets: the next chunk starts at `from` and ends before `to`. */
  method FGets(s: string, from: nat) returns (to: nat)
    requires from < |s|
    ensures from < to <= |s| && to == from + ChunkLen(s[from..])
  {
    to := from;
    while to < |s| && to - from < BUFFER_SIZE - 1 && (to == from || s[to - 1] != '\n')
      invariant from <= to <= |s| && to - from <= BUFFER_SIZE - 1
      invariant to == from || s[to - 1] != '\n' ==> LineLen(s[from..]) == to - from + LineLen(s[to..])
      invariant to > from && s[to - 1] == '\n' ==> LineLen(s[from..]) == to - from
    {
      assert s[to..][1..] == s[to + 1..];
      to := to + 1;
    }
    assert to == |s| ==> s[to..] == "";
  }

  method TrimStart(line: string) returns (i: nat)
    ensures i <= |line| && line[i..] == Trim(line)
  {
    i := 0;
    while i < |line| && IsSpace(line[i])
      invariant i <= |line| && Trim(line[i..]) == Trim(line)
    {
      assert line[i..][1..] == line[i + 1..];
      i := i + 1;
    }
  }

  lemma TokFrom(buf: string, start: nat, b: nat, e: nat)
    requires start <= b <= e <= |buf| && b < |buf| && !IsDelim(buf[b])
    requires SkipDelims(buf[start..]) == buf[b..] && TokenLen(buf[b..]) == e - b
    ensures Tok(buf[start..]) == (Some(buf[b..e]), buf[if e < |buf| then e + 1 else e..])
  {
    var t := buf[b..];
    assert t[..e - b] == buf[b..e];
    if e < |buf| {
      assert t[e - b + 1..] == buf[e + 1..];
    } else {
      assert buf[e..] == "";
    }
  }

  method StrTok(buf: string, start: nat) returns (token: Option<string>, next: nat)
    requires start <= |buf|
    ensures next <= |buf| && (token, buf[next..]) == Tok(buf[start..])
  {
    var b := start;
    while b < |buf| && IsDelim(buf[b])
      invariant start <= b <= |buf| && SkipDelims(buf[b..]) == SkipDelims(buf[start..])
    {
      assert buf[b..][1..] == buf[b + 1..];
      b := b + 1;
    }
    if b == |buf| {
      return None, b;
    }
    var e := b;
    while e < |buf| && !IsDelim(buf[e])
      invariant b <= e <= |buf| && TokenLen(buf[b..]) == e - b + TokenLen(buf[e..])
    {
      assert buf[e..][1..] == buf[e + 1..];
      e := e + 1;
    }
    token, next := Some(buf[b..e]), if e < |buf| then e + 1 else e;
    TokFrom(buf, start, b, e);
  }

  /** One turn of the loop, on the line just read. */
  method ParseLine(buffer: string, mount: string) returns (r: Option<Result>)
    ensures r == LookupLine(buffer, mount)
  {
    var i := TrimStart(buffer);
    if i == |buffer| || buffer[i] == '#' {
      return None;
    }
    var mountPoint, next := StrTok(buffer, i);
    if mountPoint != Some(mount) {
      return None;
    }
    var _, next2 := StrTok(buffer, next);
    var device, _ := StrTok(buffer, next2);
    return Some(if device.Some? then Found(device.value) else NullDevice);
  }

  /** The chunk s[at..to] decides, or the search goes on behind it. */
  lemma LookupFrom(s: string, at: nat, to: nat, mount: string)
    requires at < to <= |s| && to == at + ChunkLen(s[at..])
    ensures
      var found := LookupLine(s[at..to], mount);
      Lookup(s[at..], mount) == if found.Some? then found.value else Lookup(s[to..], mount)
  {
    var rest := s[at..];
    assert rest[..to - at] == s[at..to] && rest[to - at..] == s[to..];
  }

  /** `fstab` is the file's text, if it can be opened. */
  method GetDevicePath(fstab: Option<string>, mount: string) returns (r: Result)
    ensures r == if fstab.Some? then Lookup(fstab.value, mount) else NotFound
  {
    if fstab.None? {
      return NotFound;
    }
    var s, at := fstab.value, 0;
    while at < |s|
      invariant at <= |s| && Lookup(s[at..], mount) == Lookup(s, mount)
    {
      var to := FGets(s, at);
      LookupFrom(s, at, to, mount);
      var found := ParseLine(s[at..to], mount);
      if found.Some? {
        return found.value;
      }
      at := to;
    }
    return NotFound;
  }

  // ----- tables and their text -----

  datatype Line =
    | Comment(lead: string, text: string)
    | Blank(lead: string)
    | Entry(lead: string, mount: string, sep1: string, fsType: string, sep2: string, device: string, tail: string)
    | Short(lead: string, mount: string, sep1: string, fsType: string, tail: string)

  predicate Spaces(s: string) {
    forall i :: 0 <= i < |s| ==> IsSpace(s[i]) && s[i] != '\n'
  }

  predicate Delims(s: string) {
    forall i :: 0 <= i < |s| ==> IsDelim(s[i])
  }

  predicate NoNewline(s: string) {
    forall i :: 0 <= i < |s| ==> s[i] != '\n'
  }

  predicate Token(s: string) {
    s != "" && forall i :: 0 <= i < |s| ==> !IsDelim(s[i])
  }

  predicate Separator(s: string) {
    s != "" && forall i :: 0 <= i < |s| ==> s[i] == ' ' || s[i] == '\t'
  }

  predicate Blanks(s: string) {
    forall i :: 0 <= i < |s| ==> s[i] == ' ' || s[i] == '\t'
  }

  /** A line of the table: blanks are free, a mount point may not look like a
      comment or start with white space, and anything may follow the device. A
      short line has a mount point and at most a file-system type. */
  predicate WellFormed(l: Line) {
    match l
    case Comment(lead, text) => Spaces(lead) && NoNewline(text)
    case Blank(lead) => Spaces(lead)
    case Entry(lead, mount, sep1, fsType, sep2, device, tail) =>
      && Spaces(lead) && Token(mount) && mount[0] != '#' && !IsSpace(mount[0])
      && Separator(sep1) && Token(fsType) && Separator(sep2) && Token(device)
      && NoNewline(tail) && (tail != "" ==> IsDelim(tail[0]))
    case Short(lead, mount, sep1, fsType, tail) =>
      && Spaces(lead) && Token(mount) && mount[0] != '#' && !IsSpace(mount[0])
      && (if fsType == "" then sep1 == "" else Separator(sep1) && Token(fsType)) && Blanks(tail)
  }

  function Body(l: Line): string {
    match l
    case Comment(_, text) => "#" + text + "\n"
    case Blank(_) => "\n"
    case Entry(_, mount, sep1, fsType, sep2, device, tail) =>
      mount + (sep1 + fsType + (sep2 + device + (tail + "\n")))
    case Short(_, mount, sep1, fsType, tail) => mount + (sep1 + (fsType + (tail + "\n")))
  }

  function RenderLine(l: Line): string {
    l.lead + Body(l)
  }

  function Render(table: seq<Line>): string {
    if table == [] then "" else RenderLine(table[0]) + Render(table[1..])
  }

  predicate Mounts(l: Line, mount: string) {
    (l.Entry? || l.Short?) && l.mount == mount
  }

  /** What the first line with that mount point gives: its device, or the null
      pointer if it has none. */
  function FirstMatch(table: seq<Line>, mount: string): Result {
    if table == [] then NotFound
    else if Mounts(table[0], mount) then if table[0].Entry? then Found(table[0].device) else NullDevice
    else FirstMatch(table[1..], mount)
  }

  // ----- print and parse agree -----

  lemma {:induction false} LineEndsAtNewline(s: string, rest: string)
    requires NoNewline(s)
    ensures LineLen(s + "\n" + rest) == |s| + 1
  {
    if s == "" {
      assert s + "\n" + rest == "\n" + rest;
    } else {
      LineEndsAtNewline(s[1..], rest);
      assert (s + "\n" + rest)[1..] == s[1..] + "\n" + rest;
    }
  }

  lemma {:induction false} TrimDropsLead(lead: string, body: string)
    requires Spaces(lead)
    ensures Trim(lead + body) == Trim(body)
  {
    if lead == "" {
      assert lead + body == body;
    } else {
      TrimDropsLead(lead[1..], body);
      assert (lead + body)[0] == lead[0] && (lead + body)[1..] == lead[1..] + body;
    }
  }

  lemma {:induction false} DelimsAreSkipped(sep: string, s: string)
    requires Delims(sep)
    ensures SkipDelims(sep + s) == SkipDelims(s)
  {
    if sep == "" {
      assert sep + s == s;
    } else {
      DelimsAreSkipped(sep[1..], s);
      assert (sep + s)[0] == sep[0] && (sep + s)[1..] == sep[1..] + s;
    }
  }

  lemma {:induction false} TokenEnds(token: string, rest: string)
    requires forall i :: 0 <= i < |token| ==> !IsDelim(token[i])
    requires rest == "" || IsDelim(rest[0])
    ensures TokenLen(token + rest) == |token|
  {
    if token == "" {
      assert token + rest == rest;
    } else {
      TokenEnds(token[1..], rest);
      assert (token + rest)[0] == token[0] && (token + rest)[1..] == token[1..] + rest;
    }
  }

  /** strtok finds a token behind any delimiters and stops at the next one. */
  lemma TokOf(sep: string, token: string, rest: string)
    requires Delims(sep) && Token(token) && rest != "" && IsDelim(rest[0])
    ensures Tok(sep + (token + rest)) == (Some(token), rest[1..])
  {
    DelimsAreSkipped(sep, token + rest);
    assert (token + rest)[0] == token[0];
    assert SkipDelims(token + rest) == token + rest;
    TokenEnds(token, rest);
    assert (token + rest)[..|token|] == token;
    assert (token + rest)[|token| + 1..] == rest[1..];
  }

  lemma TokAfter(sep: string, token: string, rest: string)
    requires Separator(sep) && Token(token) && rest != "" && IsDelim(rest[0])
    ensures Tok((sep + token + rest)[1..]) == (Some(token), rest[1..])
  {
    assert (sep + token + rest)[1..] == sep[1..] + (token + rest);
    TokOf(sep[1..], token, rest);
  }

  lemma EntryLine(l: Line, mount: string)
    requires WellFormed(l) && l.Entry?
    ensures LookupLine(RenderLine(l), mount) == if l.mount == mount then Some(Found(l.device)) else None
  {
    var end := l.tail + "\n";
    var r2 := l.sep2 + l.device + end;
    var r1 := l.sep1 + l.fsType + r2;
    assert end != "" && IsDelim(end[0]);
    assert r2[0] == l.sep2[0] && r1[0] == l.sep1[0];
    TrimDropsLead(l.lead, Body(l));
    assert Body(l) == l.mount + r1;
    assert Body(l)[0] == l.mount[0];
    assert "" + (l.mount + r1) == Body(l);
    TokOf("", l.mount, r1);
    TokAfter(l.sep1, l.fsType, r2);
    TokAfter(l.sep2, l.device, end);
  }

  lemma {:induction false} OnlyDelims(s: string)
    requires Delims(s)
    ensures SkipDelims(s) == "" && Tok(s) == (None, "")
  {
    assert s + "" == s;
    DelimsAreSkipped(s, "");
  }

  /** A matching line with fewer than three tokens makes the code copy from null. */
  lemma ShortLineCopiesNull(l: Line, mount: string)
    requires WellFormed(l) && l.Short?
    ensures LookupLine(RenderLine(l), mount) == if l.mount == mount then Some(NullDevice) else None
  {
    var end := l.tail + "\n";
    var r1 := l.sep1 + (l.fsType + end);
    assert end != "" && IsDelim(end[0]);
    TrimDropsLead(l.lead, Body(l));
    assert Body(l) == l.mount + r1;
    assert Body(l)[0] == l.mount[0];
    assert "" + (l.mount + r1) == Body(l);
    OnlyDelims(end[1..]);
    OnlyDelims("");
    if l.fsType == "" {
      assert r1 == end;
      TokOf("", l.mount, end);
    } else {
      assert r1[0] == l.sep1[0];
      assert r1 == l.sep1 + l.fsType + end;
      TokOf("", l.mount, r1);
      TokAfter(l.sep1, l.fsType, end);
    }
  }

  lemma OtherLine(l: Line, mount: string)
    requires WellFormed(l) && !l.Entry? && !l.Short?
    ensures LookupLine(RenderLine(l), mount) == None
  {
    TrimDropsLead(l.lead, Body(l));
  }

  lemma NoNewlineConcat(a: string, b: string)
    requires NoNewline(a) && NoNewline(b)
    ensures NoNewline(a + b)
  {
  }

  /** A rendered line without its newline. */
  function Front(l: Line): string {
    match l
    case Comment(lead, text) => lead + ("#" + text)
    case Blank(lead) => lead
    case Entry(lead, mount, sep1, fsType, sep2, device, tail) =>
      lead + (mount + (sep1 + (fsType + (sep2 + (device + tail)))))
    case Short(lead, mount, sep1, fsType, tail) => lead + (mount + (sep1 + (fsType + tail)))
  }

  lemma FrontHasNoNewline(l: Line)
    requires WellFormed(l)
    ensures NoNewline(Front(l))
  {
    if l.Entry? {
      NoNewlineConcat(l.device, l.tail);
      NoNewlineConcat(l.sep2, l.device + l.tail);
      NoNewlineConcat(l.fsType, l.sep2 + (l.device + l.tail));
      NoNewlineConcat(l.sep1, l.fsType + (l.sep2 + (l.device + l.tail)));
      NoNewlineConcat(l.mount, l.sep1 + (l.fsType + (l.sep2 + (l.device + l.tail))));
    } else if l.Short? {
      NoNewlineConcat(l.fsType, l.tail);
      NoNewlineConcat(l.sep1, l.fsType + l.tail);
      NoNewlineConcat(l.mount, l.sep1 + (l.fsType + l.tail));
    }
  }

  lemma Reassociate(a: string, b: string, c: string)
    ensures a + b + c == a + (b + c)
  {
  }

  lemma LineIsFrontAndNewline(l: Line)
    ensures RenderLine(l) == Front(l) + "\n"
  {
    match l {
      case Comment(lead, text) =>
      case Blank(lead) =>
      case Entry(lead, mount, sep1, fsType, sep2, device, tail) =>
        Reassociate(device, tail, "\n");
        Reassociate(sep2, device + tail, "\n");
        Reassociate(sep2, device, tail + "\n");
        Reassociate(fsType, sep2 + (device + tail), "\n");
        Reassociate(sep1, fsType + (sep2 + (device + tail)), "\n");
        Reassociate(sep1, fsType, sep2 + device + (tail + "\n"));
        Reassociate(mount, sep1 + (fsType + (sep2 + (device + tail))), "\n");
        Reassociate(lead, mount + (sep1 + (fsType + (sep2 + (device + tail)))), "\n");
      case Short(lead, mount, sep1, fsType, tail) =>
        Reassociate(fsType, tail, "\n");
        Reassociate(sep1, fsType + tail, "\n");
        Reassociate(mount, sep1 + (fsType + tail), "\n");
        Reassociate(lead, mount + (sep1 + (fsType + tail)), "\n");
    }
  }

  lemma OneNewline(l: Line, rest: string)
    requires WellFormed(l)
    ensures LineLen(RenderLine(l) + rest) == |RenderLine(l)|
  {
    FrontHasNoNewline(l);
    LineIsFrontAndNewline(l);
    LineEndsAtNewline(Front(l), rest);
  }

  lemma {:induction false} RenderedLookup(table: seq<Line>, mount: string)
    requires forall i :: 0 <= i < |table| ==> WellFormed(table[i]) && |RenderLine(table[i])| < BUFFER_SIZE
    ensures Lookup(Render(table), mount) == FirstMatch(table, mount)
  {
    if table != [] {
      var l, rest := table[0], Render(table[1..]);
      var s := RenderLine(l) + rest;
      OneNewline(l, rest);
      assert s[..|RenderLine(l)|] == RenderLine(l) && s[|RenderLine(l)|..] == rest;
      if l.Entry? {
        EntryLine(l, mount);
      } else if l.Short? {
        ShortLineCopiesNull(l, mount);
      } else {
        OtherLine(l, mount);
      }
      RenderedLookup(table[1..], mount);
    }
  }

  /** A line with three fields, each free of blanks and newlines, is found by the first
      and gives the third, whatever other characters they hold. */
  lemma PlainLineIsFound(mount: string, fsType: string, device: string)
    requires mount != "" && fsType != "" && device != "" && |mount| + |fsType| + |device| + 3 < 1024
    requires mount[0] != '#' && mount[0] != '\r' && mount[0] != '\U{000B}' && mount[0] != '\U{000C}'
    requires forall c :: c in mount + fsType + device ==> c != ' ' && c != '\t' && c != '\n'
    ensures Lookup(mount + " " + fsType + "\t" + device + "\n", mount) == Found(device)
  {
    var l := Entry("", mount, " ", fsType, "\t", device, "");
    PartsAreTokens(mount, fsType, device);
    var text := mount + " " + fsType + "\t" + device + "\n";
    PlainLine(mount, fsType, device);
    assert text == RenderLine(l) + "";
    OneLine(l, text);
  }

  lemma PartsAreTokens(mount: string, fsType: string, device: string)
    requires mount != "" && fsType != "" && device != ""
    requires forall c :: c in mount + fsType + device ==> c != ' ' && c != '\t' && c != '\n'
    ensures Token(mount) && Token(fsType) && Token(device)
  {
    var all := mount + fsType + device;
    forall i | 0 <= i < |mount| ensures !IsDelim(mount[i]) {
      assert mount[i] == all[i] && all[i] in all;
    }
    forall i | 0 <= i < |fsType| ensures !IsDelim(fsType[i]) {
      assert fsType[i] == all[|mount| + i] && all[|mount| + i] in all;
    }
    forall i | 0 <= i < |device| ensures !IsDelim(device[i]) {
      assert device[i] == all[|mount| + |fsType| + i] && all[|mount| + |fsType| + i] in all;
    }
  }

  lemma PlainLine(mount: string, fsType: string, device: string)
    ensures RenderLine(Entry("", mount, " ", fsType, "\t", device, "")) ==
            mount + " " + fsType + "\t" + device + "\n"
  {
    Reassociate(mount, " ", fsType);
    Reassociate(mount, " " + fsType, "\t");
    Reassociate(mount, " " + fsType + "\t", device);
    Reassociate(mount, " " + fsType + "\t" + device, "\n");
    Reassociate(" " + fsType, "\t", device);
    Reassociate(" " + fsType, "\t" + device, "\n");
  }

  /** A table of one line. */
  lemma OneLine(l: Line, text: string)
    requires WellFormed(l) && l.Entry? && text == RenderLine(l) && |text| < BUFFER_SIZE
    ensures Lookup(text, l.mount) == Found(l.device)
  {
    assert Render([l]) == text + Render([l][1..]) && [l][1..] == [];
    assert text + "" == text;
    LookupFindsFirstMatch(text, [l], l.mount);
  }

  /** The buffer holds 1023 characters of a line; the rest is read as a line of its own. */
  lemma LongLineIsCut(s: string)
    requires |s| >= 1023 && forall i :: 0 <= i < 1023 ==> s[i] != '\n'
    ensures ChunkLen(s) == 1023
  {
    LineIsLong(s, 1023);
  }

  lemma {:induction false} LineIsLong(s: string, n: nat)
    requires n <= |s| && forall i :: 0 <= i < n ==> s[i] != '\n'
    ensures LineLen(s) >= n
  {
    if n > 0 {
      assert forall i :: 0 <= i < n - 1 ==> s[1..][i] == s[i + 1];
      LineIsLong(s[1..], n - 1);
    }
  }

  /** Line i is the first one with that mount point. */
  predicate IsFirst(table: seq<Line>, mount: string, i: nat) {
    i < |table| && Mounts(table[i], mount) && forall j :: 0 <= j < i ==> !Mounts(table[j], mount)
  }

  lemma {:induction false} FirstMatchIsFirst(table: seq<Line>, mount: string, i: nat)
    requires IsFirst(table, mount, i)
    ensures FirstMatch(table, mount) == if table[i].Entry? then Found(table[i].device) else NullDevice
  {
    if i > 0 {
      assert !Mounts(table[0], mount);
      assert forall j :: 0 <= j < i - 1 ==> table[1..][j] == table[j + 1];
      FirstMatchIsFirst(table[1..], mount, i - 1);
    }
  }

  lemma {:induction false} NoMatchMeansNoLine(table: seq<Line>, mount: string)
    ensures FirstMatch(table, mount) == NotFound <==> forall i :: 0 <= i < |table| ==> !Mounts(table[i], mount)
  {
    if table != [] {
      NoMatchMeansNoLine(table[1..], mount);
      assert forall i :: 0 < i < |table| ==> table[i] == table[1..][i - 1];
      if !Mounts(table[0], mount) && FirstMatch(table[1..], mount) != NotFound {
        var i :| 0 <= i < |table[1..]| && Mounts(table[1..][i], mount);
        assert Mounts(table[i + 1], mount);
      }
    }
  }

  lemma {:induction false} SomeFirst(table: seq<Line>, mount: string) returns (i: nat)
    requires FirstMatch(table, mount) != NotFound
    ensures IsFirst(table, mount, i)
  {
    if Mounts(table[0], mount) {
      i := 0;
    } else {
      var j := SomeFirst(table[1..], mount);
      i := j + 1;
      assert forall k :: 0 < k < i ==> table[k] == table[1..][k - 1];
    }
  }

  lemma FirstMatchOutcomes(table: seq<Line>, mount: string, device: string)
    ensures FirstMatch(table, mount) == Found(device) <==>
              exists i: nat :: IsFirst(table, mount, i) && table[i].Entry? && table[i].device == device
    ensures FirstMatch(table, mount) == NullDevice <==> exists i: nat :: IsFirst(table, mount, i) && table[i].Short?
  {
    forall i: nat | IsFirst(table, mount, i)
      ensures FirstMatch(table, mount) == if table[i].Entry? then Found(table[i].device) else NullDevice
    {
      FirstMatchIsFirst(table, mount, i);
    }
    if FirstMatch(table, mount) != NotFound {
      var i := SomeFirst(table, mount);
      assert IsFirst(table, mount, i);
    }
  }

  // ----- a last line without its newline -----

  lemma {:induction false} TrimBeforeNewline(s: string)
    ensures Trim(s + "\n") == if Trim(s) == "" then "" else Trim(s) + "\n"
  {
    if s == "" {
      assert s + "\n" == "\n" && Trim("\n"[1..]) == "";
    } else {
      assert (s + "\n")[1..] == s[1..] + "\n";
      TrimBeforeNewline(s[1..]);
    }
  }

  lemma {:induction false} SkipBeforeNewline(s: string)
    ensures SkipDelims(s + "\n") == if SkipDelims(s) == "" then "" else SkipDelims(s) + "\n"
  {
    if s == "" {
      assert s + "\n" == "\n" && SkipDelims("\n"[1..]) == "";
    } else {
      assert (s + "\n")[1..] == s[1..] + "\n";
      SkipBeforeNewline(s[1..]);
    }
  }

  lemma {:induction false} TokenBeforeNewline(s: string)
    ensures TokenLen(s + "\n") == TokenLen(s)
  {
    if s != "" {
      assert (s + "\n")[1..] == s[1..] + "\n";
      TokenBeforeNewline(s[1..]);
    }
  }

  /** The same token, and the same rest but for the newline. */
  lemma TokBeforeNewline(s: string)
    ensures
      var (token, rest) := Tok(s);
      Tok(s + "\n") == (token, rest) || Tok(s + "\n") == (token, rest + "\n")
  {
    SkipBeforeNewline(s);
    var t := SkipDelims(s);
    if t != "" {
      TokenBeforeNewline(t);
      var n := TokenLen(t);
      assert (t + "\n")[..n] == t[..n];
      assert (t + "\n")[n + 1..] == if n < |t| then t[n + 1..] + "\n" else "";
    }
  }

  lemma LineBeforeNewline(line: string, mount: string)
    ensures LookupLine(line + "\n", mount) == LookupLine(line, mount)
  {
    TrimBeforeNewline(line);
    var t := Trim(line);
    if t != "" {
      TokBeforeNewline(t);
      var (_, r1) := Tok(t);
      TokBeforeNewline(r1);
      var (_, r2) := Tok(r1);
      TokBeforeNewline(r2);
    }
  }

  lemma {:induction false} LineLenBeforeNewline(s: string)
    ensures LineLen(s + "\n") == LineLen(s) || (LineLen(s) == |s| && LineLen(s + "\n") == |s| + 1)
  {
    if s != "" {
      assert (s + "\n")[1..] == s[1..] + "\n";
      LineLenBeforeNewline(s[1..]);
    }
  }

  lemma NewlineAlone(mount: string)
    ensures Lookup("\n", mount) == NotFound
  {
    assert Trim("\n"[1..]) == "" && "\n"[..1] == "\n" && "\n"[1..] == "";
    assert ChunkLen("\n") == 1 && LookupLine("\n", mount) == None;
  }

  /** For every text, whatever the length of its lines: a newline at its end makes
      no difference. */
  lemma {:induction false} FinalNewlineDoesNotMatter(s: string, mount: string)
    ensures Lookup(s + "\n", mount) == Lookup(s, mount)
    decreases |s|
  {
    hide LookupLine, LineLen;
    if s == "" {
      assert s + "\n" == "\n";
      NewlineAlone(mount);
    } else {
      LineLenBeforeNewline(s);
      var n, whole := ChunkLen(s), s + "\n";
      if ChunkLen(whole) == n {
        assert whole[..n] == s[..n] && whole[n..] == s[n..] + "\n";
        FinalNewlineDoesNotMatter(s[n..], mount);
      } else {
        assert whole[..|whole|] == whole && s[..|s|] == s;
        LineBeforeNewline(s, mount);
      }
    }
  }

  /** The text of a table, the newline of its last line there or not. */
  predicate IsTextOf(text: string, table: seq<Line>) {
    text == Render(table) || text + "\n" == Render(table)
  }

  /** For every table whose lines fit the buffer, however it is laid out, looking a
      mount point up in its text gives what the first line that has it gives. */
  lemma LookupFindsFirstMatch(text: string, table: seq<Line>, mount: string)
    requires forall i :: 0 <= i < |table| ==> WellFormed(table[i]) && |RenderLine(table[i])| < BUFFER_SIZE
    requires IsTextOf(text, table)
    ensures Lookup(text, mount) == FirstMatch(table, mount)
  {
    RenderedLookup(table, mount);
    FinalNewlineDoesNotMatter(text, mount);
  }

  /** The three outcomes, exactly: a device if the first line with the mount point
      has three tokens, the null pointer if it has fewer, and failure if there is no
      such line. */
  lemma LookupOutcomes(text: string, table: seq<Line>, mount: string, device: string)
    requires forall i :: 0 <= i < |table| ==> WellFormed(table[i]) && |RenderLine(table[i])| < BUFFER_SIZE
    requires IsTextOf(text, table)
    ensures Lookup(text, mount) == Found(device) <==>
              exists i: nat :: IsFirst(table, mount, i) && table[i].Entry? && table[i].device == device
    ensures Lookup(text, mount) == NullDevice <==> exists i: nat :: IsFirst(table, mount, i) && table[i].Short?
    ensures Lookup(text, mount) == NotFound <==> forall i :: 0 <= i < |table| ==> !Mounts(table[i], mount)
  {
    LookupFindsFirstMatch(text, table, mount);
    FirstMatchOutcomes(table, mount, device);
    NoMatchMeansNoLine(table, mount);
  }
}
