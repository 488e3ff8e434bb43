/** The text file a client keeps its last synced state in (client/sync_state.cpp). */
module StateFile {

  import opened Decimals
  import opened Basics
  import opened Octets
  import opened Paths

  const HEADER := "sisop-sync-state 1"

  /** What was known of one file after the last sync. */
  datatype Version = Version(size: u64, mtime: i64, hash: u64)

  type Entries = map<string, Version>

  /* -------------------------------------------------------- formatted extraction */

  predicate IsSpace(c: char) {
    c == ' ' || 9 <= c as int <= 13
  }

  function SpaceEnd(s: string, i: nat): (j: nat)
    requires i <= |s|
    ensures i <= j <= |s| && (j < |s| ==> !IsSpace(s[j]))
    ensures forall k :: i <= k < j ==> IsSpace(s[k])
    decreases |s| - i
  {
    if i == |s| || !IsSpace(s[i]) then i else SpaceEnd(s, i + 1)
  }

  function WordEnd(s: string, i: nat): (j: nat)
    requires i <= |s|
    ensures i <= j <= |s| && (j < |s| ==> IsSpace(s[j]))
    ensures forall k :: i <= k < j ==> !IsSpace(s[k])
    decreases |s| - i
  {
    if i == |s| || IsSpace(s[i]) then i else WordEnd(s, i + 1)
  }

  function DigitEnd(s: string, i: nat): (j: nat)
    requires i <= |s|
    ensures i <= j <= |s| && (j < |s| ==> !IsDigit(s[j]))
    ensures forall k :: i <= k < j ==> IsDigit(s[k])
    decreases |s| - i
  {
    if i == |s| || !IsDigit(s[i]) then i else DigitEnd(s, i + 1)
  }

  function HexEnd(s: string, i: nat): (j: nat)
    requires i <= |s|
    ensures i <= j <= |s| && (j < |s| ==> !IsHexDigit(s[j]))
    ensures forall k :: i <= k < j ==> IsHexDigit(s[k])
    decreases |s| - i
  {
    if i == |s| || !IsHexDigit(s[i]) then i else HexEnd(s, i + 1)
  }

  datatype Extracted<+T> = Read(value: T, rest: string) | Failed

  /** `>>` into a string. */
  function ReadWord(s: string): Extracted<string> {
    var i := SpaceEnd(s, 0);
    if i == |s| then Failed else Read(s[i..WordEnd(s, i)], s[WordEnd(s, i)..])
  }

  function DigitsFrom(s: string, i: nat): (digits: string)
    requires i <= |s|
    ensures i + |digits| == DigitEnd(s, i) && digits == s[i..DigitEnd(s, i)]
    ensures forall k :: 0 <= k < |digits| ==> IsDigit(digits[k])
  {
    var digits := s[i..DigitEnd(s, i)];
    assert forall k :: 0 <= k < |digits| ==> digits[k] == s[i + k];
    digits
  }

  function HexDigitsFrom(s: string, i: nat): (digits: string)
    requires i <= |s|
    ensures i + |digits| == HexEnd(s, i) && digits == s[i..HexEnd(s, i)]
    ensures forall k :: 0 <= k < |digits| ==> IsHexDigit(digits[k])
  {
    var digits := s[i..HexEnd(s, i)];
    assert forall k :: 0 <= k < |digits| ==> digits[k] == s[i + k];
    digits
  }

  /** A sign and digits, before the range is looked at. */
  function ReadNumber(s: string): Extracted<int> {
    var i := SpaceEnd(s, 0);
    var minus, plus := i < |s| && s[i] == '-', i < |s| && s[i] == '+';
    var start := if minus || plus then i + 1 else i;
    var digits := DigitsFrom(s, start);
    if digits == "" then Failed
    else Read(if minus then 0 - DecValue(digits) else DecValue(digits), s[start + |digits|..])
  }

  /** `>>` into an unsigned number: a minus sign wraps around. */
  function ReadU64(s: string): Extracted<u64> {
    match ReadNumber(s)
    case Failed => Failed
    case Read(n, rest) => if 0 - TWO_64 < n < TWO_64 then Read(n % TWO_64, rest) else Failed
  }

  function ReadI64(s: string): Extracted<i64> {
    match ReadNumber(s)
    case Failed => Failed
    case Read(n, rest) => if -0x8000_0000_0000_0000 <= n < 0x8000_0000_0000_0000 then Read(n, rest) else Failed
  }

  /** stoull in base 16: leading digits count, none or too many throw. */
  function ReadHex(s: string): Extracted<u64> {
    var minus, plus := s != "" && s[0] == '-', s != "" && s[0] == '+';
    var t := if minus || plus then s[1..] else s;
    var prefixed := |t| > 2 && t[0] == '0' && (t[1] == 'x' || t[1] == 'X') && IsHexDigit(t[2]);
    var start := if prefixed then 2 else 0;
    var digits := HexDigitsFrom(t, start);
    if digits == "" || HexValue(digits) >= TWO_64 then Failed
    else Read((if minus then 0 - HexValue(digits) else HexValue(digits)) % TWO_64, t[start + |digits|..])
  }

  /* ------------------------------------------------------------------ one line */

  function Line(name: string, v: Version): string {
    Hex(v.hash, 16) + (" " + (Dec(v.size) + (" " + (DecInt(v.mtime) + (" " + name)))))
  }

  datatype Parsed = Entry(name: string, version: Version) | Skipped | Throws

  function ParseLine(line: string): Parsed {
    match ReadWord(line)
    case Failed => Skipped
    case Read(hash, r1) =>
      match ReadU64(r1)
      case Failed => Skipped
      case Read(size, r2) =>
        match ReadI64(r2)
        case Failed => Skipped
        case Read(mtime, r3) =>
          var name := if r3 == "" then "" else r3[1..];
          if !IsValidPath(name) then Skipped
          else match ReadHex(hash)
            case Failed => Throws
            case Read(h, _) => Entry(name, Version(size, mtime, h))
  }

  lemma WordReads(word: string, rest: string)
    requires word != "" && (forall k :: 0 <= k < |word| ==> !IsSpace(word[k]))
    requires rest != "" && IsSpace(rest[0])
    ensures ReadWord(word + rest) == Read(word, rest)
  {
    var s := word + rest;
    assert s[0] == word[0] && s[|word|] == rest[0];
    assert forall k :: 0 <= k < |word| ==> s[k] == word[k];
    assert SpaceEnd(s, 0) == 0 && WordEnd(s, 0) == |word|;
    assert s[..|word|] == word && s[|word|..] == rest;
  }

  lemma NumberScanned(s: string, start: nat, end: nat, digits: string, rest: string)
    requires 1 <= start <= 2 && start < end < |s| && IsSpace(s[0])
    requires start == 2 ==> s[1] == '-'
    requires forall k :: start <= k < end ==> IsDigit(s[k])
    requires !IsDigit(s[end]) && s[start..end] == digits && s[end..] == rest
    ensures forall k :: 0 <= k < |digits| ==> IsDigit(digits[k])
    ensures ReadNumber(s) == Read(if start == 2 then 0 - DecValue(digits) else DecValue(digits), rest)
  {
    assert !IsSpace(s[1]) && SpaceEnd(s, 0) == 1;
    assert DigitEnd(s, start) == end;
  }

  lemma Placed(front: string, digits: string, rest: string, k: nat)
    requires k < |digits|
    ensures (front + digits + rest)[|front| + k] == digits[k]
  {
  }

  lemma Middle(front: string, digits: string, rest: string)
    ensures var s := front + digits + rest;
      s[|front|..|front| + |digits|] == digits && s[|front| + |digits|..] == rest
  {
  }

  lemma DigitsRead(front: string, digits: string, rest: string)
    requires 1 <= |front| <= 2 && front[0] == ' ' && (|front| == 2 ==> front[1] == '-')
    requires digits != "" && (forall k :: 0 <= k < |digits| ==> IsDigit(digits[k]))
    requires rest != "" && !IsDigit(rest[0])
    ensures ReadNumber(front + digits + rest) == Read(if |front| == 2 then 0 - DecValue(digits) else DecValue(digits), rest)
  {
    var s, start := front + digits + rest, |front|;
    forall k | start <= k < start + |digits| ensures IsDigit(s[k]) { Placed(front, digits, rest, k - start); }
    assert s[0] == front[0] && (start == 2 ==> s[1] == front[1]) && s[start + |digits|] == rest[0];
    Middle(front, digits, rest);
    NumberScanned(s, start, start + |digits|, digits, rest);
  }

  lemma NumberReads(n: int, rest: string)
    requires rest != "" && !IsDigit(rest[0])
    ensures ReadNumber(" " + (DecInt(n) + rest)) == Read(n, rest)
  {
    var magnitude := if n < 0 then -n else n;
    var digits := Dec(magnitude);
    DecRoundTrip(magnitude);
    if n < 0 {
      DigitsRead(" -", digits, rest);
      SignedParts(digits, rest);
    } else {
      DigitsRead(" ", digits, rest);
      Regroup(" ", digits, rest);
    }
  }

  lemma SignedParts(digits: string, rest: string)
    ensures " " + (("-" + digits) + rest) == " -" + digits + rest
  {
  }

  lemma HexScanned(s: string)
    requires |s| == 16 && AllHex(s) && HexValue(s) < TWO_64
    ensures ReadHex(s) == Read(HexValue(s), "")
  {
    assert IsHexDigit(s[0]) && IsHexDigit(s[1]);
    assert HexEnd(s, 0) == 16;
    assert s[0..16] == s && s[16..] == "";
  }

  lemma HexReads(n: u64)
    ensures ReadHex(Hex(n, 16)) == Read(n, "")
  {
    assert HexValue(Hex(n, 16)) == n by {
      SixteenDigits();
      HexRoundTrip(n, 16);
    }
    HexScanned(Hex(n, 16));
  }

  lemma PartsParse(line: string, hash: string, r1: string, size: u64, r2: string, mtime: i64, r3: string, name: string, h: u64)
    requires ReadWord(line) == Read(hash, r1) && ReadU64(r1) == Read(size, r2) && ReadI64(r2) == Read(mtime, r3)
    requires r3 != "" && r3[1..] == name && IsValidPath(name) && ReadHex(hash) == Read(h, "")
    ensures ParseLine(line) == Entry(name, Version(size, mtime, h))
  {
  }

  lemma InRange(s: string, n: int, rest: string)
    requires ReadNumber(s) == Read(n, rest)
    ensures 0 <= n < TWO_64 ==> ReadU64(s) == Read(n, rest)
    ensures -0x8000_0000_0000_0000 <= n < 0x8000_0000_0000_0000 ==> ReadI64(s) == Read(n, rest)
  {
  }

  /** A saved line is read back as its entry, whatever the name starts with. */
  lemma LineReads(name: string, v: Version)
    requires IsValidPath(name)
    ensures ParseLine(Line(name, v)) == Entry(name, v)
  {
    var hash := Hex(v.hash, 16);
    var r3 := " " + name;
    var r2 := " " + (DecInt(v.mtime) + r3);
    var r1 := " " + (Dec(v.size) + r2);
    WordReads(hash, r1);
    NumberReads(v.size, r2);
    InRange(r1, v.size, r2);
    NumberReads(v.mtime, r3);
    InRange(r2, v.mtime, r3);
    HexReads(v.hash);
    PartsParse(Line(name, v), hash, r1, v.size, r2, v.mtime, r3, name, v.hash);
  }

  /** What a line of this form does when its parts are not what was written: a name that is
      no valid path is passed over, a hash that is no number throws. */
  lemma DamagedLine(hash: string, size: u64, mtime: i64, name: string)
    requires hash != "" && (forall k :: 0 <= k < |hash| ==> !IsSpace(hash[k]))
    ensures var line := hash + (" " + (Dec(size) + (" " + (DecInt(mtime) + (" " + name)))));
      && (!IsValidPath(name) ==> ParseLine(line) == Skipped)
      && (IsValidPath(name) && hash[0] !in "+-" && !IsHexDigit(hash[0]) ==> ParseLine(line) == Throws)
  {
    var r3 := " " + name;
    var r2 := " " + (DecInt(mtime) + r3);
    var r1 := " " + (Dec(size) + r2);
    WordReads(hash, r1);
    NumberReads(size, r2);
    InRange(r1, size, r2);
    NumberReads(mtime, r3);
    InRange(r2, mtime, r3);
    DamagedParts(hash + r1, hash, r1, size, r2, mtime, r3, name);
  }

  lemma DamagedParts(line: string, hash: string, r1: string, size: u64, r2: string, mtime: i64, r3: string, name: string)
    requires ReadWord(line) == Read(hash, r1) && ReadU64(r1) == Read(size, r2) && ReadI64(r2) == Read(mtime, r3)
    requires r3 == " " + name && hash != ""
    ensures !IsValidPath(name) ==> ParseLine(line) == Skipped
    ensures IsValidPath(name) && hash[0] !in "+-" && !IsHexDigit(hash[0]) ==> ParseLine(line) == Throws
  {
    assert r3[1..] == name;
    if hash[0] !in "+-" && !IsHexDigit(hash[0]) {
      assert '-' in "+-" && '+' in "+-" by { assert "+-"[0] == '+' && "+-"[1] == '-'; }
      assert HexEnd(hash, 0) == 0;
    }
  }

  /* --------------------------------------------------------------- the whole file */

  function LineEnd(s: string, i: nat): (j: nat)
    requires i <= |s|
    ensures i <= j <= |s| && (j < |s| ==> s[j] == '\n')
    ensures forall k :: i <= k < j ==> s[k] != '\n'
    decreases |s| - i
  {
    if i == |s| || s[i] == '\n' then i else LineEnd(s, i + 1)
  }

  /** What getline leaves; a missing newline at the very end is fine. */
  function AfterLine(s: string): string {
    var end := LineEnd(s, 0);
    if end == |s| then "" else s[end + 1..]
  }

  datatype Loaded = Complete(entries: Entries) | Broke(entries: Entries)

  /** The loop of load, from a point of the file on: later lines win; an exception leaves
      what was read so far. */
  function LoadLines(text: string, entries: Entries): Loaded
    decreases |text|
  {
    if text == "" then Complete(entries)
    else match ParseLine(text[..LineEnd(text, 0)])
      case Throws => Broke(entries)
      case Skipped => LoadLines(AfterLine(text), entries)
      case Entry(name, v) => LoadLines(AfterLine(text), entries[name := v])
  }

  /** A file without the header counts as empty. */
  function LoadText(text: string): Loaded {
    if text == "" || text[..LineEnd(text, 0)] != HEADER then Complete(map[]) else LoadLines(AfterLine(text), map[])
  }

  function SaveLines(names: seq<string>, entries: Entries): string
    requires forall n :: n in names ==> n in entries
  {
    if names == [] then "" else (Line(names[0], entries[names[0]]) + "\n") + SaveLines(names[1..], entries)
  }

  function SaveText(names: seq<string>, entries: Entries): string
    requires forall n :: n in names ==> n in entries
  {
    (HEADER + "\n") + SaveLines(names, entries)
  }

  lemma NoNewline(name: string)
    requires IsValidPath(name)
    ensures '\n' !in name
  {
    forall i | 0 <= i < |name| ensures name[i] != '\n' {
      if name[i] != '/' { PathChar(name, i); }
    }
  }

  /** Every character of a valid path other than the slashes is valid. */
  lemma {:induction false} PathChar(path: string, i: nat)
    requires i < |path| && path[i] != '/' && AllValidNames(Split(path))
    ensures IsValidChar(path[i])
    decreases |path|
  {
    var slash := FirstSlash(path);
    if slash == |path| {
      assert path in Split(path) && IsValidName(path);
    } else {
      SplitStep(path);
      ValidNamesStep(path[..slash], Split(path[slash + 1..]));
      if i < slash {
        assert path[..slash][i] == path[i];
      } else {
        PathChar(path[slash + 1..], i - slash - 1);
      }
    }
  }

  lemma LineHasNoNewline(name: string, v: Version)
    requires '\n' !in name
    ensures '\n' !in Line(name, v)
  {
  }

  lemma FirstLine(line: string, rest: string)
    requires '\n' !in line
    ensures var text := (line + "\n") + rest;
      text[..LineEnd(text, 0)] == line && AfterLine(text) == rest && text != ""
  {
    var text := (line + "\n") + rest;
    assert text[|line|] == '\n';
    forall k | 0 <= k < |line| ensures text[k] != '\n' { assert text[k] == line[k] && line[k] in line; }
    assert LineEnd(text, 0) == |line|;
  }

  /** The entries put in one after another. */
  function Added(names: seq<string>, entries: Entries, start: Entries): Entries
    requires forall n :: n in names ==> n in entries
  {
    if names == [] then start else Added(names[1..], entries, start[names[0] := entries[names[0]]])
  }

  lemma {:induction false} LinesLoad(names: seq<string>, entries: Entries, start: Entries)
    requires forall n :: n in names ==> n in entries && IsValidPath(n)
    ensures LoadLines(SaveLines(names, entries), start) == Complete(Added(names, entries, start))
  {
    if names != [] {
      var name, v := names[0], entries[names[0]];
      NoNewline(name);
      LineHasNoNewline(name, v);
      FirstLine(Line(name, v), SaveLines(names[1..], entries));
      LineReads(name, v);
      LinesLoad(names[1..], entries, start[name := v]);
    }
  }

  lemma {:induction false} AddedAll(names: seq<string>, entries: Entries, start: Entries)
    requires forall n :: n in names ==> n in entries
    requires forall n :: n in start ==> n in entries && start[n] == entries[n]
    requires forall n :: n in entries ==> n in names || n in start
    ensures Added(names, entries, start) == entries
  {
    if names != [] { AddedAll(names[1..], entries, start[names[0] := entries[names[0]]]); }
  }

  /** Saving and loading gives back the same map, for any valid paths, any 64-bit sizes and
      hashes, any signed 64-bit times, and in whatever order the entries were written. */
  lemma SavedStateLoads(names: seq<string>, entries: Entries)
    requires forall n :: n in entries ==> IsValidPath(n)
    requires forall n :: n in names <==> n in entries
    ensures LoadText(SaveText(names, entries)) == Complete(entries)
  {
    FirstLine(HEADER, SaveLines(names, entries));
    LinesLoad(names, entries, map[]);
    AddedAll(names, entries, map[]);
  }

  function TextOf(lines: seq<string>): string {
    if lines == [] then "" else (lines[0] + "\n") + TextOf(lines[1..])
  }

  function ParsedLines(lines: seq<string>): (ps: seq<Parsed>)
    ensures |ps| == |lines| && forall i :: 0 <= i < |lines| ==> ps[i] == ParseLine(lines[i])
  {
    if lines == [] then [] else [ParseLine(lines[0])] + ParsedLines(lines[1..])
  }

  predicate EntryFor(p: Parsed, name: string) {
    p.Entry? && p.name == name
  }

  function Entered(p: Parsed, entries: Entries): Entries {
    if p.Entry? then entries[p.name := p.version] else entries
  }

  /** Line `i` is the last one that is an entry for the name. */
  ghost predicate LastFor(ps: seq<Parsed>, i: nat, name: string) {
    && i < |ps| && EntryFor(ps[i], name)
    && forall j :: i < j < |ps| ==> !EntryFor(ps[j], name)
  }

  ghost predicate NoneFor(ps: seq<Parsed>, name: string) {
    forall i :: 0 <= i < |ps| ==> !EntryFor(ps[i], name)
  }

  /** The lines count one by one: of those for a name the last, none that is no entry. */
  ghost predicate MeansFor(ps: seq<Parsed>, start: Entries, loaded: Entries, name: string) {
    && (forall i: nat :: LastFor(ps, i, name) ==> name in loaded && loaded[name] == ps[i].version)
    && (NoneFor(ps, name) ==> (name in loaded <==> name in start) && (name in loaded ==> loaded[name] == start[name]))
  }

  lemma NoneForMore(p: Parsed, ps: seq<Parsed>, name: string)
    ensures NoneFor([p] + ps, name) ==> !EntryFor(p, name) && NoneFor(ps, name)
  {
    var all := [p] + ps;
    if NoneFor(all, name) {
      assert !EntryFor(all[0], name);
      forall j | 0 <= j < |ps| ensures !EntryFor(ps[j], name) { assert ps[j] == all[j + 1]; }
    }
  }

  lemma LastForMore(p: Parsed, ps: seq<Parsed>, i: nat, name: string)
    requires LastFor([p] + ps, i, name)
    ensures if i > 0 then LastFor(ps, i - 1, name) else EntryFor(p, name) && NoneFor(ps, name)
  {
    var all := [p] + ps;
    forall j | i <= j < |ps| ensures !EntryFor(ps[j], name) { assert ps[j] == all[j + 1]; }
    if i > 0 { assert ps[i - 1] == all[i]; }
  }

  lemma MeansMore(p: Parsed, ps: seq<Parsed>, start: Entries, loaded: Entries, name: string)
    requires MeansFor(ps, Entered(p, start), loaded, name)
    ensures MeansFor([p] + ps, start, loaded, name)
  {
    var all := [p] + ps;
    forall i: nat | LastFor(all, i, name) ensures name in loaded && loaded[name] == all[i].version {
      LastForMore(p, ps, i, name);
    }
    NoneForMore(p, ps, name);
  }

  /** None of the lines makes load give up. */
  predicate NoneThrows(lines: seq<string>) {
    forall line :: line in lines ==> '\n' !in line && !ParseLine(line).Throws?
  }

  lemma FirstOfNone(lines: seq<string>)
    requires NoneThrows(lines) && lines != []
    ensures '\n' !in lines[0] && !ParseLine(lines[0]).Throws? && NoneThrows(lines[1..])
  {
    assert lines[0] in lines && forall line :: line in lines[1..] ==> line in lines;
  }

  lemma LineCounts(line: string, rest: string, start: Entries)
    requires '\n' !in line && !ParseLine(line).Throws?
    ensures LoadLines((line + "\n") + rest, start) == LoadLines(rest, Entered(ParseLine(line), start))
  {
    FirstLine(line, rest);
  }

  /** What a text means to load, line by line. */
  lemma {:induction false} LinesMean(lines: seq<string>, start: Entries)
    requires NoneThrows(lines)
    ensures LoadLines(TextOf(lines), start).Complete?
    ensures forall name :: MeansFor(ParsedLines(lines), start, LoadLines(TextOf(lines), start).entries, name)
  {
    if lines == [] {
      assert LoadLines("", start) == Complete(start);
      forall name ensures MeansFor([], start, start, name) { }
    } else {
      FirstOfNone(lines);
      LineCounts(lines[0], TextOf(lines[1..]), start);
      var p := ParseLine(lines[0]);
      LinesMean(lines[1..], Entered(p, start));
      forall name ensures MeansFor(ParsedLines(lines), start, LoadLines(TextOf(lines), start).entries, name) {
        MeansMore(p, ParsedLines(lines[1..]), start, LoadLines(TextOf(lines), start).entries, name);
      }
    }
  }

  /** A line that throws keeps what was read before it and nothing after it. */
  lemma {:induction false} ThrowingLineBreaks(lines: seq<string>, bad: string, rest: string, start: Entries)
    requires NoneThrows(lines) && '\n' !in bad && ParseLine(bad).Throws?
    ensures LoadLines(TextOf(lines) + ((bad + "\n") + rest), start) == Broke(LoadLines(TextOf(lines), start).entries)
  {
    var tail := (bad + "\n") + rest;
    if lines == [] {
      assert TextOf(lines) + tail == tail;
      FirstLine(bad, rest);
    } else {
      FirstOfNone(lines);
      Regroup(lines[0] + "\n", TextOf(lines[1..]), tail);
      LineCounts(lines[0], TextOf(lines[1..]) + tail, start);
      LineCounts(lines[0], TextOf(lines[1..]), start);
      ThrowingLineBreaks(lines[1..], bad, rest, Entered(ParseLine(lines[0]), start));
    }
  }

  /** A file that starts with any other line means nothing was synced, so nothing gets deleted. */
  lemma HeaderDecides(first: string, lines: seq<string>)
    requires '\n' !in first && NoneThrows(lines)
    ensures LoadText(TextOf([first] + lines)) ==
      if first == "sisop-sync-state 1" then LoadLines(TextOf(lines), map[]) else Complete(map[])
  {
    assert ([first] + lines)[1..] == lines;
    FirstLine(first, TextOf(lines));
  }

  /** No entry whose name is not a valid path is ever loaded. */
  lemma {:induction false} LoadedNamesValid(text: string, entries: Entries)
    requires forall n :: n in entries ==> IsValidPath(n)
    ensures forall n :: n in LoadLines(text, entries).entries ==> IsValidPath(n)
    decreases |text|
  {
    if text != "" {
      match ParseLine(text[..LineEnd(text, 0)])
      case Throws =>
      case Skipped => LoadedNamesValid(AfterLine(text), entries);
      case Entry(name, v) => LoadedNamesValid(AfterLine(text), entries[name := v]);
    }
  }

  datatype File = Missing | Text(text: string)

  class SyncState {
    var entries: Entries
    /** The file at path_. */
    var file: File

    ghost predicate Valid() reads this {
      forall n :: n in entries ==> IsValidPath(n)
    }

    constructor (file: File)
      ensures Valid() && entries == map[] && this.file == file
    {
      entries, this.file := map[], file;
    }

    /** load; false where stoull throws. */
    method Load() returns (ok: bool)
      modifies this`entries
      ensures Valid()
      ensures file.Missing? ==> ok && entries == map[]
      ensures file.Text? ==> LoadText(file.text) == if ok then Complete(entries) else Broke(entries)
    {
      entries := map[];
      if file.Missing? || file.text == "" { return true; }
      var end := LineEnd(file.text, 0);
      if file.text[..end] != HEADER { return true; }
      var left := AfterLine(file.text);
      while left != ""
        invariant Valid() && LoadLines(left, entries) == LoadText(file.text)
        decreases |left|
      {
        var parsed := ParseLine(left[..LineEnd(left, 0)]);
        if parsed.Throws? { return false; }
        if parsed.Entry? { entries := entries[parsed.name := parsed.version]; }
        left := AfterLine(left);
      }
      return true;
    }

    /** save: a file that cannot be written or put in place leaves the old one. */
    method Save() returns (ok: bool)
      requires Valid()
      modifies this`file
      ensures entries == old(entries)
      ensures ok ==> file.Text? && LoadText(file.text) == Complete(entries)
      ensures !ok ==> file == old(file)
    {
      var text, todo := HEADER + "\n", entries.Keys;
      ghost var names: seq<string> := [];
      assert SaveText([], entries) == text;
      while todo != {}
        invariant todo <= entries.Keys && (forall n :: n in names <==> n in entries && n !in todo)
        invariant text == SaveText(names, entries) && file == old(file)
      {
        var name :| name in todo;
        todo := todo - {name};
        text := text + (Line(name, entries[name]) + "\n");
        SavedOneMore(names, entries, name);
        names := names + [name];
      }
      SavedStateLoads(names, entries);
      var written: bool := *;
      if !written { return false; }
      file := Text(text);
      return true;
    }

    method Get(name: string) returns (found: bool, v: Version)
      ensures found <==> name in entries
      ensures found ==> v == entries[name]
    {
      found, v := name in entries, Version(0, 0, 0);
      if found { v := entries[name]; }
    }

    method Set(name: string, v: Version)
      modifies this`entries
      ensures entries == old(entries)[name := v]
    {
      entries := entries[name := v];
    }

    method Erase(name: string)
      modifies this`entries
      ensures entries == old(entries) - {name}
    {
      entries := entries - {name};
    }
  }

  lemma {:induction false} SavedLinesAppend(names: seq<string>, entries: Entries, name: string)
    requires forall n :: n in names + [name] ==> n in entries
    ensures SaveLines(names + [name], entries) == SaveLines(names, entries) + (Line(name, entries[name]) + "\n")
  {
    if names == [] {
      assert [name][1..] == [];
    } else {
      assert (names + [name])[1..] == names[1..] + [name];
      SavedLinesAppend(names[1..], entries, name);
      Regroup(Line(names[0], entries[names[0]]) + "\n", SaveLines(names[1..], entries), Line(name, entries[name]) + "\n");
    }
  }

  lemma SavedOneMore(names: seq<string>, entries: Entries, name: string)
    requires forall n :: n in names + [name] ==> n in entries
    ensures SaveText(names + [name], entries) == SaveText(names, entries) + (Line(name, entries[name]) + "\n")
  {
    SavedLinesAppend(names, entries, name);
    Regroup(HEADER + "\n", SaveLines(names, entries), Line(name, entries[name]) + "\n");
  }
}
