/** File names and paths (common/files.cpp). A character stands for one byte. */
module Paths {

  import Basics

  const MAX_NAME_LENGTH: nat := 255
  const MAX_PATH_LENGTH: nat := 1024
  const MAX_PATH_DEPTH: nat := 32
  const RESERVED_PREFIX := ".sisop"

  predicate IsValidChar(c: char) {
    c != '/' && c >= ' ' && c != '\U{7F}'
  }

  /** One component of a path. */
  predicate IsValidName(name: string) {
    && 0 < |name| <= MAX_NAME_LENGTH && name != "." && name != ".."
    && !(RESERVED_PREFIX <= name)
    && forall i :: 0 <= i < |name| ==> IsValidChar(name[i])
  }

  predicate IsUserChar(c: char) {
    'a' <= c <= 'z' || 'A' <= c <= 'Z' || '0' <= c <= '9' || c == '_' || c == '-'
  }

  predicate IsValidUser(user: string) {
    0 < |user| <= 32 && forall i :: 0 <= i < |user| ==> IsUserChar(user[i])
  }

  function SlashFrom(s: string, start: nat): (i: nat)
    requires start <= |s|
    ensures start <= i <= |s| && (i < |s| ==> s[i] == '/')
    ensures forall j :: start <= j < i ==> s[j] != '/'
    decreases |s| - start
  {
    if start == |s| || s[start] == '/' then start else SlashFrom(s, start + 1)
  }

  /** The position of the first '/', or the length if there is none. */
  function FirstSlash(s: string): (i: nat)
    ensures i <= |s| && (i < |s| ==> s[i] == '/')
    ensures forall j :: 0 <= j < i ==> s[j] != '/'
  {
    SlashFrom(s, 0)
  }

  /** The parts between the slashes; always at least one. */
  function Split(path: string): (r: seq<string>)
    ensures |r| > 0
    decreases |path|
  {
    var i := FirstSlash(path);
    if i == |path| then [path] else [path[..i]] + Split(path[i + 1..])
  }

  lemma SplitStep(path: string)
    requires FirstSlash(path) < |path|
    ensures Split(path) == [path[..FirstSlash(path)]] + Split(path[FirstSlash(path) + 1..])
  {
  }

  predicate IsValidPath(path: string) {
    && 0 < |path| <= MAX_PATH_LENGTH && |Split(path)| <= MAX_PATH_DEPTH
    && AllValidNames(Split(path))
  }

  predicate AllValidNames(parts: seq<string>) {
    forall part :: part in parts ==> IsValidName(part)
  }

  /** What is_valid_path still has to find: valid components, at most `left` of them. */
  predicate Scans(path: string, left: nat)
    decreases |path|
  {
    var i := FirstSlash(path);
    IsValidName(path[..i]) && left > 0 && (i < |path| ==> Scans(path[i + 1..], left - 1))
  }

  lemma {:induction false} ScansMeansValid(path: string, left: nat)
    ensures Scans(path, left) <==> |Split(path)| <= left && AllValidNames(Split(path))
    decreases |path|
  {
    var i := FirstSlash(path);
    if i == |path| {
      assert path[..i] == path;
    } else {
      ValidNamesStep(path[..i], Split(path[i + 1..]));
      if left > 0 { ScansMeansValid(path[i + 1..], left - 1); }
    }
  }

  lemma ValidNamesStep(first: string, rest: seq<string>)
    ensures AllValidNames([first] + rest) <==> IsValidName(first) && AllValidNames(rest)
  {
    assert forall part :: part in [first] + rest <==> part == first || part in rest;
  }

  lemma ScansStep(path: string, start: nat, slash: nat, left: nat)
    requires start <= |path| && slash == start + FirstSlash(path[start..])
    ensures Scans(path[start..], left) <==>
      IsValidName(path[start..slash]) && left > 0 && (slash < |path| ==> Scans(path[slash + 1..], left - 1))
  {
    assert path[start..][..slash - start] == path[start..slash];
    if slash < |path| { assert path[start..][slash - start + 1..] == path[slash + 1..]; }
  }

  const LETTERS := "abcdefghijklmnopqrstuvwxyz"
  const CAPITALS := "ABCDEFGHIJKLMNOPQRSTUVWXYZ"
  const FIGURES := "0123456789"

  lemma InOrder(i: nat)
    ensures i < 26 ==> LETTERS[i] == 'a' + (i as char) && CAPITALS[i] == 'A' + (i as char)
    ensures i < 10 ==> FIGURES[i] == '0' + (i as char)
  {
  }

  lemma InAlphabet(s: string, first: char, c: char)
    requires |s| <= 26 && first <= 'a' && forall i :: 0 <= i < |s| ==> s[i] == first + (i as char)
    ensures c in s <==> first <= c && (c as int) < first as int + |s|
  {
    if first <= c && (c as int) < first as int + |s| { assert s[(c - first) as int] == c; }
  }

  lemma Alphabets(c: char)
    ensures c in LETTERS <==> 'a' <= c <= 'z'
    ensures c in CAPITALS <==> 'A' <= c <= 'Z'
    ensures c in FIGURES <==> '0' <= c <= '9'
  {
    Ordered();
    InAlphabet(LETTERS, 'a', c);
    InAlphabet(CAPITALS, 'A', c);
    InAlphabet(FIGURES, '0', c);
  }

  lemma Ordered()
    ensures |LETTERS| == |CAPITALS| == 26 && |FIGURES| == 10
    ensures forall i :: 0 <= i < 26 ==> LETTERS[i] == 'a' + (i as char) && CAPITALS[i] == 'A' + (i as char)
    ensures forall i :: 0 <= i < 10 ==> FIGURES[i] == '0' + (i as char)
  {
    forall i | 0 <= i < 26 ensures LETTERS[i] == 'a' + (i as char) && CAPITALS[i] == 'A' + (i as char) { InOrder(i); }
    forall i | 0 <= i < 10 ensures FIGURES[i] == '0' + (i as char) { InOrder(i); }
  }

  /** A user's name has one to 32 letters, digits, underscores and dashes. */
  lemma UserIsValidIff(user: string)
    ensures IsValidUser(user) <==>
      1 <= |user| <= 32 && forall c :: c in user ==> c in LETTERS || c in CAPITALS || c in FIGURES || c in ['_', '-']
  {
    forall c ensures IsUserChar(c) <==> c in LETTERS || c in CAPITALS || c in FIGURES || c in ['_', '-'] { Alphabets(c); }
    assert forall i :: 0 <= i < |user| ==> user[i] in user;
  }

  /* ------------------------------------------------------- where a path leads */

  /** Where one ends up by going from a folder one component at a time. */
  datatype Place = Inside(steps: seq<string>) | Outside

  /** "." and "" stay, ".." goes up; above the folder it started from nothing counts. */
  function Walk(parts: seq<string>): Place {
    if parts == [] then Inside([])
    else
      var last := parts[|parts| - 1];
      match Walk(parts[..|parts| - 1])
      case Outside => Outside
      case Inside(steps) =>
        if last == "" || last == "." then Inside(steps)
        else if last != ".." then Inside(steps + [last])
        else if steps == [] then Outside
        else Inside(steps[..|steps| - 1])
  }

  predicate Steps(part: string) {
    part != "" && part != "." && part != ".."
  }

  lemma {:induction false} WalkShortens(parts: seq<string>)
    ensures Walk(parts).Inside? ==> |Walk(parts).steps| <= |parts|
  {
    if parts != [] {
      WalkShortens(parts[..|parts| - 1]);
    }
  }

  lemma {:induction false} OnlySteps(parts: seq<string>)
    requires Walk(parts) == Inside(parts)
    ensures forall part :: part in parts ==> Steps(part)
  {
    if parts != [] {
      var front, last := parts[..|parts| - 1], parts[|parts| - 1];
      WalkShortens(front);
      assert Steps(last) && Walk(front).steps + [last] == parts;
      assert Walk(front).steps == front;
      OnlySteps(front);
      forall part | part in parts ensures Steps(part) { assert part in front || part == last; }
    }
  }

  lemma {:induction false} WalkSteps(parts: seq<string>)
    requires forall part :: part in parts ==> Steps(part)
    ensures Walk(parts) == Inside(parts)
  {
    if parts != [] {
      var front, last := parts[..|parts| - 1], parts[|parts| - 1];
      assert parts == front + [last] && last in parts && Steps(last);
      WalkSteps(front);
    }
  }

  /** Within the limits, leading to exactly what it names, and to nothing of the program's own. */
  predicate Harmless(path: string) {
    && 0 < |path| <= 1024 && |Split(path)| <= 32
    && Walk(Split(path)) == Inside(Split(path))
    && forall part :: part in Split(path) ==> Printable(part) && |part| <= 255 && !(".sisop" <= part)
  }

  predicate Printable(part: string) {
    forall i :: 0 <= i < |part| ==> ' ' <= part[i] && part[i] != '\U{7F}'
  }

  lemma {:induction false} SplitHasNoSlash(path: string)
    ensures forall part :: part in Split(path) ==> '/' !in part
    decreases |path|
  {
    var i := FirstSlash(path);
    if i < |path| {
      SplitStep(path);
      SplitHasNoSlash(path[i + 1..]);
    }
  }

  lemma NameIsValidIff(name: string)
    requires '/' !in name
    ensures IsValidName(name) <==> Steps(name) && Printable(name) && |name| <= 255 && !(".sisop" <= name)
  {
    assert forall i :: 0 <= i < |name| ==> name[i] in name;
  }

  /** The paths that are accepted are exactly those: going along one never leaves the user's
      folder, never passes by a folder it does not name, and ends where it says. */
  lemma PathIsValidIff(path: string)
    ensures IsValidPath(path) <==> Harmless(path)
  {
    var parts := Split(path);
    SplitHasNoSlash(path);
    forall part | part in parts
      ensures IsValidName(part) <==> Steps(part) && Printable(part) && |part| <= 255 && !(".sisop" <= part)
    {
      NameIsValidIff(part);
    }
    if IsValidPath(path) { WalkSteps(parts); }
    if Harmless(path) { OnlySteps(parts); }
  }

  /** is_valid_path's scan. */
  method CheckPath(path: string) returns (ok: bool)
    ensures ok == IsValidPath(path)
    ensures ok == Harmless(path)
  {
    PathIsValidIff(path);
    ok := ScanPath(path);
  }

  method ScanPath(path: string) returns (ok: bool)
    ensures ok == IsValidPath(path)
  {
    if path == "" || |path| > MAX_PATH_LENGTH { return false; }
    ScansMeansValid(path, MAX_PATH_DEPTH);
    var depth, start := 0, 0;
    assert path[0..] == path;
    while true
      invariant start <= |path| && depth <= MAX_PATH_DEPTH
      invariant Scans(path[start..], MAX_PATH_DEPTH - depth) == Scans(path, MAX_PATH_DEPTH)
      decreases |path| - start
    {
      var slash := start + FirstSlash(path[start..]);
      var component := path[start..slash];
      ScansStep(path, start, slash, MAX_PATH_DEPTH - depth);
      if !IsValidName(component) { return false; }
      depth := depth + 1;
      if depth > MAX_PATH_DEPTH { return false; }
      if slash == |path| { return true; }
      start := slash + 1;
    }
  }

  /** Parts joined by single slashes. */
  function Join(parts: seq<string>): string
    requires |parts| > 0
  {
    if |parts| == 1 then parts[0] else parts[0] + "/" + Join(parts[1..])
  }

  lemma {:induction false} FirstSlashOf(part: string, rest: string)
    requires forall i :: 0 <= i < |part| ==> part[i] != '/'
    ensures FirstSlash(part + "/" + rest) == |part|
  {
    var s := part + "/" + rest;
    assert s[|part|] == '/';
    assert forall j :: 0 <= j < |part| ==> s[j] == part[j];
  }

  lemma JoinStep(part: string, rest: seq<string>)
    requires |rest| > 0
    ensures Join([part] + rest) == part + "/" + Join(rest)
  {
    assert ([part] + rest)[1..] == rest;
  }

  lemma CutAt(path: string, i: nat)
    requires i < |path| && path[i] == '/'
    ensures path == path[..i] + "/" + path[i + 1..]
  {
  }

  lemma {:induction false} JoinSplit(path: string)
    ensures Join(Split(path)) == path
    decreases |path|
  {
    var i := FirstSlash(path);
    if i < |path| {
      SplitStep(path);
      JoinSplit(path[i + 1..]);
      JoinStep(path[..i], Split(path[i + 1..]));
      CutAt(path, i);
    }
  }

  lemma SplitsAfter(part: string, rest: string)
    requires '/' !in part
    ensures Split(part + "/" + rest) == [part] + Split(rest)
  {
    var path := part + "/" + rest;
    FirstSlashOf(part, rest);
    SplitStep(path);
    assert path[..|part|] == part && path[|part| + 1..] == rest;
  }

  lemma NotSplit(part: string)
    requires '/' !in part
    ensures Split(part) == [part]
  {
    assert FirstSlash(part) == |part|;
  }

  /** Paths and lists of slash-free components are two views of the same thing. */
  lemma {:induction false} SplitJoin(parts: seq<string>)
    requires |parts| > 0 && forall k :: 0 <= k < |parts| ==> '/' !in parts[k]
    ensures Split(Join(parts)) == parts
  {
    if |parts| == 1 {
      NotSplit(parts[0]);
    } else {
      SplitJoin(parts[1..]);
      SplitsAfter(parts[0], Join(parts[1..]));
      assert parts == [parts[0]] + parts[1..];
    }
  }

  /* --------------------------------------------------------- folders and names */

  /** `path` lies somewhere inside the folder `dir`. */
  predicate Below(path: string, dir: string) {
    |dir| < |path| && path[|dir|] == '/' && path[..|dir|] == dir
  }

  lemma NotBelowItself(path: string)
    ensures !Below(path, path)
  {
  }

  /** The position of the last '/', or -1. */
  function LastSlash(s: string): (i: int)
    ensures -1 <= i < |s| && (i >= 0 ==> s[i] == '/')
    ensures forall j :: i < j < |s| ==> s[j] != '/'
  {
    if s == "" then -1
    else if s[|s| - 1] == '/' then |s| - 1
    else LastSlash(s[..|s| - 1])
  }

  /** "" for a top-level name. */
  function ParentPath(path: string): string {
    var slash := LastSlash(path);
    if slash < 0 then "" else path[..slash]
  }

  function BaseName(path: string): string {
    path[LastSlash(path) + 1..]
  }

  function JoinPath(dir: string, name: string): string {
    if dir == "" || dir[|dir| - 1] == '/' then dir + name else dir + "/" + name
  }

  /** The folders above a path are its parent and the folders above that. */
  lemma BelowParent(path: string, dir: string)
    ensures Below(path, dir) <==> LastSlash(path) >= 0 && (dir == ParentPath(path) || Below(ParentPath(path), dir))
  {
    var slash := LastSlash(path);
    if Below(path, dir) {
      assert slash >= |dir|;
      if slash == |dir| {
        assert dir == ParentPath(path);
      } else {
        assert ParentPath(path)[..|dir|] == path[..|dir|];
      }
    }
    if slash >= 0 && Below(ParentPath(path), dir) {
      assert ParentPath(path)[..|dir|] == path[..|dir|];
    }
  }

  lemma BelowBelow(path: string, mid: string, dir: string)
    requires Below(path, mid) && Below(mid, dir)
    ensures Below(path, dir)
  {
    assert path[..|mid|][..|dir|] == path[..|dir|];
  }

  lemma ValidPathStart(path: string)
    requires IsValidPath(path)
    ensures path[0] != '/'
  {
    assert Split(path)[0] in Split(path);
    assert Split(path)[0] == path[..FirstSlash(path)];
  }

  lemma FirstSlashBefore(path: string, n: nat)
    requires n <= |path|
    ensures FirstSlash(path[..n]) == if FirstSlash(path) < n then FirstSlash(path) else n
  {
    assert forall j :: 0 <= j < n ==> path[..n][j] == path[j];
  }

  lemma CutTwice(path: string, i: nat, n: nat)
    requires i < n < |path|
    ensures path[i + 1..][..n - i - 1] == path[..n][i + 1..]
    ensures path[i + 1..][n - i..] == path[n + 1..]
    ensures path[..n][..i] == path[..i]
  {
  }

  /** A folder's components come first among those of anything inside it. */
  lemma {:induction false} SplitAt(path: string, n: nat)
    requires n < |path| && path[n] == '/'
    ensures Split(path) == Split(path[..n]) + Split(path[n + 1..])
    decreases |path|
  {
    var i, dir := FirstSlash(path), path[..n];
    FirstSlashBefore(path, n);
    if i < n {
      var inside := path[i + 1..];
      CutTwice(path, i, n);
      SplitAt(inside, n - i - 1);
      Basics.Regroup([path[..i]], Split(dir[i + 1..]), Split(path[n + 1..]));
      SplitStep(dir);
      SplitStep(path);
    } else {
      assert Split(dir) == [dir];
      SplitStep(path);
    }
  }
}
