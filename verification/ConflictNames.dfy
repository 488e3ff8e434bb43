/** The name under which a displaced local version is kept (client/client.cpp). */
module ConflictNames {

  import opened Basics
  import opened Decimals
  import opened Paths

  const TAG := " (conflicted copy "
  const MAX_ATTEMPT: nat := 0x7FFF_FFFF

  /** A local time, as "2024-02-29 23.59.07". */
  datatype Stamp = Stamp(date: string, time: string) {
    function Text(): string { date + " " + time }

    ghost predicate Valid() {
      && |Text()| <= 31
      && ' ' !in time && '.' in time
      && forall i :: 0 <= i < |Text()| ==> IsValidChar(Text()[i])
    }
  }

  /** Where a file name's extension starts; a leading dot starts none. */
  function DotAt(file: string): (dot: nat)
    ensures dot <= |file| && (file != "" ==> dot > 0)
  {
    var dot := LastDot(file);
    if dot <= 0 then |file| else dot
  }

  function LastDot(s: string): (i: int)
    ensures -1 <= i < |s|
  {
    if s == "" then -1 else if s[|s| - 1] == '.' then |s| - 1 else LastDot(s[..|s| - 1])
  }

  function Min(a: nat, b: nat): nat {
    if a < b then a else b
  }

  function Prefix(s: string, n: nat): string {
    s[..Min(n, |s|)]
  }

  /** What follows the time stamp: nothing the first time, then a counter. */
  function Counter(attempt: nat): string {
    (if attempt > 1 then " " + Dec(attempt) else "") + ")"
  }

  function Tag(stamp: Stamp, attempt: nat): string {
    TAG + stamp.Text() + Counter(attempt)
  }

  /** Lengths are unsigned, so too long a tag would leave room for everything. */
  function Room(tag: string, extension: string): nat {
    var used := |tag| + Min(|extension|, 32);
    if used <= MAX_NAME_LENGTH then MAX_NAME_LENGTH - used else 0x1_0000_0000_0000_0000 + MAX_NAME_LENGTH - used % 0x1_0000_0000_0000_0000
  }

  function Component(file: string, stamp: Stamp, attempt: nat): string {
    var stem, extension := file[..DotAt(file)], file[DotAt(file)..];
    var tag := Tag(stamp, attempt);
    Prefix(stem, Room(tag, extension)) + tag + Prefix(extension, 32)
  }

  function Candidate(name: string, stamp: Stamp, attempt: nat): string {
    var component := Component(BaseName(name), stamp, attempt);
    if ParentPath(name) == "" then component else ParentPath(name) + "/" + component
  }

  /* ------------------------------------------------- no two attempts coincide */

  lemma NoSpaceAfter(v: string, e: string, i: nat)
    requires ' ' !in e && |v| < i <= |v| + |e|
    ensures (v + " " + e)[i] != ' '
  {
    assert (v + " " + e)[i] == e[i - |v| - 1];
    assert e[i - |v| - 1] in e;
  }

  lemma LastWord(u: string, d: string, v: string, e: string)
    requires ' ' !in d && ' ' !in e && u + " " + d == v + " " + e
    ensures d == e && u == v
  {
    var s := u + " " + d;
    assert s[|u|] == ' ' && (v + " " + e)[|v|] == ' ';
    forall i | |u| < i < |s| ensures s[i] != ' ' { NoSpaceAfter(u, d, i); }
    forall i | |v| < i < |s| ensures s[i] != ' ' { NoSpaceAfter(v, e, i); }
    assert d == s[|u| + 1..] == e;
    assert u == s[..|u|] == v;
  }

  lemma DecHasNoSpace(n: nat)
    ensures ' ' !in Dec(n) && '.' !in Dec(n)
  {
  }

  function LastPart(stamp: Stamp, attempt: nat): string {
    if attempt > 1 then Dec(attempt) else stamp.time
  }

  function FirstPart(stamp: Stamp, attempt: nat): string {
    TAG + stamp.date + if attempt > 1 then " " + stamp.time else ""
  }

  lemma TagParts(p: string, stamp: Stamp, attempt: nat)
    requires stamp.Valid()
    ensures p + Tag(stamp, attempt) == (p + FirstPart(stamp, attempt)) + " " + LastPart(stamp, attempt) + ")"
    ensures ' ' !in LastPart(stamp, attempt)
  {
    DecHasNoSpace(attempt);
  }

  lemma WithoutLast(s: string, t: string)
    requires s + ")" == t + ")"
    ensures s == t
  {
    assert s == (s + ")")[..|s|] && t == (t + ")")[..|t|];
  }

  lemma SameCounter(p: string, q: string, stamp: Stamp, a: nat, b: nat)
    requires stamp.Valid() && 1 <= a && 1 <= b
    requires p + Tag(stamp, a) == q + Tag(stamp, b)
    ensures a == b
  {
    var u, v := p + FirstPart(stamp, a), q + FirstPart(stamp, b);
    var d, e := LastPart(stamp, a), LastPart(stamp, b);
    TagParts(p, stamp, a);
    TagParts(q, stamp, b);
    WithoutLast(u + " " + d, v + " " + e);
    LastWord(u, d, v, e);
    DecHasNoSpace(a);
    DecHasNoSpace(b);
    if a > 1 && b > 1 { DecInjective(a, b); }
  }

  lemma CandidatesDiffer(name: string, stamp: Stamp, a: nat, b: nat)
    requires stamp.Valid() && 1 <= a && 1 <= b && Candidate(name, stamp, a) == Candidate(name, stamp, b)
    ensures a == b
  {
    var file := BaseName(name);
    var stem, extension := file[..DotAt(file)], file[DotAt(file)..];
    var x, y := Component(file, stamp, a), Component(file, stamp, b);
    assert x == y by {
      var dir := ParentPath(name);
      if dir != "" {
        assert x == Candidate(name, stamp, a)[|dir| + 1..];
        assert y == Candidate(name, stamp, b)[|dir| + 1..];
      }
    }
    var end := Prefix(extension, 32);
    var p, q := Prefix(stem, Room(Tag(stamp, a), extension)), Prefix(stem, Room(Tag(stamp, b), extension));
    assert p + Tag(stamp, a) == x[..|x| - |end|];
    assert q + Tag(stamp, b) == y[..|y| - |end|];
    SameCounter(p, q, stamp, a, b);
  }

  /* --------------------------------------------------------- what a copy is called */

  lemma {:induction false} LastDotOf(stem: string, extension: string)
    requires '.' !in extension
    ensures LastDot(stem + "." + extension) == |stem|
  {
    var s := stem + "." + extension;
    if extension == "" {
      assert s[|s| - 1] == '.';
    } else {
      var front := extension[..|extension| - 1];
      assert s[..|s| - 1] == stem + "." + front;
      assert s[|s| - 1] == extension[|extension| - 1] && extension[|extension| - 1] in extension;
      LastDotOf(stem, front);
    }
  }

  lemma {:induction false} NoDot(s: string)
    requires '.' !in s
    ensures LastDot(s) == -1
  {
    if s != "" {
      assert s[|s| - 1] in s;
      NoDot(s[..|s| - 1]);
    }
  }

  /** A copy is in the folder of the original, begins as it does and has its extension: what
      follows the last dot, cut after 31 characters, unless the dot comes first. The beginning
      is cut only to make the whole as long as a name may be. */
  lemma CopyHasExtension(stem: string, extension: string, stamp: Stamp, attempt: nat) returns (kept: nat)
    requires stem != "" && '.' !in extension && stamp.Valid() && 1 <= attempt <= MAX_ATTEMPT
    ensures kept <= |stem|
    ensures Component(stem + "." + extension, stamp, attempt) == stem[..kept] + Tag(stamp, attempt) + "." + Prefix(extension, 31)
    ensures kept < |stem| ==> |Component(stem + "." + extension, stamp, attempt)| == 255
  {
    CounterLength(attempt);
    var file, tag := stem + "." + extension, Tag(stamp, attempt);
    LastDotOf(stem, extension);
    assert file[..|stem|] == stem && file[|stem|..] == "." + extension;
    assert Prefix("." + extension, 32) == "." + Prefix(extension, 31);
    kept := Min(Room(tag, "." + extension), |stem|);
    assert stem[..kept] + tag + ("." + Prefix(extension, 31)) == stem[..kept] + tag + "." + Prefix(extension, 31);
  }

  /** A name without a dot, or with one only in front, gets the tag at its end. */
  lemma CopyWithoutExtension(file: string, stamp: Stamp, attempt: nat) returns (kept: nat)
    requires file != "" && '.' !in file[1..] && stamp.Valid() && 1 <= attempt <= MAX_ATTEMPT
    ensures kept <= |file| && Component(file, stamp, attempt) == file[..kept] + Tag(stamp, attempt)
    ensures kept < |file| ==> |Component(file, stamp, attempt)| == 255
  {
    CounterLength(attempt);
    if file[0] == '.' {
      assert file == "" + "." + file[1..];
      LastDotOf("", file[1..]);
    } else {
      assert forall c :: c in file ==> c == file[0] || c in file[1..];
      NoDot(file);
    }
    var tag := Tag(stamp, attempt);
    kept := Min(Room(tag, ""), |file|);
    assert file[..|file|] == file && file[|file|..] == "";
    assert Component(file, stamp, attempt) == file[..kept] + tag;
  }

  /** It lies in the same folder. */
  lemma CopyInFolder(name: string, stamp: Stamp, attempt: nat)
    requires '/' !in Component(BaseName(name), stamp, attempt)
    ensures ParentPath(Candidate(name, stamp, attempt)) == ParentPath(name)
    ensures BaseName(Candidate(name, stamp, attempt)) == Component(BaseName(name), stamp, attempt)
  {
    var dir, component := ParentPath(name), Component(BaseName(name), stamp, attempt);
    if dir == "" {
      assert forall i :: 0 <= i < |component| ==> component[i] in component;
    } else {
      LastOf(dir, component);
    }
  }

  /* --------------------------------------------------------- the search itself */

  /** The first free name from `attempt` on, given the existing files not tried yet. */
  function FirstFree(name: string, stamp: Stamp, untried: set<string>, attempt: nat): string
    decreases |untried|
  {
    var candidate := Candidate(name, stamp, attempt);
    if candidate !in untried then candidate
    else FirstFree(name, stamp, untried - {candidate}, attempt + 1)
  }

  /** conflict_name, given the regular files that exist. */
  function ConflictName(name: string, stamp: Stamp, existing: set<string>): string {
    FirstFree(name, stamp, existing, 1)
  }

  ghost predicate Tried(name: string, stamp: Stamp, attempt: nat, c: string) {
    exists i :: 1 <= i < attempt && c == Candidate(name, stamp, i)
  }

  ghost predicate AllTried(name: string, stamp: Stamp, attempt: nat, tried: set<string>) {
    forall c :: c in tried ==> Tried(name, stamp, attempt, c)
  }

  lemma {:induction false} FirstFreeIsFree(name: string, stamp: Stamp, existing: set<string>, untried: set<string>, attempt: nat)
    returns (k: nat)
    requires stamp.Valid() && attempt >= 1 && untried <= existing
    requires AllTried(name, stamp, attempt, existing - untried)
    ensures attempt <= k <= attempt + |untried|
    ensures FirstFree(name, stamp, untried, attempt) == Candidate(name, stamp, k)
    ensures Candidate(name, stamp, k) !in existing
    ensures forall i :: attempt <= i < k ==> Candidate(name, stamp, i) in existing
    decreases |untried|
  {
    var candidate := Candidate(name, stamp, attempt);
    if candidate in untried {
      forall c | c in existing - (untried - {candidate}) ensures Tried(name, stamp, attempt + 1, c) {
        if c != candidate {
          assert c in existing - untried;
          var i :| 1 <= i < attempt && c == Candidate(name, stamp, i);
        }
      }
      k := FirstFreeIsFree(name, stamp, existing, untried - {candidate}, attempt + 1);
    } else {
      k := attempt;
      if candidate in existing {
        assert candidate in existing - untried;
        var i :| 1 <= i < attempt && candidate == Candidate(name, stamp, i);
        CandidatesDiffer(name, stamp, attempt, i);
      }
    }
  }

  /** The search ends within one attempt more than there are files, at the first candidate
      that names none of them. */
  lemma ConflictNameIsFree(name: string, stamp: Stamp, existing: set<string>) returns (k: nat)
    requires stamp.Valid()
    ensures 1 <= k <= |existing| + 1
    ensures ConflictName(name, stamp, existing) == Candidate(name, stamp, k)
    ensures ConflictName(name, stamp, existing) !in existing
    ensures forall i :: 1 <= i < k ==> Candidate(name, stamp, i) in existing
  {
    k := FirstFreeIsFree(name, stamp, existing, existing, 1);
  }

  /** The names conflict_name gives at the given local times. */
  function NamesBy(clock: string -> Stamp): (string, set<string>) -> string {
    (name, existing) => ConflictName(name, clock(name), existing)
  }

  lemma NamesByFree(clock: string -> Stamp)
    requires forall n :: clock(n).Valid()
    ensures forall n, existing :: NamesBy(clock)(n, existing) !in existing
  {
    forall n, existing ensures NamesBy(clock)(n, existing) !in existing {
      var k := ConflictNameIsFree(n, clock(n), existing);
    }
  }

  /** The loop of conflict_name. */
  method SearchName(name: string, stamp: Stamp, existing: set<string>) returns (found: string)
    requires stamp.Valid()
    ensures found == ConflictName(name, stamp, existing)
  {
    var attempt := 1;
    ghost var tried: set<string> := {};
    assert existing - tried == existing;
    while true
      invariant 1 <= attempt && |tried| == attempt - 1 && tried <= existing
      invariant AllTried(name, stamp, attempt, tried)
      invariant FirstFree(name, stamp, existing - tried, attempt) == ConflictName(name, stamp, existing)
      decreases |existing| - |tried|
    {
      found := Candidate(name, stamp, attempt);
      NotTriedYet(name, stamp, attempt, tried);
      if found !in existing { return; }
      ghost var before := tried;
      tried := tried + {found};
      SubsetSize(tried, existing);
      assert existing - before - {found} == existing - tried;
      TriedOneMore(name, stamp, attempt, before);
      attempt := attempt + 1;
    }
  }

  lemma NotTriedYet(name: string, stamp: Stamp, attempt: nat, tried: set<string>)
    requires stamp.Valid() && attempt >= 1 && AllTried(name, stamp, attempt, tried)
    ensures Candidate(name, stamp, attempt) !in tried
  {
    forall c | c in tried ensures c != Candidate(name, stamp, attempt) {
      var i :| 1 <= i < attempt && c == Candidate(name, stamp, i);
      if c == Candidate(name, stamp, attempt) { CandidatesDiffer(name, stamp, attempt, i); }
    }
  }

  lemma TriedOneMore(name: string, stamp: Stamp, attempt: nat, tried: set<string>)
    requires attempt >= 1 && AllTried(name, stamp, attempt, tried)
    ensures AllTried(name, stamp, attempt + 1, tried + {Candidate(name, stamp, attempt)})
  {
    forall c | c in tried + {Candidate(name, stamp, attempt)} ensures Tried(name, stamp, attempt + 1, c) {
      if c in tried { var i :| 1 <= i < attempt && c == Candidate(name, stamp, i); }
    }
  }

  /* ------------------------------------------------------------- valid names */

  lemma {:induction false} CounterLength(attempt: nat)
    requires attempt <= MAX_ATTEMPT
    ensures |Counter(attempt)| <= 12
  {
    assert Pow10(10) == 10_000_000_000 by {
      assert Pow10(5) == 100_000;
      assert Pow10(10) == 100_000 * Pow10(5);
    }
    DecLength(attempt, 10);
  }

  ghost predicate AllValid(s: string) {
    forall i :: 0 <= i < |s| ==> IsValidChar(s[i])
  }

  lemma TagValid(stamp: Stamp, attempt: nat)
    requires stamp.Valid()
    ensures AllValid(Tag(stamp, attempt))
  {
    assert AllValid(TAG);
    assert AllValid(Counter(attempt));
  }

  /** Starting with the program's own prefix would hide the copy from every listing. */
  lemma NotReserved(stem: string, tag: string, rest: string, file: string)
    requires 0 < |stem| && stem <= file && !(RESERVED_PREFIX <= file) && TAG <= tag
    ensures !(RESERVED_PREFIX <= stem + tag + rest)
  {
    var s := stem + tag + rest;
    if |stem| >= 6 {
      assert s[..6] == stem[..6] == file[..6];
    } else {
      assert s[|stem|] == tag[0] == ' ';
      assert forall i :: 0 <= i < 6 ==> RESERVED_PREFIX[i] != ' ';
    }
  }

  /** The copy of a valid name is itself a valid file name, in the same folder. */
  lemma ComponentValid(file: string, stamp: Stamp, attempt: nat)
    requires IsValidName(file) && stamp.Valid() && 1 <= attempt <= MAX_ATTEMPT
    ensures IsValidName(Component(file, stamp, attempt))
  {
    CounterLength(attempt);
    TagValid(stamp, attempt);
    var stem, extension := file[..DotAt(file)], file[DotAt(file)..];
    var tag := Tag(stamp, attempt);
    var start := Prefix(stem, Room(tag, extension));
    assert |start| > 0;
    assert TAG <= tag;
    NotReserved(start, tag, Prefix(extension, 32), file);
  }

  lemma SplitLast(dir: string, file: string)
    requires '/' !in file
    ensures Split(dir + "/" + file) == Split(dir) + [file]
  {
    var path := dir + "/" + file;
    assert path[|dir|] == '/' && path[..|dir|] == dir && path[|dir| + 1..] == file;
    SplitAt(path, |dir|);
    assert forall i :: 0 <= i < |file| ==> file[i] in file;
    assert Split(file) == [file];
  }

  lemma ValidLast(dir: string, file: string)
    requires '/' !in file
    ensures IsValidPath(dir + "/" + file) <==>
      |dir| + 1 + |file| <= MAX_PATH_LENGTH && |Split(dir)| < MAX_PATH_DEPTH && AllValidNames(Split(dir)) && IsValidName(file)
  {
    SplitLast(dir, file);
    assert forall part :: part in Split(dir) + [file] <==> part in Split(dir) || part == file;
  }

  /** The length of the copy's path from the lengths of the folder's path, the stem and the
      extension of the name, and the tag. */
  function CopyLength(dir: nat, stem: nat, extension: nat, tag: nat): nat {
    var end := Min(extension, 32);
    var room := if tag + end <= MAX_NAME_LENGTH then MAX_NAME_LENGTH - tag - end else 0;
    (if dir == 0 then 0 else dir + 1) + Min(stem, room) + tag + end
  }

  function TagLength(stamp: Stamp, attempt: nat): nat {
    |TAG| + |stamp.date| + 1 + |stamp.time| + |Counter(attempt)|
  }

  lemma TagLengthIs(stamp: Stamp, attempt: nat)
    requires stamp.Valid() && attempt <= MAX_ATTEMPT
    ensures |Tag(stamp, attempt)| == TagLength(stamp, attempt) <= 64
  {
    CounterLength(attempt);
    assert |stamp.Text()| == |stamp.date| + 1 + |stamp.time|;
  }

  lemma ComponentLength(file: string, stamp: Stamp, attempt: nat)
    requires stamp.Valid() && attempt <= MAX_ATTEMPT
    ensures |Component(file, stamp, attempt)| == CopyLength(0, DotAt(file), |file| - DotAt(file), TagLength(stamp, attempt))
  {
    TagLengthIs(stamp, attempt);
    var tag, extension := Tag(stamp, attempt), file[DotAt(file)..];
    assert |Prefix(extension, 32)| == Min(|extension|, 32);
    assert |Prefix(file[..DotAt(file)], Room(tag, extension))| == Min(DotAt(file), Room(tag, extension));
  }

  lemma CandidateLength(name: string, stamp: Stamp, attempt: nat)
    requires stamp.Valid() && 1 <= attempt <= MAX_ATTEMPT
    ensures var file := BaseName(name);
      |Candidate(name, stamp, attempt)|
      == CopyLength(|ParentPath(name)|, DotAt(file), |file| - DotAt(file), TagLength(stamp, attempt))
  {
    ComponentLength(BaseName(name), stamp, attempt);
  }

  lemma CopyIsValidPath(name: string, stamp: Stamp, attempt: nat)
    requires IsValidPath(name) && stamp.Valid() && 1 <= attempt <= MAX_ATTEMPT
    ensures IsValidPath(Candidate(name, stamp, attempt)) <==> |Candidate(name, stamp, attempt)| <= MAX_PATH_LENGTH
  {
    var dir, file := ParentPath(name), BaseName(name);
    NameParts(name);
    BaseIsValid(name);
    ComponentValid(file, stamp, attempt);
    if dir == "" {
      NoSlashValid(Component(file, stamp, attempt));
    } else {
      InFolder(dir, file, Component(file, stamp, attempt));
    }
  }

  /** Another valid name in the same folder. */
  lemma InFolder(dir: string, file: string, other: string)
    requires IsValidPath(dir + "/" + file) && '/' !in file && '/' !in other && IsValidName(other)
    ensures IsValidPath(dir + "/" + other) <==> |dir + "/" + other| <= MAX_PATH_LENGTH
  {
    ValidLast(dir, file);
    ValidLast(dir, other);
  }

  lemma NameParts(name: string)
    requires IsValidPath(name)
    ensures '/' !in BaseName(name)
    ensures name == if ParentPath(name) == "" then BaseName(name) else ParentPath(name) + "/" + BaseName(name)
  {
    ValidPathStart(name);
  }

  /** A conflicted copy of a valid path can itself be synced if and only if the folder leaves
      room for the name with the tag; which is known before the copy is made. */
  lemma CopyIsValidPathIff(name: string, stamp: Stamp, attempt: nat)
    requires IsValidPath(name) && stamp.Valid() && 1 <= attempt <= MAX_ATTEMPT
    ensures var file := BaseName(name);
      IsValidPath(Candidate(name, stamp, attempt)) <==>
      CopyLength(|ParentPath(name)|, DotAt(file), |file| - DotAt(file), TagLength(stamp, attempt)) <= MAX_PATH_LENGTH
  {
    CopyIsValidPath(name, stamp, attempt);
    CandidateLength(name, stamp, attempt);
  }

  /** In a folder whose path has at most 768 bytes every copy can be synced. */
  lemma ShallowCopyIsValid(name: string, stamp: Stamp, attempt: nat)
    requires IsValidPath(name) && stamp.Valid() && 1 <= attempt <= MAX_ATTEMPT
    requires |ParentPath(name)| <= MAX_PATH_LENGTH - MAX_NAME_LENGTH - 1
    ensures IsValidPath(Candidate(name, stamp, attempt))
  {
    CopyIsValidPath(name, stamp, attempt);
    BaseIsValid(name);
    ComponentValid(BaseName(name), stamp, attempt);
  }

  lemma BaseIsValid(name: string)
    requires IsValidPath(name)
    ensures IsValidName(BaseName(name))
  {
    var dir, file := ParentPath(name), BaseName(name);
    NameParts(name);
    if dir == "" {
      NoSlashValid(name);
    } else {
      ValidLast(dir, file);
    }
  }

  /* --------------------------------------- a valid name whose copies are all too long */

  const FOLDER: string := seq(250, _ => 'a')
  const DEEP: string := ((FOLDER + "/" + FOLDER) + "/" + FOLDER) + "/" + FOLDER

  lemma FolderIsValid()
    ensures IsValidName(FOLDER) && '/' !in FOLDER
  {
    assert FOLDER[0] == 'a' && RESERVED_PREFIX[0] == '.';
  }

  lemma DeepParts()
    ensures |DEEP| == 1003 && Split(DEEP) == [FOLDER, FOLDER, FOLDER, FOLDER]
  {
    FolderIsValid();
    NoSlashValid(FOLDER);
    NotSplit(FOLDER);
    DeepStep(FOLDER, [FOLDER]);
    DeepStep(FOLDER + "/" + FOLDER, [FOLDER, FOLDER]);
    DeepStep((FOLDER + "/" + FOLDER) + "/" + FOLDER, [FOLDER, FOLDER, FOLDER]);
  }

  lemma DeepStep(dir: string, parts: seq<string>)
    requires Split(dir) == parts
    ensures Split(dir + "/" + FOLDER) == parts + [FOLDER] && |dir + "/" + FOLDER| == |dir| + 251
  {
    FolderIsValid();
    SplitLast(dir, FOLDER);
  }

  lemma LastOf(dir: string, file: string)
    requires '/' !in file && dir != ""
    ensures ParentPath(dir + "/" + file) == dir && BaseName(dir + "/" + file) == file
  {
    var path := dir + "/" + file;
    forall i | |dir| < i < |path| ensures path[i] != '/' {
      assert path[i] == file[i - |dir| - 1] && file[i - |dir| - 1] in file;
    }
    assert path[|dir|] == '/' && path[..|dir|] == dir && path[|dir| + 1..] == file;
  }

  /** The name is valid, but no copy of it ever is, at whatever time and attempt. */
  lemma DeepCopyIsInvalid(stamp: Stamp, attempt: nat)
    requires stamp.Valid() && 1 <= attempt <= MAX_ATTEMPT
    ensures IsValidPath(DEEP + "/b") && !IsValidPath(Candidate(DEEP + "/b", stamp, attempt))
  {
    DeepParts();
    FolderIsValid();
    assert DEEP + "/b" == DEEP + "/" + "b";
    ValidLast(DEEP, "b");
    LastOf(DEEP, "b");
    CopyIsValidPathIff(DEEP + "/" + "b", stamp, attempt);
    assert |TAG| == 18;
  }

  lemma NoSlashValid(file: string)
    requires '/' !in file
    ensures IsValidPath(file) <==> IsValidName(file)
  {
    NotSplit(file);
  }
}
