/** Runs in which a primary acts before it is linked to every live server. */
module ClusterMishaps {

  import opened Decimals
  import opened Members
  import opened Octets
  import opened Sizes
  import opened Stores
  import opened ClusterRuns
  import opened ClusterSafety
  import opened ClusterFiles
  import opened ClusterTheorems
  import opened ClusterChanges
  import opened ClusterLeaders

  const FOUNDER := Member(1000, 0)
  const FIRST := Member(999, 1)
  const SECOND := Member(998, 2)
  const BOTH: MemberMap := map[1000 := 0, 999 := 1]
  const ALL: MemberMap := map[1000 := 0, 999 := 1, 998 := 2]

  /* ---------------------------------------------- three servers, and the first take-over */

  function Two(files: Files): Cluster {
    Cluster(
      map[0 := Server(State(FOUNDER, Primary, FOUNDER, BOTH, 999, map[999 := 1]), true, Idle, files, map[]),
          1 := Server(State(FIRST, Backup, FOUNDER, BOTH, 0, map[]), true, Idle, files, map[])],
      files, map[], [], Nothing)
  }

  /** The founder and two backups, all in touch. */
  function Three(files: Files): Cluster {
    Cluster(
      map[0 := Server(State(FOUNDER, Primary, FOUNDER, ALL, 998, map[999 := 1, 998 := 2]), true, Idle, files, map[]),
          1 := Server(State(FIRST, Backup, FOUNDER, ALL, 0, map[]), true, Idle, files, map[]),
          2 := Server(State(SECOND, Backup, FOUNDER, ALL, 0, map[]), true, Idle, files, map[])],
      files, map[], [], Nothing)
  }

  /** The second backup has joined, but the first has not heard of it yet. */
  function Entered(files: Files): Cluster {
    Three(files).(servers := Three(files).servers[1 := Two(files).servers[1]])
  }

  lemma SameServers(a: map<Addr, Server>, b: map<Addr, Server>)
    requires a.Keys == b.Keys == {0, 1, 2} && a[0] == b[0] && a[1] == b[1] && a[2] == b[2]
    ensures a == b
  {
  }

  lemma FirstIsAssigned(files: Files)
    ensures AssignedId(Initial(0, files, map[]).servers[0].state, 1) == 999
  {
    var s := Initial(0, files, map[]).servers[0].state;
    assert LowestId(s.members.Keys, s.lowest) == 1000;
  }

  lemma FirstEnters(files: Files)
    ensures Entering(Initial(0, files, map[]), 0, 1, map[]) == Two(files)
  {
    FirstIsAssigned(files);
    var c := Initial(0, files, map[]);
    var known := WithMember(c.servers[0].state, FIRST);
    assert known.members == BOTH;
    assert Linked(known, FIRST) == Two(files).servers[0].state;
    assert map[] + c.servers[0].accounts == map[];
    var c' := Entering(c, 0, 1, map[]);
    assert BOTH[999 := 1] == BOTH;
    assert c'.servers[0] == Two(files).servers[0] && c'.servers[1] == Two(files).servers[1];
    assert c'.servers == Two(files).servers;
  }

  lemma FirstJoins(files: Files)
    ensures Enabled(Initial(0, files, map[]), Join(0, 1, map[], map[]))
    ensures Prudent(Initial(0, files, map[]), Join(0, 1, map[], map[]))
    ensures Next(Initial(0, files, map[]), Join(0, 1, map[], map[])) == Two(files)
  {
    EmptyFits();
    FirstIsAssigned(files);
    FirstEnters(files);
    assert BOTH[999 := 1] == BOTH;
    assert Told(Two(files), 0).servers == Two(files).servers;
  }

  lemma SecondIsAssigned(files: Files)
    ensures AssignedId(Two(files).servers[0].state, 2) == 998
  {
    var s := Two(files).servers[0].state;
    assert LowestId(s.members.Keys, s.lowest) == 999;
  }

  lemma SecondEnters(files: Files)
    ensures Entering(Two(files), 0, 2, map[]) == Entered(files)
  {
    SecondIsAssigned(files);
    var c := Two(files);
    var known := WithMember(c.servers[0].state, SECOND);
    assert known.members == ALL;
    assert Linked(known, SECOND) == Three(files).servers[0].state;
    assert map[] + c.servers[0].accounts == map[];
    var c' := Entering(c, 0, 2, map[]);
    assert c'.servers[0] == Entered(files).servers[0];
    assert c'.servers[2] == Entered(files).servers[2];
    SameServers(c'.servers, Entered(files).servers);
  }

  lemma FirstIsTold(files: Files)
    ensures Told(Entered(files), 0) == Three(files)
  {
    OneIsTold(files, 1, FIRST);
    OneIsTold(files, 2, SECOND);
    SameServers(Told(Entered(files), 0).servers, Three(files).servers);
  }

  lemma OneIsTold(files: Files, a: Addr, me: Member)
    requires (a == 1 && me == FIRST) || (a == 2 && me == SECOND)
    ensures Told(Entered(files), 0).servers[a] == Three(files).servers[a]
  {
    assert ALL[me.id := me.addr] == ALL;
    assert Entered(files).servers[a].state.me == me;
  }

  lemma SecondJoins(files: Files)
    ensures Enabled(Two(files), Join(0, 2, map[], map[])) && Prudent(Two(files), Join(0, 2, map[], map[]))
    ensures Next(Two(files), Join(0, 2, map[], map[])) == Three(files)
  {
    EmptyFits();
    SecondIsAssigned(files);
    SecondEnters(files);
    FirstIsTold(files);
  }

  lemma OneStep(c: Cluster, e: Event)
    requires Enabled(c, e) && Prudent(c, e)
    ensures Possible(c, [e]) && Run(c, [e]) == Next(c, e) && AllPrudent(c, [e])
  {
    assert [e][1..] == [];
  }

  lemma BothJoin(files: Files) returns (es: seq<Event>)
    ensures Possible(Initial(0, files, map[]), es) && Run(Initial(0, files, map[]), es) == Three(files)
    ensures AllPrudent(Initial(0, files, map[]), es)
  {
    var first, second := Join(0, 1, map[], map[]), Join(0, 2, map[], map[]);
    FirstJoins(files);
    OneStep(Initial(0, files, map[]), first);
    SecondJoins(files);
    OneStep(Two(files), second);
    Chain(Initial(0, files, map[]), [first], [second]);
    PrudentChain(Initial(0, files, map[]), [first], [second]);
    es := [first] + [second];
  }

  /** The founder has crashed; the first backup has taken over but linked nobody yet. */
  function TakenOver(files: Files): Cluster {
    var rest: MemberMap := map[999 := 1, 998 := 2];
    Three(files).(servers :=
      map[0 := Three(files).servers[0].(alive := false),
          1 := Server(State(FIRST, Primary, FIRST, rest, 998, map[]), true, Idle, files, map[]),
          2 := Three(files).servers[2]])
  }

  lemma FirstWins(files: Files)
    ensures Winner(Crashed(Three(files), 0), 1) == TakenOver(files)
  {
    var c := Winner(Crashed(Three(files), 0), 1);
    assert c.servers[1].state.members == map[999 := 1, 998 := 2];
    assert 998 in c.servers[1].state.members.Keys;
    assert c.servers[1].state.lowest == 998;
    assert c.servers == TakenOver(files).servers;
  }

  lemma FirstTakesOver(files: Files) returns (es: seq<Event>)
    ensures Possible(Three(files), es) && AllPlain(es) && Run(Three(files), es) == TakenOver(files)
  {
    var c := Crashed(Three(files), 0);
    assert AllDead(c, Higher(ALL, 999));
    var win := TakesOver(c, 1);
    FirstWins(files);
    First(Three(files), Crash(0), win);
    es := [Crash(0)] + win;
  }

  /** So far everything is as it should be. */
  lemma UpToTakeOver(files: Files) returns (es: seq<Event>)
    requires ClashFree(files)
    ensures Possible(Initial(0, files, map[]), es) && AllPrudent(Initial(0, files, map[]), es)
    ensures Run(Initial(0, files, map[]), es) == TakenOver(files) && Inv(TakenOver(files))
  {
    var joins := BothJoin(files);
    var win := FirstTakesOver(files);
    Chain(Initial(0, files, map[]), joins, win);
    PlainRunIsPrudent(Three(files), win);
    PrudentChain(Initial(0, files, map[]), joins, win);
    es := joins + win;
    InitialInv(0, files, map[]);
    PrudentRunIsSafe(Initial(0, files, map[]), es);
    RunInv(Initial(0, files, map[]), es);
  }

  /* --------------------------------------------------- acting inside the take-over */

  const CHANGE := Put(FileKey("alice", "notes.txt"), Digest(7, 3))

  lemma SecondLacks(files: Files)
    requires CHANGE.key !in files && Accepts(files, CHANGE)
    ensures Enabled(TakenOver(files), Begin(1, CHANGE)) && !HasAlready(TakenOver(files), 1, 2, CHANGE)
    ensures !Safe(TakenOver(files), Begin(1, CHANGE))
  {
    var c := TakenOver(files);
    assert CHANGE.key in Applied(files, CHANGE);
    assert Live(c, 2);
  }

  /** An acknowledged upload is lost when a primary accepts it during its own take-over and
      then crashes: the next primary does not have it. */
  lemma AcknowledgedChangeLost() returns (es: seq<Event>)
    ensures Possible(Initial(0, map[], map[]), es) && LostAt(Run(Initial(0, map[], map[]), es), 2, CHANGE)
  {
    var start := Initial(0, map[], map[]);
    var before := UpToTakeOver(map[]);
    SecondLacks(map[]);
    SecondIsPassedOver(map[]);
    var rest := PassedOverLoses(TakenOver(map[]), 1, CHANGE, 2);
    First(TakenOver(map[]), Begin(1, CHANGE), rest);
    Chain(start, before, [Begin(1, CHANGE)] + rest);
    es := before + ([Begin(1, CHANGE)] + rest);
  }

  lemma SecondIsPassedOver(files: Files)
    requires Inv(TakenOver(files))
    ensures PassedOver(TakenOver(files), 1, 2)
  {
    assert Live(TakenOver(files), 2) && LivePrimary(TakenOver(files), 1);
  }

  /** The new primary has let a server join that the other backup never hears of, and has
      crashed. */
  lemma CarelessJoin() returns (c: Cluster)
    ensures Possible(TakenOver(map[]), [Join(1, 3, map[], map[]), Crash(1)])
    ensures c == Run(TakenOver(map[]), [Join(1, 3, map[], map[]), Crash(1)])
    ensures c.servers.Keys == {0, 1, 2, 3} && c.servers[2] == Three(map[]).servers[2] && !Live(c, 0) && !Live(c, 1)
    ensures Live(c, 3) && Id(c, 3) == 997 && c.pending == Nothing
  {
    var c0 := TakenOver(map[]);
    EmptyFits();
    assert 998 in c0.servers[1].state.members.Keys;
    assert AssignedId(c0.servers[1].state, 3) == 997;
    var c1 := Next(c0, Join(1, 3, map[], map[]));
    CarelessEntry();
    c := Crashed(c1, 1);
    TwoSteps(c0, Join(1, 3, map[], map[]), Crash(1));
  }

  lemma CarelessEntry()
    requires AssignedId(TakenOver(map[]).servers[1].state, 3) == 997
    ensures var c := Told(Entering(TakenOver(map[]), 1, 3, map[]), 1);
      && c.servers.Keys == {0, 1, 2, 3} && c.servers[2] == Three(map[]).servers[2] && !Live(c, 0) && Live(c, 1)
      && Live(c, 3) && Id(c, 3) == 997 && c.pending == Nothing
  {
    var c := TakenOver(map[]);
    UnheardSame(c, 1, 3, map[], Entering(c, 1, 3, map[]).servers.Keys, 2);
  }

  lemma SameIdAssigned(c: Cluster)
    requires c.servers.Keys == {0, 1, 2, 3} && c.servers[2] == Three(map[]).servers[2]
    ensures AssignedId(Winner(c, 2).servers[2].state, 4) == 997
  {
    var s := Winner(c, 2).servers[2].state;
    assert s.members == map[999 := 1, 998 := 2];
    assert 998 in s.members.Keys && s.lowest == 998;
    assert LowestId(s.members.Keys, s.lowest) == 998;
  }

  /** The second backup, now primary, gives the next newcomer the very same id. */
  lemma SameIdAgain(c: Cluster)
    requires c.servers.Keys == {0, 1, 2, 3} && c.servers[2] == Three(map[]).servers[2]
    requires Live(c, 3) && Id(c, 3) == 997 && c.pending == Nothing
    ensures Possible(Winner(c, 2), [Join(2, 4, map[], map[])])
    ensures !OneLeader(Run(Winner(c, 2), [Join(2, 4, map[], map[])]))
  {
    var c0, join := Winner(c, 2), Join(2, 4, map[], map[]);
    EmptyFits();
    SameIdAssigned(c);
    First(c0, join, []);
    assert [join] + [] == [join];
    var c' := Told(Entering(c0, 2, 4, map[]), 2);
    assert Live(c', 3) && Live(c', 4) && Id(c', 3) == Id(c', 4);
  }

  lemma NobodyAboveSecond(c: Cluster)
    requires c.servers.Keys == {0, 1, 2, 3} && c.servers[2] == Three(map[]).servers[2] && !Live(c, 0) && !Live(c, 1)
    ensures AllDead(c, Higher(c.servers[2].state.members, Id(c, 2)))
  {
  }

  /** Two live servers get the same id when a join falls inside a take-over that a crash
      then cuts short. */
  lemma IdGivenTwice() returns (es: seq<Event>)
    ensures Possible(Initial(0, map[], map[]), es) && !OneLeader(Run(Initial(0, map[], map[]), es))
  {
    var start := Initial(0, map[], map[]);
    var before := UpToTakeOver(map[]);
    var careless := [Join(1, 3, map[], map[]), Crash(1)];
    var c := CarelessJoin();
    Chain(start, before, careless);
    NobodyAboveSecond(c);
    var win := TakesOver(c, 2);
    Chain(start, before + careless, win);
    SameIdAgain(c);
    Chain(start, before + careless + win, [Join(2, 4, map[], map[])]);
    es := before + careless + win + [Join(2, 4, map[], map[])];
  }

  /** One join inside a take-over, with nothing but prudent steps before and after it, is
      enough to end with two leaders or one id twice. */
  lemma CarelessJoinSplits() returns (before: seq<Event>, rest: seq<Event>)
    ensures PrudentFrom(Initial(0, map[], map[]), before)
    ensures Splits(Run(Initial(0, map[], map[]), before), Join(1, 3, map[], map[]), rest)
  {
    before := UpToTakeOver(map[]);
    var c := TakenOver(map[]);
    CarelessIsEnabled();
    rest := JoinSplits(c, 1, 3, map[], Entering(c, 1, 3, map[]).servers.Keys, 2);
  }

  ghost predicate Splits(c: Cluster, e: Event, rest: seq<Event>) {
    Enabled(c, e) && !Prudent(c, e) && PrudentFrom(Next(c, e), rest) && !OneLeader(Run(Next(c, e), rest))
  }

  lemma CarelessIsEnabled()
    ensures var c := TakenOver(map[]);
      && Enabled(c, Join(1, 3, map[], map[])) && !Prudent(c, Join(1, 3, map[], map[])) && IdsLeft(c)
      && Live(c, 2) && LivePrimary(c, 1) && Id(c, 2) !in c.servers[1].state.links
  {
    var s := TakenOver(map[]).servers[1].state;
    EmptyFits();
    assert 998 in s.members.Keys;
    assert AssignedId(s, 3) == 997;
  }

  /* ------------------------------------------------------------ changes that nobody hears of */

  const NOTE := FileKey("alice", "a")
  const INSIDE := FileKey("alice", "a/b")
  const ONE_FILE: Files := map[NOTE := Digest(1, 1)]

  /** A change at a primary without links is acknowledged at once. */
  lemma LoneChange(c: Cluster, p: Addr, change: Change)
    requires Enabled(c, Begin(p, change)) && c.servers[p].state.links == map[] && c.pending.Nothing?
    ensures var es := [Begin(p, change), Acknowledge(p)];
      && Possible(c, es) && Run(c, es).servers == WithChange(c, p, change).servers
      && Run(c, es).pending.Nothing?
  {
    TwoSteps(c, Begin(p, change), Acknowledge(p));
  }

  lemma Inside()
    ensures Clash(INSIDE, NOTE) && ClashFree(ONE_FILE) && FitsFrame(ONE_FILE, map[])
  {
    FileBytesWithout({NOTE}, NOTE);
    assert ONE_FILE.Keys == {NOTE};
    assert INSIDE.path[..1] == NOTE.path;
  }

  /** One file is deleted and another one stored. */
  lemma Moved(c: Cluster, p: Addr, gone: FileKey, put: Change) returns (es: seq<Event>)
    requires LivePrimary(c, p) && c.servers[p].state.links == map[] && c.pending.Nothing?
    requires gone in c.servers[p].files && put.Put? && Accepts(c.servers[p].files - {gone}, put)
    ensures Possible(c, es) && (forall e :: e in es ==> e.Begin? || e.Acknowledge?)
    ensures Run(c, es).servers == WithStore(c, p, Applied(c.servers[p].files - {gone}, put), c.servers[p].accounts).servers
    ensures Run(c, es).pending.Nothing?
  {
    var first, second := [Begin(p, Delete(gone)), Acknowledge(p)], [Begin(p, put), Acknowledge(p)];
    LoneChange(c, p, Delete(gone));
    var c1 := Run(c, first);
    DeletedThenPut(c, p, gone, put, c1);
    LoneChange(c1, p, put);
    Chain(c, first, second);
    es := first + second;
  }

  lemma DeletedThenPut(c: Cluster, p: Addr, gone: FileKey, put: Change, c1: Cluster)
    requires LivePrimary(c, p) && put.Put? && Accepts(c.servers[p].files - {gone}, put)
    requires c1.servers == WithChange(c, p, Delete(gone)).servers && c1.pending.Nothing?
    ensures Enabled(c1, Begin(p, put)) && c1.servers[p].state == c.servers[p].state
    ensures WithChange(c1, p, put).servers
         == WithStore(c, p, Applied(c.servers[p].files - {gone}, put), c.servers[p].accounts).servers
  {
    assert c1.servers[p] == c.servers[p].(files := c.servers[p].files - {gone});
    assert WithChange(c1, p, put).servers[p]
        == WithStore(c, p, Applied(c.servers[p].files - {gone}, put), c.servers[p].accounts).servers[p];
  }

  /** The file is deleted, and one in a folder of its name is stored. */
  lemma MovedInside() returns (es: seq<Event>)
    requires View(TakenOver(ONE_FILE))
    ensures Possible(TakenOver(ONE_FILE), es) && (forall e :: e in es ==> e.Begin? || e.Acknowledge?)
    ensures var c, c' := TakenOver(ONE_FILE), Run(TakenOver(ONE_FILE), es);
      && View(c') && c'.servers == WithStore(c, 1, map[INSIDE := Digest(2, 2)], map[]).servers && c'.pending.Nothing?
  {
    assert ONE_FILE - {NOTE} == map[];
    es := Moved(TakenOver(ONE_FILE), 1, NOTE, Put(INSIDE, Digest(2, 2)));
    StoreView(TakenOver(ONE_FILE), 1, map[INSIDE := Digest(2, 2)], map[]);
    SameServersView(WithStore(TakenOver(ONE_FILE), 1, map[INSIDE := Digest(2, 2)], map[]), Run(TakenOver(ONE_FILE), es));
  }

  /** The views are all in the servers. */
  lemma SameServersView(c: Cluster, c': Cluster)
    requires View(c) && c'.servers == c.servers
    ensures View(c')
  {
    StatesKept(c, c');
  }

  lemma MovedIsRefused(c: Cluster)
    requires c.servers == WithStore(TakenOver(ONE_FILE), 1, map[INSIDE := Digest(2, 2)], map[]).servers && c.pending.Nothing?
    ensures Enabled(c, Attach(1, 998)) && Prudent(c, Attach(1, 998)) && c.servers[1].state.lowest > 1
    ensures var a := c.servers[1].state.members[998]; Live(c, a) && !CanAttach(c, 1, a)
  {
    Inside();
    assert c.servers[1].files == map[INSIDE := Digest(2, 2)] && c.servers[2].files == ONE_FILE;
  }

  /** Changes inside a take-over can cost the single leader, too: with two of them the new
      primary's files get in the way of the live backup's, which is then dropped for dead. */
  lemma CarelessChangesSplit() returns (before: seq<Event>, careless: seq<Event>, rest: seq<Event>)
    ensures var c := Initial(0, ONE_FILE, map[]);
      && PrudentFrom(c, before) && Possible(Run(c, before), careless) && (forall e :: e in careless ==> e.Begin? || e.Acknowledge?)
      && PrudentFrom(Run(Run(c, before), careless), rest) && !OneLeader(Run(Run(Run(c, before), careless), rest))
  {
    Inside();
    before := UpToTakeOver(ONE_FILE);
    careless := MovedInside();
    var c := Run(TakenOver(ONE_FILE), careless);
    MovedIsRefused(c);
    var split := AttachSplits(c, 1, 998);
    OnePrudent(c, Attach(1, 998), split);
    rest := [Attach(1, 998)] + split;
  }

  /* ------------------------------------------------------ stores too large for a manifest */

  /** When no manifest of the store fits in a message, an ordinary take-over is enough: after
      its attachment, with nothing but prudent steps before and after it, there are two
      leaders. */
  lemma OutgrownStoreSplits(files: Files) returns (before: seq<Event>, rest: seq<Event>)
    requires ClashFree(files) && !FitsFrame(files, map[])
    ensures PrudentFrom(Initial(0, files, map[]), before)
    ensures Splits(Run(Initial(0, files, map[]), before), Attach(1, 998), rest)
  {
    before := UpToTakeOver(files);
    SecondIsTooLarge(files);
    rest := AttachSplits(TakenOver(files), 1, 998);
  }

  /** When no manifest of the store fits in a message: after an ordinary crash the new
      primary drops the live backup, holds a link to every member it then lists, and
      acknowledges a change that is lost with it. */
  lemma OutgrownStoreLosesChange(files: Files) returns (before: seq<Event>, rest: seq<Event>)
    requires ClashFree(files) && !FitsFrame(files, map[]) && Accepts(files, CHANGE) && CHANGE.key !in files
    ensures Possible(Initial(0, files, map[]), before) && AllPrudent(Initial(0, files, map[]), before)
    ensures Rebuffs(Run(Initial(0, files, map[]), before), 1, 998, rest)
  {
    before := UpToTakeOver(files);
    SecondLacks(files);
    rest := RebuffedAtTakeOver(files);
  }

  /** An attachment drops a live member, the primary is then settled, and a change it begins
      is acknowledged and lost. */
  ghost predicate Rebuffs(c: Cluster, p: Addr, id: nat, rest: seq<Event>) {
    && Enabled(c, Attach(p, id))
    && var a, c1 := c.servers[p].state.members[id], AttachTried(c, p, id);
      && Live(c1, a) && Settled(c1.servers[p].state) && Enabled(c1, Begin(p, CHANGE))
      && Possible(Begun(c1, p, CHANGE), rest) && LostAt(Run(Begun(c1, p, CHANGE), rest), a, CHANGE)
  }

  lemma SecondIsTooLarge(files: Files)
    requires !FitsFrame(files, map[])
    ensures var c := TakenOver(files);
      && Enabled(c, Attach(1, 998)) && !Safe(c, Attach(1, 998)) && c.servers[1].state.members[998] == 2
      && Settled(WithoutMember(c.servers[1].state, 998))
  {
    assert Live(TakenOver(files), 2);
  }

  lemma RebuffedAtTakeOver(files: Files) returns (rest: seq<Event>)
    requires Inv(TakenOver(files)) && !FitsFrame(files, map[]) && Accepts(files, CHANGE) && CHANGE.key !in files
    ensures Rebuffs(TakenOver(files), 1, 998, rest)
  {
    SecondLacks(files);
    SecondIsTooLarge(files);
    rest := RebuffsThenLoses(TakenOver(files), 1, 998);
  }

  lemma RebuffsThenLoses(c: Cluster, p: Addr, id: nat) returns (rest: seq<Event>)
    requires Inv(c) && Enabled(c, Attach(p, id)) && !Safe(c, Attach(p, id)) && id !in c.servers[p].state.links
    requires Enabled(c, Begin(p, CHANGE)) && !HasAlready(c, p, c.servers[p].state.members[id], CHANGE)
    requires Settled(WithoutMember(c.servers[p].state, id))
    ensures Rebuffs(c, p, id, rest)
  {
    rest := TooLargeThenLost(c, p, id, CHANGE);
    RefusedIsRebuffed(c, p, id);
  }

  /** `n` files with short names. */
  function Numbered(n: nat): Files {
    if n == 0 then map[] else Numbered(n - 1)[NumberedKey(n) := Digest(0, 0)]
  }

  function NumberedKey(n: nat): FileKey {
    FileKey("u", Dec(n))
  }

  lemma NumberedKeysDiffer(i: nat, j: nat)
    requires NumberedKey(i) == NumberedKey(j)
    ensures i == j
  {
    DecInjective(i, j);
  }

  ghost predicate IsNumbered(key: FileKey, n: nat) {
    exists i: nat :: i <= n && key == NumberedKey(i)
  }

  lemma {:induction false} NumberedMeans(n: nat)
    ensures |Numbered(n).Keys| == n
    ensures forall key :: key in Numbered(n) ==> IsNumbered(key, n)
  {
    if n > 0 {
      NumberedMeans(n - 1);
      var key := NumberedKey(n);
      assert key !in Numbered(n - 1) by {
        if IsNumbered(key, n - 1) {
          var i: nat :| i <= n - 1 && key == NumberedKey(i);
          NumberedKeysDiffer(i, n);
        }
      }
      assert Numbered(n).Keys == Numbered(n - 1).Keys + {key};
      forall k | k in Numbered(n) ensures IsNumbered(k, n) {
        if k == key { assert IsNumbered(key, n); } else { assert IsNumbered(k, n - 1); }
      }
    }
  }

  /** The stores in question exist: 37450 files in one folder are enough. */
  lemma OutgrownStoreExists(n: nat)
    requires n >= 37450
    ensures ClashFree(Numbered(n)) && !FitsFrame(Numbered(n), map[])
    ensures Accepts(Numbered(n), CHANGE) && CHANGE.key !in Numbered(n)
  {
    NumberedMeans(n);
    ManyFilesDoNotFit(Numbered(n), map[]);
    forall a, b | a in Numbered(n) && b in Numbered(n) ensures !Clash(a, b) {
      assert IsNumbered(a, n) && IsNumbered(b, n);
    }
    forall a | a in Numbered(n) ensures a.user == "u" { assert IsNumbered(a, n); }
  }
}
