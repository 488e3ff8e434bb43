/** When a join or an attachment puts the single leader at risk. */
module ClusterLeaders {

  import opened Members
  import opened Sizes
  import opened Stores
  import opened ClusterRuns
  import opened ClusterSafety
  import opened ClusterFiles
  import opened ClusterTheorems
  import opened ClusterChanges

  /* ------------------------------------------------------------------ prudent runs */

  ghost predicate PrudentFrom(c: Cluster, es: seq<Event>) {
    Possible(c, es) && AllPrudent(c, es)
  }

  /** No run that is prudent from here on ever has two leaders, or one id twice. */
  ghost predicate KeepsOneLeader(c: Cluster) {
    forall es :: PrudentFrom(c, es) ==> OneLeader(Run(c, es))
  }

  lemma InvKeepsOneLeader(c: Cluster)
    requires Inv(c)
    ensures KeepsOneLeader(c)
  {
    forall es | PrudentFrom(c, es) ensures OneLeader(Run(c, es)) {
      PrudentRunIsSafe(c, es);
      RunInv(c, es);
      InvOneLeader(Run(c, es));
    }
  }

  lemma {:induction false} PlainRunIsPrudent(c: Cluster, es: seq<Event>)
    requires Possible(c, es) && AllPlain(es)
    ensures AllPrudent(c, es)
    decreases |es|
  {
    if es != [] {
      assert es[0] in es && Prudent(c, es[0]);
      PlainRunIsPrudent(Next(c, es[0]), es[1..]);
    }
  }

  lemma {:induction false} PrudentChain(c: Cluster, before: seq<Event>, after: seq<Event>)
    requires Possible(c, before) && Possible(Run(c, before), after) && Possible(c, before + after)
    requires AllPrudent(c, before) && AllPrudent(Run(c, before), after)
    ensures AllPrudent(c, before + after)
    decreases |before|
  {
    if before == [] {
      assert before + after == after;
    } else {
      assert (before + after)[1..] == before[1..] + after;
      PrudentChain(Next(c, before[0]), before[1..], after);
    }
  }

  lemma OnePrudent(c: Cluster, e: Event, es: seq<Event>)
    requires Enabled(c, e) && Prudent(c, e) && PrudentFrom(Next(c, e), es)
    ensures PrudentFrom(c, [e] + es) && Run(c, [e] + es) == Run(Next(c, e), es)
  {
    assert ([e] + es)[1..] == es;
  }

  lemma MorePrudent(c: Cluster, before: seq<Event>, after: seq<Event>)
    requires PrudentFrom(c, before) && PrudentFrom(Run(c, before), after)
    ensures PrudentFrom(c, before + after) && Run(c, before + after) == Run(Run(c, before), after)
  {
    Chain(c, before, after);
    PrudentChain(c, before, after);
  }

  lemma TwoSteps(c: Cluster, first: Event, second: Event)
    requires Enabled(c, first) && Enabled(Next(c, first), second)
    ensures Possible(c, [first, second]) && Run(c, [first, second]) == Next(Next(c, first), second)
  {
    First(Next(c, first), second, []);
    First(c, first, [second] + []);
    assert [first] + ([second] + []) == [first, second];
  }

  lemma EmptyFits()
    ensures FitsFrame(map[], map[])
  {
  }

  /* ---------------------------------------------------- two servers that do not meet */

  /** The primary at `q` with a shorter list, and nothing else changed. */
  ghost predicate Shortened(c: Cluster, q: Addr, c': Cluster)
    requires q in c.servers
  {
    var s := c.servers[q].state;
    && q in c'.servers && c' == WithState(c, q, s.(members := c'.servers[q].state.members))
    && (forall id :: id in c'.servers[q].state.members ==> id in s.members && c'.servers[q].state.members[id] == s.members[id])
  }

  /** Whoever else is on the list of the primary at `q` is dead. */
  ghost predicate Alone(c: Cluster, q: Addr)
    requires q in c.servers
  {
    forall id :: id in c.servers[q].state.members && id != Id(c, q) ==> !Live(c, c.servers[q].state.members[id])
  }

  lemma ShortenedTwice(c: Cluster, q: Addr, id: nat, c': Cluster)
    requires q in c.servers
    requires var c1 := WithState(c, q, WithoutMember(c.servers[q].state, id)); Shortened(c1, q, c')
    ensures Shortened(c, q, c')
  {
    assert c'.servers == WithState(c, q, c'.servers[q].state).servers;
  }

  /** By attaching its dead members away a primary becomes settled. */
  lemma {:induction false} Settles(c: Cluster, q: Addr) returns (es: seq<Event>)
    requires LivePrimary(c, q) && !c.pending.InFlight? && Alone(c, q)
    ensures PrudentFrom(c, es) && Shortened(c, q, Run(c, es)) && Settled(Run(c, es).servers[q].state)
    decreases |c.servers[q].state.members|
  {
    var s := c.servers[q].state;
    if Settled(s) {
      es := [];
      assert WithState(c, q, s.(members := s.members)) == c by { assert c.servers[q := c.servers[q]] == c.servers; }
    } else {
      var id :| id in s.members && id != s.me.id && id !in s.links;
      var c1 := WithState(c, q, WithoutMember(s, id));
      assert AttachTried(c, q, id) == c1;
      assert |s.members - {id}| < |s.members| by { assert (s.members - {id}).Keys == s.members.Keys - {id}; }
      assert Alone(c1, q);
      var more := Settles(c1, q);
      OnePrudent(c, Attach(q, id), more);
      ShortenedTwice(c, q, id, Run(c1, more));
      es := [Attach(q, id)] + more;
    }
  }

  /** Only `q`, which leads, and `m` are alive; `q` does not have `m` on its list, and still
      has an id to give. */
  ghost predicate Strangers(c: Cluster, q: Addr, m: Addr) {
    && LivePrimary(c, q) && Live(c, m) && !LivePrimary(c, m) && !c.pending.InFlight?
    && (forall a :: Live(c, a) ==> a == q || a == m)
    && var s := c.servers[q].state;
      && (forall id :: id in s.members ==> s.members[id] != m && (s.members[id] == q ==> id == s.me.id))
      && 1 !in s.members && s.lowest > 1 && (Id(c, m) in s.links ==> s.lowest <= Id(c, m))
      && NotAbove(c, m, m)
  }

  /** The server at `m` has nobody at `a` on its list under a higher id than its own. */
  ghost predicate NotAbove(c: Cluster, m: Addr, a: Addr)
    requires m in c.servers
  {
    var s := c.servers[m].state;
    forall id :: id in s.members && id > s.me.id ==> s.members[id] != a
  }

  lemma {:induction false} Bound(addrs: set<Addr>) returns (n: Addr)
    ensures forall a :: a in addrs ==> a < n
  {
    if addrs == {} {
      n := 0;
    } else {
      var a :| a in addrs;
      var more := Bound(addrs - {a});
      n := if a < more then more else a + 1;
      forall b | b in addrs ensures b < n { assert b == a || b in addrs - {a}; }
    }
  }

  /** An address no server has and nobody on the two lists. */
  lemma FreshAddr(c: Cluster, ms: MemberMap, others: MemberMap) returns (d: Addr)
    ensures d !in c.servers
    ensures forall id :: id in ms ==> ms[id] != d
    ensures forall id :: id in others ==> others[id] != d
  {
    d := Bound(c.servers.Keys + ms.Values + others.Values);
    forall id | id in ms ensures ms[id] != d { assert ms[id] in ms.Values; }
    forall id | id in others ensures others[id] != d { assert others[id] in others.Values; }
  }

  lemma NextId(s: State, d: Addr)
    requires 1 !in s.members && s.lowest > 1 && forall id :: id in s.members ==> s.members[id] != d
    requires 0 !in s.members
    ensures 0 != AssignedId(s, d) < s.lowest && forall id :: id in s.members ==> AssignedId(s, d) < id
  {
    var lowest := LowestId(s.members.Keys, s.lowest);
  }

  /** Three live servers: `q` leads, and neither `m` nor `d` has the other above it. */
  ghost predicate Parted(c: Cluster, q: Addr, m: Addr, d: Addr) {
    && q != m && q != d && m != d && LivePrimary(c, q) && !c.pending.InFlight?
    && Live(c, m) && !LivePrimary(c, m) && Live(c, d) && !LivePrimary(c, d)
    && (forall a :: Live(c, a) ==> a == q || a == m || a == d)
    && NotAbove(c, m, m) && NotAbove(c, m, d) && NotAbove(c, d, m) && NotAbove(c, d, d)
  }

  lemma NewcomerIsStranger(c: Cluster, q: Addr, m: Addr, d: Addr)
    requires Strangers(c, q, m) && d !in c.servers && 0 !in c.servers[q].state.members
    requires forall id :: id in c.servers[q].state.members ==> c.servers[q].state.members[id] != d
    ensures var c' := Told(Entering(c, q, d, map[]), q); Live(c', d) && !LivePrimary(c', d) && NotAbove(c', d, m) && NotAbove(c', d, d)
  {
    NextId(c.servers[q].state, d);
  }

  lemma StrangerIsStranger(c: Cluster, q: Addr, m: Addr, d: Addr)
    requires Strangers(c, q, m) && d !in c.servers && 0 !in c.servers[q].state.members
    requires forall id :: id in c.servers[q].state.members ==> c.servers[q].state.members[id] != d
    requires forall id :: id in c.servers[m].state.members ==> c.servers[m].state.members[id] != d
    ensures var c' := Told(Entering(c, q, d, map[]), q); Live(c', m) && !LivePrimary(c', m) && NotAbove(c', m, m) && NotAbove(c', m, d)
  {
    NextId(c.servers[q].state, d);
    var c' := Told(Entering(c, q, d, map[]), q);
    var ms := Entering(c, q, d, map[]).servers[q].state.members;
    assert c'.servers[m].state == c.servers[m].state || c'.servers[m].state == Informed(c.servers[m].state, ms);
  }

  lemma JoinedAlive(c: Cluster, q: Addr, d: Addr)
    requires LivePrimary(c, q) && d !in c.servers && !c.pending.InFlight?
    ensures var c' := Told(Entering(c, q, d, map[]), q);
      LivePrimary(c', q) && !c'.pending.InFlight? && forall a :: Live(c', a) && a != d ==> Live(c, a)
  {
  }

  lemma JoinParts(c: Cluster, q: Addr, m: Addr, d: Addr)
    requires Strangers(c, q, m) && d !in c.servers && 0 !in c.servers[q].state.members
    requires forall id :: id in c.servers[q].state.members ==> c.servers[q].state.members[id] != d
    requires forall id :: id in c.servers[m].state.members ==> c.servers[m].state.members[id] != d
    ensures Parted(Told(Entering(c, q, d, map[]), q), q, m, d)
  {
    var c' := Told(Entering(c, q, d, map[]), q);
    NewcomerIsStranger(c, q, m, d);
    StrangerIsStranger(c, q, m, d);
    JoinedAlive(c, q, d);
  }

  /** A settled primary may let a newcomer with nothing of its own in. */
  lemma JoinIsPrudent(c: Cluster, q: Addr, d: Addr)
    requires LivePrimary(c, q) && d !in c.servers && !c.pending.InFlight? && Settled(c.servers[q].state)
    requires AssignedId(c.servers[q].state, d) != 0
    ensures Enabled(c, Join(q, d, map[], map[])) && Prudent(c, Join(q, d, map[], map[]))
  {
    EmptyFits();
  }

  lemma PartedDead(c: Cluster, q: Addr, m: Addr, d: Addr)
    requires Parted(c, q, m, d)
    ensures var c1 := Crashed(c, q);
      AllDead(c1, Higher(c1.servers[m].state.members, Id(c1, m))) && AllDead(c1, Higher(c1.servers[d].state.members, Id(c1, d)))
  {
    forall a | Live(Crashed(c, q), a) ensures a == m || a == d { assert Live(c, a); }
  }

  lemma StillDead(c: Cluster, m: Addr, d: Addr)
    requires Live(c, m) && d in c.servers && d != m && AllDead(c, Higher(c.servers[d].state.members, Id(c, d)))
    ensures var c' := Winner(c, m);
      c'.servers[d] == c.servers[d] && AllDead(c', Higher(c'.servers[d].state.members, Id(c', d)))
  {
    var c', higher := Winner(c, m), Higher(c.servers[d].state.members, Id(c, d));
    forall id | id in higher ensures !Live(c', higher[id]) { assert !Live(c, higher[id]); }
  }

  /** Once their primary has crashed both of them win. */
  lemma BothWin(c: Cluster, q: Addr, m: Addr, d: Addr) returns (es: seq<Event>)
    requires Parted(c, q, m, d)
    ensures PrudentFrom(c, es) && !OneLeader(Run(c, es))
  {
    var c1 := Next(c, Crash(q));
    PartedDead(c, q, m, d);
    var first := TakesOver(c1, m);
    var c2 := Winner(c1, m);
    StillDead(c1, m, d);
    var second := TakesOver(c2, d);
    PlainRunIsPrudent(c1, first);
    PlainRunIsPrudent(c2, second);
    MorePrudent(c1, first, second);
    OnePrudent(c, Crash(q), first + second);
    es := [Crash(q)] + (first + second);
    assert LivePrimary(Winner(c2, d), m) && LivePrimary(Winner(c2, d), d);
  }

  lemma StrangersSettle(c: Cluster, q: Addr, m: Addr, c': Cluster)
    requires Strangers(c, q, m) && Shortened(c, q, c') && 0 !in c.servers[q].state.members
    ensures Strangers(c', q, m) && 0 !in c'.servers[q].state.members
    ensures c'.servers.Keys == c.servers.Keys && c'.servers[m] == c.servers[m]
  {
    assert forall a :: Live(c', a) ==> Live(c, a);
  }

  /** Two live servers of which the one that leads does not know the other: one more join,
      for which nothing is missing that a server could see, and a crash make two leaders. */
  lemma StrangersSplit(c: Cluster, q: Addr, m: Addr) returns (es: seq<Event>)
    requires Strangers(c, q, m) && 0 !in c.servers[q].state.members
    ensures PrudentFrom(c, es) && !OneLeader(Run(c, es))
  {
    assert Alone(c, q);
    var settle := Settles(c, q);
    var c1 := Run(c, settle);
    StrangersSettle(c, q, m, c1);
    var d := FreshAddr(c1, c1.servers[q].state.members, c1.servers[m].state.members);
    NextId(c1.servers[q].state, d);
    JoinIsPrudent(c1, q, d);
    JoinParts(c1, q, m, d);
    var win := BothWin(Next(c1, Join(q, d, map[], map[])), q, m, d);
    OnePrudent(c1, Join(q, d, map[], map[]), win);
    MorePrudent(c, settle, [Join(q, d, map[], map[])] + win);
    es := settle + ([Join(q, d, map[], map[])] + win);
  }

  /* ------------------------------------------------------------------- joins */

  /** No live server has the last id on its list: any of them, once primary, still has an id
      for a newcomer. */
  ghost predicate IdsLeft(c: Cluster) {
    forall b :: Live(c, b) ==> 1 !in c.servers[b].state.members
  }

  /** A backup that takes over without ever having heard of the newcomer at `a`. */
  lemma WinnerIsStranger(c: Cluster, a: Addr, b: Addr, c2: Cluster)
    requires View(c) && a !in c.servers && Live(c, b) && !LivePrimary(c, b) && 1 !in c.servers[b].state.members
    requires b in c2.servers && c2.servers[b] == c.servers[b] && (forall x :: Live(c2, x) ==> x == a || x == b)
    requires Live(c2, a) && !LivePrimary(c2, a) && NotAbove(c2, a, a) && !c2.pending.InFlight?
    ensures AllDead(c2, Higher(c2.servers[b].state.members, Id(c2, b)))
    ensures Strangers(Winner(c2, b), b, a) && 0 !in Winner(c2, b).servers[b].state.members
  {
    assert Informs(c, c.servers[b].state.members) && c.servers[b].state.links == map[];
    WinnerCounter(c.servers[b].state);
    NobodyAboveUnheard(c, a, b, c2);
    FirstIsOnly(c, c.servers[b].state.members, b);
    var c3 := Winner(c2, b);
    assert c3.servers[a] == c2.servers[a] && c3.servers[b].state == TookOver(c.servers[b].state);
    assert forall x :: Live(c3, x) ==> Live(c2, x);
    assert NotAbove(c3, a, a);
  }

  lemma WinnerCounter(s: State)
    requires 0 !in s.members && 1 !in s.members && s.me.id in s.members
    ensures TookOver(s).lowest > 1 && 1 !in TookOver(s).members && 0 !in TookOver(s).members
  {
  }

  lemma NobodyAboveUnheard(c: Cluster, a: Addr, b: Addr, c2: Cluster)
    requires Live(c, b) && Informs(c, c.servers[b].state.members) && a !in c.servers
    requires b in c2.servers && c2.servers[b] == c.servers[b] && forall x :: Live(c2, x) ==> x == a || x == b
    ensures AllDead(c2, Higher(c2.servers[b].state.members, Id(c2, b)))
  {
  }

  lemma UnheardSplits(c: Cluster, a: Addr, b: Addr, c1: Cluster) returns (es: seq<Event>)
    requires View(c) && a !in c.servers && Live(c, b) && !LivePrimary(c, b) && 1 !in c.servers[b].state.members
    requires b in c1.servers && c1.servers[b] == c.servers[b]
    requires Live(c1, a) && !LivePrimary(c1, a) && NotAbove(c1, a, a) && !c1.pending.InFlight?
    ensures PrudentFrom(c1, es) && !OneLeader(Run(c1, es))
  {
    var crashes := CrashOthers(c1, {a, b}, c1.servers.Keys - {a, b});
    var c2 := Run(c1, crashes);
    WinnerIsStranger(c, a, b, c2);
    var win := TakesOver(c2, b);
    var split := StrangersSplit(Winner(c2, b), b, a);
    PlainRunIsPrudent(c1, crashes);
    PlainRunIsPrudent(c2, win);
    MorePrudent(c2, win, split);
    MorePrudent(c1, crashes, win + split);
    es := crashes + (win + split);
  }

  /** The newcomer after a join that only `heard` were told about. */
  lemma JoinedNewcomer(c: Cluster, p: Addr, a: Addr, own: Accounts, heard: set<Addr>)
    requires p in c.servers && a !in c.servers && Informs(c, c.servers[p].state.members)
    ensures var c1 := ToldSome(Entering(c, p, a, own), p, heard);
      Live(c1, a) && !LivePrimary(c1, a) && NotAbove(c1, a, a) && c1.pending == c.pending
  {
  }

  lemma UnheardSame(c: Cluster, p: Addr, a: Addr, own: Accounts, heard: set<Addr>, b: Addr)
    requires p in c.servers && a !in c.servers && Live(c, b) && b != p
    requires b !in heard || (Id(c, b) !in c.servers[p].state.links && Id(c, b) != AssignedId(c.servers[p].state, a))
    ensures var c1 := ToldSome(Entering(c, p, a, own), p, heard); b in c1.servers && c1.servers[b] == c.servers[b]
  {
  }

  /** After a join that some live server does not hear of, prudence is no longer enough. */
  lemma JoinSplits(c: Cluster, p: Addr, a: Addr, own: Accounts, heard: set<Addr>, b: Addr) returns (es: seq<Event>)
    requires View(c) && LivePrimary(c, p) && a !in c.servers && !c.pending.InFlight? && IdsLeft(c)
    requires Live(c, b) && b != p && (b !in heard || Id(c, b) !in c.servers[p].state.links)
    ensures var c1 := ToldSome(Entering(c, p, a, own), p, heard); PrudentFrom(c1, es) && !OneLeader(Run(c1, es))
  {
    assert Informs(c, c.servers[p].state.members);
    FreshId(c, p, a);
    if LivePrimary(c, b) { OnePrimary(c, p, b); }
    JoinedNewcomer(c, p, a, own, heard);
    UnheardSame(c, p, a, own, heard, b);
    es := UnheardSplits(c, a, b, ToldSome(Entering(c, p, a, own), p, heard));
  }

  /** The leader stays the only one whatever follows, as long as it is prudent, if and only if
      the primary was linked to every live server when it let the newcomer in. */
  lemma JoinKeepsLeaderIff(c: Cluster, p: Addr, a: Addr, files: Files, own: Accounts)
    requires Inv(c) && Enabled(c, Join(p, a, files, own)) && IdsLeft(c)
    ensures KeepsOneLeader(Next(c, Join(p, a, files, own))) <==> Reaches(c, p)
  {
    var c1 := Next(c, Join(p, a, files, own));
    if Reaches(c, p) {
      StepInv(c, Join(p, a, files, own));
      InvKeepsOneLeader(c1);
    } else {
      var b :| Live(c, b) && b != p && Id(c, b) !in c.servers[p].state.links;
      var es := JoinSplits(c, p, a, own, Entering(c, p, a, own).servers.Keys, b);
      assert PrudentFrom(c1, es);
    }
  }

  /* ---------------------------------------------------- joins that a crash cuts short */

  /** The primary crashes when it has told only `heard` about the newcomer. */
  ghost function CutJoin(c: Cluster, p: Addr, a: Addr, own: Accounts, heard: set<Addr>): Cluster
    requires p in c.servers
  {
    Crashed(ToldSome(Entering(c, p, a, own), p, heard), p)
  }

  ghost predicate AllHeard(c: Cluster, p: Addr, heard: set<Addr>)
    requires p in c.servers
  {
    forall b :: Live(c, b) && b != p ==> b in heard && Id(c, b) in c.servers[p].state.links
  }

  lemma HeardByAll(c: Cluster, p: Addr, a: Addr, own: Accounts, heard: set<Addr>)
    requires p in c.servers && a !in c.servers && AllHeard(c, p, heard)
    ensures ToldSome(Entering(c, p, a, own), p, heard) == Told(Entering(c, p, a, own), p)
  {
    var c1 := Entering(c, p, a, own);
    var some, all := ToldSome(c1, p, heard), Told(c1, p);
    forall b | b in c1.servers ensures some.servers[b] == all.servers[b] {
      if b == a {
        assert Informed(c1.servers[a].state, c1.servers[p].state.members) == c1.servers[a].state;
      } else if b != p && c1.servers[b].alive {
        assert Live(c, b);
      }
    }
    assert some.servers == all.servers;
  }

  lemma CutJoinSplits(c: Cluster, p: Addr, a: Addr, own: Accounts, heard: set<Addr>, b: Addr) returns (es: seq<Event>)
    requires View(c) && LivePrimary(c, p) && a !in c.servers && !c.pending.InFlight? && IdsLeft(c)
    requires Live(c, b) && b != p && (b !in heard || Id(c, b) !in c.servers[p].state.links)
    ensures PrudentFrom(CutJoin(c, p, a, own, heard), es) && !OneLeader(Run(CutJoin(c, p, a, own, heard), es))
  {
    assert Informs(c, c.servers[p].state.members);
    FreshId(c, p, a);
    if LivePrimary(c, b) { OnePrimary(c, p, b); }
    JoinedNewcomer(c, p, a, own, heard);
    UnheardSame(c, p, a, own, heard, b);
    es := UnheardSplits(c, a, b, CutJoin(c, p, a, own, heard));
  }

  /** A join is one step of a run. Where the primary crashes before it has told everyone, the
      leader stays the only one if and only if no live server is left that was not told. */
  lemma CutJoinKeepsLeaderIff(c: Cluster, p: Addr, a: Addr, files: Files, own: Accounts, heard: set<Addr>)
    requires Inv(c) && Enabled(c, Join(p, a, files, own)) && IdsLeft(c)
    ensures KeepsOneLeader(CutJoin(c, p, a, own, heard)) <==> AllHeard(c, p, heard)
  {
    if AllHeard(c, p, heard) {
      HeardByAll(c, p, a, own, heard);
      var c1 := Next(c, Join(p, a, files, own));
      StepInv(c, Join(p, a, files, own));
      StepInv(c1, Crash(p));
      InvKeepsOneLeader(CutJoin(c, p, a, own, heard));
    } else {
      var b :| Live(c, b) && b != p && (b !in heard || Id(c, b) !in c.servers[p].state.links);
      var es := CutJoinSplits(c, p, a, own, heard, b);
      assert PrudentFrom(CutJoin(c, p, a, own, heard), es);
    }
  }

  /* -------------------------------------------------------------- attachments */

  lemma RebuffedIsStranger(c: Cluster, p: Addr, a: Addr, c1: Cluster, c2: Cluster)
    requires View(c) && LivePrimary(c, p) && Live(c, a) && Rebuffed(c, p, a, c1) && c.servers[p].state.lowest > 1
    requires Remain(c1, {p, a}, c2) && !c.pending.InFlight?
    ensures Strangers(c2, p, a) && 0 !in c2.servers[p].state.members
  {
    var s := c.servers[p].state;
    assert Informs(c, s.members) && Counter(s);
    ListWithout(c, p, s, a);
    AnswererNotAbove(c, p, a, c1);
    TwoRemain(c1, p, a, c2);
    ListedStrangers(c2, p, a, s, Id(c, a));
  }

  lemma TwoRemain(c1: Cluster, p: Addr, a: Addr, c2: Cluster)
    requires LivePrimary(c1, p) && Live(c1, a) && !LivePrimary(c1, a) && NotAbove(c1, a, a) && Remain(c1, {p, a}, c2)
    ensures c2.servers.Keys == c1.servers.Keys && c2.servers[p] == c1.servers[p] && c2.servers[a] == c1.servers[a]
    ensures NotAbove(c2, a, a) && c2.pending == c1.pending && forall x :: Live(c2, x) ==> x == p || x == a
  {
  }

  lemma ListedStrangers(c2: Cluster, p: Addr, a: Addr, s: State, id: nat)
    requires LivePrimary(c2, p) && c2.servers[p].state == WithoutMember(s, id) && Live(c2, a) && !LivePrimary(c2, a)
    requires Id(c2, a) == id && s.lowest > 1 && s.lowest <= id && !c2.pending.InFlight? && NotAbove(c2, a, a)
    requires forall x :: Live(c2, x) ==> x == p || x == a
    requires var ms := WithoutMember(s, id).members;
      1 !in ms && forall i :: i in ms ==> ms[i] != a && (ms[i] == p ==> i == s.me.id)
    ensures Strangers(c2, p, a)
  {
  }

  lemma ListWithout(c: Cluster, p: Addr, s: State, a: Addr)
    requires p in c.servers && a in c.servers && Informs(c, s.members) && s.lowest > 1
    requires s.me.id == Id(c, p) && forall id :: id in s.members ==> s.lowest <= id
    ensures var ms := WithoutMember(s, Id(c, a)).members;
      0 !in ms && 1 !in ms && forall id :: id in ms ==> ms[id] != a && (ms[id] == p ==> id == s.me.id)
  {
  }

  lemma AnswererNotAbove(c: Cluster, p: Addr, a: Addr, c1: Cluster)
    requires p in c.servers && Live(c, a) && Informs(c, c.servers[p].state.members) && Rebuffed(c, p, a, c1)
    ensures Live(c1, a) && !LivePrimary(c1, a) && NotAbove(c1, a, a)
  {
    FirstIsOnly(c, c.servers[p].state.members, a);
  }

  lemma FirstIsOnly(c: Cluster, ms: MemberMap, a: Addr)
    requires Informs(c, ms) && a in c.servers
    ensures forall id :: id in ms && ms[id] == a ==> id == Id(c, a)
  {
  }

  /** After an attachment that drops a live member, prudence is no longer enough. */
  lemma AttachSplits(c: Cluster, p: Addr, id: nat) returns (es: seq<Event>)
    requires View(c) && Enabled(c, Attach(p, id)) && c.servers[p].state.lowest > 1
    requires Live(c, c.servers[p].state.members[id]) && !CanAttach(c, p, c.servers[p].state.members[id])
    ensures PrudentFrom(AttachTried(c, p, id), es) && !OneLeader(Run(AttachTried(c, p, id), es))
  {
    var a, c1 := c.servers[p].state.members[id], AttachTried(c, p, id);
    RefusedIsRebuffed(c, p, id);
    var crashes := CrashOthers(c1, {p, a}, c1.servers.Keys - {p, a});
    RebuffedIsStranger(c, p, a, c1, Run(c1, crashes));
    var split := StrangersSplit(Run(c1, crashes), p, a);
    PlainRunIsPrudent(c1, crashes);
    MorePrudent(c1, crashes, split);
    es := crashes + split;
  }

  /** The leader stays the only one whatever follows, as long as it is prudent, if and only if
      the member is dead or its manifest fits in one message. */
  lemma AttachKeepsLeaderIff(c: Cluster, p: Addr, id: nat)
    requires Inv(c) && Enabled(c, Attach(p, id)) && c.servers[p].state.lowest > 1
    ensures KeepsOneLeader(AttachTried(c, p, id)) <==>
      var a := c.servers[p].state.members[id]; Live(c, a) ==> FitsFrame(c.servers[a].files, c.servers[a].accounts)
  {
    if Safe(c, Attach(p, id)) {
      StepInv(c, Attach(p, id));
      InvKeepsOneLeader(AttachTried(c, p, id));
    } else {
      var es := AttachSplits(c, p, id);
      assert PrudentFrom(AttachTried(c, p, id), es);
    }
  }

  /** The first step of a run that passes a live server over, as it joins or attaches another,
      is the step after which prudence no longer keeps the leader the only one; and no step
      before it is. */
  lemma LeadershipEndsIff(a: Addr, files: Files, accounts: Accounts, es: seq<Event>, e: Event)
    requires ClashFree(files) && SafeFrom(Initial(a, files, accounts), es)
    requires var c := Run(Initial(a, files, accounts), es);
      Enabled(c, e) && (e.Join? || e.Attach?) && IdsLeft(c) && c.servers[e.p].state.lowest > 1
    ensures var c := Run(Initial(a, files, accounts), es); KeepsOneLeader(c) && (KeepsOneLeader(Next(c, e)) <==> Safe(c, e))
  {
    var c := Run(Initial(a, files, accounts), es);
    InitialInv(a, files, accounts);
    RunInv(Initial(a, files, accounts), es);
    InvKeepsOneLeader(c);
    match e
    case Join(p, d, own, records) => JoinKeepsLeaderIff(c, p, d, own, records);
    case Attach(p, id) => AttachKeepsLeaderIff(c, p, id);
  }
}
