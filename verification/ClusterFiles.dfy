/** What each step of a cluster run does to the replicated files and accounts. */
module ClusterFiles {

  import opened Members
  import opened Sizes
  import opened Stores
  import opened ClusterRuns
  import opened ClusterSafety
  import Paths

  /** The files after every change of the log. */
  ghost function Base(c: Cluster): Files {
    Replay(c.start, c.log)
  }

  /** The same, with the pending change as well. */
  ghost function Ahead(c: Cluster): Files {
    if c.pending.Nothing? then Base(c) else Applied(Base(c), c.pending.change)
  }

  ghost predicate Sound(c: Cluster) {
    ClashFree(Base(c)) && (!c.pending.Nothing? ==> Accepts(Base(c), c.pending.change))
  }

  /** No live server is further behind or ahead than the one pending change. */
  ghost predicate OneApart(c: Cluster) {
    forall a :: Live(c, a) ==> c.servers[a].files == Base(c) || c.servers[a].files == Ahead(c)
  }

  /** Every live backup the primary holds a link to has the primary's files. */
  ghost predicate Mirrored(c: Cluster) {
    forall p, a :: LivePrimary(c, p) && Live(c, a) && Id(c, a) in c.servers[p].state.links ==>
      c.servers[a].files == c.servers[p].files
  }

  /** The server has the change that is being replicated. */
  ghost predicate Received(c: Cluster, a: Addr)
    requires c.pending.InFlight? && a in c.servers
  {
    c.servers[a].files == Ahead(c) && Has(c.servers[a].accounts, c.pending.change)
  }

  /** While a change is being replicated, every live backup has it or is still to get it. */
  ghost predicate Spreading(c: Cluster, q: Addr, todo: set<Addr>)
    requires c.pending.InFlight?
  {
    && LivePrimary(c, q) && Received(c, q)
    && (forall a :: Live(c, a) && a != q ==> Received(c, a) || (a in todo && Id(c, a) in c.servers[q].state.links))
    && (forall a :: a in todo ==>
          a in c.servers && (Id(c, a) in c.servers[q].state.links ==> c.servers[q].state.links[Id(c, a)] == a))
  }

  /** The accounts users were told they have. */
  ghost function Owed(c: Cluster): Accounts {
    Promised(c.founding, c.log)
  }

  /** The primary's accounts, except one it is still telling its backups about. */
  ghost function Shared(c: Cluster, p: Addr): Accounts
    requires p in c.servers
  {
    if c.pending.InFlight? && c.pending.change.Enroll? then c.servers[p].accounts - {c.pending.change.user}
    else c.servers[p].accounts
  }

  ghost predicate Accounted(c: Cluster) {
    && (c.pending.InFlight? && c.pending.change.Enroll? ==> c.pending.change.user !in Owed(c))
    && (forall a :: Live(c, a) ==> Covers(c.servers[a].accounts, Owed(c)))
    && (forall p, a :: LivePrimary(c, p) && Live(c, a) && Id(c, a) in c.servers[p].state.links ==>
          Covers(c.servers[a].accounts, Shared(c, p)))
  }

  ghost predicate Replicating(c: Cluster) {
    && Sound(c) && OneApart(c)
    && if c.pending.InFlight? then Spreading(c, c.pending.primary, c.pending.todo) else Mirrored(c)
  }

  ghost predicate Stored(c: Cluster) {
    Replicating(c) && Accounted(c)
  }

  /** Nothing a live server has is in the way of another's files, whichever of them leads:
      it can be attached if and only if its manifest fits in one message. */
  lemma AttachableIffFits(c: Cluster, p: Addr, a: Addr)
    requires Sound(c) && OneApart(c) && Live(c, p) && Live(c, a)
    ensures CanAttach(c, p, a) <==> FitsFrame(c.servers[a].files, c.servers[a].accounts)
  {
    if c.pending.Nothing? {
      OneChangeApart(Base(c), Enroll("", ""));
    } else {
      OneChangeApart(Base(c), c.pending.change);
    }
  }

  /** A step that moves no file, makes no primary and adds no link; links to live servers
      stay. */
  ghost predicate Idles(c: Cluster, c': Cluster) {
    && Continues(c, c')
    && c'.start == c.start && c'.log == c.log && c'.pending == c.pending
    && c'.founding == c.founding && SameStores(c, c')
    && (forall p :: LivePrimary(c', p) ==> LivePrimary(c, p) && SameLinks(c, c', p))
  }

  ghost predicate SameStores(c: Cluster, c': Cluster)
    requires Continues(c, c')
  {
    forall a :: Live(c', a) ==>
      c'.servers[a].files == c.servers[a].files && c'.servers[a].accounts == c.servers[a].accounts
  }

  ghost predicate SameLinks(c: Cluster, c': Cluster, p: Addr)
    requires p in c.servers && p in c'.servers
  {
    var links, links' := c.servers[p].state.links, c'.servers[p].state.links;
    && (forall id :: id in links' ==> id in links && links'[id] == links[id])
    && (forall b :: Live(c', b) && b in c.servers && Id(c, b) in links ==> Id(c, b) in links')
  }

  lemma ReplicatingKept(c: Cluster, c': Cluster)
    requires Replicating(c) && Idles(c, c')
    requires c.pending.InFlight? ==> LivePrimary(c', c.pending.primary)
    ensures Replicating(c')
  {
    if c.pending.InFlight? {
      assert SameLinks(c, c', c.pending.primary);
      assert Ahead(c') == Ahead(c);
    } else {
      forall p, a | LivePrimary(c', p) && Live(c', a) && Id(c', a) in c'.servers[p].state.links
        ensures c'.servers[a].files == c'.servers[p].files
      {
        assert SameLinks(c, c', p);
      }
    }
  }

  lemma AccountsKept(c: Cluster, c': Cluster)
    requires Accounted(c) && Idles(c, c')
    ensures Accounted(c')
  {
    assert Owed(c') == Owed(c);
    forall p, a | LivePrimary(c', p) && Live(c', a) && Id(c', a) in c'.servers[p].state.links
      ensures Covers(c'.servers[a].accounts, Shared(c', p))
    {
      assert SameLinks(c, c', p) && Shared(c', p) == Shared(c, p);
    }
  }

  lemma StoredKept(c: Cluster, c': Cluster)
    requires Stored(c) && Idles(c, c')
    requires c.pending.InFlight? ==> LivePrimary(c', c.pending.primary)
    ensures Stored(c')
  {
    ReplicatingKept(c, c');
    AccountsKept(c, c');
  }

  lemma CrashIdles(c: Cluster, a: Addr)
    requires Live(c, a)
    ensures Idles(c, With(c, a, c.servers[a].(alive := false)))
  {
  }

  /** The primary crashes over a change: every live server has it or lacks it. */
  lemma TornStored(c: Cluster, c': Cluster)
    requires Stored(c) && c.pending.InFlight? && Continues(c, c')
    requires c' == c.(servers := c'.servers, pending := Torn(c.pending.change))
    requires SameStores(c, c')
    requires forall p :: !LivePrimary(c', p)
    ensures Stored(c')
  {
    assert Base(c') == Base(c) && Ahead(c') == Ahead(c) && Owed(c') == Owed(c);
  }

  lemma PrimaryCrashStored(c: Cluster, a: Addr)
    requires View(c) && Stored(c) && c.pending.InFlight? && c.pending.primary == a
    ensures Stored(Crashed(c, a))
  {
    CrashIdles(c, a);
    OthersFollow(c, a);
    TornStored(c, Crashed(c, a));
  }

  lemma CrashStored(c: Cluster, a: Addr)
    requires View(c) && Stored(c) && Live(c, a)
    ensures Stored(Crashed(c, a))
  {
    if c.pending.InFlight? && c.pending.primary == a {
      PrimaryCrashStored(c, a);
    } else {
      CrashIdles(c, a);
      StoredKept(c, Crashed(c, a));
    }
  }

  lemma OthersFollow(c: Cluster, p: Addr)
    requires View(c) && LivePrimary(c, p)
    ensures forall q :: LivePrimary(c, q) ==> q == p
  {
    forall q | LivePrimary(c, q) ensures q == p { OnePrimary(c, p, q); }
  }

  lemma ToldIdles(c: Cluster, p: Addr, heard: set<Addr>)
    requires p in c.servers
    ensures Idles(c, ToldSome(c, p, heard))
  {
  }

  lemma DroppedIdles(c: Cluster, p: Addr, id: nat)
    requires Live(c, p)
    requires id in c.servers[p].state.links ==> forall b :: Live(c, b) ==> Id(c, b) != id
    ensures Idles(c, Dropped(c, p, id))
  {
    var c' := Dropped(c, p, id);
    forall q | LivePrimary(c', q) ensures LivePrimary(c, q) && SameLinks(c, c', q) {
      forall b | Live(c', b) && Id(c, b) in c.servers[q].state.links ensures Id(c, b) in c'.servers[q].state.links { }
    }
  }

  lemma ToldStored(c: Cluster, p: Addr, heard: set<Addr>)
    requires Stored(c) && p in c.servers
    ensures Stored(ToldSome(c, p, heard))
  {
    ToldIdles(c, p, heard);
    StoredKept(c, ToldSome(c, p, heard));
  }

  lemma DroppedStored(c: Cluster, p: Addr, id: nat)
    requires Stored(c) && LivePrimary(c, p)
    requires id in c.servers[p].state.links ==> forall b :: Live(c, b) ==> Id(c, b) != id
    ensures Stored(Dropped(c, p, id))
  {
    DroppedIdles(c, p, id);
    StoredKept(c, Dropped(c, p, id));
  }

  lemma CoordinatedIdles(c: Cluster, a: Addr, leader: Member)
    requires Live(c, a) && !LivePrimary(c, a)
    ensures Idles(c, WithState(c, a, Coordinated(c.servers[a].state, leader)))
  {
  }

  lemma AnnouncedStored(c: Cluster, p: Addr, a: Addr)
    requires View(c) && Stored(c) && LivePrimary(c, p) && a != p
    ensures Stored(Announced(c, p, a))
  {
    if Live(c, a) {
      OthersFollow(c, p);
      CoordinatedIdles(c, a, c.servers[p].state.me);
      StoredKept(c, Announced(c, p, a));
    }
  }

  /** A new primary starts without links, so it owes nobody its files yet. */
  lemma WinnerStored(c: Cluster, a: Addr)
    requires Stored(c) && Live(c, a) && !c.pending.InFlight?
    requires forall p :: LivePrimary(Winner(c, a), p) ==> p == a
    requires c.servers[a].state.links == map[]
    ensures Stored(Winner(c, a))
  {
  }

  lemma ThreadIdles(c: Cluster, a: Addr, campaign: Campaign)
    requires Live(c, a)
    ensures Idles(c, WithCampaign(c, a, campaign))
  {
  }

  lemma ThreadStored(c: Cluster, a: Addr, campaign: Campaign)
    requires Stored(c) && Live(c, a)
    ensures Stored(WithCampaign(c, a, campaign))
  {
    ThreadIdles(c, a, campaign);
    StoredKept(c, WithCampaign(c, a, campaign));
  }

  lemma SuspectStored(c: Cluster, a: Addr)
    requires Stored(c) && Live(c, a)
    ensures Stored(Suspecting(c, a))
  {
    ThreadStored(c, a, Suspecting(c, a).servers[a].campaign);
  }

  lemma ProbeStored(c: Cluster, a: Addr, id: nat)
    requires Stored(c) && Live(c, a) && c.servers[a].campaign.Probing? && id in c.servers[a].campaign.todo
    ensures Stored(Probed(c, a, id))
  {
    ThreadStored(c, a, Probed(c, a, id).servers[a].campaign);
  }

  /** Nobody wins an election while a change is in flight: its primary would outrank it. */
  lemma WinnerNotInFlight(c: Cluster, a: Addr)
    requires View(c) && Stored(c) && Live(c, a) && !LivePrimary(c, a) && Tops(c, Id(c, a))
    ensures !c.pending.InFlight?
  {
    forall q | LivePrimary(c, q) ensures false { DistinctIds(c, a, q); }
  }

  lemma TookOverStored(c: Cluster, a: Addr)
    requires View(c) && Stored(c) && Live(c, a) && !LivePrimary(c, a) && Tops(c, Id(c, a))
    ensures Stored(Winner(c, a))
  {
    WinnerNotInFlight(c, a);
    forall p | LivePrimary(Winner(c, a), p) ensures p == a { WinnerIsAlone(c, a, p); }
    WinnerStored(c, a);
  }

  lemma ConcludeStored(c: Cluster, a: Addr)
    requires View(c) && Stored(c) && Enabled(c, Conclude(a))
    ensures Stored(Concluded(c, a))
  {
    if c.servers[a].campaign.answered {
      ThreadStored(c, a, Idle);
    } else {
      UnansweredTops(c, a);
      ProbingIsBackup(c, a);
      TookOverStored(c, a);
    }
  }

  lemma ReplicatedSpares(c: Cluster, p: Addr, a: Addr)
    requires LivePrimary(c, p) && Live(c, a) && a != p
    requires forall b :: Live(c, b) && Id(c, b) == Id(c, a) ==> b == a
    ensures var c' := Replicated(c, p, a);
      forall b :: Live(c', b) && b != a ==>
        SameStore(c, c', b) && (Id(c', b) in c'.servers[p].state.links ==> Id(c, b) in c.servers[p].state.links)
  {
  }

  /** Bringing one more backup in line, outside any change. */
  lemma ReplicatedStored(c: Cluster, p: Addr, a: Addr)
    requires Stored(c) && !c.pending.InFlight? && LivePrimary(c, p) && Live(c, a) && a != p
    requires forall q :: LivePrimary(c, q) ==> q == p
    requires forall b :: Live(c, b) && Id(c, b) == Id(c, a) ==> b == a
    ensures Stored(Replicated(c, p, a))
  {
    var c' := Replicated(c, p, a);
    ReplicatedSpares(c, p, a);
    forall q | LivePrimary(c', q) ensures q == p { assert LivePrimary(c, q); }
    InLineStored(c, c', p, a);
  }

  /** A server that was live before, under its id and with what it had. */
  ghost predicate SameStore(c: Cluster, c': Cluster, b: Addr)
    requires b in c'.servers
  {
    && Live(c, b) && Id(c', b) == Id(c, b)
    && c'.servers[b].files == c.servers[b].files && c'.servers[b].accounts == c.servers[b].accounts
  }

  /** One more server, live before or new, has been given what the primary has. */
  lemma InLineStored(c: Cluster, c': Cluster, p: Addr, a: Addr)
    requires Stored(c) && !c.pending.InFlight? && LivePrimary(c, p) && LivePrimary(c', p) && p != a
    requires c'.start == c.start && c'.founding == c.founding && c'.log == c.log && c'.pending == c.pending
    requires forall q :: LivePrimary(c', q) ==> q == p
    requires forall b :: Live(c', b) && b != a ==>
      SameStore(c, c', b) && (Id(c', b) in c'.servers[p].state.links ==> Id(c, b) in c.servers[p].state.links)
    requires Live(c', a) && c'.servers[a].files == c.servers[p].files && Covers(c'.servers[a].accounts, c.servers[p].accounts)
    ensures Stored(c')
  {
    assert Base(c') == Base(c) && Ahead(c') == Ahead(c) && Owed(c') == Owed(c);
    assert Covers(c.servers[p].accounts, Owed(c));
    forall b | Live(c', b) && Id(c', b) in c'.servers[p].state.links
      ensures c'.servers[b].files == c'.servers[p].files && Covers(c'.servers[b].accounts, Shared(c', p))
    {
      if b != a { assert Live(c, b) && Id(c, b) in c.servers[p].state.links; }
    }
  }

  lemma MissedIdles(c: Cluster, p: Addr, id: nat)
    requires Live(c, p)
    ensures Idles(c, WithState(c, p, WithoutMember(c.servers[p].state, id)))
  {
  }

  lemma AttachTriedStored(c: Cluster, p: Addr, id: nat)
    requires View(c) && Stored(c) && Enabled(c, Attach(p, id)) && Safe(c, Attach(p, id))
    ensures Live(c, c.servers[p].state.members[id]) ==> CanAttach(c, p, c.servers[p].state.members[id])
    ensures Stored(AttachTried(c, p, id))
  {
    var a := c.servers[p].state.members[id];
    assert a != p by { assert Informs(c, c.servers[p].state.members); }
    if Live(c, a) {
      AttachableIffFits(c, p, a);
      OthersFollow(c, p);
      forall b | Live(c, b) && Id(c, b) == Id(c, a) ensures b == a { DistinctIds(c, a, b); }
      ReplicatedStored(c, p, a);
    } else {
      MissedIdles(c, p, id);
      StoredKept(c, AttachTried(c, p, id));
    }
  }

  lemma EnteringStored(c: Cluster, p: Addr, a: Addr, own: Accounts)
    requires Stored(c) && !c.pending.InFlight? && LivePrimary(c, p) && a !in c.servers
    requires forall q :: LivePrimary(c, q) ==> q == p
    requires forall b :: Live(c, b) ==> Id(c, b) != AssignedId(c.servers[p].state, a)
    ensures Stored(Entering(c, p, a, own))
  {
    var c' := Entering(c, p, a, own);
    forall q | LivePrimary(c', q) ensures q == p { assert LivePrimary(c, q); }
    InLineStored(c, c', p, a);
  }

  lemma JoinStored(c: Cluster, p: Addr, a: Addr, own: Accounts)
    requires View(c) && Stored(c) && !c.pending.InFlight? && LivePrimary(c, p) && a !in c.servers
    ensures Stored(Told(Entering(c, p, a, own), p))
  {
    OthersFollow(c, p);
    FreshId(c, p, a);
    assert Informs(c, c.servers[p].state.members);
    EnteringStored(c, p, a, own);
    var c1 := Entering(c, p, a, own);
    ToldStored(c1, p, c1.servers.Keys);
  }

  /** Once the fate of a torn change is known, the log gives the primary's files. */
  lemma ResolvedReplays(c: Cluster, p: Addr)
    requires OneApart(c) && Live(c, p) && !c.pending.InFlight?
    ensures Replay(c.start, Resolved(c, p)) == c.servers[p].files
    ensures Promised(c.founding, Resolved(c, p)) == Owed(c)
  {
    if c.pending.Torn? {
      ReplayAppend(c.start, c.log, Entry(c.pending.change, false));
      PromisedAppend(c.founding, c.log, Entry(c.pending.change, false));
    }
  }

  lemma BegunSpreads(c: Cluster, c': Cluster, p: Addr, change: Change)
    requires LivePrimary(c, p) && TrueLinks(c, c.servers[p].state) && Mirrored(c) && ReachesWith(c, p, change)
    requires c' == Begun(c, p, change) && Base(c') == c.servers[p].files
    ensures Spreading(c', p, c'.pending.todo) && OneApart(c')
  {
    var links := c.servers[p].state.links;
    forall a | Live(c', a) && a != p && !Received(c', a) ensures a in c'.pending.todo && Id(c', a) in links {
      assert Live(c, a) && links[Id(c, a)] == a;
    }
  }

  lemma BegunAccounted(c: Cluster, c': Cluster, p: Addr, change: Change)
    requires Accounted(c) && !c.pending.InFlight? && LivePrimary(c, p)
    requires change.Enroll? ==> change.user !in c.servers[p].accounts
    requires forall q :: LivePrimary(c, q) ==> q == p
    requires c' == Begun(c, p, change) && Owed(c') == Owed(c)
    ensures Accounted(c')
  {
    assert Covers(c.servers[p].accounts, Owed(c));
    forall q | LivePrimary(c', q) ensures q == p { assert LivePrimary(c, q); }
  }

  lemma BegunStored(c: Cluster, p: Addr, change: Change)
    requires View(c) && Stored(c) && Enabled(c, Begin(p, change)) && ReachesWith(c, p, change)
    ensures Stored(Begun(c, p, change))
  {
    OthersFollow(c, p);
    ResolvedReplays(c, p);
    BegunSpreads(c, Begun(c, p, change), p, change);
    BegunAccounted(c, Begun(c, p, change), p, change);
    if !c.pending.Nothing? { OneChangeApart(Base(c), c.pending.change); }
  }

  lemma AppliedTwice(fs: Files, change: Change)
    requires Accepts(fs, change)
    ensures Accepts(Applied(fs, change), change)
    ensures Applied(Applied(fs, change), change) == Applied(fs, change)
  {
    if change.Put? { Paths.NotBelowItself(change.key.path); }
  }

  lemma ReachedReplicating(c: Cluster, p: Addr, b: Addr)
    requires Replicating(c) && c.pending.InFlight? && c.pending.primary == p && b in c.pending.todo && Live(c, b)
    ensures Accepts(c.servers[b].files, c.pending.change) && Replicating(Forwarded(c, p, b))
  {
    AppliedTwice(Base(c), c.pending.change);
    var c' := Forwarded(c, p, b);
    assert Base(c') == Base(c) && Ahead(c') == Ahead(c);
    ReachedSpreading(c, p, b);
  }

  lemma ReachedSpreading(c: Cluster, p: Addr, b: Addr)
    requires c.pending.InFlight? && Spreading(c, p, c.pending.todo) && Live(c, b) && Accepts(c.servers[b].files, c.pending.change)
    requires Applied(c.servers[b].files, c.pending.change) == Ahead(c)
    ensures Spreading(Forwarded(c, p, b), p, Forwarded(c, p, b).pending.todo)
  {
    var c' := Forwarded(c, p, b);
    assert Ahead(c') == Ahead(c) && Received(c', b);
    forall a | Live(c', a) && a != b && Received(c, a) ensures Received(c', a) { }
  }

  lemma ReachedAccounted(c: Cluster, p: Addr, b: Addr)
    requires Accounted(c) && c.pending.InFlight? && Spreading(c, p, c.pending.todo) && p == c.pending.primary
    requires b in c.pending.todo && Live(c, b) && Accepts(c.servers[b].files, c.pending.change)
    requires forall q :: LivePrimary(c, q) ==> q == p
    ensures Accounted(Forwarded(c, p, b))
  {
    var c' := Forwarded(c, p, b);
    assert Owed(c') == Owed(c);
    ReachedPrimary(c, p, b);
    EnrolledCovers(c.servers[b].accounts, Owed(c), c.pending.change);
    if Id(c, b) in c.servers[p].state.links { EnrolledCovers(c.servers[b].accounts, Shared(c, p), c.pending.change); }
    forall a | Live(c', a)
      ensures Covers(c'.servers[a].accounts, Owed(c))
      ensures Id(c, a) in c.servers[p].state.links ==> Covers(c'.servers[a].accounts, Shared(c, p))
    {
      assert Live(c, a);
    }
  }

  lemma EnrolledCovers(accounts: Accounts, owed: Accounts, change: Change)
    requires Covers(accounts, owed) && (change.Enroll? ==> change.user !in owed)
    ensures Covers(Enrolled(accounts, change), owed)
  {
  }

  /** The forwarded change is no news to the primary itself. */
  lemma ReachedPrimary(c: Cluster, p: Addr, b: Addr)
    requires c.pending.InFlight? && Spreading(c, p, c.pending.todo) && p == c.pending.primary
    requires Live(c, b) && Accepts(c.servers[b].files, c.pending.change)
    requires forall q :: LivePrimary(c, q) ==> q == p
    ensures var c' := Forwarded(c, p, b);
      && Shared(c', p) == Shared(c, p) && c'.servers[p].state == c.servers[p].state
      && forall q :: LivePrimary(c', q) ==> q == p
  {
    var c' := Forwarded(c, p, b);
    assert c'.servers[p].accounts == c.servers[p].accounts;
    forall q | LivePrimary(c', q) ensures q == p { assert LivePrimary(c, q); }
  }

  lemma SkippedStored(c: Cluster, b: Addr)
    requires Stored(c) && c.pending.InFlight? && !Live(c, b)
    ensures Stored(c.(pending := c.pending.(todo := c.pending.todo - {b})))
  {
    var c' := c.(pending := c.pending.(todo := c.pending.todo - {b}));
    assert Base(c') == Base(c) && Ahead(c') == Ahead(c) && Owed(c') == Owed(c);
  }

  lemma ReachedView(c: Cluster, p: Addr, b: Addr)
    requires View(c) && c.pending.InFlight? && Live(c, b) && Accepts(c.servers[b].files, c.pending.change)
    requires p in c.servers
    ensures View(Forwarded(c, p, b))
  {
    var c' := c.(pending := c.pending.(todo := c.pending.todo - {b}));
    LogView(c, c.log, c'.pending);
    StoreView(c', b, Applied(c.servers[b].files, c.pending.change), Enrolled(c.servers[b].accounts, c.pending.change));
  }

  lemma SkippedInv(c: Cluster, p: Addr, b: Addr)
    requires View(c) && Stored(c) && LivePrimary(c, p)
    requires c.pending.InFlight? && c.pending.primary == p && b in c.pending.todo && !Live(c, b)
    ensures Stored(Forwarded(c, p, b)) && View(Forwarded(c, p, b))
  {
    var c' := c.(pending := c.pending.(todo := c.pending.todo - {b}));
    SkippedStored(c, b);
    LogView(c, c.log, c'.pending);
    forall a | Live(c, a) && Id(c, b) in c.servers[p].state.links ensures Id(c, a) != Id(c, b) {
      assert TrueLinks(c, c.servers[p].state);
    }
    DroppedStored(c', p, Id(c, b));
    DroppedView(c', p, Id(c, b));
  }

  lemma ForwardedInv(c: Cluster, p: Addr, b: Addr)
    requires View(c) && Stored(c) && LivePrimary(c, p)
    requires c.pending.InFlight? && c.pending.primary == p && b in c.pending.todo
    ensures Stored(Forwarded(c, p, b)) && View(Forwarded(c, p, b))
  {
    if Live(c, b) {
      OthersFollow(c, p);
      ReachedReplicating(c, p, b);
      ReachedAccounted(c, p, b);
      ReachedView(c, p, b);
    } else {
      SkippedInv(c, p, b);
    }
  }

  lemma AcknowledgedReplicating(c: Cluster)
    requires Replicating(c) && c.pending.InFlight? && c.pending.todo == {}
    requires forall q :: LivePrimary(c, q) ==> q == c.pending.primary
    ensures Replicating(Acknowledged(c))
  {
    OneChangeApart(Base(c), c.pending.change);
    ReplayAppend(c.start, c.log, Entry(c.pending.change, true));
    assert Base(Acknowledged(c)) == Ahead(c);
  }

  lemma HoldersCover(accounts: Accounts, owed: Accounts, change: Change)
    requires Covers(accounts, owed) && Has(accounts, change)
    ensures Covers(accounts, Enrolled(owed, change))
  {
  }

  lemma ShortCovers(accounts: Accounts, others: Accounts, change: Change)
    requires Has(accounts, change) && Has(others, change)
    requires Covers(accounts, if change.Enroll? then others - {change.user} else others)
    ensures Covers(accounts, others)
  {
  }

  lemma AcknowledgedOwed(c: Cluster)
    requires Accounted(c) && c.pending.InFlight?
    requires forall a :: Live(c, a) ==> Has(c.servers[a].accounts, c.pending.change)
    ensures forall a :: Live(c, a) ==> Covers(c.servers[a].accounts, Owed(Acknowledged(c)))
  {
    PromisedAppend(c.founding, c.log, Entry(c.pending.change, true));
    forall a | Live(c, a) ensures Covers(c.servers[a].accounts, Owed(Acknowledged(c))) {
      HoldersCover(c.servers[a].accounts, Owed(c), c.pending.change);
    }
  }

  lemma AcknowledgedShared(c: Cluster, p: Addr, a: Addr)
    requires Accounted(c) && c.pending.InFlight? && LivePrimary(c, p) && Live(c, a) && Id(c, a) in c.servers[p].state.links
    requires Has(c.servers[a].accounts, c.pending.change) && Has(c.servers[p].accounts, c.pending.change)
    ensures Covers(c.servers[a].accounts, c.servers[p].accounts)
  {
    ShortCovers(c.servers[a].accounts, c.servers[p].accounts, c.pending.change);
  }

  lemma AcknowledgedAccounted(c: Cluster)
    requires Accounted(c) && c.pending.InFlight?
    requires forall a :: Live(c, a) ==> Has(c.servers[a].accounts, c.pending.change)
    ensures Accounted(Acknowledged(c))
  {
    var c' := Acknowledged(c);
    AcknowledgedOwed(c);
    forall p, a | LivePrimary(c', p) && Live(c', a) && Id(c', a) in c'.servers[p].state.links
      ensures Covers(c'.servers[a].accounts, Shared(c', p))
    {
      assert LivePrimary(c, p) && Live(c, a);
      AcknowledgedShared(c, p, a);
    }
  }

  lemma AcknowledgedStored(c: Cluster)
    requires View(c) && Stored(c) && c.pending.InFlight? && c.pending.todo == {}
    ensures Stored(Acknowledged(c))
  {
    OthersFollow(c, c.pending.primary);
    AcknowledgedReplicating(c);
    forall a | Live(c, a) ensures Has(c.servers[a].accounts, c.pending.change) { assert Received(c, a); }
    AcknowledgedAccounted(c);
  }
}
