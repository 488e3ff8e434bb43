/** What holds in every run of the cluster that passes nobody live over. */
module ClusterTheorems {

  import opened Members
  import opened Sizes
  import opened Stores
  import opened ClusterRuns
  import opened ClusterSafety
  import opened ClusterFiles

  ghost predicate Inv(c: Cluster) {
    View(c) && Stored(c)
  }

  lemma InitialView(a: Addr, files: Files, accounts: Accounts)
    ensures View(Initial(a, files, accounts))
  {
    var c := Initial(a, files, accounts);
    assert Informs(c, c.servers[a].state.members);
    assert Tops(c, FIRST_ID);
    assert TrueLinks(c, c.servers[a].state);
  }

  lemma InitialStored(a: Addr, files: Files, accounts: Accounts)
    requires ClashFree(files)
    ensures Stored(Initial(a, files, accounts))
  {
    assert Owed(Initial(a, files, accounts)) == accounts;
    assert Base(Initial(a, files, accounts)) == files;
  }

  lemma InitialInv(a: Addr, files: Files, accounts: Accounts)
    requires ClashFree(files)
    ensures Inv(Initial(a, files, accounts))
  {
    InitialView(a, files, accounts);
    InitialStored(a, files, accounts);
  }

  /** Steps that move no file and no account, and let nobody in. */
  predicate Quiet(e: Event) {
    e.Crash? || e.Suspect? || e.Probe? || e.Conclude? || e.Announce? || e.Relist? || e.Tell? || e.Drop?
  }

  lemma ElectionView(c: Cluster, e: Event)
    requires View(c) && Enabled(c, e) && (e.Suspect? || e.Probe? || e.Conclude?)
    ensures View(Next(c, e))
  {
    match e
    case Suspect(a) => SuspectView(c, a);
    case Probe(a, id) => ProbeView(c, a, id);
    case Conclude(a) => ConcludeView(c, a);
  }

  lemma QuietView(c: Cluster, e: Event)
    requires View(c) && Enabled(c, e) && Quiet(e)
    ensures View(Next(c, e))
  {
    match e
    case Crash(a) => CrashView(c, a);
    case Announce(p, b) => AnnouncedView(c, p, b);
    case Relist(p, b) => RelistedSame(c, p, b);
    case Tell(p, b) => ToldView(c, p, {b});
    case Drop(p, id) => NobodyLinked(c, p, id); DroppedView(c, p, id);
    case _ => ElectionView(c, e);
  }

  /** No live server has the id of a link whose server is dead. */
  lemma NobodyLinked(c: Cluster, p: Addr, id: nat)
    requires LivePrimary(c, p) && TrueLinks(c, c.servers[p].state)
    requires id in c.servers[p].state.links && !Live(c, c.servers[p].state.links[id])
    ensures forall b :: Live(c, b) ==> Id(c, b) != id
  {
  }

  lemma ElectionStored(c: Cluster, e: Event)
    requires Inv(c) && Enabled(c, e) && (e.Suspect? || e.Probe? || e.Conclude?)
    ensures Stored(Next(c, e))
  {
    match e
    case Suspect(a) => SuspectStored(c, a);
    case Probe(a, id) => ProbeStored(c, a, id);
    case Conclude(a) => ConcludeStored(c, a);
  }

  lemma QuietStored(c: Cluster, e: Event)
    requires Inv(c) && Enabled(c, e) && Quiet(e)
    ensures Stored(Next(c, e))
  {
    match e
    case Crash(a) => CrashStored(c, a);
    case Announce(p, b) => AnnouncedStored(c, p, b);
    case Relist(p, b) => RelistedSame(c, p, b);
    case Tell(p, b) => ToldStored(c, p, {b});
    case Drop(p, id) => NobodyLinked(c, p, id); DroppedStored(c, p, id);
    case _ => ElectionStored(c, e);
  }

  lemma LinkStepInv(c: Cluster, e: Event)
    requires Inv(c) && Enabled(c, e) && Safe(c, e) && (e.Join? || e.Attach?)
    ensures Inv(Next(c, e))
  {
    match e
    case Join(p, a, _, own) => JoinView(c, p, a, own); JoinStored(c, p, a, own);
    case Attach(p, id) => AttachTriedStored(c, p, id); AttachTriedView(c, p, id);
  }

  lemma BegunView(c: Cluster, p: Addr, change: Change)
    requires View(c) && p in c.servers
    ensures View(Begun(c, p, change))
  {
    var c' := Begun(c, p, change);
    StoreView(c, p, Applied(c.servers[p].files, change), Enrolled(c.servers[p].accounts, change));
    LogView(WithChange(c, p, change), c'.log, c'.pending);
  }

  lemma ChangeStepInv(c: Cluster, e: Event)
    requires Inv(c) && Enabled(c, e) && Safe(c, e)
    requires e.Begin? || e.Forward? || e.Acknowledge?
    ensures Inv(Next(c, e))
  {
    match e
    case Begin(p, change) =>
      BegunStored(c, p, change);
      BegunView(c, p, change);
    case Forward(p, b) => ForwardedInv(c, p, b);
    case Acknowledge(_) =>
      AcknowledgedStored(c);
      LogView(c, Next(c, e).log, Nothing);
  }

  lemma StepInv(c: Cluster, e: Event)
    requires Inv(c) && Enabled(c, e) && Safe(c, e)
    ensures Inv(Next(c, e))
  {
    if Quiet(e) {
      QuietView(c, e);
      QuietStored(c, e);
    } else if e.Join? || e.Attach? {
      LinkStepInv(c, e);
    } else {
      ChangeStepInv(c, e);
    }
  }

  lemma {:induction false} RunInv(c: Cluster, es: seq<Event>)
    requires Inv(c) && Possible(c, es) && AllSafe(c, es)
    ensures Inv(Run(c, es))
    decreases |es|
  {
    if es != [] {
      StepInv(c, es[0]);
      RunInv(Next(c, es[0]), es[1..]);
    }
  }

  /** At most one live server is primary, no live server outranks it, live ids are distinct. */
  ghost predicate OneLeader(c: Cluster) {
    && (forall p, q :: LivePrimary(c, p) && LivePrimary(c, q) ==> p == q)
    && (forall p, a :: LivePrimary(c, p) && Live(c, a) ==> Id(c, a) <= Id(c, p))
    && (forall a, b :: Live(c, a) && Live(c, b) && a != b ==> Id(c, a) != Id(c, b))
  }

  lemma InvOneLeader(c: Cluster)
    requires Inv(c)
    ensures OneLeader(c)
  {
    forall p, q | LivePrimary(c, p) && LivePrimary(c, q) ensures p == q { OnePrimary(c, p, q); }
    forall b, b' | Live(c, b) && Live(c, b') && b != b' ensures Id(c, b) != Id(c, b') {
      if Id(c, b) == Id(c, b') { DistinctIds(c, b, b'); }
    }
  }

  /** What the servers involved can check themselves is enough to pass nobody over. */
  lemma PrudentIsSafe(c: Cluster, e: Event)
    requires Inv(c) && Enabled(c, e) && Prudent(c, e)
    ensures Safe(c, e)
  {
    if e.Join? || e.Begin? { SettledReaches(c, e.p); }
  }

  lemma {:induction false} PrudentRunIsSafe(c: Cluster, es: seq<Event>)
    requires Inv(c) && Possible(c, es) && AllPrudent(c, es)
    ensures AllSafe(c, es)
    decreases |es|
  {
    if es != [] {
      PrudentIsSafe(c, es[0]);
      StepInv(c, es[0]);
      PrudentRunIsSafe(Next(c, es[0]), es[1..]);
    }
  }

  /** Whatever the interleaving of elections, probes, take-overs, crashes, joins and changes:
      as long as primaries let joins and changes in only with a link to every member they
      list, and no backup's manifest outgrows a message. */
  lemma AlwaysOneLeader(a: Addr, files: Files, accounts: Accounts, es: seq<Event>)
    requires ClashFree(files) && Possible(Initial(a, files, accounts), es) && AllPrudent(Initial(a, files, accounts), es)
    ensures OneLeader(Run(Initial(a, files, accounts), es))
  {
    InitialInv(a, files, accounts);
    PrudentRunIsSafe(Initial(a, files, accounts), es);
    SafeRunsOneLeader(a, files, accounts, es);
  }

  /** The same for every run whose steps pass nobody live over. */
  lemma SafeRunsOneLeader(a: Addr, files: Files, accounts: Accounts, es: seq<Event>)
    requires ClashFree(files) && Possible(Initial(a, files, accounts), es) && AllSafe(Initial(a, files, accounts), es)
    ensures OneLeader(Run(Initial(a, files, accounts), es))
  {
    InitialInv(a, files, accounts);
    RunInv(Initial(a, files, accounts), es);
    InvOneLeader(Run(Initial(a, files, accounts), es));
  }

  lemma RunSplits(c: Cluster, before: seq<Event>, after: seq<Event>)
    requires Possible(c, before + after)
    ensures Possible(c, before) && Possible(Run(c, before), after)
    ensures Run(c, before + after) == Run(Run(c, before), after)
    ensures AllSafe(c, before + after) ==> AllSafe(c, before) && AllSafe(Run(c, before), after)
    decreases |before|
  {
    if before == [] {
      assert before + after == after;
    } else {
      assert (before + after)[1..] == before[1..] + after;
      RunSplits(Next(c, before[0]), before[1..], after);
    }
  }

  lemma ChangeLogGrows(c: Cluster, e: Event)
    requires Enabled(c, e) && (e.Begin? || e.Acknowledge?)
    ensures c.log <= Next(c, e).log && Next(c, e).start == c.start && Next(c, e).founding == c.founding
  {
  }

  lemma ElectionLogStays(c: Cluster, e: Event)
    requires Enabled(c, e) && (e.Crash? || e.Suspect? || e.Probe? || e.Conclude? || e.Announce? || e.Relist?)
    ensures Next(c, e).log == c.log && Next(c, e).start == c.start && Next(c, e).founding == c.founding
  {
  }

  lemma AttachLogStays(c: Cluster, p: Addr, id: nat)
    requires Enabled(c, Attach(p, id))
    ensures var c' := AttachTried(c, p, id); c'.log == c.log && c'.start == c.start && c'.founding == c.founding
  {
  }

  lemma ForwardLogStays(c: Cluster, p: Addr, b: Addr)
    requires Enabled(c, Forward(p, b))
    ensures var c' := Forwarded(c, p, b); c'.log == c.log && c'.start == c.start && c'.founding == c.founding
  {
  }

  lemma LinkLogStays(c: Cluster, e: Event)
    requires Enabled(c, e) && (e.Join? || e.Attach? || e.Tell? || e.Drop? || e.Forward?)
    ensures Next(c, e).log == c.log && Next(c, e).start == c.start && Next(c, e).founding == c.founding
  {
    match e
    case Attach(p, id) => AttachLogStays(c, p, id);
    case Forward(p, b) => ForwardLogStays(c, p, b);
    case Join(_, _, _, _) =>
    case Tell(_, _) =>
    case Drop(_, _) =>
  }

  lemma StepLogGrows(c: Cluster, e: Event)
    requires Enabled(c, e)
    ensures c.log <= Next(c, e).log && Next(c, e).start == c.start && Next(c, e).founding == c.founding
  {
    if e.Begin? || e.Acknowledge? {
      ChangeLogGrows(c, e);
    } else if e.Join? || e.Attach? || e.Tell? || e.Drop? || e.Forward? {
      LinkLogStays(c, e);
    } else {
      ElectionLogStays(c, e);
    }
  }

  lemma {:induction false} LogGrows(c: Cluster, es: seq<Event>)
    requires Possible(c, es)
    ensures c.log <= Run(c, es).log && Run(c, es).start == c.start && Run(c, es).founding == c.founding
    decreases |es|
  {
    if es != [] {
      StepLogGrows(c, es[0]);
      LogGrows(Next(c, es[0]), es[1..]);
    }
  }

  /** What the log says happened, with or without the change that is still pending, and all
      the accounts users were told they have. */
  ghost predicate UpToDate(c: Cluster, s: Server) {
    && (s.files == Base(c) || (!c.pending.Nothing? && s.files == Applied(Base(c), c.pending.change)))
    && Covers(s.accounts, Owed(c))
  }

  /** No acknowledged change is ever lost: the log only grows, and whoever is primary has
      what the log says, give or take the one change still being replicated. */
  lemma AcknowledgedChangesSurvive(a: Addr, files: Files, accounts: Accounts, before: seq<Event>, after: seq<Event>)
    requires ClashFree(files)
    requires Possible(Initial(a, files, accounts), before + after)
    requires AllPrudent(Initial(a, files, accounts), before + after)
    ensures Possible(Initial(a, files, accounts), before)
    ensures Run(Initial(a, files, accounts), before).log <= Run(Initial(a, files, accounts), before + after).log
    ensures var c := Run(Initial(a, files, accounts), before + after);
      c.start == files && c.founding == accounts && forall p :: LivePrimary(c, p) ==> UpToDate(c, c.servers[p])
  {
    InitialInv(a, files, accounts);
    PrudentRunIsSafe(Initial(a, files, accounts), before + after);
    SafeRunsLoseNothing(a, files, accounts, before, after);
  }

  lemma SafeRunsLoseNothing(a: Addr, files: Files, accounts: Accounts, before: seq<Event>, after: seq<Event>)
    requires ClashFree(files)
    requires Possible(Initial(a, files, accounts), before + after)
    requires AllSafe(Initial(a, files, accounts), before + after)
    ensures Possible(Initial(a, files, accounts), before)
    ensures Run(Initial(a, files, accounts), before).log <= Run(Initial(a, files, accounts), before + after).log
    ensures var c := Run(Initial(a, files, accounts), before + after);
      c.start == files && c.founding == accounts && forall p :: LivePrimary(c, p) ==> UpToDate(c, c.servers[p])
  {
    InitialInv(a, files, accounts);
    RunInv(Initial(a, files, accounts), before + after);
    RunSplits(Initial(a, files, accounts), before, after);
    LogGrows(Run(Initial(a, files, accounts), before), after);
    LogGrows(Initial(a, files, accounts), before + after);
  }

  function Unacknowledged(log: seq<Entry>): nat {
    if log == [] then 0
    else Unacknowledged(log[..|log| - 1]) + if log[|log| - 1].acked then 0 else 1
  }

  function Crashes(es: seq<Event>): nat {
    if es == [] then 0 else (if es[0].Crash? then 1 else 0) + Crashes(es[1..])
  }

  function Uncertain(c: Cluster): nat {
    Unacknowledged(c.log) + if c.pending.Torn? then 1 else 0
  }

  lemma StepUncertain(c: Cluster, e: Event)
    requires Enabled(c, e)
    ensures Uncertain(Next(c, e)) <= Uncertain(c) + if e.Crash? then 1 else 0
  {
    if e.Acknowledge? || e.Begin? {
      var log := Next(c, e).log;
      if log != c.log { assert log[..|log| - 1] == c.log; }
    }
  }

  /** Only a crash can leave a change in the log that no client was told about. */
  lemma {:induction false} UnacknowledgedNeedsCrash(c: Cluster, es: seq<Event>)
    requires Possible(c, es)
    ensures Uncertain(Run(c, es)) <= Uncertain(c) + Crashes(es)
    decreases |es|
  {
    if es != [] {
      StepUncertain(c, es[0]);
      UnacknowledgedNeedsCrash(Next(c, es[0]), es[1..]);
    }
  }

  lemma AnnouncingStays(c: Cluster, p: Addr, b: Addr)
    requires Enabled(c, Announce(p, b))
    ensures LivePrimary(Next(c, Announce(p, b)), p)
  {
  }

  lemma AttachingStays(c: Cluster, p: Addr, id: nat)
    requires Enabled(c, Attach(p, id)) && c.servers[p].state.members[id] != p
    ensures LivePrimary(Next(c, Attach(p, id)), p)
  {
  }

  lemma OthersMoveStays(c: Cluster, e: Event, p: Addr)
    requires View(c) && Enabled(c, e) && LivePrimary(c, p) && (e.Announce? || e.Attach?)
    ensures LivePrimary(Next(c, e), p)
  {
    OnePrimary(c, p, e.p);
    if e.Announce? {
      AnnouncingStays(c, p, e.b);
    } else {
      assert c.servers[p].state.members[e.id] != p by { assert Informs(c, c.servers[p].state.members); }
      AttachingStays(c, p, e.id);
    }
  }

  lemma ForwardingStays(c: Cluster, q: Addr, b: Addr, p: Addr)
    requires q in c.servers && c.pending.InFlight? && LivePrimary(c, p)
    ensures LivePrimary(Forwarded(c, q, b), p)
  {
  }

  lemma ChangesStay(c: Cluster, e: Event, p: Addr)
    requires Enabled(c, e) && LivePrimary(c, p)
    requires e.Begin? || e.Forward? || e.Acknowledge? || e.Drop? || e.Tell? || e.Relist?
    ensures LivePrimary(Next(c, e), p)
  {
    if e.Forward? { ForwardingStays(c, e.p, e.b, p); }
  }

  lemma ElectionsStay(c: Cluster, e: Event, p: Addr)
    requires Enabled(c, e) && LivePrimary(c, p) && e != Crash(p)
    requires e.Crash? || e.Join? || e.Suspect? || e.Probe? || e.Conclude?
    ensures LivePrimary(Next(c, e), p)
  {
  }

  /** A live primary is never deposed, whoever suspects it. */
  lemma PrimaryStays(c: Cluster, e: Event, p: Addr)
    requires View(c) && Enabled(c, e) && LivePrimary(c, p) && e != Crash(p)
    ensures LivePrimary(Next(c, e), p)
  {
    if e.Announce? || e.Attach? {
      OthersMoveStays(c, e, p);
    } else if e.Begin? || e.Forward? || e.Acknowledge? || e.Drop? || e.Tell? || e.Relist? {
      ChangesStay(c, e, p);
    } else {
      ElectionsStay(c, e, p);
    }
  }

  /** Every live backup the primary is linked to has exactly its files and all its accounts. */
  ghost predicate LinksMirror(c: Cluster) {
    forall p, b :: LivePrimary(c, p) && Live(c, b) && Id(c, b) in c.servers[p].state.links ==>
      c.servers[b].files == c.servers[p].files && Covers(c.servers[b].accounts, c.servers[p].accounts)
  }

  lemma InvMirrors(c: Cluster)
    requires Stored(c) && !c.pending.InFlight?
    ensures LinksMirror(c)
  {
  }

  /** Whenever no change is under way, in every run that passes nobody live over. */
  lemma LinkedBackupsMirror(a: Addr, files: Files, accounts: Accounts, es: seq<Event>)
    requires ClashFree(files) && Possible(Initial(a, files, accounts), es) && AllSafe(Initial(a, files, accounts), es)
    requires !Run(Initial(a, files, accounts), es).pending.InFlight?
    ensures LinksMirror(Run(Initial(a, files, accounts), es))
  {
    InitialInv(a, files, accounts);
    RunInv(Initial(a, files, accounts), es);
    InvMirrors(Run(Initial(a, files, accounts), es));
  }

  /* ------------------------------------------------- exactly when a step is safe */

  lemma UnheardJoin(c: Cluster, p: Addr, a: Addr, b: Addr, own: Accounts)
    requires LivePrimary(c, p) && a !in c.servers && Live(c, b) && b != p
    requires Informs(c, c.servers[b].state.members) && Id(c, b) !in c.servers[p].state.links
    requires Id(c, b) != AssignedId(c.servers[p].state, a)
    ensures !Knowledge(Told(Entering(c, p, a, own), p))
  {
    var c' := Told(Entering(c, p, a, own), p);
    assert c'.servers[b] == c.servers[b] && Live(c', b) && Live(c', a);
    assert !Informs(c', c'.servers[b].state.members);
  }

  /** A join keeps the cluster sound if and only if the primary reaches every live server;
      otherwise someone never hears of the newcomer. */
  lemma JoinIsSafeIff(c: Cluster, p: Addr, a: Addr, own: Accounts)
    requires Inv(c) && LivePrimary(c, p) && a !in c.servers && !c.pending.InFlight?
    requires AssignedId(c.servers[p].state, a) != 0
    ensures Inv(Told(Entering(c, p, a, own), p)) <==> Reaches(c, p)
    ensures Knowledge(Told(Entering(c, p, a, own), p)) <==> Reaches(c, p)
  {
    if Reaches(c, p) {
      JoinView(c, p, a, own);
      JoinStored(c, p, a, own);
    } else {
      FreshId(c, p, a);
      assert Informs(c, c.servers[p].state.members);
      var b :| Live(c, b) && b != p && Id(c, b) !in c.servers[p].state.links;
      UnheardJoin(c, p, a, b, own);
    }
  }

  /** A live member whose manifest does not fit is taken off the list while it lives. */
  lemma TooLargeIsDropped(c: Cluster, p: Addr, id: nat)
    requires Knowledge(c) && Enabled(c, Attach(p, id)) && !Safe(c, Attach(p, id))
    ensures var a, c' := c.servers[p].state.members[id], AttachTried(c, p, id);
      Live(c', a) && id !in c'.servers[p].state.members && !Knowledge(c')
  {
    var a, c' := c.servers[p].state.members[id], AttachTried(c, p, id);
    assert Informs(c, c.servers[p].state.members);
    assert Live(c', p) && Live(c', a) && Id(c', a) == id;
    assert !Informs(c', c'.servers[p].state.members);
  }

  /** An attachment keeps the cluster sound if and only if the member is dead or its
      manifest fits in one message. */
  lemma AttachIsSafeIff(c: Cluster, p: Addr, id: nat)
    requires Inv(c) && Enabled(c, Attach(p, id))
    ensures Inv(AttachTried(c, p, id)) <==>
      var a := c.servers[p].state.members[id]; Live(c, a) ==> FitsFrame(c.servers[a].files, c.servers[a].accounts)
  {
    if Safe(c, Attach(p, id)) {
      AttachTriedStored(c, p, id);
      AttachTriedView(c, p, id);
    } else {
      TooLargeIsDropped(c, p, id);
    }
  }
}
