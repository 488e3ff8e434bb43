/** Whatever has crashed: the servers that are left can always get back to one primary that
    all of them follow and that replicates to all of them. */
module ClusterRecovery {

  import opened Members
  import opened Sizes
  import opened Stores
  import opened ClusterRuns
  import opened ClusterSafety
  import opened ClusterFiles
  import opened ClusterTheorems
  import opened ClusterChanges
  import opened ClusterLeaders
  import opened ClusterSteps
  import Basics

  /** The manifests of all other live servers fit in a message. */
  ghost predicate AllFit(c: Cluster, p: Addr) {
    forall b :: Live(c, b) && b != p ==> FitsFrame(c.servers[b].files, c.servers[b].accounts)
  }

  lemma {:induction false} HighestOf(c: Cluster, addrs: set<Addr>) returns (p: Addr)
    requires addrs != {} && forall a :: a in addrs ==> Live(c, a)
    ensures p in addrs && Live(c, p) && forall a :: a in addrs ==> Live(c, a) && Id(c, a) <= Id(c, p)
  {
    var a :| a in addrs;
    if addrs == {a} {
      p := a;
    } else {
      assert addrs - {a} != {} by { assert addrs == (addrs - {a}) + {a}; }
      var q := HighestOf(c, addrs - {a});
      p := if Id(c, a) > Id(c, q) then a else q;
    }
  }

  /** Among live servers one has the highest id. */
  lemma HighestLive(c: Cluster) returns (p: Addr)
    requires exists a :: Live(c, a)
    ensures Live(c, p) && Tops(c, Id(c, p))
  {
    var addrs := set a | a in c.servers && Live(c, a);
    var a :| Live(c, a);
    assert a in addrs;
    p := HighestOf(c, addrs);
    assert forall b :: Live(c, b) ==> b in addrs;
  }

  lemma NobodyHigher(c: Cluster, p: Addr)
    requires Knowledge(c) && Live(c, p) && Tops(c, Id(c, p))
    ensures AllDead(c, Higher(c.servers[p].state.members, Id(c, p)))
  {
    assert Informs(c, c.servers[p].state.members);
  }

  lemma WinnerSpares(c: Cluster, p: Addr)
    requires p in c.servers && AllFit(c, p)
    ensures AllFit(Winner(c, p), p) && Winner(c, p).pending == c.pending && Winner(c, p).servers[p].state.role == Primary
    ensures forall b :: Live(c, b) <==> Live(Winner(c, p), b)
  {
  }

  lemma ElectedInv(c: Cluster, es: seq<Event>)
    requires Inv(c) && Possible(c, es) && AllPlain(es)
    ensures Inv(Run(c, es)) && PrudentFrom(c, es)
  {
    PlainRunIsPrudent(c, es);
    PlainRunIsSafe(c, es);
    RunInv(c, es);
  }

  /** The highest live server becomes primary, if it is not already. */
  lemma Elected(c: Cluster, p: Addr) returns (es: seq<Event>)
    requires Inv(c) && Live(c, p) && Tops(c, Id(c, p)) && !c.pending.InFlight? && AllFit(c, p)
    ensures PrudentFrom(c, es) && AllPlain(es)
    ensures Ready(Run(c, es), p) && forall b :: Live(c, b) <==> Live(Run(c, es), b)
  {
    if LivePrimary(c, p) {
      es := [];
    } else {
      NobodyHigher(c, p);
      es := TakesOver(c, p);
      ElectedInv(c, es);
      WinnerSpares(c, p);
    }
  }

  /** A primary that can attach whoever it likes. */
  ghost predicate Ready(c: Cluster, p: Addr) {
    Inv(c) && LivePrimary(c, p) && !c.pending.InFlight? && AllFit(c, p)
  }

  /** Messages and attachments: nobody joins, crashes or changes anything. */
  predicate Repairs(es: seq<Event>) {
    forall e :: e in es ==> e.Announce? || e.Attach?
  }

  lemma RepairSpares(c: Cluster, e: Event, b: Addr)
    requires Enabled(c, e) && (e.Announce? || e.Attach?) && Live(c, b)
    ensures Live(Next(c, e), b)
  {
    if e.Attach? { AttachShape(c, e.p, e.id); }
  }

  lemma {:induction false} RepairsSpare(c: Cluster, es: seq<Event>, b: Addr)
    requires Possible(c, es) && Repairs(es) && Live(c, b)
    ensures Live(Run(c, es), b)
    decreases |es|
  {
    if es != [] {
      assert es[0] in es && forall e :: e in es[1..] ==> e in es;
      RepairSpares(c, es[0], b);
      RepairsSpare(Next(c, es[0]), es[1..], b);
    }
  }

  lemma AnnouncedFit(c: Cluster, p: Addr, b: Addr)
    requires Enabled(c, Announce(p, b)) && AllFit(c, p)
    ensures AllFit(Next(c, Announce(p, b)), p) && Next(c, Announce(p, b)).pending == c.pending
    ensures Next(c, Announce(p, b)).servers.Keys == c.servers.Keys
  {
  }

  lemma AnnouncedReady(c: Cluster, p: Addr, b: Addr)
    requires Ready(c, p) && b in c.servers && b != p
    ensures Ready(Next(c, Announce(p, b)), p) && Next(c, Announce(p, b)).servers.Keys == c.servers.Keys
  {
    StepInv(c, Announce(p, b));
    PrimaryStays(c, Announce(p, b), p);
    AnnouncedFit(c, p, b);
  }

  predicate AnnouncesTo(es: seq<Event>, p: Addr, todo: set<Addr>) {
    && (forall e :: e in es ==> e.Announce?)
    && forall b :: b in todo ==> Announce(p, b) in es
  }

  lemma OneMoreAnnounced(es: seq<Event>, p: Addr, b: Addr, todo: set<Addr>)
    requires AnnouncesTo(es, p, todo - {b})
    ensures AnnouncesTo([Announce(p, b)] + es, p, todo)
  {
    assert ([Announce(p, b)] + es)[0] == Announce(p, b);
  }

  /** The primary announces itself to some servers, one after another. */
  lemma {:induction false} AnnounceAll(c: Cluster, p: Addr, todo: set<Addr>) returns (es: seq<Event>)
    requires Ready(c, p) && todo <= c.servers.Keys - {p}
    ensures PrudentFrom(c, es) && AnnouncesTo(es, p, todo) && Ready(Run(c, es), p)
    decreases |todo|
  {
    if todo == {} {
      es := [];
    } else {
      var b :| b in todo;
      var e := Announce(p, b);
      AnnouncedReady(c, p, b);
      Basics.SubsetSize(todo - {b}, todo);
      var more := AnnounceAll(Next(c, e), p, todo - {b});
      OnePrudent(c, e, more);
      es := [e] + more;
      OneMoreAnnounced(more, p, b, todo);
    }
  }

  lemma AllFitLacking(c: Cluster, p: Addr)
    requires Ready(c, p)
    ensures LackingFit(c, p)
  {
    assert Informs(c, c.servers[p].state.members);
  }

  lemma BothRepair(first: seq<Event>, second: seq<Event>, p: Addr, todo: set<Addr>, ids: set<nat>)
    requires AnnouncesTo(first, p, todo) && OnceEach(second, p, ids)
    ensures Repairs(first + second) && Crash(p) !in first + second
    ensures forall b :: b in todo ==> Announce(p, b) in first + second
  {
  }

  lemma ListedAreTold(c: Cluster, p: Addr, es: seq<Event>)
    requires Knowledge(c) && Live(c, p) && forall b :: b in c.servers.Keys - {p} ==> Announce(p, b) in es
    ensures forall id :: id in c.servers[p].state.members && id != Id(c, p) ==> Announce(p, c.servers[p].state.members[id]) in es
  {
    assert Informs(c, c.servers[p].state.members);
  }

  /** Everyone live follows the primary at `p`, which is linked to them all. */
  ghost predicate Restored(c: Cluster, p: Addr) {
    HasAll(c, p) && forall b :: Live(c, b) ==> Follows(c, p, b) && (b != p ==> !LivePrimary(c, b))
  }

  /** A primary tells everyone and takes everyone in. */
  lemma TakesOverAll(c: Cluster, p: Addr) returns (es: seq<Event>)
    requires Ready(c, p)
    ensures PrudentFrom(c, es) && Repairs(es) && Restored(Run(c, es), p)
  {
    var others := c.servers.Keys - {p};
    var first := AnnounceAll(c, p, others);
    var c1 := Run(c, first);
    AllFitLacking(c1, p);
    var second := TakesEveryoneIn(c1, p);
    MorePrudent(c, first, second);
    es := first + second;
    BothRepair(first, second, p, others, Lacking(c1, p));
    PrudentRunIsSafe(c, es);
    ListedAreTold(c, p, es);
    TakeOverIsKnown(c, p, es);
  }

  predicate NothingNew(es: seq<Event>) {
    forall e :: e in es ==> !e.Join? && !e.Begin?
  }

  lemma Recovering(first: seq<Event>, second: seq<Event>)
    requires AllPlain(first) && Repairs(second)
    ensures NothingNew(first + second)
  {
  }

  /** As long as one server is alive, there is a way, without a join, a change or another crash,
      to a state in which the highest of the live servers is the one primary, all others follow
      it, and it is linked to every one of them, so that changes reach them all again. */
  lemma ClusterRecovers(c: Cluster, p: Addr) returns (es: seq<Event>)
    requires Inv(c) && Live(c, p) && (forall b :: Live(c, b) ==> Id(c, b) <= Id(c, p))
    requires !c.pending.InFlight? && AllFit(c, p)
    ensures PrudentFrom(c, es) && NothingNew(es)
    ensures Restored(Run(c, es), p) && forall b :: Live(c, b) ==> Live(Run(c, es), b)
  {
    var first := Elected(c, p);
    var c1 := Run(c, first);
    var second := TakesOverAll(c1, p);
    MorePrudent(c, first, second);
    es := first + second;
    Recovering(first, second);
    forall b | Live(c, b) ensures Live(Run(c, es), b) { RepairsSpare(c1, second, b); }
  }

  /** So it is after every prudent run, with any servers crashed at any moments in it. */
  lemma AlwaysRecovers(a: Addr, files: Files, accounts: Accounts, before: seq<Event>) returns (p: Addr, es: seq<Event>)
    requires ClashFree(files) && PrudentFrom(Initial(a, files, accounts), before)
    requires var c := Run(Initial(a, files, accounts), before);
      && (exists b :: Live(c, b)) && !c.pending.InFlight?
      && forall b :: Live(c, b) ==> FitsFrame(c.servers[b].files, c.servers[b].accounts)
    ensures PrudentFrom(Initial(a, files, accounts), before + es) && NothingNew(es)
    ensures var c := Run(Initial(a, files, accounts), before);
      var c' := Run(Initial(a, files, accounts), before + es);
      Restored(c', p) && forall b :: Live(c, b) ==> Live(c', b)
  {
    InitialInv(a, files, accounts);
    PrudentRunIsSafe(Initial(a, files, accounts), before);
    RunInv(Initial(a, files, accounts), before);
    var c := Run(Initial(a, files, accounts), before);
    p := HighestLive(c);
    es := ClusterRecovers(c, p);
    MorePrudent(Initial(a, files, accounts), before, es);
  }
}
