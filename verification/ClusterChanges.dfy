/** When an acknowledged change is on every live server, and when it can be lost. */
module ClusterChanges {

  import opened Members
  import opened Stores
  import opened ClusterRuns
  import opened ClusterSafety
  import opened ClusterFiles
  import opened ClusterTheorems

  /* --------------------------------------------------------------- putting runs together */

  lemma First(c: Cluster, e: Event, es: seq<Event>)
    requires Enabled(c, e) && Possible(Next(c, e), es)
    ensures Possible(c, [e] + es) && Run(c, [e] + es) == Run(Next(c, e), es)
  {
    assert ([e] + es)[1..] == es;
  }

  lemma {:induction false} Chain(c: Cluster, before: seq<Event>, after: seq<Event>)
    requires Possible(c, before) && Possible(Run(c, before), after)
    ensures Possible(c, before + after) && Run(c, before + after) == Run(Run(c, before), after)
    decreases |before|
  {
    if before == [] {
      assert before + after == after;
    } else {
      assert (before + after)[1..] == before[1..] + after;
      Chain(Next(c, before[0]), before[1..], after);
    }
  }

  /** No join, no new change, no attachment. */
  predicate Plain(e: Event) {
    !e.Join? && !e.Begin? && !e.Attach?
  }

  predicate AllPlain(es: seq<Event>) {
    forall e :: e in es ==> Plain(e)
  }

  lemma {:induction false} PlainRunIsSafe(c: Cluster, es: seq<Event>)
    requires Possible(c, es) && AllPlain(es)
    ensures AllSafe(c, es)
    decreases |es|
  {
    if es != [] {
      assert es[0] in es && Safe(c, es[0]);
      PlainRunIsSafe(Next(c, es[0]), es[1..]);
    }
  }

  /* ------------------------------------------------------------- the last one takes over */

  lemma {:induction false} ProbeAll(c: Cluster, b: Addr) returns (es: seq<Event>, answered: bool)
    requires Live(c, b) && c.servers[b].campaign.Probing?
    ensures Possible(c, es) && AllPlain(es)
    ensures Run(c, es) == WithCampaign(c, b, Probing(map[], answered))
    ensures c.servers[b].campaign.answered ==> answered
    ensures !c.servers[b].campaign.answered && AllDead(c, c.servers[b].campaign.todo) ==> !answered
    decreases |c.servers[b].campaign.todo|
  {
    var todo := c.servers[b].campaign.todo;
    if todo == map[] {
      es, answered := [], c.servers[b].campaign.answered;
      assert c.servers[b := c.servers[b]] == c.servers;
    } else {
      var id :| id in todo;
      var c' := Next(c, Probe(b, id));
      assert |todo - {id}| < |todo| by { assert (todo - {id}).Keys == todo.Keys - {id}; }
      var more;
      more, answered := ProbeAll(c', b);
      First(c, Probe(b, id), more);
      es := [Probe(b, id)] + more;
      assert c'.servers[b := c'.servers[b].(campaign := Probing(map[], answered))]
          == c.servers[b := c.servers[b].(campaign := Probing(map[], answered))];
    }
  }

  ghost predicate AllDead(c: Cluster, ms: MemberMap) {
    forall id :: id in ms ==> !Live(c, ms[id])
  }

  lemma WinsIdle(c: Cluster, b: Addr) returns (es: seq<Event>)
    requires Live(c, b) && !LivePrimary(c, b) && c.servers[b].campaign.Idle?
    requires AllDead(c, Higher(c.servers[b].state.members, Id(c, b)))
    ensures Possible(c, es) && AllPlain(es) && Run(c, es) == Winner(c, b)
  {
    var c1 := Next(c, Suspect(b));
    assert AllDead(c1, c1.servers[b].campaign.todo);
    var probes, answered := ProbeAll(c1, b);
    WinsUnanswered(WithCampaign(c1, b, Probing(map[], false)), b);
    SameWinner(c, c1, b);
    Chain(c1, probes, [Conclude(b)]);
    First(c, Suspect(b), probes + [Conclude(b)]);
    es := [Suspect(b)] + (probes + [Conclude(b)]);
  }

  /** What a server was asking does not matter once it has won. */
  lemma SameWinner(c: Cluster, c1: Cluster, b: Addr)
    requires b in c.servers && b in c1.servers && c1 == WithCampaign(c, b, c1.servers[b].campaign)
    ensures Winner(WithCampaign(c1, b, Probing(map[], false)), b) == Winner(c, b)
  {
    assert Winner(WithCampaign(c1, b, Probing(map[], false)), b).servers == Winner(c, b).servers;
  }

  lemma WinsUnanswered(c: Cluster, b: Addr)
    requires Live(c, b) && c.servers[b].campaign == Probing(map[], false)
    ensures Possible(c, [Conclude(b)]) && Run(c, [Conclude(b)]) == Winner(c, b)
  {
    First(c, Conclude(b), []);
    assert [Conclude(b)] + [] == [Conclude(b)];
  }

  lemma GivesUp(c: Cluster, b: Addr)
    requires Live(c, b) && c.servers[b].campaign == Probing(map[], true)
    ensures Possible(c, [Conclude(b)]) && Run(c, [Conclude(b)]) == WithCampaign(c, b, Idle)
  {
    First(c, Conclude(b), []);
    assert [Conclude(b)] + [] == [Conclude(b)];
  }

  lemma SameWinnerIdle(c: Cluster, c1: Cluster, b: Addr)
    requires b in c.servers && b in c1.servers && c1 == WithCampaign(c, b, c1.servers[b].campaign)
    ensures WithCampaign(c1, b, Idle) == WithCampaign(c, b, Idle) && Winner(c1, b) == Winner(c, b)
    ensures Winner(WithCampaign(c, b, Idle), b) == Winner(c, b)
  {
    assert WithCampaign(c1, b, Idle).servers == WithCampaign(c, b, Idle).servers;
    assert Winner(c1, b).servers == Winner(c, b).servers;
    assert Winner(WithCampaign(c, b, Idle), b).servers == Winner(c, b).servers;
  }

  /** A backup above which nobody lives can take over, whatever election it is in. */
  lemma TakesOver(c: Cluster, b: Addr) returns (es: seq<Event>)
    requires Live(c, b) && !LivePrimary(c, b)
    requires AllDead(c, Higher(c.servers[b].state.members, Id(c, b)))
    ensures Possible(c, es) && AllPlain(es) && Run(c, es) == Winner(c, b)
  {
    if c.servers[b].campaign.Idle? {
      es := WinsIdle(c, b);
      return;
    }
    var probes, answered := ProbeAll(c, b);
    var c1 := Run(c, probes);
    SameWinnerIdle(c, c1, b);
    if answered {
      GivesUp(c1, b);
      var win := WinsIdle(WithCampaign(c, b, Idle), b);
      Chain(c1, [Conclude(b)], win);
      Chain(c, probes, [Conclude(b)] + win);
      es := probes + ([Conclude(b)] + win);
    } else {
      WinsUnanswered(c1, b);
      Chain(c, probes, [Conclude(b)]);
      es := probes + [Conclude(b)];
    }
  }

  /* ---------------------------------------------------------- from begin to acknowledgement */

  /** Anything short of the end of the change: its acknowledgement, or the primary's crash. */
  predicate GoesOn(e: Event, p: Addr) {
    !e.Acknowledge? && e != Crash(p)
  }

  predicate AllGoOn(es: seq<Event>, p: Addr) {
    forall e :: e in es ==> GoesOn(e, p)
  }

  ghost predicate SameStuff(c0: Cluster, c: Cluster, b: Addr)
    requires b in c0.servers && b in c.servers
  {
    c.servers[b].files == c0.servers[b].files && c.servers[b].accounts == c0.servers[b].accounts
  }

  /** Whether the server has the change that the primary at `p` made. */
  ghost predicate Got(c: Cluster, p: Addr, b: Addr, change: Change)
    requires p in c.servers && b in c.servers
  {
    c.servers[b].files == c.servers[p].files && Has(c.servers[b].accounts, change)
  }

  /** If the primary at `p` has a link under the id of `b`, then it is the link to `b`. */
  predicate LinkOf(c: Cluster, p: Addr, b: Addr)
    requires p in c.servers
  {
    var links := c.servers[p].state.links;
    b in c.servers && (Id(c, b) in links ==> links[Id(c, b)] == b)
  }

  ghost predicate FewerLinks(c: Cluster, c': Cluster, p: Addr)
    requires p in c.servers && p in c'.servers
  {
    var links, links' := c.servers[p].state.links, c'.servers[p].state.links;
    forall id :: id in links' ==> id in links && links'[id] == links[id]
  }

  /** While the change is on its way: a server that was linked when it began is still to get
      it or has it; one that was not is as it was. */
  ghost predicate Underway(c0: Cluster, p: Addr, change: Change, c: Cluster)
    requires p in c0.servers
  {
    var links := c0.servers[p].state.links;
    && c.pending.InFlight? && c.pending.change == change && c.pending.primary == p
    && LivePrimary(c, p) && c.servers[p].files == Applied(c0.servers[p].files, change) && Has(c.servers[p].accounts, change)
    && (forall b :: b in c.pending.todo ==> b in c0.servers && Id(c0, b) in links && LinkOf(c, p, b))
    && (forall b :: Live(c, b) ==> Live(c0, b) && Id(c, b) == Id(c0, b))
    && (forall b :: Live(c, b) && b != p && Id(c, b) !in links ==> SameStuff(c0, c, b))
    && (forall b :: Live(c, b) && b != p && Id(c, b) in links ==>
          Got(c, p, b, change) || (b in c.pending.todo && SameStuff(c0, c, b)))
  }

  lemma BeginsUnderway(c: Cluster, p: Addr, change: Change)
    requires Enabled(c, Begin(p, change)) && TrueLinks(c, c.servers[p].state)
    ensures Underway(c, p, change, Begun(c, p, change))
  {
    var c', links := Begun(c, p, change), c.servers[p].state.links;
    forall b | Live(c', b) && b != p && Id(c', b) in links ensures b in c'.pending.todo {
      assert Live(c, b) && links[Id(c, b)] == b;
    }
  }

  lemma ReachedUnderway(c0: Cluster, p: Addr, change: Change, c: Cluster, b: Addr)
    requires LivePrimary(c0, p) && Underway(c0, p, change, c) && b in c.pending.todo && Live(c, b)
    requires Accepts(c0.servers[p].files, change)
    requires forall a :: Live(c0, a) && Id(c0, a) in c0.servers[p].state.links ==> c0.servers[a].files == c0.servers[p].files
    ensures Underway(c0, p, change, Forwarded(c, p, b))
  {
    var c' := Forwarded(c, p, b);
    assert Id(c, b) in c0.servers[p].state.links;
    BecomesGot(c0, p, change, c, b);
    forall a | Live(c', a) && a != p && a != b ensures Live(c, a) && SameStuff(c, c', a) { }
    assert c'.servers[p].state == c.servers[p].state;
    forall a | Live(c', a) && a != p && Id(c', a) in c0.servers[p].state.links
      ensures Got(c', p, a, change) || (a in c'.pending.todo && SameStuff(c0, c', a))
    {
      if a != b { assert Live(c, a); }
    }
  }

  lemma BecomesGot(c0: Cluster, p: Addr, change: Change, c: Cluster, b: Addr)
    requires LivePrimary(c0, p) && Underway(c0, p, change, c) && b in c.pending.todo && Live(c, b)
    requires Accepts(c0.servers[p].files, change) && Id(c, b) in c0.servers[p].state.links
    requires forall a :: Live(c0, a) && Id(c0, a) in c0.servers[p].state.links ==> c0.servers[a].files == c0.servers[p].files
    ensures var c' := Forwarded(c, p, b);
      && Accepts(c.servers[b].files, change) && Got(c', p, b, change)
      && c'.servers[p].files == c.servers[p].files && Has(c'.servers[p].accounts, change)
  {
    AppliedTwice(c0.servers[p].files, change);
  }

  /** Steps that move nothing but views, or crash others, change nothing about it. */
  lemma UnderwayKept(c0: Cluster, p: Addr, change: Change, c: Cluster, c': Cluster)
    requires p in c0.servers && Underway(c0, p, change, c) && Continues(c, c') && LivePrimary(c', p) && FewerLinks(c, c', p)
    requires c'.pending == c.pending && forall b :: b in c'.servers ==> b in c.servers && SameStuff(c, c', b)
    ensures Underway(c0, p, change, c')
  {
    assert SameStuff(c, c', p);
    forall b | b in c'.pending.todo ensures LinkOf(c', p, b) { assert LinkOf(c, p, b); }
    forall b | Live(c', b) && b != p
      ensures Live(c0, b) && Id(c', b) == Id(c0, b)
      ensures Id(c', b) !in c0.servers[p].state.links ==> SameStuff(c0, c', b)
      ensures Id(c', b) in c0.servers[p].state.links ==>
        Got(c', p, b, change) || (b in c'.pending.todo && SameStuff(c0, c', b))
    {
      assert Live(c, b) && SameStuff(c, c', b);
    }
  }

  lemma DroppedSpares(c: Cluster, p: Addr, id: nat)
    requires p in c.servers
    ensures Continues(c, Dropped(c, p, id)) && forall b :: b in c.servers ==> SameStuff(c, Dropped(c, p, id), b)
  {
  }

  lemma DroppedUnderway(c0: Cluster, p: Addr, change: Change, c: Cluster, id: nat)
    requires p in c0.servers && Underway(c0, p, change, c)
    ensures Underway(c0, p, change, Dropped(c, p, id))
  {
    DroppedSpares(c, p, id);
    assert LivePrimary(Dropped(c, p, id), p);
    UnderwayKept(c0, p, change, c, Dropped(c, p, id));
  }

  function Skipped(c: Cluster, b: Addr): Cluster
    requires c.pending.InFlight?
  {
    c.(pending := c.pending.(todo := c.pending.todo - {b}))
  }

  lemma SkippedUnderway(c0: Cluster, p: Addr, change: Change, c: Cluster, b: Addr)
    requires p in c0.servers && Underway(c0, p, change, c) && !Live(c, b)
    ensures Underway(c0, p, change, Skipped(c, b))
  {
    var c', links := Skipped(c, b), c0.servers[p].state.links;
    forall a | Live(c', a)
      ensures Live(c, a) && Id(c', a) == Id(c, a) && SameStuff(c, c', a) && a != b
      ensures a in c.pending.todo ==> a in c'.pending.todo
    {
    }
    forall a | Live(c', a) && a != p && Id(c', a) in links
      ensures Got(c', p, a, change) || (a in c'.pending.todo && SameStuff(c0, c', a))
    {
      assert Live(c, a) && (Got(c, p, a, change) || (a in c.pending.todo && SameStuff(c0, c, a)));
    }
  }

  lemma ForwardUnderway(c0: Cluster, p: Addr, change: Change, c: Cluster, b: Addr)
    requires LivePrimary(c0, p) && Underway(c0, p, change, c) && Enabled(c, Forward(p, b))
    requires Accepts(c0.servers[p].files, change)
    requires forall a :: Live(c0, a) && Id(c0, a) in c0.servers[p].state.links ==> c0.servers[a].files == c0.servers[p].files
    ensures Underway(c0, p, change, Forwarded(c, p, b))
  {
    if Live(c, b) {
      ReachedUnderway(c0, p, change, c, b);
    } else {
      SkippedUnderway(c0, p, change, c, b);
      if b in c.servers { DroppedUnderway(c0, p, change, Skipped(c, b), Id(c, b)); }
    }
  }

  /** No file or account moved, no server came back, and no link was made. */
  ghost predicate Spares(c: Cluster, c': Cluster) {
    Continues(c, c') && forall b :: b in c.servers ==> SameStuff(c, c', b) && FewerLinks(c, c', b)
  }

  lemma StateSpares(c: Cluster, a: Addr, s: State)
    requires a in c.servers && s.me == c.servers[a].state.me
    requires forall id :: id in s.links ==> id in c.servers[a].state.links && s.links[id] == c.servers[a].state.links[id]
    ensures Spares(c, WithState(c, a, s))
  {
  }

  lemma CampaignSpares(c: Cluster, a: Addr, campaign: Campaign)
    requires a in c.servers
    ensures Spares(c, WithCampaign(c, a, campaign))
  {
  }

  lemma SparesTwice(c: Cluster, c1: Cluster, c2: Cluster)
    requires Spares(c, c1) && Spares(c1, c2)
    ensures Spares(c, c2)
  {
    assert forall b :: b in c.servers ==> FewerLinks(c1, c2, b);
  }

  lemma ConcludeSpares(c: Cluster, a: Addr)
    requires Enabled(c, Conclude(a))
    ensures Spares(c, Concluded(c, a)) && Concluded(c, a).pending == c.pending
  {
    if c.servers[a].campaign.answered {
      CampaignSpares(c, a, Idle);
    } else {
      StateSpares(c, a, TookOver(c.servers[a].state));
      CampaignSpares(WithState(c, a, TookOver(c.servers[a].state)), a, Idle);
      SparesTwice(c, WithState(c, a, TookOver(c.servers[a].state)), Winner(c, a));
    }
  }

  lemma ToldSpares(c: Cluster, p: Addr, heard: set<Addr>)
    requires p in c.servers
    ensures Spares(c, ToldSome(c, p, heard))
  {
  }

  lemma CrashSpares(c: Cluster, a: Addr)
    requires a in c.servers
    ensures Spares(c, Crashed(c, a))
  {
  }

  lemma AnnouncedSpares(c: Cluster, p: Addr, b: Addr)
    requires p in c.servers
    ensures Spares(c, Announced(c, p, b)) && Announced(c, p, b).pending == c.pending
  {
    if Live(c, b) {
      StateSpares(c, b, Coordinated(c.servers[b].state, c.servers[p].state.me));
    } else {
      assert forall a :: a in c.servers ==> FewerLinks(c, c, a);
    }
  }

  lemma QuietSpares(c: Cluster, e: Event)
    requires Enabled(c, e) && Quiet(e)
    ensures Spares(c, Next(c, e))
    ensures c.pending.InFlight? && e != Crash(c.pending.primary) ==> Next(c, e).pending == c.pending
  {
    match e
    case Crash(a) => CrashSpares(c, a);
    case Suspect(a) => CampaignSpares(c, a, Next(c, e).servers[a].campaign);
    case Probe(a, _) => CampaignSpares(c, a, Next(c, e).servers[a].campaign);
    case Conclude(a) => ConcludeSpares(c, a);
    case Announce(p, b) => AnnouncedSpares(c, p, b);
    case Relist(p, b) => StateSpares(c, p, Next(c, e).servers[p].state);
    case Tell(p, b) => ToldSpares(c, p, {b});
    case Drop(p, id) => StateSpares(c, p, Next(c, e).servers[p].state);
  }

  lemma QuietUnderway(c0: Cluster, p: Addr, change: Change, c: Cluster, e: Event)
    requires p in c0.servers && View(c) && Underway(c0, p, change, c)
    requires Enabled(c, e) && Quiet(e) && e != Crash(p)
    ensures Underway(c0, p, change, Next(c, e))
  {
    QuietSpares(c, e);
    PrimaryStays(c, e, p);
    UnderwayKept(c0, p, change, c, Next(c, e));
  }

  /** Also with the stores out of step, the views survive the sending of a change. */
  lemma ForwardKeepsView(c0: Cluster, p: Addr, change: Change, c: Cluster, b: Addr)
    requires LivePrimary(c0, p) && Underway(c0, p, change, c) && View(c) && Enabled(c, Forward(p, b))
    requires Accepts(c0.servers[p].files, change)
    requires forall a :: Live(c0, a) && Id(c0, a) in c0.servers[p].state.links ==> c0.servers[a].files == c0.servers[p].files
    ensures View(Forwarded(c, p, b))
  {
    if Live(c, b) {
      BecomesGot(c0, p, change, c, b);
      ReachedView(c, p, b);
    } else {
      LogView(c, c.log, Skipped(c, b).pending);
      assert LinkOf(c, p, b);
      if Id(c, b) in c.servers[p].state.links { NobodyLinked(c, p, Id(c, b)); }
      DroppedView(Skipped(c, b), p, Id(c, b));
    }
  }

  lemma {:induction false} StaysUnderway(c0: Cluster, p: Addr, change: Change, c: Cluster, es: seq<Event>)
    requires LivePrimary(c0, p) && Underway(c0, p, change, c) && View(c) && Accepts(c0.servers[p].files, change)
    requires forall a :: Live(c0, a) && Id(c0, a) in c0.servers[p].state.links ==> c0.servers[a].files == c0.servers[p].files
    requires Possible(c, es) && AllGoOn(es, p)
    ensures Underway(c0, p, change, Run(c, es))
    decreases |es|
  {
    if es != [] {
      var e := es[0];
      assert e in es;
      if e.Forward? {
        ForwardUnderway(c0, p, change, c, e.b);
        ForwardKeepsView(c0, p, change, c, e.b);
      } else {
        assert Quiet(e);
        QuietView(c, e);
        QuietUnderway(c0, p, change, c, e);
      }
      StaysUnderway(c0, p, change, Next(c, e), es[1..]);
    }
  }

  lemma GotIff(c0: Cluster, p: Addr, change: Change, c: Cluster, b: Addr)
    requires p in c0.servers && Underway(c0, p, change, c) && c.pending.todo == {} && Live(c, b) && b != p
    requires forall a :: Live(c0, a) && Id(c0, a) in c0.servers[p].state.links ==> c0.servers[a].files == c0.servers[p].files
    ensures b in c0.servers
    ensures Got(c, p, b, change) <==> Id(c0, b) in c0.servers[p].state.links || HasAlready(c0, p, b, change)
  {
  }

  /** Whatever happens in between, when the change is acknowledged every server that is still
      alive has it if and only if each of them was linked when it began or had it already. */
  lemma AcknowledgedEverywhereIff(c: Cluster, p: Addr, change: Change, es: seq<Event>)
    requires Inv(c) && Enabled(c, Begin(p, change)) && AllGoOn(es, p)
    requires Possible(Begun(c, p, change), es) && Enabled(Run(Begun(c, p, change), es), Acknowledge(p))
    ensures var c' := Next(Run(Begun(c, p, change), es), Acknowledge(p));
      (forall b :: Live(c', b) ==> Got(c', p, b, change)) <==>
      forall b :: Live(c', b) && b != p ==> b in c.servers && (Id(c, b) in c.servers[p].state.links || HasAlready(c, p, b, change))
  {
    var c1 := Run(Begun(c, p, change), es);
    BeginsUnderway(c, p, change);
    BegunView(c, p, change);
    InvMirrors(c);
    StaysUnderway(c, p, change, Begun(c, p, change), es);
    EverywhereIff(c, p, change, c1, Acknowledged(c1));
  }

  lemma EverywhereIff(c0: Cluster, p: Addr, change: Change, c: Cluster, c': Cluster)
    requires LivePrimary(c0, p) && Underway(c0, p, change, c) && c.pending.todo == {} && c'.servers == c.servers
    requires forall a :: Live(c0, a) && Id(c0, a) in c0.servers[p].state.links ==> c0.servers[a].files == c0.servers[p].files
    ensures (forall b :: Live(c', b) ==> Got(c', p, b, change)) <==>
      forall b :: Live(c', b) && b != p ==> b in c0.servers && (Id(c0, b) in c0.servers[p].state.links || HasAlready(c0, p, b, change))
  {
    forall b | Live(c', b) && b != p
      ensures b in c0.servers
      ensures Got(c', p, b, change) <==> Id(c0, b) in c0.servers[p].state.links || HasAlready(c0, p, b, change)
    {
      GotIff(c0, p, change, c, b);
    }
  }

  /* ------------------------------------------------------- losing an acknowledged change */

  /** The change is sent to everyone it is still to be sent to. */
  lemma {:induction false} ForwardAll(c: Cluster, p: Addr, b: Addr) returns (es: seq<Event>)
    requires LivePrimary(c, p) && c.pending.InFlight? && c.pending.primary == p
    requires Passed(c, p, b)
    ensures Possible(c, es) && AllPlain(es)
    ensures StillPassed(c, p, b, Run(c, es)) && Run(c, es).pending == c.pending.(todo := {})
    decreases |c.pending.todo|
  {
    if c.pending.todo == {} {
      es := [];
    } else {
      var a :| a in c.pending.todo;
      ForwardPasses(c, p, b, a);
      var more := ForwardAll(Next(c, Forward(p, a)), p, b);
      First(c, Forward(p, a), more);
      es := [Forward(p, a)] + more;
    }
  }

  /** `b` is not to be sent anything, and has no link under its id. */
  ghost predicate Passed(c: Cluster, p: Addr, b: Addr) {
    && p in c.servers && b in c.servers && p != b && c.pending.InFlight? && b !in c.pending.todo
    && Id(c, b) !in c.servers[p].state.links
    && (forall a :: a in c.servers ==> c.servers[a].state.me.addr == a)
  }

  ghost predicate StillPassed(c: Cluster, p: Addr, b: Addr, c': Cluster)
    requires b in c.servers
  {
    && LivePrimary(c', p) && Passed(c', p, b) && c'.servers[b] == c.servers[b]
    && c'.log == c.log && c'.start == c.start && c'.founding == c.founding
  }

  lemma DropPasses(c: Cluster, p: Addr, b: Addr, id: nat)
    requires LivePrimary(c, p) && Passed(c, p, b)
    ensures StillPassed(c, p, b, Dropped(c, p, id)) && Dropped(c, p, id).pending == c.pending
  {
    var c1 := WithState(c, p, Unlinked(c.servers[p].state, id));
    assert c1.servers[b] == c.servers[b] && Id(c1, b) !in c1.servers[p].state.links;
  }

  lemma ReachPasses(c: Cluster, p: Addr, b: Addr, a: Addr)
    requires LivePrimary(c, p) && Passed(c, p, b) && a in c.servers && a != b
    ensures StillPassed(c, p, b, WithChange(c, a, c.pending.change))
  {
  }

  lemma ForwardPasses(c: Cluster, p: Addr, b: Addr, a: Addr)
    requires LivePrimary(c, p) && c.pending.InFlight? && c.pending.primary == p && a in c.pending.todo
    requires Passed(c, p, b)
    ensures Enabled(c, Forward(p, a)) && StillPassed(c, p, b, Forwarded(c, p, a))
    ensures Forwarded(c, p, a).pending == c.pending.(todo := c.pending.todo - {a})
  {
    var c1 := c.(pending := c.pending.(todo := c.pending.todo - {a}));
    assert Passed(c1, p, b);
    if a in c.servers {
      DropPasses(c1, p, b, Id(c, a));
      ReachPasses(c1, p, b, a);
    }
  }

  /** Only servers in `keep` are left alive, and those are as they were. */
  ghost predicate Remain(c: Cluster, keep: set<Addr>, c': Cluster) {
    && c'.servers.Keys == c.servers.Keys && (forall a :: a in c.servers && a in keep ==> c'.servers[a] == c.servers[a])
    && (forall a :: Live(c', a) ==> a in keep)
    && c'.pending == c.pending && c'.log == c.log && c'.start == c.start && c'.founding == c.founding
  }

  /** Everyone else crashes. */
  lemma {:induction false} CrashOthers(c: Cluster, keep: set<Addr>, left: set<Addr>) returns (es: seq<Event>)
    requires keep !! left && !c.pending.InFlight? && forall a :: Live(c, a) ==> a in keep || a in left
    ensures Possible(c, es) && AllPlain(es) && Remain(c, keep, Run(c, es))
    decreases |left|
  {
    if left == {} {
      es := [];
    } else {
      var a :| a in left;
      if Live(c, a) {
        var more := CrashOthers(Next(c, Crash(a)), keep, left - {a});
        First(c, Crash(a), more);
        es := [Crash(a)] + more;
      } else {
        es := CrashOthers(c, keep, left - {a});
      }
    }
  }

  lemma NobodyAbove(c: Cluster, c': Cluster, b: Addr)
    requires Live(c, b) && Informs(c, c.servers[b].state.members) && b in c'.servers && c'.servers[b] == c.servers[b]
    requires forall a :: Live(c', a) ==> a == b
    ensures AllDead(c', Higher(c'.servers[b].state.members, Id(c', b)))
  {
  }

  /** A server the change has passed over becomes primary without it. */
  lemma LeftBehind(c: Cluster, p: Addr, change: Change, b: Addr, c': Cluster)
    requires OneApart(c) && Enabled(c, Begin(p, change)) && b in c.servers && !HasAlready(c, p, b, change)
    requires c'.start == c.start && c'.founding == c.founding && c'.pending == Nothing
    requires c'.log == Resolved(c, p) + [Entry(change, true)]
    requires b in c'.servers && SameStuff(c, c', b)
    ensures !UpToDate(c', c'.servers[b])
  {
    ResolvedReplays(c, p);
    ReplayAppend(c.start, Resolved(c, p), Entry(change, true));
    PromisedAppend(c.founding, Resolved(c, p), Entry(change, true));
    assert Base(c') == Applied(c.servers[p].files, change);
    assert Owed(c') == Enrolled(Owed(c), change);
    if change.Enroll? { assert change.user in Owed(c'); }
  }

  /** A live backup the primary holds no link to, whose own list is right. */
  ghost predicate PassedOver(c: Cluster, p: Addr, b: Addr) {
    && LivePrimary(c, p) && Live(c, b) && !LivePrimary(c, b) && Id(c, b) !in c.servers[p].state.links
    && TrueLinks(c, c.servers[p].state) && Informs(c, c.servers[b].state.members)
    && (forall a :: a in c.servers ==> c.servers[a].state.me.addr == a)
  }

  /** A live server that is not linked when a change begins, and does not have it already,
      can be all that is left of the cluster: the acknowledged change is lost. */
  lemma PassedOverLoses(c: Cluster, p: Addr, change: Change, b: Addr) returns (es: seq<Event>)
    requires OneApart(c) && Enabled(c, Begin(p, change)) && PassedOver(c, p, b) && !HasAlready(c, p, b, change)
    ensures Possible(Begun(c, p, change), es) && AllPlain(es)
    ensures var c' := Run(Begun(c, p, change), es);
      c'.log == Resolved(c, p) + [Entry(change, true)] && LostAt(c', b, change)
  {
    var c0 := Begun(c, p, change);
    assert Passed(c0, p, b);
    var sends := ForwardAll(c0, p, b);
    var c1 := Run(c0, sends);
    var c2 := Next(c1, Acknowledge(p));
    var rest := LastOneLeads(c, c2, b);
    LeftBehind(c, p, change, b, Run(c2, rest));
    First(c1, Acknowledge(p), rest);
    Chain(c0, sends, [Acknowledge(p)] + rest);
    es := sends + ([Acknowledge(p)] + rest);
  }

  /** Everyone else crashes and `b` takes over with what it has. */
  lemma LastOneLeads(c: Cluster, c2: Cluster, b: Addr) returns (es: seq<Event>)
    requires Live(c, b) && !LivePrimary(c, b) && Informs(c, c.servers[b].state.members)
    requires b in c2.servers && c2.servers[b] == c.servers[b] && c2.pending.Nothing?
    ensures Possible(c2, es) && AllPlain(es)
    ensures var c' := Run(c2, es);
      LivePrimary(c', b) && SameStuff(c, c', b)
      && c'.pending == c2.pending && c'.log == c2.log && c'.start == c2.start && c'.founding == c2.founding
  {
    var crashes := CrashOthers(c2, {b}, c2.servers.Keys - {b});
    var c3 := Run(c2, crashes);
    NobodyAbove(c, c3, b);
    var win := TakesOver(c3, b);
    Chain(c2, crashes, win);
    es := crashes + win;
  }

  /** From the moment it begins, in every run that passes nobody live over, the change stays
      with whoever is primary. */
  ghost predicate Survives(c: Cluster, p: Addr, change: Change)
    requires p in c.servers
  {
    forall es, q :: SafeFrom(Begun(c, p, change), es) && LivePrimary(Run(Begun(c, p, change), es), q) ==>
      UpToDate(Run(Begun(c, p, change), es), Run(Begun(c, p, change), es).servers[q])
  }

  ghost predicate SafeFrom(c: Cluster, es: seq<Event>) {
    Possible(c, es) && AllSafe(c, es)
  }

  /** A change can be lost after it was acknowledged if and only if, when it began, some live
      server was neither linked nor had it already. */
  lemma ChangeSurvivesIff(c: Cluster, p: Addr, change: Change)
    requires Inv(c) && Enabled(c, Begin(p, change))
    ensures Survives(c, p, change) <==> ReachesWith(c, p, change)
  {
    var c0 := Begun(c, p, change);
    if ReachesWith(c, p, change) {
      ChangeStepInv(c, Begin(p, change));
      forall es, q | SafeFrom(c0, es) && LivePrimary(Run(c0, es), q) ensures UpToDate(Run(c0, es), Run(c0, es).servers[q]) {
        RunInv(c0, es);
      }
    } else {
      var b :| Live(c, b) && b != p && Id(c, b) !in c.servers[p].state.links && !HasAlready(c, p, b, change);
      assert PassedOver(c, p, b) by { if LivePrimary(c, b) { OnePrimary(c, p, b); } }
      var es := PassedOverLoses(c, p, change, b);
      PlainRunIsSafe(c0, es);
      assert SafeFrom(c0, es) && LivePrimary(Run(c0, es), b);
    }
  }

  /** What an attachment does to a live member that it cannot bring up to date. */
  ghost predicate Rebuffed(c: Cluster, p: Addr, a: Addr, c1: Cluster)
    requires p in c.servers && a in c.servers
  {
    var s := c.servers[p].state;
    && a != p && c1 == c.(servers := c1.servers) && c1.servers.Keys == c.servers.Keys
    && (forall b :: b in c.servers && b != a && b != p ==> c1.servers[b] == c.servers[b])
    && c1.servers[a] == c.servers[a].(state := Attached(c.servers[a].state, s.me, s.members))
    && c1.servers[p] == c.servers[p].(state := WithoutMember(s, Id(c, a)))
  }

  lemma RefusedIsRebuffed(c: Cluster, p: Addr, id: nat)
    requires Knowledge(c) && Enabled(c, Attach(p, id))
    requires Live(c, c.servers[p].state.members[id]) && !CanAttach(c, p, c.servers[p].state.members[id])
    ensures var a := c.servers[p].state.members[id]; Id(c, a) == id && Rebuffed(c, p, a, AttachTried(c, p, id))
  {
    assert Informs(c, c.servers[p].state.members);
  }

  lemma RebuffedContinues(c: Cluster, p: Addr, a: Addr, c1: Cluster)
    requires p in c.servers && a in c.servers && Rebuffed(c, p, a, c1)
    ensures Continues(c, c1)
  {
    forall b | b in c.servers ensures c1.servers[b].state.me == c.servers[b].state.me && (Live(c1, b) ==> Live(c, b)) {
      if b != a && b != p { assert c1.servers[b] == c.servers[b]; }
    }
  }

  lemma RebuffedIsPassedOver(c: Cluster, p: Addr, a: Addr, c1: Cluster)
    requires View(c) && LivePrimary(c, p) && Live(c, a) && Rebuffed(c, p, a, c1)
    requires Id(c, a) !in c.servers[p].state.links
    ensures PassedOver(c1, p, a)
  {
    RebuffedContinues(c, p, a, c1);
    assert Informs(c1, c1.servers[a].state.members) by {
      InformedInforms(c, c.servers[p].state.members, a);
      StillInforms(c, c1, c1.servers[a].state.members);
    }
    assert TrueLinks(c1, c1.servers[p].state) by { StillTrueLinks(c, c1, c.servers[p].state); }
  }

  lemma RebuffedKeepsStores(c: Cluster, p: Addr, a: Addr, c1: Cluster, change: Change)
    requires OneApart(c) && Enabled(c, Begin(p, change)) && Live(c, a) && Rebuffed(c, p, a, c1)
    ensures OneApart(c1) && Enabled(c1, Begin(p, change)) && HasAlready(c1, p, a, change) == HasAlready(c, p, a, change)
  {
    assert Base(c1) == Base(c) && Ahead(c1) == Ahead(c);
  }

  /** A live member whose manifest does not fit is dropped by the attachment that should have
      linked it; the next change it lacks can then be acknowledged and lost. */
  lemma TooLargeThenLost(c: Cluster, p: Addr, id: nat, change: Change) returns (es: seq<Event>)
    requires Inv(c) && Enabled(c, Attach(p, id)) && !Safe(c, Attach(p, id))
    requires id !in c.servers[p].state.links && Enabled(c, Begin(p, change))
    requires !HasAlready(c, p, c.servers[p].state.members[id], change)
    ensures Enabled(AttachTried(c, p, id), Begin(p, change))
    ensures Possible(Begun(AttachTried(c, p, id), p, change), es) && AllPlain(es)
    ensures var a, c' := c.servers[p].state.members[id], Run(Begun(AttachTried(c, p, id), p, change), es);
      LostAt(c', a, change)
  {
    var a, c1 := c.servers[p].state.members[id], AttachTried(c, p, id);
    RefusedIsRebuffed(c, p, id);
    RebuffedIsPassedOver(c, p, a, c1);
    RebuffedKeepsStores(c, p, a, c1, change);
    es := PassedOverLoses(c1, p, change, a);
  }

  /** The change was acknowledged last, and the primary at `b` does not have it. */
  ghost predicate LostAt(c: Cluster, b: Addr, change: Change) {
    && |c.log| > 0 && c.log[|c.log| - 1] == Entry(change, true)
    && LivePrimary(c, b) && !UpToDate(c, c.servers[b])
  }
}
