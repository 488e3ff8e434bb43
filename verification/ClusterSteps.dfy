/** What single steps achieve, and what a primary has once it has taken all of them: everyone
    linked, everyone told, and every change on every live server. */
module ClusterSteps {

  import opened Members
  import opened Sizes
  import opened Stores
  import opened ClusterRuns
  import opened ClusterSafety
  import opened ClusterFiles
  import opened ClusterTheorems
  import opened ClusterChanges
  import opened ClusterLeaders
  import Basics

  /* ---------------------------------------------------------------- single steps */

  /** A live server that is told of the leader becomes its backup. */
  lemma AnnouncementIsObeyed(c: Cluster, p: Addr, b: Addr)
    requires View(c) && Enabled(c, Announce(p, b)) && Live(c, b)
    ensures Live(Next(c, Announce(p, b)), b)
    ensures var s := Next(c, Announce(p, b)).servers[b].state; s.role == Backup && s.primary == c.servers[p].state.me
    ensures Id(c, b) < Id(c, p)
  {
    if Id(c, b) == Id(c, p) { DistinctIds(c, b, p); }
  }

  /** A live member that can be attached is linked afterwards: it is the primary's backup, with
      its files and all its accounts. */
  lemma AttachmentLinks(c: Cluster, p: Addr, id: nat)
    requires View(c) && Enabled(c, Attach(p, id)) && CanAttach(c, p, c.servers[p].state.members[id])
    ensures var a, c' := c.servers[p].state.members[id], Next(c, Attach(p, id));
      && LivePrimary(c', p) && c'.servers[p].state.members == c.servers[p].state.members
      && c'.servers[p].state.links == c.servers[p].state.links[id := a]
      && Live(c', a) && c'.servers[a].state.role == Backup && c'.servers[a].state.primary == c.servers[p].state.me
      && c'.servers[a].files == c.servers[p].files && Covers(c'.servers[a].accounts, c.servers[p].accounts)
  {
    assert Informs(c, c.servers[p].state.members);
  }

  /** A newcomer is linked from its first moment, under an id that nobody live has: it is the
      primary's backup, with its files and all its accounts, and knows whom it knows. */
  lemma JoinTakesIn(c: Cluster, e: Event)
    requires View(c) && Enabled(c, e) && e.Join?
    ensures var c', id := Next(c, e), AssignedId(c.servers[e.p].state, e.a);
      && LivePrimary(c', e.p) && c'.servers[e.p].state.members == c.servers[e.p].state.members[id := e.a]
      && c'.servers[e.p].state.links == c.servers[e.p].state.links[id := e.a]
      && Live(c', e.a) && Id(c', e.a) == id && forall b :: Live(c, b) ==> Id(c, b) > id
    ensures var s, s' := Next(c, e).servers[e.p], Next(c, e).servers[e.a];
      && s'.state.role == Backup && s'.state.primary == s.state.me && s'.state.members == s.state.members
      && s'.files == s.files && Covers(s'.accounts, s.accounts)
  {
    FreshId(c, e.p, e.a);
    assert Informs(c, c.servers[e.p].state.members);
    EnteringIds(c, e.p, e.a, e.accounts);
    EnteredState(c, e.p, e.a, e.accounts);
    ToldNewcomer(Entering(c, e.p, e.a, e.accounts), e.p, e.a);
  }

  lemma EnteredState(c: Cluster, p: Addr, a: Addr, own: Accounts)
    requires LivePrimary(c, p) && a !in c.servers
    ensures var c1, id := Entering(c, p, a, own), AssignedId(c.servers[p].state, a);
      && LivePrimary(c1, p) && c1.servers[p].state.me == c.servers[p].state.me
      && c1.servers[p].state.links == c.servers[p].state.links[id := a] && Live(c1, a)
      && c1.servers[p].files == c.servers[p].files && c1.servers[p].accounts == c.servers[p].accounts
      && c1.servers[a].state.role == Backup && c1.servers[a].state.primary == c.servers[p].state.me
      && c1.servers[a].state.me == Member(id, a)
      && c1.servers[a].files == c.servers[p].files && Covers(c1.servers[a].accounts, c.servers[p].accounts)
  {
  }

  lemma ToldNewcomer(c1: Cluster, p: Addr, a: Addr)
    requires LivePrimary(c1, p) && Live(c1, a) && a != p && c1.servers[a].state.me.addr == a
    requires Id(c1, a) in c1.servers[p].state.members && c1.servers[p].state.members[Id(c1, a)] == a
    requires Id(c1, a) in c1.servers[p].state.links && c1.servers[p].state.links[Id(c1, a)] == a
    ensures Told(c1, p).servers[p] == c1.servers[p]
    ensures Told(c1, p).servers[a] == c1.servers[a].(state := c1.servers[a].state.(members := c1.servers[p].state.members))
  {
    var ms := c1.servers[p].state.members;
    assert ms[Id(c1, a) := a] == ms;
  }

  /** A linked live backup has the primary's list once that was sent to it. */
  lemma TellInforms(c: Cluster, p: Addr, b: Addr)
    requires View(c) && Enabled(c, Tell(p, b)) && Live(c, b) && b != p && Id(c, b) in c.servers[p].state.links
    ensures Next(c, Tell(p, b)).servers[b].state.members == c.servers[p].state.members
  {
    assert Informs(c, c.servers[p].state.members) && TrueLinks(c, c.servers[p].state);
    assert c.servers[p].state.members[Id(c, b) := b] == c.servers[p].state.members;
  }

  /** A dead backup loses its link and its place on the list, and nobody else does. */
  lemma DropForgets(c: Cluster, p: Addr, id: nat)
    requires Enabled(c, Drop(p, id))
    ensures var s, s' := c.servers[p].state, Next(c, Drop(p, id)).servers[p].state;
      s'.links == s.links - {id} && s'.members == s.members - {id}
  {
  }

  lemma ForwardForgets(c: Cluster, p: Addr, b: Addr)
    requires Enabled(c, Forward(p, b)) && b in c.servers && !Live(c, b) && Id(c, b) in c.servers[p].state.links
    ensures var s, s' := c.servers[p].state, Next(c, Forward(p, b)).servers[p].state;
      s'.links == s.links - {Id(c, b)} && s'.members == s.members - {Id(c, b)}
  {
  }

  /** A candidate without a link is back on the list, where the primary can attach it. */
  lemma RelistLists(c: Cluster, p: Addr, b: Addr)
    requires Enabled(c, Relist(p, b)) && c.servers[b].state.me.addr == b
    ensures var s, s' := c.servers[p].state, Next(c, Relist(p, b)).servers[p].state;
      s'.members == s.members[Id(c, b) := b] && s'.lowest <= Id(c, b) && (s.lowest != 0 ==> s'.lowest <= s.lowest)
  {
  }

  /* ----------------------------------------------------------- no account is forgotten */

  ghost predicate AccountsGrow(c: Cluster, c': Cluster) {
    forall a :: a in c.servers ==> a in c'.servers && c.servers[a].accounts.Keys <= c'.servers[a].accounts.Keys
  }

  lemma ToldAccounts(c: Cluster, p: Addr)
    requires p in c.servers
    ensures Told(c, p).servers.Keys == c.servers.Keys
    ensures forall a :: a in c.servers ==> Told(c, p).servers[a].accounts == c.servers[a].accounts
  {
  }

  lemma EnteredAccounts(c: Cluster, p: Addr, s: State, a: Addr, newcomer: Server)
    requires p in c.servers && a !in c.servers
    ensures AccountsGrow(c, With(WithState(c, p, s), a, newcomer))
  {
  }

  lemma GrowTold(c: Cluster, c1: Cluster, p: Addr)
    requires AccountsGrow(c, c1) && p in c1.servers
    ensures AccountsGrow(c, Told(c1, p))
  {
    ToldAccounts(c1, p);
  }

  lemma JoinAccounts(c: Cluster, p: Addr, a: Addr, own: Accounts)
    requires p in c.servers && a !in c.servers
    ensures AccountsGrow(c, Told(Entering(c, p, a, own), p))
    ensures own.Keys <= Told(Entering(c, p, a, own), p).servers[a].accounts.Keys
  {
    var c1 := Entering(c, p, a, own);
    EnteredAccounts(c, p, c1.servers[p].state, a, c1.servers[a]);
    GrowTold(c, c1, p);
    ToldAccounts(c1, p);
  }

  lemma AttachAccounts(c: Cluster, p: Addr, id: nat)
    requires Enabled(c, Attach(p, id))
    ensures AccountsGrow(c, Next(c, Attach(p, id)))
  {
    AttachShape(c, p, id);
  }

  /** What an attachment may do to the servers: nothing to any but the two, and the one that is
      asked takes the primary for its own. */
  ghost predicate AttachedTo(c: Cluster, p: Addr, a: Addr, c': Cluster)
    requires p in c.servers
  {
    && c'.servers.Keys == c.servers.Keys
    && (forall b :: b in c.servers && b != a && b != p ==> c'.servers[b] == c.servers[b])
    && (a != p ==> c'.servers[p].state.primary == c.servers[p].state.primary)
    && c'.servers[p].state.me == c.servers[p].state.me && c'.servers[p].alive == c.servers[p].alive
    && c.servers[p].accounts.Keys <= c'.servers[p].accounts.Keys
    && (a in c.servers ==> c'.servers[a].alive == c.servers[a].alive && c.servers[a].accounts.Keys <= c'.servers[a].accounts.Keys)
    && (Live(c, a) ==> c'.servers[a].state.primary == c.servers[p].state.me)
  }

  lemma ReplicatedShape(c: Cluster, p: Addr, a: Addr)
    requires p in c.servers && a in c.servers
    ensures AttachedTo(c, p, a, Replicated(c, p, a))
  {
  }

  lemma RefusedShape(c: Cluster, p: Addr, a: Addr, id: nat)
    requires p in c.servers
    ensures var c1 := if Live(c, a) then Answering(c, p, a) else c;
      AttachedTo(c, p, a, WithState(c1, p, WithoutMember(c1.servers[p].state, id)))
  {
  }

  lemma AttachShape(c: Cluster, p: Addr, id: nat)
    requires Enabled(c, Attach(p, id))
    ensures AttachedTo(c, p, c.servers[p].state.members[id], AttachTried(c, p, id))
  {
    var a := c.servers[p].state.members[id];
    if CanAttach(c, p, a) { ReplicatedShape(c, p, a); } else { RefusedShape(c, p, a, id); }
  }

  lemma ChangeAccounts(c: Cluster, e: Event)
    requires Enabled(c, e) && (e.Begin? || e.Forward? || e.Acknowledge?)
    ensures AccountsGrow(c, Next(c, e))
  {
  }

  lemma StepAccounts(c: Cluster, e: Event)
    requires Enabled(c, e)
    ensures AccountsGrow(c, Next(c, e))
    ensures e.Join? ==> e.accounts.Keys <= Next(c, e).servers[e.a].accounts.Keys
  {
    if Quiet(e) {
      QuietSpares(c, e);
    } else if e.Join? {
      JoinAccounts(c, e.p, e.a, e.accounts);
    } else if e.Attach? {
      AttachAccounts(c, e.p, e.id);
    } else {
      ChangeAccounts(c, e);
    }
  }

  /** No server ever loses a user's account, nor does one that joins with accounts of its own. */
  lemma {:induction false} AccountsStay(c: Cluster, es: seq<Event>)
    requires Possible(c, es)
    ensures AccountsGrow(c, Run(c, es))
    decreases |es|
  {
    if es != [] {
      StepAccounts(c, es[0]);
      AccountsStay(Next(c, es[0]), es[1..]);
    }
  }

  /* -------------------------------------------------------------- everyone linked */

  /** A member the primary lists without a link to it. */
  predicate Lacks(c: Cluster, p: Addr, id: nat) {
    p in c.servers && LacksLink(c.servers[p].state, id)
  }

  predicate LacksLink(s: State, id: nat) {
    id in s.members && id != s.me.id && id !in s.links
  }

  lemma AttachLacks(c: Cluster, p: Addr, id: nat, other: nat)
    requires Inv(c) && Enabled(c, Attach(p, id)) && Safe(c, Attach(p, id))
    ensures Lacks(Next(c, Attach(p, id)), p, other) ==> Lacks(c, p, other) && other != id
  {
    var a := c.servers[p].state.members[id];
    assert Informs(c, c.servers[p].state.members);
    if Live(c, a) {
      AttachableIffFits(c, p, a);
      AttachmentLinks(c, p, id);
    }
  }

  lemma JoinLacks(c: Cluster, p: Addr, e: Event, id: nat)
    requires Enabled(c, e) && e.Join? && e.p == p
    ensures Lacks(Next(c, e), p, id) ==> Lacks(c, p, id)
  {
  }

  lemma ChangeLacks(c: Cluster, p: Addr, e: Event, id: nat)
    requires Enabled(c, e) && LivePrimary(c, p) && (e.Begin? || e.Forward? || e.Acknowledge?)
    ensures Lacks(Next(c, e), p, id) ==> Lacks(c, p, id)
  {
  }

  /** Nobody can conclude an election while there is a live primary. */
  lemma PrimaryIsAnswered(c: Cluster, p: Addr, a: Addr)
    requires View(c) && LivePrimary(c, p) && Enabled(c, Conclude(a))
    ensures c.servers[a].campaign.answered
  {
    if !c.servers[a].campaign.answered {
      UnansweredTops(c, a);
      ProbingIsBackup(c, a);
      if Id(c, a) == Id(c, p) { DistinctIds(c, a, p); }
    }
  }

  lemma CampaignLacks(c: Cluster, p: Addr, a: Addr, campaign: Campaign, id: nat)
    requires a in c.servers
    ensures Lacks(WithCampaign(c, a, campaign), p, id) ==> Lacks(c, p, id)
  {
  }

  lemma ElectionLacks(c: Cluster, p: Addr, e: Event, id: nat)
    requires View(c) && Enabled(c, e) && LivePrimary(c, p) && (e.Suspect? || e.Probe? || e.Conclude?)
    ensures Lacks(Next(c, e), p, id) ==> Lacks(c, p, id)
  {
    if e.Conclude? { PrimaryIsAnswered(c, p, e.a); }
    CampaignLacks(c, p, e.a, Next(c, e).servers[e.a].campaign, id);
  }

  lemma AnnouncedLacks(c: Cluster, p: Addr, b: Addr, id: nat)
    requires p in c.servers && b != p
    ensures Lacks(Announced(c, p, b), p, id) ==> Lacks(c, p, id)
  {
  }

  lemma ToldLacks(c: Cluster, p: Addr, b: Addr, id: nat)
    requires p in c.servers
    ensures Lacks(ToldSome(c, p, {b}), p, id) ==> Lacks(c, p, id)
  {
  }

  lemma CrashedLacks(c: Cluster, p: Addr, a: Addr, id: nat)
    requires a in c.servers
    ensures Lacks(Crashed(c, a), p, id) ==> Lacks(c, p, id)
  {
  }

  lemma QuietLacks(c: Cluster, p: Addr, e: Event, id: nat)
    requires View(c) && Enabled(c, e) && Quiet(e) && LivePrimary(c, p)
    ensures Lacks(Next(c, e), p, id) ==> Lacks(c, p, id)
  {
    match e
    case Announce(q, b) => OnePrimary(c, p, q); AnnouncedLacks(c, p, b, id);
    case Relist(q, b) => RelistedSame(c, q, b);
    case Tell(q, b) => OnePrimary(c, p, q); ToldLacks(c, p, b, id);
    case Crash(a) => CrashedLacks(c, p, a, id);
    case Drop(q, i) => OnePrimary(c, p, q); DropForgets(c, p, i);
    case _ => ElectionLacks(c, p, e, id);
  }

  lemma StepLacks(c: Cluster, p: Addr, e: Event, id: nat)
    requires Inv(c) && Enabled(c, e) && Safe(c, e) && LivePrimary(c, p)
    ensures Lacks(Next(c, e), p, id) ==> Lacks(c, p, id) && e != Attach(p, id)
  {
    if Quiet(e) {
      QuietLacks(c, p, e, id);
    } else if e.Attach? {
      OnePrimary(c, p, e.p);
      AttachLacks(c, p, e.id, id);
    } else if e.Join? {
      OnePrimary(c, p, e.p);
      JoinLacks(c, p, e, id);
    } else {
      ChangeLacks(c, p, e, id);
    }
  }

  lemma {:induction false} RunStays(c: Cluster, p: Addr, es: seq<Event>)
    requires Inv(c) && LivePrimary(c, p) && SafeFrom(c, es) && Crash(p) !in es
    ensures LivePrimary(Run(c, es), p)
    decreases |es|
  {
    if es != [] {
      assert es[0] in es && forall e :: e in es[1..] ==> e in es;
      StepInv(c, es[0]);
      PrimaryStays(c, es[0], p);
      RunStays(Next(c, es[0]), p, es[1..]);
    }
  }

  lemma {:induction false} RunLacks(c: Cluster, p: Addr, es: seq<Event>, id: nat)
    requires Inv(c) && LivePrimary(c, p) && SafeFrom(c, es) && Crash(p) !in es && Lacks(Run(c, es), p, id)
    ensures Lacks(c, p, id) && Attach(p, id) !in es
    decreases |es|
  {
    if es != [] {
      assert es[0] in es && forall e :: e in es <==> e == es[0] || e in es[1..];
      StepInv(c, es[0]);
      PrimaryStays(c, es[0], p);
      RunLacks(Next(c, es[0]), p, es[1..], id);
      StepLacks(c, p, es[0], id);
    }
  }

  /** The primary at `p` is linked to everyone on its list and to every live server. */
  ghost predicate HasAll(c: Cluster, p: Addr) {
    LivePrimary(c, p) && Settled(c.servers[p].state) && Reaches(c, p)
  }

  /** Once a primary has tried to attach every member it lists, it is linked to everyone on its
      list and to every live server: after any safe run in which it does not crash, whatever
      else happens in it. */
  lemma TakeOverLinksAll(c: Cluster, p: Addr, es: seq<Event>)
    requires Inv(c) && LivePrimary(c, p) && SafeFrom(c, es) && Crash(p) !in es
    requires forall id :: Lacks(c, p, id) ==> Attach(p, id) in es
    ensures HasAll(Run(c, es), p)
  {
    RunStays(c, p, es);
    RunInv(c, es);
    var s := Run(c, es).servers[p].state;
    forall id | id in s.members ensures id == s.me.id || id in s.links {
      if Lacks(Run(c, es), p, id) { RunLacks(c, p, es, id); }
    }
    SettledReaches(Run(c, es), p);
  }

  ghost function Lacking(c: Cluster, p: Addr): set<nat>
    requires p in c.servers
  {
    set id | id in c.servers[p].state.members && Lacks(c, p, id)
  }

  /** The manifests of all live members without a link fit. */
  ghost predicate LackingFit(c: Cluster, p: Addr)
    requires p in c.servers
  {
    forall id :: id in Lacking(c, p) ==>
      var a := c.servers[p].state.members[id]; Live(c, a) ==> FitsFrame(c.servers[a].files, c.servers[a].accounts)
  }

  lemma OthersStillLack(c: Cluster, p: Addr, id: nat, other: nat)
    requires Inv(c) && Enabled(c, Attach(p, id)) && Safe(c, Attach(p, id)) && other in Lacking(Next(c, Attach(p, id)), p)
    ensures var c', ms := Next(c, Attach(p, id)), c.servers[p].state.members;
      && other in Lacking(c, p) - {id} && c'.servers[p].state.members[other] == ms[other]
      && (Live(c', ms[other]) ==> Live(c, ms[other]) && c'.servers[ms[other]] == c.servers[ms[other]])
  {
    AttachLacks(c, p, id, other);
    AttachShape(c, p, id);
    var ms := c.servers[p].state.members;
    assert Informs(c, ms);
    SameListed(c, p, id, other);
  }

  lemma SameListed(c: Cluster, p: Addr, id: nat, other: nat)
    requires Enabled(c, Attach(p, id)) && c.servers[p].state.members[id] != p
    requires other in AttachTried(c, p, id).servers[p].state.members
    ensures other in c.servers[p].state.members
    ensures AttachTried(c, p, id).servers[p].state.members[other] == c.servers[p].state.members[other]
  {
  }

  lemma AttachingLeavesOthers(c: Cluster, p: Addr, id: nat)
    requires Inv(c) && Enabled(c, Attach(p, id)) && Safe(c, Attach(p, id)) && LackingFit(c, p)
    ensures var c' := Next(c, Attach(p, id)); p in c'.servers && Lacking(c', p) <= Lacking(c, p) - {id} && LackingFit(c', p)
  {
    var c' := Next(c, Attach(p, id));
    AttachShape(c, p, id);
    forall other | other in Lacking(c', p)
      ensures other in Lacking(c, p) - {id}
      ensures var a := c'.servers[p].state.members[other]; Live(c', a) ==> FitsFrame(c'.servers[a].files, c'.servers[a].accounts)
    {
      OthersStillLack(c, p, id, other);
    }
  }

  /** Attachments by `p` and nothing else, each of another one of the members `ids`. */
  predicate OnceEach(es: seq<Event>, p: Addr, ids: set<nat>) {
    && (forall e :: e in es ==> e.Attach? && e.p == p && e.id in ids)
    && forall i, j :: 0 <= i < j < |es| ==> es[i] != es[j]
  }

  lemma OneMoreOnce(es: seq<Event>, p: Addr, id: nat, rest: set<nat>, ids: set<nat>)
    requires OnceEach(es, p, rest) && rest <= ids - {id} && id in ids
    ensures OnceEach([Attach(p, id)] + es, p, ids)
  {
    forall i | 0 <= i < |es| ensures es[i] != Attach(p, id) { assert es[i] in es; }
  }

  lemma NoneLacking(c: Cluster, p: Addr)
    requires Inv(c) && LivePrimary(c, p) && Lacking(c, p) == {}
    ensures HasAll(c, p)
  {
    assert forall id :: Lacks(c, p, id) <==> id in Lacking(c, p);
    TakeOverLinksAll(c, p, []);
  }

  lemma AttachingOne(c: Cluster, p: Addr, id: nat)
    requires Inv(c) && LivePrimary(c, p) && !c.pending.InFlight? && LackingFit(c, p) && id in Lacking(c, p)
    ensures Enabled(c, Attach(p, id)) && Prudent(c, Attach(p, id))
    ensures var c' := Next(c, Attach(p, id));
      && Inv(c') && LivePrimary(c', p) && !c'.pending.InFlight? && LackingFit(c', p) && Lacking(c', p) <= Lacking(c, p) - {id}
  {
    StepInv(c, Attach(p, id));
    PrimaryStays(c, Attach(p, id), p);
    AttachingLeavesOthers(c, p, id);
  }

  /** Such a run exists, and does nothing but that. */
  lemma {:induction false} TakesEveryoneIn(c: Cluster, p: Addr) returns (es: seq<Event>)
    requires Inv(c) && LivePrimary(c, p) && !c.pending.InFlight? && LackingFit(c, p)
    ensures PrudentFrom(c, es) && OnceEach(es, p, Lacking(c, p)) && HasAll(Run(c, es), p)
    decreases |Lacking(c, p)|
  {
    if Lacking(c, p) == {} {
      es := [];
      NoneLacking(c, p);
    } else {
      var id :| id in Lacking(c, p);
      var c1 := Next(c, Attach(p, id));
      AttachingOne(c, p, id);
      Basics.SubsetSize(Lacking(c1, p), Lacking(c, p) - {id});
      var more := TakesEveryoneIn(c1, p);
      OnePrudent(c, Attach(p, id), more);
      OneMoreOnce(more, p, id, Lacking(c1, p), Lacking(c, p));
      es := [Attach(p, id)] + more;
    }
  }

  /** The file is there with these contents, or gone, or the account is there with this record. */
  predicate Shows(s: Server, change: Change) {
    match change
    case Put(key, digest) => key in s.files && s.files[key] == digest
    case Delete(key) => key !in s.files
    case Enroll(user, record) => user in s.accounts && s.accounts[user] == record
  }

  /** The files are the same but for the one that was changed. */
  predicate Spared(before: Files, after: Files, change: Change) {
    forall key :: key in before.Keys + after.Keys && (change.Enroll? || key != change.key) ==>
      key in before && key in after && before[key] == after[key]
  }

  lemma AppliedShows(before: Files, s: Server, change: Change)
    requires s.files == Applied(before, change) && Has(s.accounts, change)
    ensures Shows(s, change) && Spared(before, s.files, change)
  {
  }

  /** A change begun at a primary that is linked to everyone shows on every live server when it
      is acknowledged, and nothing but that change. */
  lemma LinkedChangeIsEverywhere(c: Cluster, p: Addr, change: Change, es: seq<Event>)
    requires Inv(c) && LivePrimary(c, p) && Reaches(c, p) && Enabled(c, Begin(p, change)) && AllGoOn(es, p)
    requires Possible(Begun(c, p, change), es) && Enabled(Run(Begun(c, p, change), es), Acknowledge(p))
    ensures var c' := Next(Run(Begun(c, p, change), es), Acknowledge(p));
      forall b :: Live(c', b) ==> Shows(c'.servers[b], change) && Spared(c.servers[p].files, c'.servers[b].files, change)
  {
    var c1 := Run(Begun(c, p, change), es);
    BeginsUnderway(c, p, change);
    BegunView(c, p, change);
    InvMirrors(c);
    StaysUnderway(c, p, change, Begun(c, p, change), es);
    forall b | Live(c1, b) ensures Shows(c1.servers[b], change) && Spared(c.servers[p].files, c1.servers[b].files, change) {
      if b != p { GotIff(c, p, change, c1, b); }
      AppliedShows(c.servers[p].files, c1.servers[b], change);
    }
  }

  /** So it is after a take-over that has attached everyone. */
  lemma TakeOverThenChange(c: Cluster, p: Addr, es: seq<Event>, change: Change, sends: seq<Event>)
    requires Inv(c) && LivePrimary(c, p) && SafeFrom(c, es) && Crash(p) !in es
    requires forall id :: Lacks(c, p, id) ==> Attach(p, id) in es
    requires Enabled(Run(c, es), Begin(p, change)) && AllGoOn(sends, p)
    requires Possible(Begun(Run(c, es), p, change), sends) && Enabled(Run(Begun(Run(c, es), p, change), sends), Acknowledge(p))
    ensures var c1 := Run(c, es);
      var c' := Next(Run(Begun(c1, p, change), sends), Acknowledge(p));
      forall b :: Live(c', b) ==> Shows(c'.servers[b], change) && Spared(c1.servers[p].files, c'.servers[b].files, change)
  {
    TakeOverLinksAll(c, p, es);
    RunInv(c, es);
    LinkedChangeIsEverywhere(Run(c, es), p, change, sends);
  }

  /* ---------------------------------------------------------------- everyone told */

  /** The server at `b` takes the one at `p` for the primary. */
  predicate Follows(c: Cluster, p: Addr, b: Addr) {
    p in c.servers && b in c.servers && c.servers[b].state.primary == c.servers[p].state.me
  }

  lemma AttachFollowers(c: Cluster, p: Addr, id: nat, b: Addr)
    requires View(c) && Enabled(c, Attach(p, id)) && Live(Next(c, Attach(p, id)), b)
    ensures Live(c, b) && (Follows(c, p, b) ==> Follows(Next(c, Attach(p, id)), p, b))
  {
    assert c.servers[p].state.members[id] != p by { assert Informs(c, c.servers[p].state.members); }
    AttachShape(c, p, id);
  }

  lemma JoinFollowers(c: Cluster, p: Addr, e: Event, b: Addr)
    requires Enabled(c, e) && e.Join? && e.p == p && Live(Next(c, e), b)
    ensures (Live(c, b) ==> Follows(c, p, b)) ==> Follows(Next(c, e), p, b)
  {
  }

  lemma ChangeFollowers(c: Cluster, p: Addr, e: Event, b: Addr)
    requires Enabled(c, e) && (e.Begin? || e.Forward? || e.Acknowledge?) && Live(Next(c, e), b)
    ensures Live(c, b) && (Follows(c, p, b) ==> Follows(Next(c, e), p, b))
  {
  }

  lemma ElectionFollowers(c: Cluster, p: Addr, e: Event, b: Addr)
    requires View(c) && Enabled(c, e) && LivePrimary(c, p) && (e.Suspect? || e.Probe? || e.Conclude?) && Live(Next(c, e), b)
    ensures Live(c, b) && (Follows(c, p, b) ==> Follows(Next(c, e), p, b))
  {
    if e.Conclude? { PrimaryIsAnswered(c, p, e.a); }
    CampaignFollowers(c, p, e.a, Next(c, e).servers[e.a].campaign, b);
  }

  lemma CampaignFollowers(c: Cluster, p: Addr, a: Addr, campaign: Campaign, b: Addr)
    requires a in c.servers && Live(WithCampaign(c, a, campaign), b)
    ensures Live(c, b) && (Follows(c, p, b) ==> Follows(WithCampaign(c, a, campaign), p, b))
  {
  }

  lemma StateFollowers(c: Cluster, p: Addr, a: Addr, s: State, b: Addr)
    requires p in c.servers && a in c.servers && a != p && s.primary == c.servers[p].state.me && Live(WithState(c, a, s), b)
    ensures Live(c, b) && (Follows(c, p, b) || a == b ==> Follows(WithState(c, a, s), p, b))
  {
  }

  lemma AnnouncedFollowers(c: Cluster, p: Addr, a: Addr, b: Addr)
    requires View(c) && Enabled(c, Announce(p, a)) && Live(Announced(c, p, a), b)
    ensures Live(c, b) && (Follows(c, p, b) || a == b ==> Follows(Announced(c, p, a), p, b))
  {
    if Live(c, a) {
      AnnouncementIsObeyed(c, p, a);
      StateFollowers(c, p, a, Coordinated(c.servers[a].state, c.servers[p].state.me), b);
    }
  }

  lemma ToldFollowers(c: Cluster, q: Addr, p: Addr, a: Addr, b: Addr)
    requires q in c.servers && Live(ToldSome(c, q, {a}), b)
    ensures Live(c, b) && (Follows(c, p, b) ==> Follows(ToldSome(c, q, {a}), p, b))
  {
  }

  lemma CrashedFollowers(c: Cluster, p: Addr, a: Addr, b: Addr)
    requires a in c.servers && Live(Crashed(c, a), b)
    ensures Live(c, b) && (Follows(c, p, b) ==> Follows(Crashed(c, a), p, b))
  {
  }

  lemma DroppedFollowers(c: Cluster, q: Addr, p: Addr, id: nat, b: Addr)
    requires q in c.servers && Live(Dropped(c, q, id), b)
    ensures Live(c, b) && (Follows(c, p, b) ==> Follows(Dropped(c, q, id), p, b))
  {
  }

  lemma MessageFollowers(c: Cluster, p: Addr, e: Event, b: Addr)
    requires View(c) && Enabled(c, e) && LivePrimary(c, p) && Live(Next(c, e), b) && (e.Announce? || e.Relist? || e.Tell?)
    ensures Live(c, b) && (Follows(c, p, b) || e == Announce(p, b) ==> Follows(Next(c, e), p, b))
  {
    match e
    case Announce(q, a) => OnePrimary(c, p, q); AnnouncedFollowers(c, p, a, b);
    case Relist(q, a) => RelistedSame(c, q, a);
    case Tell(q, a) => ToldFollowers(c, q, p, a, b);
  }

  lemma QuietFollowers(c: Cluster, p: Addr, e: Event, b: Addr)
    requires View(c) && Enabled(c, e) && Quiet(e) && LivePrimary(c, p) && Live(Next(c, e), b)
    ensures Live(c, b) && (Follows(c, p, b) || e == Announce(p, b) ==> Follows(Next(c, e), p, b))
  {
    match e
    case Crash(a) => CrashedFollowers(c, p, a, b);
    case Drop(q, id) => DroppedFollowers(c, q, p, id, b);
    case Suspect(_) => ElectionFollowers(c, p, e, b);
    case Probe(_, _) => ElectionFollowers(c, p, e, b);
    case Conclude(_) => ElectionFollowers(c, p, e, b);
    case _ => MessageFollowers(c, p, e, b);
  }

  lemma StepFollowers(c: Cluster, p: Addr, e: Event, b: Addr)
    requires View(c) && Enabled(c, e) && LivePrimary(c, p) && Live(Next(c, e), b)
    ensures (Live(c, b) ==> Follows(c, p, b)) || e == Announce(p, b) ==> Follows(Next(c, e), p, b)
  {
    if Quiet(e) {
      QuietFollowers(c, p, e, b);
    } else if e.Attach? {
      OnePrimary(c, p, e.p);
      AttachFollowers(c, p, e.id, b);
    } else if e.Join? {
      OnePrimary(c, p, e.p);
      JoinFollowers(c, p, e, b);
    } else {
      ChangeFollowers(c, p, e, b);
    }
  }

  lemma {:induction false} RunFollowers(c: Cluster, p: Addr, es: seq<Event>, b: Addr)
    requires Inv(c) && LivePrimary(c, p) && SafeFrom(c, es) && Crash(p) !in es && Live(Run(c, es), b)
    requires (Live(c, b) ==> Follows(c, p, b)) || Announce(p, b) in es
    ensures Follows(Run(c, es), p, b)
    decreases |es|
  {
    if es != [] {
      var c1 := Next(c, es[0]);
      assert es[0] in es && forall e :: e in es <==> e == es[0] || e in es[1..];
      StepInv(c, es[0]);
      PrimaryStays(c, es[0], p);
      if Live(c1, b) { StepFollowers(c, p, es[0], b); }
      RunFollowers(c1, p, es[1..], b);
    }
  }

  /** Once a primary has announced itself to every member it lists, every live server takes it
      for the primary, newcomers included; and that stays so until it crashes. */
  lemma TakeOverIsKnown(c: Cluster, p: Addr, es: seq<Event>)
    requires Inv(c) && LivePrimary(c, p) && SafeFrom(c, es) && Crash(p) !in es
    requires forall id :: id in c.servers[p].state.members && id != Id(c, p) ==> Announce(p, c.servers[p].state.members[id]) in es
    ensures LivePrimary(Run(c, es), p)
    ensures forall b :: Live(Run(c, es), b) ==> Follows(Run(c, es), p, b) && (b != p ==> !LivePrimary(Run(c, es), b))
  {
    RunStays(c, p, es);
    RunInv(c, es);
    forall b | Live(Run(c, es), b) ensures Follows(Run(c, es), p, b) && (b != p ==> !LivePrimary(Run(c, es), b)) {
      if Live(c, b) && b != p {
        assert Informs(c, c.servers[p].state.members);
        if Id(c, b) == Id(c, p) { DistinctIds(c, b, p); }
      }
      RunFollowers(c, p, es, b);
      if LivePrimary(Run(c, es), b) { OnePrimary(Run(c, es), p, b); }
    }
  }
}
