module ClusterSafety {

  import opened Members
  import opened Stores
  import opened ClusterRuns

  /** A member list that names only real servers, and every live one. */
  ghost predicate Informs(c: Cluster, ms: MemberMap) {
    && (forall id :: id in ms ==> id != 0 && ms[id] in c.servers && Id(c, ms[id]) == id)
    && (forall b :: Live(c, b) ==> Id(c, b) in ms && ms[Id(c, b)] == b)
  }

  /** Every live server knows every live server. */
  ghost predicate Knowledge(c: Cluster) {
    && (forall a :: a in c.servers ==> c.servers[a].state.me.addr == a)
    && (forall a :: Live(c, a) ==> Informs(c, c.servers[a].state.members))
  }

  /** No live server has a higher id. */
  ghost predicate Tops(c: Cluster, id: nat) {
    forall a :: Live(c, a) ==> Id(c, a) <= id
  }

  ghost predicate Ranks(c: Cluster) {
    && (forall p :: LivePrimary(c, p) ==> Tops(c, Id(c, p)) && c.servers[p].campaign.Idle?)
    && (forall p :: LivePrimary(c, p) ==> c.servers[p].state.primary == c.servers[p].state.me)
    && (forall a :: Live(c, a) && !LivePrimary(c, a) ==>
          c.servers[a].state.primary.id > Id(c, a) && c.servers[a].state.links == map[])
  }

  /** Every live server above `id` is still to be asked. */
  ghost predicate Asks(c: Cluster, id: nat, todo: MemberMap) {
    forall b :: Live(c, b) && Id(c, b) > id ==> Id(c, b) in todo && todo[Id(c, b)] == b
  }

  /** Whoever is about to win an election has asked every live server above it. */
  ghost predicate Campaigns(c: Cluster) {
    forall a :: Live(c, a) && c.servers[a].campaign.Probing? && !c.servers[a].campaign.answered ==>
      Asks(c, Id(c, a), c.servers[a].campaign.todo)
  }

  /** New ids come out below every id the primary knows or holds a link for. */
  ghost predicate Counter(s: State) {
    && s.lowest != 0
    && (forall id :: id in s.members ==> s.lowest <= id)
    && (forall id :: id in s.links ==> s.lowest <= id)
  }

  ghost predicate TrueLinks(c: Cluster, s: State) {
    && (forall id :: id in s.links ==> s.links[id] in c.servers && Id(c, s.links[id]) == id)
    && (forall a :: Live(c, a) && Id(c, a) in s.links ==> s.links[Id(c, a)] == a)
  }

  ghost predicate Leads(c: Cluster) {
    forall p :: LivePrimary(c, p) ==> Counter(c.servers[p].state) && TrueLinks(c, c.servers[p].state)
  }

  ghost predicate View(c: Cluster) {
    Knowledge(c) && Ranks(c) && Campaigns(c) && Leads(c)
  }

  lemma DistinctIds(c: Cluster, a: Addr, b: Addr)
    requires Knowledge(c) && Live(c, a) && Live(c, b) && Id(c, a) == Id(c, b)
    ensures a == b
  {
    assert Informs(c, c.servers[a].state.members);
  }

  lemma OnePrimary(c: Cluster, p: Addr, q: Addr)
    requires Knowledge(c) && Ranks(c) && LivePrimary(c, p) && LivePrimary(c, q)
    ensures p == q
  {
    DistinctIds(c, p, q);
  }

  /* ------------------------------------------------------- what steps leave alone */

  /** The same servers, none of them back from the dead. */
  ghost predicate Continues(c: Cluster, c': Cluster) {
    && c.servers.Keys == c'.servers.Keys
    && (forall a :: a in c.servers ==> c'.servers[a].state.me == c.servers[a].state.me)
    && (forall a :: Live(c', a) ==> Live(c, a))
  }

  lemma StillInforms(c: Cluster, c': Cluster, ms: MemberMap)
    requires Continues(c, c') && Informs(c, ms)
    ensures Informs(c', ms)
  {
  }

  lemma InformedInforms(c: Cluster, ms: MemberMap, a: Addr)
    requires Informs(c, ms) && Live(c, a) && c.servers[a].state.me.addr == a
    ensures Informs(c, ms[Id(c, a) := a])
  {
    assert ms[Id(c, a) := a] == ms;
  }

  lemma WithoutDeadInforms(c: Cluster, ms: MemberMap, id: nat)
    requires Informs(c, ms) && forall b :: Live(c, b) ==> Id(c, b) != id
    ensures Informs(c, ms - {id})
  {
  }

  /** Member lists that stay, or are replaced by ones that inform, keep the knowledge. */
  lemma KnowledgeKept(c: Cluster, c': Cluster)
    requires Knowledge(c) && Continues(c, c')
    requires forall a :: Live(c', a) ==>
      c'.servers[a].state.members == c.servers[a].state.members || Informs(c, c'.servers[a].state.members)
    ensures Knowledge(c')
  {
    forall a | Live(c', a) ensures Informs(c', c'.servers[a].state.members) {
      StillInforms(c, c', c'.servers[a].state.members);
    }
  }

  /** Ranks and campaigns survive steps that leave roles, primaries and campaigns alone. */
  lemma RanksKept(c: Cluster, c': Cluster)
    requires Ranks(c) && Campaigns(c) && Continues(c, c')
    requires forall a :: Live(c', a) ==>
      && c'.servers[a].campaign == c.servers[a].campaign
      && c'.servers[a].state.role == c.servers[a].state.role
      && c'.servers[a].state.primary == c.servers[a].state.primary
      && (!LivePrimary(c, a) ==> c'.servers[a].state.links == c.servers[a].state.links)
    ensures Ranks(c') && Campaigns(c')
  {
  }

  lemma StillTrueLinks(c: Cluster, c': Cluster, s: State)
    requires Continues(c, c') && TrueLinks(c, s)
    ensures TrueLinks(c', s)
  {
  }

  /** Steps that touch only files, the log and election threads leave the views as they are. */
  lemma StatesKept(c: Cluster, c': Cluster)
    requires View(c) && Continues(c, c') && Campaigns(c')
    requires forall a :: Live(c', a) ==>
      c'.servers[a].state == c.servers[a].state && (LivePrimary(c', a) ==> c'.servers[a].campaign.Idle?)
    ensures View(c')
  {
    KnowledgeKept(c, c');
    forall p | LivePrimary(c', p) ensures TrueLinks(c', c'.servers[p].state) {
      StillTrueLinks(c, c', c.servers[p].state);
    }
  }

  lemma ToldLeads(c: Cluster, c1: Cluster, p: Addr, heard: set<Addr>)
    requires Knowledge(c) && Ranks(c) && LivePrimary(c, p) && Live(c1, p)
    requires Counter(c1.servers[p].state) && TrueLinks(c1, c1.servers[p].state)
    requires forall q :: LivePrimary(c1, q) ==> LivePrimary(c, q)
    ensures Leads(ToldSome(c1, p, heard))
  {
    var c' := ToldSome(c1, p, heard);
    StillTrueLinks(c1, c', c1.servers[p].state);
    forall q | LivePrimary(c', q) ensures q == p {
      assert LivePrimary(c1, q);
      OnePrimary(c, p, q);
    }
  }

  lemma ToldRanks(c: Cluster, p: Addr, heard: set<Addr>)
    requires Ranks(c) && Campaigns(c) && p in c.servers
    ensures Ranks(ToldSome(c, p, heard)) && Campaigns(ToldSome(c, p, heard))
  {
    RanksKept(c, ToldSome(c, p, heard));
  }

  lemma ToldContinues(c: Cluster, p: Addr, heard: set<Addr>)
    requires p in c.servers
    ensures Continues(c, ToldSome(c, p, heard)) && Continues(ToldSome(c, p, heard), c)
  {
  }

  lemma ToldMembers(c: Cluster, p: Addr, heard: set<Addr>, a: Addr)
    requires Knowledge(c) && Live(c, p) && Live(c, a)
    ensures Informs(c, ToldSome(c, p, heard).servers[a].state.members)
  {
    InformedInforms(c, c.servers[p].state.members, a);
  }

  lemma ToldKnowledge(c: Cluster, p: Addr, heard: set<Addr>)
    requires Knowledge(c) && Live(c, p)
    ensures Knowledge(ToldSome(c, p, heard))
  {
    var c' := ToldSome(c, p, heard);
    ToldContinues(c, p, heard);
    forall a | Live(c', a) ensures Informs(c, c'.servers[a].state.members) { ToldMembers(c, p, heard, a); }
    KnowledgeKept(c, c');
  }

  lemma ToldView(c: Cluster, p: Addr, heard: set<Addr>)
    requires View(c) && LivePrimary(c, p)
    ensures View(ToldSome(c, p, heard)) && Continues(c, ToldSome(c, p, heard)) && Continues(ToldSome(c, p, heard), c)
  {
    ToldContinues(c, p, heard);
    ToldKnowledge(c, p, heard);
    ToldRanks(c, p, heard);
    ToldLeads(c, c, p, heard);
  }

  /** What the view at `a` must satisfy for the cluster's views to fit together. */
  ghost predicate Fits(c: Cluster, a: Addr, s: State)
    requires a in c.servers
  {
    && s.me == c.servers[a].state.me && s.role == c.servers[a].state.role
    && Informs(c, s.members)
    && (s.role == Backup ==> s.primary.id > s.me.id && s.links == map[])
    && (s.role == Primary ==> s.primary == s.me && Counter(s) && TrueLinks(c, s))
  }

  lemma OneStateRanks(c: Cluster, a: Addr, s: State)
    requires Ranks(c) && Campaigns(c) && Live(c, a) && Fits(c, a, s)
    ensures Ranks(WithState(c, a, s))
  {
  }

  lemma OneStateCampaigns(c: Cluster, a: Addr, s: State)
    requires Ranks(c) && Campaigns(c) && Live(c, a) && Fits(c, a, s)
    ensures Campaigns(WithState(c, a, s))
  {
  }

  lemma OneStateLeads(c: Cluster, a: Addr, s: State)
    requires Leads(c) && Live(c, a) && Fits(c, a, s)
    ensures Leads(WithState(c, a, s))
  {
    var c' := WithState(c, a, s);
    forall p | LivePrimary(c', p) ensures Counter(c'.servers[p].state) && TrueLinks(c', c'.servers[p].state) {
      StillTrueLinks(c, c', c'.servers[p].state);
    }
  }

  lemma OneStateKnowledge(c: Cluster, a: Addr, s: State)
    requires Knowledge(c) && Live(c, a) && Fits(c, a, s)
    ensures Knowledge(WithState(c, a, s))
  {
    KnowledgeKept(c, WithState(c, a, s));
  }

  lemma OneStateView(c: Cluster, a: Addr, s: State)
    requires View(c) && Live(c, a) && Fits(c, a, s)
    ensures View(WithState(c, a, s))
  {
    OneStateKnowledge(c, a, s);
    OneStateRanks(c, a, s);
    OneStateCampaigns(c, a, s);
    OneStateLeads(c, a, s);
  }

  /** The primary's own list and links shrink by an entry no live server is under. */
  lemma ForgottenView(c: Cluster, p: Addr, id: nat, links: MemberMap)
    requires View(c) && LivePrimary(c, p)
    requires forall b :: Live(c, b) ==> Id(c, b) != id
    requires forall i :: i in links ==> i in c.servers[p].state.links && links[i] == c.servers[p].state.links[i]
    requires forall i :: i in c.servers[p].state.links ==> i in links || i == id
    ensures View(WithState(c, p, WithoutMember(c.servers[p].state, id).(links := links)))
  {
    WithoutDeadInforms(c, c.servers[p].state.members, id);
    OneStateView(c, p, WithoutMember(c.servers[p].state, id).(links := links));
  }

  lemma DroppedView(c: Cluster, p: Addr, id: nat)
    requires View(c) && LivePrimary(c, p)
    requires id in c.servers[p].state.links ==> forall b :: Live(c, b) ==> Id(c, b) != id
    ensures View(Dropped(c, p, id))
  {
    var s := c.servers[p].state;
    if id in s.links {
      ForgottenView(c, p, id, s.links - {id});
    } else {
      assert WithState(c, p, s) == c;
    }
  }

  /* ------------------------------------------------- one step at a time: views */

  lemma CrashView(c: Cluster, a: Addr)
    requires View(c) && Live(c, a)
    ensures View(Crashed(c, a))
  {
    StatesKept(c, Crashed(c, a));
  }

  lemma CampaignRanks(c: Cluster, a: Addr, campaign: Campaign)
    requires Ranks(c) && Campaigns(c) && Live(c, a) && (LivePrimary(c, a) ==> campaign.Idle?)
    requires campaign.Probing? && !campaign.answered ==> Asks(c, Id(c, a), campaign.todo)
    ensures Ranks(WithCampaign(c, a, campaign)) && Campaigns(WithCampaign(c, a, campaign))
  {
    var c' := WithCampaign(c, a, campaign);
    forall p | LivePrimary(c', p) ensures LivePrimary(c, p) && Tops(c', Id(c', p)) { assert Tops(c, Id(c, p)); }
    CampaignAsks(c, a, campaign);
  }

  lemma CampaignAsks(c: Cluster, a: Addr, campaign: Campaign)
    requires Campaigns(c) && Live(c, a)
    requires campaign.Probing? && !campaign.answered ==> Asks(c, Id(c, a), campaign.todo)
    ensures Campaigns(WithCampaign(c, a, campaign))
  {
    var c' := WithCampaign(c, a, campaign);
    forall b | Live(c', b) && c'.servers[b].campaign.Probing? && !c'.servers[b].campaign.answered
      ensures Asks(c', Id(c', b), c'.servers[b].campaign.todo)
    {
      assert Live(c, b) && Asks(c, Id(c, b), c'.servers[b].campaign.todo);
      StillAsks(c, c', Id(c, b), c'.servers[b].campaign.todo);
    }
  }

  lemma StillAsks(c: Cluster, c': Cluster, id: nat, todo: MemberMap)
    requires Asks(c, id, todo) && Continues(c, c')
    ensures Asks(c', id, todo)
  {
  }

  lemma CampaignLeads(c: Cluster, a: Addr, campaign: Campaign)
    requires Leads(c) && a in c.servers
    ensures Leads(WithCampaign(c, a, campaign))
  {
    var c' := WithCampaign(c, a, campaign);
    forall p | LivePrimary(c', p) ensures Counter(c'.servers[p].state) && TrueLinks(c', c'.servers[p].state) {
      StillTrueLinks(c, c', c.servers[p].state);
    }
  }

  lemma CampaignKnowledge(c: Cluster, a: Addr, campaign: Campaign)
    requires Knowledge(c) && a in c.servers
    ensures Knowledge(WithCampaign(c, a, campaign))
  {
    KnowledgeKept(c, WithCampaign(c, a, campaign));
  }

  lemma CampaignView(c: Cluster, a: Addr, campaign: Campaign)
    requires View(c) && Live(c, a) && (LivePrimary(c, a) ==> campaign.Idle?)
    requires campaign.Probing? && !campaign.answered ==> Asks(c, Id(c, a), campaign.todo)
    ensures View(WithCampaign(c, a, campaign))
  {
    CampaignKnowledge(c, a, campaign);
    CampaignRanks(c, a, campaign);
    CampaignLeads(c, a, campaign);
  }

  lemma SuspectView(c: Cluster, a: Addr)
    requires View(c) && Live(c, a) && !LivePrimary(c, a)
    ensures View(Suspecting(c, a))
  {
    assert Informs(c, c.servers[a].state.members);
    CampaignView(c, a, Probing(Higher(c.servers[a].state.members, Id(c, a)), false));
  }

  lemma ProbeView(c: Cluster, a: Addr, id: nat)
    requires View(c) && Live(c, a) && c.servers[a].campaign.Probing? && id in c.servers[a].campaign.todo
    ensures View(Probed(c, a, id))
  {
    var Probing(todo, answered) := c.servers[a].campaign;
    if !answered { assert Asks(c, Id(c, a), todo); }
    if LivePrimary(c, a) { assert false; }
    CampaignView(c, a, Probing(todo - {id}, answered || Live(c, todo[id])));
  }

  lemma WinnerIsAlone(c: Cluster, a: Addr, p: Addr)
    requires Knowledge(c) && Live(c, a) && LivePrimary(Winner(c, a), p)
    requires Ranks(c) && Tops(c, Id(c, a))
    ensures p == a
  {
    if p != a { DistinctIds(c, p, a); }
  }

  lemma WinnerRanks(c: Cluster, c': Cluster, a: Addr)
    requires Ranks(c) && Campaigns(c) && Continues(c, c') && Live(c, a)
    requires Tops(c, Id(c, a))
    requires forall p :: LivePrimary(c', p) ==> p == a
    requires c'.servers[a].campaign.Idle? && LivePrimary(c', a) && c'.servers[a].state.primary == c'.servers[a].state.me
    requires forall b :: b in c.servers && b != a ==> c'.servers[b] == c.servers[b]
    ensures Ranks(c') && Campaigns(c')
  {
  }

  lemma WinnerKnowledge(c: Cluster, a: Addr)
    requires Knowledge(c) && Live(c, a) && Tops(c, Id(c, a))
    requires c.servers[a].state.primary.id > Id(c, a)
    ensures Knowledge(Winner(c, a))
  {
    WithoutDeadInforms(c, c.servers[a].state.members, c.servers[a].state.primary.id);
    KnowledgeKept(c, Winner(c, a));
  }

  lemma WinnerRanked(c: Cluster, a: Addr)
    requires Ranks(c) && Campaigns(c) && Live(c, a) && Tops(c, Id(c, a))
    requires forall p :: LivePrimary(Winner(c, a), p) ==> p == a
    ensures Ranks(Winner(c, a)) && Campaigns(Winner(c, a))
  {
    WinnerRanks(c, Winner(c, a), a);
  }

  lemma WinnerView(c: Cluster, a: Addr)
    requires View(c) && Live(c, a) && !LivePrimary(c, a)
    requires Tops(c, Id(c, a))
    ensures View(Winner(c, a))
  {
    assert c.servers[a].state.primary.id > Id(c, a) && c.servers[a].state.links == map[];
    forall p | LivePrimary(Winner(c, a), p) ensures p == a { WinnerIsAlone(c, a, p); }
    WinnerKnowledge(c, a);
    WinnerRanked(c, a);
    WinnerLeads(c, a);
  }

  lemma WinnerLeads(c: Cluster, a: Addr)
    requires Knowledge(c) && Live(c, a) && c.servers[a].state.links == map[]
    requires forall p :: LivePrimary(Winner(c, a), p) ==> p == a
    ensures Leads(Winner(c, a))
  {
    assert Informs(c, c.servers[a].state.members);
    assert Counter(Winner(c, a).servers[a].state);
  }

  /** Whoever has asked every live server above it and got no answer outranks them all. */
  lemma UnansweredTops(c: Cluster, a: Addr)
    requires Campaigns(c) && Enabled(c, Conclude(a)) && !c.servers[a].campaign.answered
    ensures Tops(c, Id(c, a))
  {
    assert Asks(c, Id(c, a), map[]);
  }

  lemma ProbingIsBackup(c: Cluster, a: Addr)
    requires Ranks(c) && Live(c, a) && c.servers[a].campaign.Probing?
    ensures !LivePrimary(c, a)
  {
  }

  /** A candidate that no live server outranks may take over: whoever it forgets is dead. */
  lemma ConcludeView(c: Cluster, a: Addr)
    requires View(c) && Enabled(c, Conclude(a))
    ensures View(Concluded(c, a))
    ensures !c.servers[a].campaign.answered ==> Tops(c, Id(c, a)) && !LivePrimary(c, a)
  {
    if c.servers[a].campaign.answered {
      CampaignView(c, a, Idle);
    } else {
      UnansweredTops(c, a);
      ProbingIsBackup(c, a);
      WinnerView(c, a);
    }
  }

  /** A live backup that takes the live primary for its primary and keeps a good list. */
  lemma FollowerView(c: Cluster, p: Addr, a: Addr, s: State)
    requires View(c) && LivePrimary(c, p) && Live(c, a) && a != p
    requires s.me == c.servers[a].state.me && s.role == Backup && s.primary == c.servers[p].state.me
    requires s.links == map[] && Informs(c, s.members)
    ensures !LivePrimary(c, a) && View(WithState(c, a, s))
  {
    if LivePrimary(c, a) { OnePrimary(c, p, a); }
    if Id(c, a) == Id(c, p) { DistinctIds(c, a, p); }
    OneStateView(c, a, s);
  }

  lemma AnnouncedView(c: Cluster, p: Addr, a: Addr)
    requires View(c) && LivePrimary(c, p) && a != p
    ensures View(Announced(c, p, a))
  {
    if Live(c, a) {
      if LivePrimary(c, a) { OnePrimary(c, p, a); }
      InformedInforms(c, c.servers[a].state.members, p);
      FollowerView(c, p, a, Coordinated(c.servers[a].state, c.servers[p].state.me));
    }
  }

  /** Where the views fit together, a live candidate is on the list already. */
  lemma RelistedSame(c: Cluster, p: Addr, b: Addr)
    requires View(c) && LivePrimary(c, p) && Live(c, b)
    ensures Relisted(c, p, b) == c
  {
    var s := c.servers[p].state;
    assert Informs(c, s.members) && Counter(s);
    assert s.members[Id(c, b) := b] == s.members;
    assert WithMember(s, c.servers[b].state.me) == s;
    assert c.servers[p := c.servers[p]] == c.servers;
  }

  lemma LinkedView(c: Cluster, p: Addr, a: Addr)
    requires View(c) && LivePrimary(c, p) && Live(c, a)
    ensures View(WithState(c, p, Linked(c.servers[p].state, c.servers[a].state.me)))
  {
    var s := Linked(c.servers[p].state, c.servers[a].state.me);
    assert TrueLinks(c, s) by {
      forall b | Live(c, b) && Id(c, b) == Id(c, a) ensures b == a { DistinctIds(c, a, b); }
    }
    OneStateView(c, p, s);
  }

  lemma StoreRanks(c: Cluster, a: Addr, files: Files, accounts: Accounts)
    requires Ranks(c) && Campaigns(c) && a in c.servers
    ensures Ranks(WithStore(c, a, files, accounts)) && Campaigns(WithStore(c, a, files, accounts))
  {
    RanksKept(c, WithStore(c, a, files, accounts));
  }

  lemma StoreLeads(c: Cluster, a: Addr, files: Files, accounts: Accounts)
    requires Leads(c) && a in c.servers
    ensures Leads(WithStore(c, a, files, accounts))
  {
    var c' := WithStore(c, a, files, accounts);
    forall p | LivePrimary(c', p) ensures Counter(c'.servers[p].state) && TrueLinks(c', c'.servers[p].state) {
      StillTrueLinks(c, c', c.servers[p].state);
    }
  }

  lemma StoreKnowledge(c: Cluster, a: Addr, files: Files, accounts: Accounts)
    requires Knowledge(c) && a in c.servers
    ensures Knowledge(WithStore(c, a, files, accounts))
  {
    KnowledgeKept(c, WithStore(c, a, files, accounts));
  }

  /** Files and accounts, the log and the pending change are no part of the views. */
  lemma StoreView(c: Cluster, a: Addr, files: Files, accounts: Accounts)
    requires View(c) && a in c.servers
    ensures View(WithStore(c, a, files, accounts))
  {
    StoreKnowledge(c, a, files, accounts);
    StoreRanks(c, a, files, accounts);
    StoreLeads(c, a, files, accounts);
  }

  lemma LogView(c: Cluster, log: seq<Entry>, pending: Pending)
    requires View(c)
    ensures View(c.(log := log, pending := pending))
  {
    StatesKept(c, c.(log := log, pending := pending));
  }

  lemma AnsweringView(c: Cluster, p: Addr, a: Addr)
    requires View(c) && LivePrimary(c, p) && Live(c, a) && a != p
    ensures View(Answering(c, p, a))
  {
    var s := c.servers[p].state;
    InformedInforms(c, s.members, a);
    if LivePrimary(c, a) { OnePrimary(c, p, a); }
    FollowerView(c, p, a, Attached(c.servers[a].state, s.me, s.members));
  }

  lemma ReplicatedView(c: Cluster, p: Addr, a: Addr)
    requires View(c) && LivePrimary(c, p) && Live(c, a) && a != p
    ensures View(Replicated(c, p, a))
  {
    var c1 := Answering(c, p, a);
    var accounts := c.servers[a].accounts + c.servers[p].accounts;
    AnsweringView(c, p, a);
    StoreView(c1, a, c.servers[p].files, accounts);
    LinkedView(WithStore(c1, a, c.servers[p].files, accounts), p, a);
  }

  /** Attaching brings the backup's view in line; a dead one is taken off the list. */
  lemma AttachTriedView(c: Cluster, p: Addr, id: nat)
    requires View(c) && LivePrimary(c, p) && id in c.servers[p].state.members && id != Id(c, p)
    requires Live(c, c.servers[p].state.members[id]) ==> CanAttach(c, p, c.servers[p].state.members[id])
    ensures View(AttachTried(c, p, id))
  {
    var s := c.servers[p].state;
    assert Informs(c, s.members);
    if Live(c, s.members[id]) {
      ReplicatedView(c, p, s.members[id]);
    } else {
      ForgottenView(c, p, id, s.links);
    }
  }

  /* ----------------------------------------------------------------- joining */

  lemma FreshId(c: Cluster, p: Addr, a: Addr)
    requires View(c) && LivePrimary(c, p) && a !in c.servers
    ensures AssignedId(c.servers[p].state, a) == c.servers[p].state.lowest - 1
  {
    var s := c.servers[p].state;
    assert Informs(c, s.members);
    assert LowestId(s.members.Keys, s.lowest) == s.lowest;
  }

  lemma EnteringInforms(c: Cluster, p: Addr, a: Addr, own: Accounts)
    requires View(c) && LivePrimary(c, p) && a !in c.servers && AssignedId(c.servers[p].state, a) != 0
    ensures Informs(Entering(c, p, a, own), Entering(c, p, a, own).servers[p].state.members)
  {
    var ms, id := c.servers[p].state.members, AssignedId(c.servers[p].state, a);
    FreshId(c, p, a);
    assert Informs(c, ms);
    EnteringIds(c, p, a, own);
    NewcomerInforms(c, Entering(c, p, a, own), ms, id, a);
  }

  /** A list that informs, with the newcomer added. */
  lemma NewcomerInforms(c: Cluster, c1: Cluster, ms: MemberMap, id: nat, a: Addr)
    requires Informs(c, ms) && id !in ms && id != 0 && Live(c1, a) && Id(c1, a) == id && a !in c.servers
    requires forall b :: b in c.servers ==> b in c1.servers && Id(c1, b) == Id(c, b)
    requires forall b :: Live(c1, b) && b != a ==> Live(c, b)
    ensures Informs(c1, ms[id := a])
  {
  }

  lemma EnteringIds(c: Cluster, p: Addr, a: Addr, own: Accounts)
    requires p in c.servers && a !in c.servers
    ensures var c1, id := Entering(c, p, a, own), AssignedId(c.servers[p].state, a);
      && Live(c1, a) && Id(c1, a) == id && c1.servers[p].state.members == c.servers[p].state.members[id := a]
      && (forall b :: b in c.servers ==> b in c1.servers && Id(c1, b) == Id(c, b))
      && (forall b :: Live(c1, b) && b != a ==> Live(c, b))
  {
  }

  lemma JoinKnowledge(c1: Cluster, p: Addr)
    requires Live(c1, p) && Informs(c1, c1.servers[p].state.members)
    requires forall a :: a in c1.servers ==> c1.servers[a].state.me.addr == a
    requires forall b :: Live(c1, b) && b != p ==>
      Id(c1, b) in c1.servers[p].state.links && c1.servers[p].state.links[Id(c1, b)] == b
    ensures Knowledge(Told(c1, p))
  {
    var c' := Told(c1, p);
    var ms := c1.servers[p].state.members;
    forall b | Live(c', b) ensures Informs(c', c'.servers[b].state.members) {
      InformedInforms(c1, ms, b);
      StillInforms(c1, c', c'.servers[b].state.members);
    }
  }

  lemma EnteringTops(c: Cluster, p: Addr, a: Addr, own: Accounts)
    requires Ranks(c) && LivePrimary(c, p) && a !in c.servers
    requires forall b :: Live(c, b) ==> Id(c, b) > AssignedId(c.servers[p].state, a)
    ensures var c1 := Entering(c, p, a, own);
      forall q :: LivePrimary(c1, q) ==> Tops(c1, Id(c1, q)) && c1.servers[q].campaign.Idle?
  {
    var c1 := Entering(c, p, a, own);
    forall q | LivePrimary(c1, q) ensures Tops(c1, Id(c1, q)) && c1.servers[q].campaign.Idle? {
      assert LivePrimary(c, q) && Id(c1, q) == Id(c, q);
      forall b | Live(c1, b) && b != a ensures Id(c1, b) <= Id(c1, q) { assert Live(c, b); }
    }
  }

  lemma EnteringRanks(c: Cluster, p: Addr, a: Addr, own: Accounts)
    requires Ranks(c) && LivePrimary(c, p) && a !in c.servers
    requires forall b :: Live(c, b) ==> Id(c, b) > AssignedId(c.servers[p].state, a)
    ensures Ranks(Entering(c, p, a, own))
  {
    var c1 := Entering(c, p, a, own);
    EnteringTops(c, p, a, own);
    forall b | Live(c1, b) && !LivePrimary(c1, b)
      ensures c1.servers[b].state.primary.id > Id(c1, b) && c1.servers[b].state.links == map[]
    {
      assert b != a ==> Live(c, b) && !LivePrimary(c, b);
    }
  }

  lemma EnteringCampaigns(c: Cluster, p: Addr, a: Addr, own: Accounts)
    requires Campaigns(c) && LivePrimary(c, p) && a !in c.servers
    requires forall b :: Live(c, b) ==> Id(c, b) > AssignedId(c.servers[p].state, a)
    ensures Campaigns(Entering(c, p, a, own))
  {
    var c1 := Entering(c, p, a, own);
    assert forall b :: Live(c1, b) && b != a ==> Live(c, b) && Id(c1, b) == Id(c, b);
  }

  lemma EnteringLeads(c: Cluster, p: Addr, a: Addr, own: Accounts)
    requires Live(c, p) && a !in c.servers
    requires Counter(c.servers[p].state) && TrueLinks(c, c.servers[p].state)
    requires 0 != AssignedId(c.servers[p].state, a) == c.servers[p].state.lowest - 1
    requires forall b :: Live(c, b) ==> Id(c, b) >= c.servers[p].state.lowest
    ensures var s := Entering(c, p, a, own).servers[p].state; Counter(s) && TrueLinks(Entering(c, p, a, own), s)
  {
    var c1 := Entering(c, p, a, own);
    var s := c1.servers[p].state;
    forall b | Live(c1, b) && Id(c1, b) in s.links ensures s.links[Id(c1, b)] == b {
      if b != a {
        assert Live(c, b) && Id(c1, b) == Id(c, b);
        assert Id(c, b) in c.servers[p].state.links;
      }
    }
  }

  /** What a primary can see for itself is enough: with a link to every member on its list
      it reaches every live server. */
  lemma SettledReaches(c: Cluster, p: Addr)
    requires Knowledge(c) && LivePrimary(c, p) && Settled(c.servers[p].state)
    ensures Reaches(c, p)
  {
    forall b | Live(c, b) && b != p ensures Id(c, b) in c.servers[p].state.links {
      assert Informs(c, c.servers[p].state.members);
      if Id(c, b) == Id(c, p) { DistinctIds(c, b, p); }
    }
  }

  lemma EnteringKnowledge(c: Cluster, p: Addr, a: Addr, own: Accounts)
    requires forall b :: b in c.servers ==> c.servers[b].state.me.addr == b
    requires LivePrimary(c, p) && TrueLinks(c, c.servers[p].state) && a !in c.servers
    requires Reaches(c, p)
    requires forall b :: Live(c, b) ==> Id(c, b) != AssignedId(c.servers[p].state, a)
    requires Informs(Entering(c, p, a, own), Entering(c, p, a, own).servers[p].state.members)
    ensures Knowledge(Told(Entering(c, p, a, own), p))
  {
    var c1 := Entering(c, p, a, own);
    var links := c1.servers[p].state.links;
    forall b | Live(c1, b) && b != p ensures Id(c1, b) in links && links[Id(c1, b)] == b {
      if b != a {
        assert Live(c, b) && Id(c1, b) == Id(c, b);
      }
    }
    JoinKnowledge(c1, p);
  }

  lemma EnteringPrimaries(c: Cluster, p: Addr, a: Addr, own: Accounts)
    requires LivePrimary(c, p)
    ensures forall q :: LivePrimary(Entering(c, p, a, own), q) ==> LivePrimary(c, q)
  {
  }

  /** A join at a primary that reaches everyone leaves every server knowing every
      other, and gives the newcomer an id nobody has. */
  lemma JoinView(c: Cluster, p: Addr, a: Addr, own: Accounts)
    requires View(c) && LivePrimary(c, p) && a !in c.servers && AssignedId(c.servers[p].state, a) != 0
    requires Reaches(c, p)
    ensures View(Told(Entering(c, p, a, own), p))
  {
    var c1 := Entering(c, p, a, own);
    FreshId(c, p, a);
    assert forall b :: Live(c, b) ==> Id(c, b) >= c.servers[p].state.lowest by {
      assert Informs(c, c.servers[p].state.members);
    }
    EnteringInforms(c, p, a, own);
    EnteringKnowledge(c, p, a, own);
    EnteringRanks(c, p, a, own);
    EnteringCampaigns(c, p, a, own);
    EnteringLeads(c, p, a, own);
    ToldRanks(c1, p, c1.servers.Keys);
    EnteringPrimaries(c, p, a, own);
    ToldLeads(c, c1, p, c1.servers.Keys);
  }
}
