/** Runs of the whole cluster: many servers, each with its own view and files, elections
    probing at once, crashes between any two steps, and client changes replicated one link
    at a time (server/cluster.cpp, server/server.cpp). */
module ClusterRuns {

  import opened Members
  import opened Sizes
  import opened Stores

  /** An election thread: the higher members still to be asked, and whether one answered. */
  datatype Campaign = Idle | Probing(todo: MemberMap, answered: bool)

  datatype Server = Server(state: State, alive: bool, campaign: Campaign, files: Files, accounts: Accounts)

  /** The change the write lock is held for, or one whose primary crashed over it. */
  datatype Pending =
    | Nothing
    | InFlight(change: Change, primary: Addr, todo: set<Addr>)
    | Torn(change: Change)

  /** `log`: the changes made so far, in order, to what the founder had. */
  datatype Cluster = Cluster(servers: map<Addr, Server>, start: Files, founding: Accounts, log: seq<Entry>, pending: Pending)

  predicate Live(c: Cluster, a: Addr) {
    a in c.servers && c.servers[a].alive
  }

  predicate LivePrimary(c: Cluster, a: Addr) {
    Live(c, a) && c.servers[a].state.role == Primary
  }

  function Id(c: Cluster, a: Addr): nat
    requires a in c.servers
  {
    c.servers[a].state.me.id
  }

  function With(c: Cluster, a: Addr, s: Server): Cluster {
    c.(servers := c.servers[a := s])
  }

  function WithState(c: Cluster, a: Addr, s: State): Cluster
    requires a in c.servers
  {
    With(c, a, c.servers[a].(state := s))
  }

  function WithStore(c: Cluster, a: Addr, files: Files, accounts: Accounts): Cluster
    requires a in c.servers
  {
    With(c, a, c.servers[a].(files := files, accounts := accounts))
  }

  function WithChange(c: Cluster, a: Addr, change: Change): Cluster
    requires a in c.servers
  {
    WithStore(c, a, Applied(c.servers[a].files, change), Enrolled(c.servers[a].accounts, change))
  }

  function WithCampaign(c: Cluster, a: Addr, campaign: Campaign): Cluster
    requires a in c.servers
  {
    With(c, a, c.servers[a].(campaign := campaign))
  }

  /* ------------------------------------------------------------ what steps do */

  function Initial(a: Addr, files: Files, accounts: Accounts): Cluster {
    Cluster(map[a := Server(Founder(a), true, Idle, files, accounts)], files, accounts, [], Nothing)
  }

  function Crashed(c: Cluster, a: Addr): Cluster
    requires a in c.servers
  {
    With(c, a, c.servers[a].(alive := false))
      .(pending := if c.pending.InFlight? && c.pending.primary == a then Torn(c.pending.change) else c.pending)
  }

  /** The primary at `p` has sent its member list down its links to those in `heard`; crashed
      peers miss it. */
  function ToldSome(c: Cluster, p: Addr, heard: set<Addr>): Cluster
    requires p in c.servers
  {
    var s := c.servers[p].state;
    c.(servers := map a | a in c.servers ::
         if a in heard && a != p && c.servers[a].alive && Id(c, a) in s.links && s.links[Id(c, a)] == a
         then c.servers[a].(state := Informed(c.servers[a].state, s.members))
         else c.servers[a])
  }

  function Told(c: Cluster, p: Addr): Cluster
    requires p in c.servers
  {
    ToldSome(c, p, c.servers.Keys)
  }

  /** The primary at `p` has given the newcomer at `a` an id and all its files and accounts,
      which leaves the newcomer's `own` other accounts; no other server has heard of it yet. */
  ghost function Entering(c: Cluster, p: Addr, a: Addr, own: Accounts): Cluster
    requires p in c.servers
  {
    var me := Member(AssignedId(c.servers[p].state, a), a);
    var known := WithMember(c.servers[p].state, me);
    var state := Attached(Newcomer(me, known.me), known.me, known.members);
    With(WithState(c, p, Linked(known, me)), a, Server(state, true, Idle, c.servers[p].files, own + c.servers[p].accounts))
  }

  function Suspecting(c: Cluster, a: Addr): Cluster
    requires a in c.servers
  {
    WithCampaign(c, a, Probing(Higher(c.servers[a].state.members, Id(c, a)), false))
  }

  function Probed(c: Cluster, a: Addr, id: nat): Cluster
    requires a in c.servers && c.servers[a].campaign.Probing? && id in c.servers[a].campaign.todo
  {
    var Probing(todo, answered) := c.servers[a].campaign;
    WithCampaign(c, a, Probing(todo - {id}, answered || Live(c, todo[id])))
  }

  ghost function Winner(c: Cluster, a: Addr): Cluster
    requires a in c.servers
  {
    WithCampaign(WithState(c, a, TookOver(c.servers[a].state)), a, Idle)
  }

  /** With an answer from above the thread waits for an announcement and starts over. */
  ghost function Concluded(c: Cluster, a: Addr): Cluster
    requires a in c.servers && c.servers[a].campaign.Probing?
  {
    if c.servers[a].campaign.answered then WithCampaign(c, a, Idle) else Winner(c, a)
  }

  function Announced(c: Cluster, p: Addr, a: Addr): Cluster
    requires p in c.servers
  {
    if Live(c, a) then WithState(c, a, Coordinated(c.servers[a].state, c.servers[p].state.me)) else c
  }

  /** The primary at `p` puts a candidate that it has no link to back on its list; the attempt
      to attach it follows. */
  function Relisted(c: Cluster, p: Addr, b: Addr): Cluster
    requires p in c.servers && b in c.servers
  {
    WithState(c, p, WithMember(c.servers[p].state, c.servers[b].state.me))
  }

  /** The replica at `a` can be brought up to date by the primary at `p`: it answers, its
      manifest fits in the answer, and nothing it has is in the way. */
  ghost predicate CanAttach(c: Cluster, p: Addr, a: Addr)
    requires p in c.servers
  {
    Live(c, a) && FitsFrame(c.servers[a].files, c.servers[a].accounts) && Apart(c.servers[p].files, c.servers[a].files)
  }

  /** The server at `a` takes the primary at `p` for its own, before it sends its manifest. */
  function Answering(c: Cluster, p: Addr, a: Addr): Cluster
    requires p in c.servers && a in c.servers
  {
    WithState(c, a, Attached(c.servers[a].state, c.servers[p].state.me, c.servers[p].state.members))
  }

  /** The backup at `a` follows the primary at `p`, has its files and accounts, and is
      linked to it. */
  function Replicated(c: Cluster, p: Addr, a: Addr): Cluster
    requires p in c.servers && a in c.servers
  {
    var c1 := Answering(c, p, a);
    var c2 := WithStore(c1, a, c1.servers[p].files, c1.servers[a].accounts + c1.servers[p].accounts);
    WithState(c2, p, Linked(c2.servers[p].state, c2.servers[a].state.me))
  }

  /** A member that cannot be attached is taken off the list, even one that answered. */
  ghost function AttachTried(c: Cluster, p: Addr, id: nat): Cluster
    requires p in c.servers && id in c.servers[p].state.members
  {
    var a := c.servers[p].state.members[id];
    if CanAttach(c, p, a) then Replicated(c, p, a)
    else
      var c1 := if Live(c, a) then Answering(c, p, a) else c;
      WithState(c1, p, WithoutMember(c1.servers[p].state, id))
  }

  function Dropped(c: Cluster, p: Addr, id: nat): Cluster
    requires p in c.servers
  {
    WithState(c, p, Unlinked(c.servers[p].state, id))
  }

  predicate Happened(c: Cluster, p: Addr, change: Change)
    requires p in c.servers
  {
    if change.Enroll? then Has(c.servers[p].accounts, change)
    else c.servers[p].files != Replay(c.start, c.log)
  }

  /** The log once the fate of a torn change is known: it happened if the primary has it. */
  function Resolved(c: Cluster, p: Addr): seq<Entry>
    requires p in c.servers
  {
    if c.pending.Torn? && Happened(c, p, c.pending.change)
    then c.log + [Entry(c.pending.change, false)]
    else c.log
  }

  function Begun(c: Cluster, p: Addr, change: Change): Cluster
    requires p in c.servers
  {
    var links := c.servers[p].state.links;
    WithChange(c, p, change)
      .(log := Resolved(c, p), pending := InFlight(change, p, set id | id in links :: links[id]))
  }

  /** A backup that cannot be reached, or will not store the change, is dropped. */
  function Forwarded(c: Cluster, p: Addr, b: Addr): Cluster
    requires p in c.servers && c.pending.InFlight?
  {
    var c' := c.(pending := c.pending.(todo := c.pending.todo - {b}));
    if Live(c, b) && Accepts(c.servers[b].files, c.pending.change) then
      WithChange(c', b, c.pending.change)
    else if b in c.servers then
      Dropped(c', p, Id(c, b))
    else c'
  }

  function Acknowledged(c: Cluster): Cluster
    requires c.pending.InFlight?
  {
    c.(log := c.log + [Entry(c.pending.change, true)], pending := Nothing)
  }

  /* ------------------------------------------------------------------ events */

  datatype Event =
    | Crash(a: Addr)
    | Join(p: Addr, a: Addr, files: Files, accounts: Accounts)
    | Suspect(a: Addr)
    | Probe(a: Addr, id: nat)
    | Conclude(a: Addr)
    | Announce(p: Addr, b: Addr)
    | Relist(p: Addr, b: Addr)
    | Attach(p: Addr, id: nat)
    | Tell(p: Addr, b: Addr)
    | Drop(p: Addr, id: nat)
    | Begin(p: Addr, change: Change)
    | Forward(p: Addr, b: Addr)
    | Acknowledge(p: Addr)

  /** When the code can take a step. Suspicion is free: timeouts may fire at any moment. */
  ghost predicate Enabled(c: Cluster, e: Event) {
    match e
    case Crash(a) => Live(c, a)
    case Join(p, a, files, accounts) =>
      LivePrimary(c, p) && a !in c.servers && !c.pending.InFlight?
      && AssignedId(c.servers[p].state, a) != 0
      && ClashFree(files) && Apart(c.servers[p].files, files) && FitsFrame(files, accounts)
    case Suspect(a) => Live(c, a) && !LivePrimary(c, a) && c.servers[a].campaign.Idle?
    case Probe(a, id) => Live(c, a) && c.servers[a].campaign.Probing? && id in c.servers[a].campaign.todo
    case Conclude(a) => Live(c, a) && c.servers[a].campaign.Probing? && c.servers[a].campaign.todo == map[]
    case Announce(p, b) => LivePrimary(c, p) && b in c.servers && b != p
    case Relist(p, b) => LivePrimary(c, p) && Live(c, b) && b != p && Id(c, b) !in c.servers[p].state.links
    case Attach(p, id) =>
      LivePrimary(c, p) && id in c.servers[p].state.members && id != Id(c, p) && !c.pending.InFlight?
    case Tell(p, _) => LivePrimary(c, p)
    case Drop(p, id) =>
      LivePrimary(c, p) && id in c.servers[p].state.links && !Live(c, c.servers[p].state.links[id])
    case Begin(p, change) =>
      LivePrimary(c, p) && !c.pending.InFlight? && Accepts(c.servers[p].files, change)
      && (change.Delete? ==> change.key in c.servers[p].files)
      && (change.Enroll? ==> change.user !in c.servers[p].accounts)
    case Forward(p, b) =>
      LivePrimary(c, p) && c.pending.InFlight? && c.pending.primary == p && b in c.pending.todo
    case Acknowledge(p) =>
      LivePrimary(c, p) && c.pending.InFlight? && c.pending.primary == p && c.pending.todo == {}
  }

  ghost function Next(c: Cluster, e: Event): Cluster
    requires Enabled(c, e)
  {
    match e
    case Crash(a) => Crashed(c, a)
    case Join(p, a, _, accounts) => Told(Entering(c, p, a, accounts), p)
    case Suspect(a) => Suspecting(c, a)
    case Probe(a, id) => Probed(c, a, id)
    case Conclude(a) => Concluded(c, a)
    case Announce(p, b) => Announced(c, p, b)
    case Relist(p, b) => Relisted(c, p, b)
    case Attach(p, id) => AttachTried(c, p, id)
    case Tell(p, b) => ToldSome(c, p, {b})
    case Drop(p, id) => Dropped(c, p, id)
    case Begin(p, change) => Begun(c, p, change)
    case Forward(p, b) => Forwarded(c, p, b)
    case Acknowledge(_) => Acknowledged(c)
  }

  /** The primary at `p` holds a link to every other live server. */
  ghost predicate Reaches(c: Cluster, p: Addr)
    requires p in c.servers
  {
    forall b :: Live(c, b) && b != p ==> Id(c, b) in c.servers[p].state.links
  }

  /** The server at `b` already has what the change at `p` will make. */
  predicate HasAlready(c: Cluster, p: Addr, b: Addr, change: Change)
    requires p in c.servers && b in c.servers
  {
    c.servers[b].files == Applied(c.servers[p].files, change) && Has(c.servers[b].accounts, change)
  }

  /** Every other live server will be sent the change, or has no need of it. */
  ghost predicate ReachesWith(c: Cluster, p: Addr, change: Change)
    requires p in c.servers
  {
    forall b :: Live(c, b) && b != p ==> Id(c, b) in c.servers[p].state.links || HasAlready(c, p, b, change)
  }

  /** Nobody live is passed over: not by a join, not by a change, not by an attachment. */
  ghost predicate Safe(c: Cluster, e: Event)
    requires Enabled(c, e)
  {
    match e
    case Join(p, _, _, _) => Reaches(c, p)
    case Begin(p, change) => ReachesWith(c, p, change)
    case Attach(p, id) =>
      var a := c.servers[p].state.members[id];
      Live(c, a) ==> FitsFrame(c.servers[a].files, c.servers[a].accounts)
    case _ => true
  }

  /** What the servers involved can see for themselves: the primary has a link to every
      member it lists, and the backup's manifest fits in its answer. */
  ghost predicate Prudent(c: Cluster, e: Event)
    requires Enabled(c, e)
  {
    match e
    case Join(p, _, _, _) => Settled(c.servers[p].state)
    case Begin(p, _) => Settled(c.servers[p].state)
    case Attach(_, _) => Safe(c, e)
    case _ => true
  }

  ghost predicate Possible(c: Cluster, es: seq<Event>)
    decreases |es|
  {
    es == [] || (Enabled(c, es[0]) && Possible(Next(c, es[0]), es[1..]))
  }

  ghost predicate AllSafe(c: Cluster, es: seq<Event>)
    requires Possible(c, es)
    decreases |es|
  {
    es == [] || (Safe(c, es[0]) && AllSafe(Next(c, es[0]), es[1..]))
  }

  ghost predicate AllPrudent(c: Cluster, es: seq<Event>)
    requires Possible(c, es)
    decreases |es|
  {
    es == [] || (Prudent(c, es[0]) && AllPrudent(Next(c, es[0]), es[1..]))
  }

  ghost function Run(c: Cluster, es: seq<Event>): Cluster
    requires Possible(c, es)
    decreases |es|
  {
    if es == [] then c else Run(Next(c, es[0]), es[1..])
  }
}
