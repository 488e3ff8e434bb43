/** One server's view of the cluster (server/cluster.cpp): who it is, whom it believes to
    be the primary, and the members it knows, one address per id. */
module Members {

  /** Stands for a host and port. */
  type Addr = nat

  type MemberMap = map<nat, Addr>

  datatype Member = Member(id: nat, addr: Addr)

  datatype Role = Backup | Primary

  const FIRST_ID: nat := 1000

  /** `lowest`: no id below it has been given out, so the next newcomer gets the one before.
      `links`: the backups the primary has an open replica link to. */
  datatype State = State(me: Member, role: Role, primary: Member, members: MemberMap,
                         lowest: nat, links: MemberMap)

  /** The smallest of `lowest` and the ids in use. */
  ghost function LowestId(ids: set<nat>, lowest: nat): (r: nat)
    ensures r <= lowest && forall id :: id in ids ==> r <= id
    ensures r == lowest || r in ids
  {
    if ids == {} then lowest
    else
      var id :| id in ids;
      assert ids == (ids - {id}) + {id};
      LowestId(ids - {id}, if id < lowest then id else lowest)
  }

  /** The id a joining server gets: its old one if its address is still listed, or one
      below all others (0: none left). Ids are unsigned 32-bit numbers: 0 - 1 wraps around. */
  ghost function AssignedId(s: State, addr: Addr): nat {
    if exists id :: id in s.members && s.members[id] == addr then
      var id :| id in s.members && s.members[id] == addr;
      id
    else
      var lowest := LowestId(s.members.Keys, s.lowest);
      if lowest == 0 then 0xFFFF_FFFF else lowest - 1
  }

  function Higher(members: MemberMap, id: nat): MemberMap {
    map i | i in members && i > id :: members[i]
  }

  function Founder(addr: Addr): State {
    var me := Member(FIRST_ID, addr);
    State(me, Primary, me, map[FIRST_ID := addr], FIRST_ID, map[])
  }

  function WithMember(s: State, m: Member): State {
    s.(members := s.members[m.id := m.addr],
       lowest := if s.lowest == 0 || m.id < s.lowest then m.id else s.lowest)
  }

  function WithoutMember(s: State, id: nat): State {
    s.(members := s.members - {id})
  }

  function Newcomer(me: Member, primary: Member): State {
    State(me, Backup, primary, map[primary.id := primary.addr, me.id := me.addr], 0, map[])
  }

  /** A Coordinator message: a lower-ranked leader is ignored, any other is obeyed. */
  function Coordinated(s: State, leader: Member): State {
    if leader.id < s.me.id then s
    else s.(role := Backup, primary := leader, members := s.members[leader.id := leader.addr],
            links := if s.role == Primary then map[] else s.links)
  }

  /** A Membership message; every server keeps itself on its own list. */
  function Informed(s: State, members: MemberMap): State {
    s.(members := members[s.me.id := s.me.addr])
  }

  /** A ReplicaAttach message: the sender is the primary, whoever was it before. */
  function Attached(s: State, primary: Member, members: MemberMap): State {
    Informed(s, members).(role := Backup, primary := primary,
                          links := if s.role == Primary then map[] else s.links)
  }

  ghost function TookOver(s: State): State {
    var rest := if s.primary.id != s.me.id then s.members - {s.primary.id} else s.members;
    s.(role := Primary, primary := s.me, members := rest, lowest := LowestId(rest.Keys, s.me.id))
  }

  function Linked(s: State, m: Member): State {
    s.(links := s.links[m.id := m.addr])
  }

  /** What drop_link does to the primary's own view. */
  function Unlinked(s: State, id: nat): State {
    if id in s.links then WithoutMember(s.(links := s.links - {id}), id) else s
  }

  /** Every other member has a replica link. */
  predicate Settled(s: State) {
    forall id :: id in s.members ==> id == s.me.id || id in s.links
  }
}
