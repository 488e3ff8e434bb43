/** The membership and election state of one server, updated in place
    (server/cluster.cpp). The member list is kept as a vector with one entry per id;
    `View()` is the state the cluster runs are made of. */
module ClusterNode {

  import opened Members

  ghost predicate UniqueIds(ms: seq<Member>) {
    forall i, j :: 0 <= i < j < |ms| ==> ms[i].id != ms[j].id
  }

  /** No address is listed twice, and nobody has the id that stands for none. */
  ghost predicate OneIdEach(ms: MemberMap) {
    0 !in ms && forall i, j :: i in ms && j in ms && ms[i] == ms[j] ==> i == j
  }

  ghost function AsMap(ms: seq<Member>): (r: MemberMap)
    requires UniqueIds(ms)
    ensures forall m :: m in ms ==> m.id in r && r[m.id] == m.addr
    ensures forall id :: id in r ==> Member(id, r[id]) in ms
  {
    map i | 0 <= i < |ms| :: ms[i].id := ms[i].addr
  }

  /** A map is determined by its entries. */
  lemma SameEntries(ms: seq<Member>, r: MemberMap)
    requires UniqueIds(ms)
    requires forall m :: m in ms ==> m.id in r && r[m.id] == m.addr
    requires forall id :: id in r ==> Member(id, r[id]) in ms
    ensures AsMap(ms) == r
  {
    forall id | id in r ensures id in AsMap(ms) && AsMap(ms)[id] == r[id] {
      assert Member(id, r[id]) in ms;
    }
    forall id | id in AsMap(ms) ensures id in r {
      assert Member(id, AsMap(ms)[id]) in ms;
    }
  }

  lemma ReplacedIds(ms: seq<Member>, i: nat, m: Member)
    requires UniqueIds(ms) && i < |ms| && ms[i].id == m.id
    ensures UniqueIds(ms[i := m])
    ensures forall e :: e in ms[i := m] <==> e == m || (e in ms && e.id != m.id)
  {
    var ms' := ms[i := m];
    forall e | e in ms && e.id != m.id ensures e in ms' {
      var j :| 0 <= j < |ms| && ms[j] == e;
      assert ms'[j] == e;
    }
    assert ms'[i] == m;
  }

  lemma ReplaceEntry(ms: seq<Member>, i: nat, m: Member)
    requires UniqueIds(ms) && i < |ms| && ms[i].id == m.id
    ensures UniqueIds(ms[i := m]) && AsMap(ms[i := m]) == AsMap(ms)[m.id := m.addr]
  {
    ReplacedIds(ms, i, m);
    SameEntries(ms[i := m], AsMap(ms)[m.id := m.addr]);
  }

  lemma AppendEntry(ms: seq<Member>, m: Member)
    requires UniqueIds(ms) && forall j :: 0 <= j < |ms| ==> ms[j].id != m.id
    ensures UniqueIds(ms + [m]) && AsMap(ms + [m]) == AsMap(ms)[m.id := m.addr]
  {
    SameEntries(ms + [m], AsMap(ms)[m.id := m.addr]);
  }

  /** The first entry with the member's id replaced, or the member appended. */
  function Upserted(ms: seq<Member>, m: Member): seq<Member> {
    if ms == [] then [m]
    else if ms[0].id == m.id then [m] + ms[1..]
    else [ms[0]] + Upserted(ms[1..], m)
  }

  lemma {:induction false} UpsertedAt(ms: seq<Member>, i: nat, m: Member)
    requires i <= |ms| && (i < |ms| ==> ms[i].id == m.id) && forall j :: 0 <= j < i ==> ms[j].id != m.id
    ensures Upserted(ms, m) == if i < |ms| then ms[i := m] else ms + [m]
  {
    if i > 0 {
      forall j | 0 <= j < i - 1 ensures ms[1..][j].id != m.id { assert ms[j + 1].id != m.id; }
      UpsertedAt(ms[1..], i - 1, m);
      assert ms == [ms[0]] + ms[1..];
    }
  }

  lemma UpsertedMeans(ms: seq<Member>, m: Member)
    requires UniqueIds(ms)
    ensures UniqueIds(Upserted(ms, m)) && AsMap(Upserted(ms, m)) == AsMap(ms)[m.id := m.addr]
  {
    if i :| 0 <= i < |ms| && ms[i].id == m.id {
      UpsertedAt(ms, i, m);
      ReplaceEntry(ms, i, m);
    } else {
      UpsertedAt(ms, |ms|, m);
      AppendEntry(ms, m);
    }
  }

  function Ids(ms: seq<Member>): set<nat> {
    set m | m in ms :: m.id
  }

  lemma IdsAreKeys(ms: seq<Member>)
    requires UniqueIds(ms)
    ensures Ids(ms) == AsMap(ms).Keys
  {
    forall id | id in AsMap(ms) ensures id in Ids(ms) { assert Member(id, AsMap(ms)[id]) in ms; }
  }

  /** The id last listed for an address, 0 if there is none. */
  function ListedId(ms: seq<Member>, addr: Addr): nat {
    if ms == [] then 0
    else if ms[|ms| - 1].addr == addr then ms[|ms| - 1].id
    else ListedId(ms[..|ms| - 1], addr)
  }

  lemma {:induction false} ListedIdMeans(ms: seq<Member>, addr: Addr)
    ensures ListedId(ms, addr) != 0 ==> Member(ListedId(ms, addr), addr) in ms
    ensures ListedId(ms, addr) == 0 ==> forall m :: m in ms && m.addr == addr ==> Member(0, addr) in ms
  {
    if ms != [] {
      var front, last := ms[..|ms| - 1], ms[|ms| - 1];
      assert ms == front + [last];
      ListedIdMeans(front, addr);
    }
  }

  lemma AssignedMeans(ms: seq<Member>, addr: Addr, lowest: nat)
    requires UniqueIds(ms) && OneIdEach(AsMap(ms))
    ensures forall s: State :: s.members == AsMap(ms) && s.lowest == lowest ==>
      AssignedId(s, addr) ==
        if ListedId(ms, addr) != 0 then ListedId(ms, addr)
        else if LowestId(Ids(ms), lowest) == 0 then 0xFFFF_FFFF else LowestId(Ids(ms), lowest) - 1
  {
    ListedIdMeans(ms, addr);
    IdsAreKeys(ms);
    forall i | i in AsMap(ms) && AsMap(ms)[i] == addr ensures i == ListedId(ms, addr) {
      assert Member(i, AsMap(ms)[i]) in ms;
    }
  }

  /** Which entries of a list to keep. */
  datatype Which = Except(id: nat) | Above(id: nat) {
    predicate Has(i: nat) {
      match this
      case Except(id) => i != id
      case Above(id) => i > id
    }
  }

  function Chosen(ms: seq<Member>, which: Which): seq<Member> {
    if ms == [] then []
    else
      var last := ms[|ms| - 1];
      Chosen(ms[..|ms| - 1], which) + if which.Has(last.id) then [last] else []
  }

  lemma {:induction false} ChosenMeans(ms: seq<Member>, which: Which)
    requires UniqueIds(ms)
    ensures UniqueIds(Chosen(ms, which))
    ensures forall e :: e in Chosen(ms, which) <==> e in ms && which.Has(e.id)
  {
    if ms != [] {
      var front, last := ms[..|ms| - 1], ms[|ms| - 1];
      assert ms == front + [last];
      ChosenMeans(front, which);
      var kept := Chosen(front, which);
      forall k | 0 <= k < |kept| ensures kept[k].id != last.id { assert kept[k] in front; }
    }
  }

  lemma ExceptMeans(ms: seq<Member>, id: nat)
    requires UniqueIds(ms)
    ensures UniqueIds(Chosen(ms, Except(id))) && AsMap(Chosen(ms, Except(id))) == AsMap(ms) - {id}
  {
    ChosenMeans(ms, Except(id));
    SameEntries(Chosen(ms, Except(id)), AsMap(ms) - {id});
  }

  lemma AboveMeans(ms: seq<Member>, id: nat)
    requires UniqueIds(ms)
    ensures UniqueIds(Chosen(ms, Above(id))) && AsMap(Chosen(ms, Above(id))) == Higher(AsMap(ms), id)
  {
    ChosenMeans(ms, Above(id));
    SameEntries(Chosen(ms, Above(id)), Higher(AsMap(ms), id));
  }

  /** The list of a server that takes over: without the old primary, unless that was itself. */
  function Remaining(ms: seq<Member>, primary: Member, me: Member): seq<Member> {
    if primary.id != me.id then Chosen(ms, Except(primary.id)) else ms
  }

  lemma TookOverMeans(s: State, ms: seq<Member>)
    requires UniqueIds(ms) && s.members == AsMap(ms)
    ensures var ms' := Remaining(ms, s.primary, s.me);
      && UniqueIds(ms') && TookOver(s) == State(s.me, Primary, s.me, AsMap(ms'), LowestId(Ids(ms'), s.me.id), s.links)
      && UniqueIds(Chosen(ms', Except(s.me.id))) && AsMap(Chosen(ms', Except(s.me.id))) == AsMap(ms') - {s.me.id}
  {
    var ms' := Remaining(ms, s.primary, s.me);
    ExceptMeans(ms, s.primary.id);
    IdsAreKeys(ms');
    ExceptMeans(ms', s.me.id);
  }

  method Choose(ms: seq<Member>, which: Which) returns (kept: seq<Member>)
    ensures kept == Chosen(ms, which)
  {
    kept := [];
    for i := 0 to |ms|
      invariant kept == Chosen(ms[..i], which)
    {
      assert ms[..i + 1][..i] == ms[..i];
      if which.Has(ms[i].id) { kept := kept + [ms[i]]; }
    }
    assert ms[..|ms|] == ms;
  }

  /** The smallest id listed, or `start` if it is smaller. */
  method LowestListed(ms: seq<Member>, start: nat) returns (r: nat)
    ensures r == LowestId(Ids(ms), start)
  {
    r := start;
    for i := 0 to |ms|
      invariant r <= start && (r == start || exists j :: 0 <= j < i && ms[j].id == r)
      invariant forall j :: 0 <= j < i ==> r <= ms[j].id
    {
      if ms[i].id < r { r := ms[i].id; }
    }
    assert r == start || r in Ids(ms) by {
      if r != start {
        var j :| 0 <= j < |ms| && ms[j].id == r;
        assert ms[j] in ms;
      }
    }
  }

  method KnownId(ms: seq<Member>, addr: Addr) returns (id: nat)
    ensures id == ListedId(ms, addr)
  {
    id := 0;
    for i := 0 to |ms|
      invariant id == ListedId(ms[..i], addr)
    {
      assert ms[..i + 1][..i] == ms[..i];
      if ms[i].addr == addr { id := ms[i].id; }
    }
    assert ms[..|ms|] == ms;
  }

  class Node {
    var me: Member
    var role: Role
    var primary: Member
    var members: seq<Member>
    var lowest: nat
    var links: MemberMap

    ghost predicate Valid() reads this {
      UniqueIds(members)
    }

    ghost function View(): State
      reads this
      requires Valid()
    {
      State(me, role, primary, AsMap(members), lowest, links)
    }

    constructor StartAsPrimary(addr: Addr)
      ensures Valid() && View() == Founder(addr)
    {
      me := Member(FIRST_ID, addr);
      lowest := FIRST_ID;
      role := Primary;
      primary := Member(FIRST_ID, addr);
      members := [Member(FIRST_ID, addr)];
      links := map[];
      new;
      SameEntries(members, map[FIRST_ID := addr]);
    }

    /** upsert. */
    method Upsert(m: Member)
      modifies this`members
      ensures members == Upserted(old(members), m)
      ensures old(Valid()) ==> Valid() && View() == old(View()).(members := old(View()).members[m.id := m.addr])
    {
      if Valid() { UpsertedMeans(members, m); }
      var i := 0;
      while i < |members|
        invariant i <= |members| && members == old(members)
        invariant forall j :: 0 <= j < i ==> members[j].id != m.id
      {
        if members[i].id == m.id {
          UpsertedAt(members, i, m);
          members := members[i := m];
          return;
        }
        i := i + 1;
      }
      UpsertedAt(members, i, m);
      members := members + [m];
    }

    method AddMember(m: Member)
      modifies this`members, this`lowest
      ensures members == Upserted(old(members), m)
      ensures lowest == if old(lowest) == 0 || m.id < old(lowest) then m.id else old(lowest)
      ensures old(Valid()) ==> Valid() && View() == WithMember(old(View()), m)
    {
      Upsert(m);
      lowest := if lowest == 0 || m.id < lowest then m.id else lowest;
    }

    method RemoveMember(id: nat)
      modifies this`members
      ensures members == Chosen(old(members), Except(id))
      ensures old(Valid()) ==> Valid() && View() == WithoutMember(old(View()), id)
    {
      if Valid() { ExceptMeans(members, id); }
      members := Choose(members, Except(id));
    }

    /** handle_join: the id for a server joining from `addr`: the one last listed for it, or
        else the one below all others (0: none left). */
    method AssignId(addr: Addr) returns (id: nat)
      modifies this`lowest
      ensures ListedId(members, addr) != 0 ==> id == ListedId(members, addr) && lowest == old(lowest)
      ensures ListedId(members, addr) == 0 ==>
        lowest == LowestId(Ids(members), old(lowest)) && id == if lowest == 0 then 0xFFFF_FFFF else lowest - 1
      ensures Valid() && OneIdEach(View().members) ==>
        id == AssignedId(old(View()), addr) && View() == old(View()).(lowest := lowest)
    {
      id := KnownId(members, addr);
      if Valid() && OneIdEach(AsMap(members)) { AssignedMeans(members, addr, lowest); }
      if id == 0 {
        lowest := LowestListed(members, lowest);
        id := if lowest == 0 then 0xFFFF_FFFF else lowest - 1;
      }
    }

    /** run_election's snapshot: whom to probe. */
    method Outranking() returns (higher: seq<Member>)
      ensures higher == Chosen(members, Above(me.id))
      ensures Valid() ==> UniqueIds(higher) && AsMap(higher) == Higher(View().members, me.id)
    {
      if Valid() { AboveMeans(members, me.id); }
      higher := Choose(members, Above(me.id));
    }

    /** become_primary's locked section. `others` are to be announced to and attached. */
    method BecomePrimary() returns (others: seq<Member>)
      modifies this
      ensures me == old(me) && role == Primary && primary == me && links == old(links)
      ensures members == Remaining(old(members), old(primary), me)
      ensures lowest == LowestId(Ids(members), me.id) && others == Chosen(members, Except(me.id))
      ensures old(Valid()) ==> Valid() && View() == TookOver(old(View()))
      ensures old(Valid()) ==> UniqueIds(others) && AsMap(others) == View().members - {me.id}
    {
      if Valid() { TookOverMeans(View(), members); }
      var oldPrimary := primary.id;
      role := Primary;
      primary := me;
      if oldPrimary != me.id { members := Choose(members, Except(oldPrimary)); }
      lowest := LowestListed(members, me.id);
      others := Choose(members, Except(me.id));
    }

    /** handle_coordinator. `obeyed` is false if the leader is outranked. */
    method HandleCoordinator(leader: Member) returns (obeyed: bool)
      modifies this
      ensures obeyed <==> leader.id >= me.id
      ensures me == old(me) && lowest == old(lowest)
      ensures obeyed ==> members == Upserted(old(members), leader) && role == Backup && primary == leader
      ensures obeyed ==> links == if old(role) == Primary then map[] else old(links)
      ensures !obeyed ==> members == old(members) && role == old(role) && primary == old(primary) && links == old(links)
      ensures old(Valid()) ==> Valid() && View() == Coordinated(old(View()), leader)
    {
      if leader.id < me.id {
        return false;
      }
      if role == Primary {
        links := map[];
      }
      role := Backup;
      primary := leader;
      Upsert(leader);
      return true;
    }

    /** handle_replica_attach: obeys whoever opens a replica link. */
    method HandleReplicaAttach(leader: Member, list: seq<Member>)
      modifies this
      ensures members == Upserted(list, me) && role == Backup && primary == leader
      ensures me == old(me) && lowest == old(lowest) && links == if old(role) == Primary then map[] else old(links)
      ensures old(Valid()) && UniqueIds(list) ==> Valid() && View() == Attached(old(View()), leader, AsMap(list))
    {
      if role == Primary {
        links := map[];
      }
      role := Backup;
      primary := leader;
      members := list;
      Upsert(me);
    }

    /** A Membership message on the replica link. */
    method HandleMembership(list: seq<Member>)
      modifies this`members
      ensures members == Upserted(list, me)
      ensures old(Valid()) && UniqueIds(list) ==> Valid() && View() == Informed(old(View()), AsMap(list))
    {
      members := list;
      Upsert(me);
    }
  }
}
