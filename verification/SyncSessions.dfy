/** Several sessions of one user taking turns to reconcile with the same server. */
module SyncSessions {

  import opened Sync
  import opened SyncPass
  import opened SyncTheorems

  datatype Session = Session(disk: Listing, base: Listing)

  datatype Net = Net(server: Listing, sessions: seq<Session>)

  function WorldOf(net: Net, i: nat): World
    requires i < |net.sessions|
  {
    World(net.sessions[i].disk, net.sessions[i].base, net.server, map[], 0)
  }

  function Updated(net: Net, i: nat, w: World): Net
    requires i < |net.sessions|
  {
    Net(w.server, net.sessions[i := Session(w.disk, w.base)])
  }

  /** Session `i` runs one complete pass. */
  ghost predicate Passes(net: Net, i: nat, net': Net) {
    i < |net.sessions| && exists names, naming ::
      CanPass(WorldOf(net, i), names, naming) && net' == Updated(net, i, FreshPass(WorldOf(net, i), names, naming))
  }

  /** Session `i` receives a push, however old: a file or a deletion. Conflicted copies made
      on the way get names outside `taken`. */
  ghost predicate Receives(net: Net, i: nat, net': Net, taken: set<Name>) {
    && i < |net.sessions|
    && ((exists name, incoming, naming :: NamesFree(WorldOf(net, i), naming) && Avoids(naming, taken)
           && net' == Updated(net, i, Installed(WorldOf(net, i), name, incoming, naming)))
        || exists name :: net' == Updated(net, i, PushedDelete(WorldOf(net, i), name)))
  }

  ghost predicate Avoids(naming: Naming, taken: set<Name>) {
    forall n, existing :: naming(n, existing) !in taken
  }

  /** Some session receives a push; one that is between its two passes does not name a
      conflicted copy like a file on the server. */
  ghost predicate SomeReceives(net: Net, passes: nat, net': Net) {
    exists i: nat :: Receives(net, i, net', if passes == 2 * i + 1 then net.server.Keys else {})
  }

  ghost predicate HonestSession(s: Session) {
    forall n :: n in s.disk && n in s.base ==> HonestPair(s.disk[n], s.base[n])
  }

  /** Nothing on disk is unsynced. */
  ghost predicate Clean(s: Session) {
    forall n :: SameAt(At(s.disk, n), At(s.base, n))
  }

  /** The session has exactly the server's files. */
  ghost predicate Holds(s: Session, server: Listing) {
    forall n :: SameAt(At(s.disk, n), At(server, n))
  }

  /* --------------------------------------------------------------- clean passes */

  /** What a pass finds under a name that was clean when it started. */
  ghost predicate CleanAt(w0: World, w: World, x: Name) {
    && At(w.server, x) == At(w0.server, x) && At(w.base, x) == At(w0.base, x)
    && (x in w0.disk ==> x in w.disk && w.disk[x] == w0.disk[x])
    && SameAt(At(w0.disk, x), At(w0.base, x)) && At(Taken(w0).local, x) == At(w0.disk, x)
    && (w.copies == map[] && x in w.disk ==> x in w0.disk)
  }

  lemma CleanVisit(w0: World, w: World, x: Name, naming: Naming)
    requires CleanAt(w0, w, x) && w.copies == map[]
    ensures Visit(w, Taken(w0), x, naming).server == w.server
    ensures Visit(w, Taken(w0), x, naming).copies == map[]
  {
  }

  lemma CleanPassGoing(w0: World, names: seq<Name>, naming: Naming)
    requires Honest(w0) && NamesFree(w0, naming) && w0.copies == map[]
    requires forall n :: SameAt(At(w0.disk, n), At(w0.base, n))
    requires names != [] && forall n :: n in names ==> n in AllNames(w0)
    requires forall i, j :: 0 <= i < j < |names| ==> names[i] != names[j]
    ensures CleanAt(w0, Pass(w0, Taken(w0), names[..|names| - 1], naming), names[|names| - 1])
  {
    var last := |names| - 1;
    var w, x := Pass(w0, Taken(w0), names[..last], naming), names[last];
    NamesGrow(names);
    PassGoing(w0, names[..last], naming);
    Views(w0, w, Names(names[..last]), x);
    assert SameAt(At(w0.disk, x), At(w0.base, x));
  }

  lemma {:induction false} CleanPass(w0: World, names: seq<Name>, naming: Naming)
    requires Honest(w0) && NamesFree(w0, naming) && w0.copies == map[]
    requires forall n :: SameAt(At(w0.disk, n), At(w0.base, n))
    requires forall n :: n in names ==> n in AllNames(w0)
    requires forall i, j :: 0 <= i < j < |names| ==> names[i] != names[j]
    ensures var w := Pass(w0, Taken(w0), names, naming); w.server == w0.server && w.copies == map[]
  {
    if names != [] {
      var last := |names| - 1;
      CleanPass(w0, names[..last], naming);
      CleanPassGoing(w0, names, naming);
      CleanVisit(w0, Pass(w0, Taken(w0), names[..last], naming), names[last], naming);
    }
  }

  /** A clean session's pass only follows the server. */
  lemma CleanFollows(w: World, names: seq<Name>, naming: Naming)
    requires CanPass(w, names, naming) && forall n :: SameAt(At(w.disk, n), At(w.base, n))
    ensures FreshPass(w, names, naming).server == w.server && InSync(FreshPass(w, names, naming))
    ensures Honest(FreshPass(w, names, naming))
  {
    FreshPassGoing(w, names, naming);
    CleanPass(Rested(w), names, naming);
    var w' := FreshPass(w, names, naming);
    forall n ensures Agreed(w', n) {
      if n in AllNames(w) {
        assert Agreed(w', n);
      } else {
        assert At(w'.base, n) == At(Rested(w).base, n) && At(w'.server, n) == At(Rested(w).server, n);
      }
    }
  }

  /* ---------------------------------------------------------------- convergence */

  ghost predicate AllHonest(net: Net) {
    forall j :: 0 <= j < |net.sessions| ==> HonestSession(net.sessions[j])
  }

  ghost predicate CleanUpTo(net: Net, turn: nat) {
    turn <= |net.sessions| && forall j :: 0 <= j < turn ==> Clean(net.sessions[j])
  }

  ghost predicate CleanWorld(w: World) {
    forall n :: SameAt(At(w.disk, n), At(w.base, n))
  }

  /** After its first pass a session's files are clean, or new and not on the server. */
  predicate HalfwayAt(w: World, n: Name) {
    SameAt(At(w.disk, n), At(w.base, n)) || (n in w.disk && n !in w.base && n !in w.server)
  }

  ghost predicate Halfway(w: World) {
    forall n :: HalfwayAt(w, n)
  }

  lemma FirstPassHalfway(w: World, names: seq<Name>, naming: Naming)
    requires CanPass(w, names, naming)
    ensures Honest(FreshPass(w, names, naming)) && Halfway(FreshPass(w, names, naming))
  {
    OnePassAgrees(w, names, naming);
    var w1 := FreshPass(w, names, naming);
    forall n ensures HalfwayAt(w1, n) {
      if n in AllNames(w) { assert Agreed(w1, n); }
    }
  }

  lemma SecondPassClean(w: World, names: seq<Name>, naming: Naming)
    requires CanPass(w, names, naming) && Halfway(w)
    ensures Honest(FreshPass(w, names, naming)) && CleanWorld(FreshPass(w, names, naming))
  {
    forall n ensures !Conflicted(w, n) { assert HalfwayAt(w, n); }
    CalmPassSyncs(w, names, naming);
    var w2 := FreshPass(w, names, naming);
    forall n ensures SameAt(At(w2.disk, n), At(w2.base, n)) { assert Agreed(w2, n); }
  }

  lemma InstallKeepsHalfway(w: World, name: Name, incoming: Info, naming: Naming)
    requires Halfway(w) && NamesFree(w, naming) && Avoids(naming, w.server.Keys)
    ensures Halfway(Installed(w, name, incoming, naming))
  {
    var w' := Installed(w, name, incoming, naming);
    forall n ensures HalfwayAt(w', n) { assert HalfwayAt(w, n); }
  }

  lemma DeleteKeepsHalfway(w: World, name: Name)
    requires Halfway(w)
    ensures Halfway(PushedDelete(w, name))
  {
    var w' := PushedDelete(w, name);
    forall n ensures HalfwayAt(w', n) { assert HalfwayAt(w, n); }
  }

  /** Only session `i` changed. */
  ghost predicate Replaces(net: Net, i: nat, w: World, net': Net) {
    && i < |net.sessions| == |net'.sessions| && net'.sessions[i] == Session(w.disk, w.base)
    && forall j :: 0 <= j < |net.sessions| && j != i ==> net'.sessions[j] == net.sessions[j]
  }

  lemma ReplacedHonest(net: Net, i: nat, w: World, net': Net)
    requires AllHonest(net) && Replaces(net, i, w, net') && Honest(w)
    ensures AllHonest(net')
  {
  }

  lemma ReplacedClean(net: Net, i: nat, w: World, net': Net, turn: nat)
    requires Replaces(net, i, w, net') && turn <= |net.sessions| && (i < turn ==> CleanWorld(w))
    requires forall j :: 0 <= j < turn && j != i ==> Clean(net.sessions[j])
    ensures CleanUpTo(net', turn)
  {
    forall j | 0 <= j < turn ensures Clean(net'.sessions[j]) {
      if j != i { assert Clean(net.sessions[j]); }
    }
  }

  /** How far the first round is after `passes` passes: two a session, in turn. */
  ghost predicate Reached(net: Net, passes: nat) {
    && AllHonest(net) && CleanUpTo(net, passes / 2)
    && (passes % 2 == 1 ==> passes / 2 < |net.sessions| && Halfway(WorldOf(net, passes / 2)))
  }

  lemma PassTaken(net: Net, passes: nat, net': Net)
    requires Reached(net, passes) && Passes(net, passes / 2, net')
    ensures Reached(net', passes + 1) && |net'.sessions| == |net.sessions|
  {
    var i := passes / 2;
    var w := WorldOf(net, i);
    var names, naming :| CanPass(w, names, naming) && net' == Updated(net, i, FreshPass(w, names, naming));
    var w' := FreshPass(w, names, naming);
    assert Replaces(net, i, w', net');
    if passes % 2 == 0 {
      FirstPassHalfway(w, names, naming);
      HalfReached(net, passes, w', net');
    } else {
      SecondPassClean(w, names, naming);
      WhollyReached(net, passes, w', net');
    }
  }

  lemma HalfReached(net: Net, passes: nat, w: World, net': Net)
    requires Reached(net, passes) && passes % 2 == 0 && Replaces(net, passes / 2, w, net')
    requires net'.server == w.server && Halfway(w) && Honest(w)
    ensures Reached(net', passes + 1)
  {
    var i := passes / 2;
    forall n ensures HalfwayAt(WorldOf(net', i), n) { assert HalfwayAt(w, n); }
    ReplacedClean(net, i, w, net', i);
    ReplacedHonest(net, i, w, net');
  }

  lemma WhollyReached(net: Net, passes: nat, w: World, net': Net)
    requires Reached(net, passes) && passes % 2 == 1 && Replaces(net, passes / 2, w, net') && CleanWorld(w) && Honest(w)
    ensures Reached(net', passes + 1)
  {
    ReplacedClean(net, passes / 2, w, net', passes / 2 + 1);
    ReplacedHonest(net, passes / 2, w, net');
  }

  lemma InstallKeepsClean(w: World, name: Name, incoming: Info, naming: Naming)
    requires CleanWorld(w)
    ensures CleanWorld(Installed(w, name, incoming, naming))
  {
    assert SameAt(At(w.disk, name), At(w.base, name));
    assert !Displaces(w, name, incoming);
    var w' := Installed(w, name, incoming, naming);
    forall n ensures SameAt(At(w'.disk, n), At(w'.base, n)) { assert SameAt(At(w.disk, n), At(w.base, n)); }
  }

  lemma DeleteKeepsClean(w: World, name: Name)
    requires CleanWorld(w)
    ensures CleanWorld(PushedDelete(w, name))
  {
    var w' := PushedDelete(w, name);
    forall n ensures SameAt(At(w'.disk, n), At(w'.base, n)) { assert SameAt(At(w.disk, n), At(w.base, n)); }
  }

  lemma InstallReceived(net: Net, i: nat, passes: nat, name: Name, incoming: Info, naming: Naming)
    requires Reached(net, passes) && i < |net.sessions|
    requires NamesFree(WorldOf(net, i), naming) && (passes == 2 * i + 1 ==> Avoids(naming, net.server.Keys))
    ensures var w' := Installed(WorldOf(net, i), name, incoming, naming);
      Honest(w') && (i < passes / 2 ==> CleanWorld(w')) && (passes == 2 * i + 1 ==> Halfway(w')) && w'.server == net.server
  {
    var w := WorldOf(net, i);
    assert HonestSession(net.sessions[i]) && Honest(w);
    InstalledHonest(w, name, incoming, naming);
    if i < passes / 2 {
      assert Clean(net.sessions[i]) && CleanWorld(w);
      InstallKeepsClean(w, name, incoming, naming);
    }
    if passes == 2 * i + 1 { InstallKeepsHalfway(w, name, incoming, naming); }
  }

  lemma DeleteReceived(net: Net, i: nat, passes: nat, name: Name)
    requires Reached(net, passes) && i < |net.sessions|
    ensures var w' := PushedDelete(WorldOf(net, i), name);
      Honest(w') && (i < passes / 2 ==> CleanWorld(w')) && (passes == 2 * i + 1 ==> Halfway(w')) && w'.server == net.server
  {
    var w := WorldOf(net, i);
    assert HonestSession(net.sessions[i]) && Honest(w);
    if i < passes / 2 {
      assert Clean(net.sessions[i]) && CleanWorld(w);
      DeleteKeepsClean(w, name);
    }
    if passes == 2 * i + 1 { DeleteKeepsHalfway(w, name); }
  }

  lemma ReplacedReached(net: Net, i: nat, passes: nat, w': World, net': Net)
    requires Reached(net, passes) && i < |net.sessions| && net' == Updated(net, i, w') && w'.server == net.server
    requires Honest(w') && (i < passes / 2 ==> CleanWorld(w')) && (passes == 2 * i + 1 ==> Halfway(w'))
    ensures Reached(net', passes) && |net'.sessions| == |net.sessions|
  {
    assert Replaces(net, i, w', net');
    ReplacedHonest(net, i, w', net');
    ReplacedClean(net, i, w', net', passes / 2);
    if passes % 2 == 1 {
      var h := passes / 2;
      forall n ensures HalfwayAt(WorldOf(net', h), n) {
        if h == i { assert HalfwayAt(w', n); } else { assert HalfwayAt(WorldOf(net, h), n); }
      }
    }
  }

  lemma PushReceived(net: Net, passes: nat, net': Net)
    requires Reached(net, passes) && SomeReceives(net, passes, net')
    ensures Reached(net', passes) && |net'.sessions| == |net.sessions|
  {
    var i: nat :| Receives(net, i, net', if passes == 2 * i + 1 then net.server.Keys else {});
    var w := WorldOf(net, i);
    if name :| net' == Updated(net, i, PushedDelete(w, name)) {
      DeleteReceived(net, i, passes, name);
      ReplacedReached(net, i, passes, PushedDelete(w, name), net');
    } else {
      var name, incoming, naming :| NamesFree(w, naming)
        && Avoids(naming, if passes == 2 * i + 1 then net.server.Keys else {})
        && net' == Updated(net, i, Installed(w, name, incoming, naming));
      InstallReceived(net, i, passes, name, incoming, naming);
      ReplacedReached(net, i, passes, Installed(w, name, incoming, naming), net');
    }
  }

  /** The first round: session after session runs two passes; pushes may reach any session at
      any time in between. `passes[k]` passes have been run before step `k`. */
  ghost predicate FirstRound(nets: seq<Net>, passes: seq<nat>) {
    && |nets| == |passes| > 0 && passes[0] == 0 && passes[|passes| - 1] == 2 * |nets[0].sessions|
    && forall k :: 0 <= k < |nets| - 1 ==>
         || (passes[k + 1] == passes[k] && SomeReceives(nets[k], passes[k], nets[k + 1]))
         || (passes[k + 1] == passes[k] + 1 && Passes(nets[k], passes[k] / 2, nets[k + 1]))
  }

  lemma {:induction false} FirstRoundCleans(nets: seq<Net>, passes: seq<nat>, k: nat)
    requires FirstRound(nets, passes) && AllHonest(nets[0]) && k < |nets|
    ensures Reached(nets[k], passes[k]) && |nets[k].sessions| == |nets[0].sessions|
  {
    if k > 0 {
      FirstRoundCleans(nets, passes, k - 1);
      assert k - 1 < |nets| - 1;
      if passes[k] == passes[k - 1] && SomeReceives(nets[k - 1], passes[k - 1], nets[k]) {
        PushReceived(nets[k - 1], passes[k - 1], nets[k]);
      } else {
        PassTaken(nets[k - 1], passes[k - 1], nets[k]);
      }
    }
  }

  /** The second round: each session runs one more pass, in turn. */
  ghost predicate SecondRound(nets: seq<Net>) {
    && |nets| > 0 && |nets| == |nets[0].sessions| + 1
    && forall k :: 0 <= k < |nets| - 1 ==> Passes(nets[k], k, nets[k + 1])
  }

  lemma FollowTaken(net: Net, i: nat, net': Net)
    requires AllHonest(net) && CleanUpTo(net, |net.sessions|) && Passes(net, i, net')
    ensures AllHonest(net') && CleanUpTo(net', |net.sessions|) && |net'.sessions| == |net.sessions|
    ensures net'.server == net.server && Holds(net'.sessions[i], net'.server)
    ensures forall j :: 0 <= j < |net.sessions| && j != i ==> net'.sessions[j] == net.sessions[j]
  {
    var w := WorldOf(net, i);
    var names, naming :| CanPass(w, names, naming) && net' == Updated(net, i, FreshPass(w, names, naming));
    assert Clean(net.sessions[i]);
    forall n ensures SameAt(At(w.disk, n), At(w.base, n)) {
      assert SameAt(At(net.sessions[i].disk, n), At(net.sessions[i].base, n));
    }
    CleanFollows(w, names, naming);
    var w' := FreshPass(w, names, naming);
    forall n ensures SameAt(At(w'.disk, n), At(w'.base, n)) && SameAt(At(w'.disk, n), At(w'.server, n)) {
      assert Agreed(w', n);
    }
  }

  lemma {:induction false} SecondRoundFollows(nets: seq<Net>, k: nat)
    requires SecondRound(nets) && AllHonest(nets[0]) && CleanUpTo(nets[0], |nets[0].sessions|) && k < |nets|
    ensures AllHonest(nets[k]) && |nets[k].sessions| == |nets[0].sessions|
    ensures CleanUpTo(nets[k], |nets[0].sessions|) && nets[k].server == nets[0].server
    ensures forall j :: 0 <= j < k ==> Holds(nets[k].sessions[j], nets[k].server)
  {
    if k > 0 {
      SecondRoundFollows(nets, k - 1);
      FollowTaken(nets[k - 1], k - 1, nets[k]);
    }
  }

  /** Any number of sessions, starting from anything: once each in turn has run two passes,
      with any pushes arriving in between, and then each has run one more, all of them hold
      exactly the server's files. */
  lemma SessionsConverge(first: seq<Net>, passes: seq<nat>, second: seq<Net>)
    requires FirstRound(first, passes) && AllHonest(first[0])
    requires SecondRound(second) && second[0] == first[|first| - 1]
    ensures var last := second[|second| - 1];
      && last.server == second[0].server && |last.sessions| == |first[0].sessions|
      && forall j :: 0 <= j < |last.sessions| ==> Holds(last.sessions[j], last.server)
  {
    FirstRoundCleans(first, passes, |first| - 1);
    SecondRoundFollows(second, |second| - 1);
  }
}
