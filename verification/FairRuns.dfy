/**
  Quiet runs in which everything keeps getting its turn, in any order and with any number of other turns in between,
  reach the goal.
 */
module FairRuns {
  import opened Objects
  import opened Store
  import opened Protocol
  import opened Invariants
  import opened FleetPasses
  import opened TypePasses
  import opened Measures
  import opened Rollout
  import opened Convergence
  import opened QuietRuns

  // As far as the reconcilers go by it, nothing of g differs: pods may have run on.
  ghost predicate Still(g: Name, w: World, v: World) {
    && FlockOf(v, g) == FlockOf(w, g) && BroodsOf(v, g) == BroodsOf(w, g)
    && forall f, s | f in FleetsOf(w, g) && s in BroodOf(w, f).servers :: SameMeta(Find(w.pods, s), Find(v.pods, s))
  }

  ghost predicate SameMeta(p: Option<Pod>, q: Option<Pod>) {
    if p.None? then q.None? else q.Some? && q.value.meta == p.value.meta
  }

  lemma StillIsTransitive(g: Name, u: World, w: World, v: World)
    requires Still(g, u, w) && Still(g, w, v)
    ensures Still(g, u, v)
  {
    FlockSize(u, g);
    FlockSize(w, g);
    forall f, s | f in FleetsOf(u, g) && s in BroodOf(u, f).servers ensures SameMeta(Find(u.pods, s), Find(v.pods, s)) {
      PartAt(g, f, u);
      PartAt(g, f, w);
      assert s in BroodOf(w, f).servers;
      assert SameMeta(Find(u.pods, s), Find(w.pods, s)) && SameMeta(Find(w.pods, s), Find(v.pods, s));
    }
  }

  lemma StillFleet(g: Name, f: Name, w: World, v: World)
    requires Still(g, w, v) && f in FleetsOf(w, g)
    ensures f in FleetsOf(v, g) && v.fleets[f] == w.fleets[f] && BroodOf(v, f).servers == BroodOf(w, f).servers
    ensures ServersOf(v, f) == ServersOf(w, f)
  {
    FlockSize(w, g);
    FlockSize(v, g);
    PartAt(g, f, w);
    PartAt(g, f, v);
    BroodSize(w, f);
    BroodSize(v, f);
  }

  lemma StillServer(g: Name, f: Name, s: Name, w: World, v: World)
    requires Still(g, w, v) && f in FleetsOf(w, g) && s in ServersOf(w, f)
    ensures f in FleetsOf(v, g) && s in ServersOf(v, f) && (ServerIdle(s, v) <==> ServerIdle(s, w))
  {
    StillFleet(g, f, w, v);
    assert s in BroodOf(w, f).servers && BroodOf(w, f).servers[s] == w.servers[s];
    assert s in BroodOf(v, f).servers && BroodOf(v, f).servers[s] == v.servers[s];
    assert SameMeta(Find(w.pods, s), Find(v.pods, s));
  }

  /** Stretches of a run. */

  // A quiet run from a calm moment on.
  ghost predicate QuietFrom(r: Rules, cap: nat, secret: string, g: Name, moves: seq<Move>, ws: seq<World>) {
    QuietRun(r, secret, g, moves, ws) && OrderlyRollout(r) && Calm(cap, g, ws[0])
  }

  ghost predicate NothingChanged(g: Name, moves: seq<Move>, ws: seq<World>, k: nat) {
    && k < |moves| && |ws| == |moves| + 1
    && if moves[k].Meanwhile? then Meantime(g, ws[k], ws[k + 1]) else Same(g, ws[k], ws[k + 1])
  }

  // No pass of the stretch changed anything.
  ghost predicate Uneventful(g: Name, moves: seq<Move>, ws: seq<World>, i: nat, j: nat) {
    && i <= j <= |moves| && |ws| == |moves| + 1
    && forall k {:trigger NothingChanged(g, moves, ws, k)} | i <= k < j :: NothingChanged(g, moves, ws, k)
  }

  lemma {:induction false} StillThroughout(g: Name, moves: seq<Move>, ws: seq<World>, i: nat, k: nat)
    requires Uneventful(g, moves, ws, i, k)
    ensures Still(g, ws[i], ws[k])
  {
    if i < k {
      StillThroughout(g, moves, ws, i, k - 1);
      assert NothingChanged(g, moves, ws, k - 1);
      StillAfter(g, moves[k - 1], ws[i], ws[k - 1], ws[k]);
    }
  }

  lemma StillAfter(g: Name, m: Move, u: World, w: World, v: World)
    requires Still(g, u, w) && if m.Meanwhile? then Meantime(g, w, v) else Same(g, w, v)
    ensures Still(g, u, v)
  {
    if m.Meanwhile? { MeantimeIsStill(g, w, v); }
    StillIsTransitive(g, u, w, v);
  }

  lemma MeantimeIsStill(g: Name, w: World, v: World)
    requires Meantime(g, w, v)
    ensures Still(g, w, v)
  {
    forall f, s | f in FleetsOf(w, g) && s in BroodOf(w, f).servers ensures SameMeta(Find(w.pods, s), Find(v.pods, s)) {
      assert PodAlike(BroodOf(w, f).servers[s], Find(w.pods, s), Find(v.pods, s));
    }
  }

  // A stretch leaves less work, or nothing of it changed anything.
  lemma {:induction false} StretchWorks(r: Rules, cap: nat, secret: string, g: Name, moves: seq<Move>, ws: seq<World>,
                                        i: nat, j: nat)
    requires QuietFrom(r, cap, secret, g, moves, ws) && i <= j <= |moves|
    ensures Calm(cap, g, ws[i]) && Calm(cap, g, ws[j]) && WorkLeft(cap, g, ws[j]) <= WorkLeft(cap, g, ws[i])
    ensures Uneventful(g, moves, ws, i, j) || WorkLeft(cap, g, ws[j]) < WorkLeft(cap, g, ws[i])
  {
    if i < j {
      StretchWorks(r, cap, secret, g, moves, ws, i, j - 1);
      TurnWorks(r, cap, secret, g, moves, ws, j - 1);
      OneMore(g, moves, ws, i, j - 1);
    } else {
      ChangesAreBounded(r, cap, secret, g, moves, ws, i);
    }
  }

  lemma TurnWorks(r: Rules, cap: nat, secret: string, g: Name, moves: seq<Move>, ws: seq<World>, j: nat)
    requires QuietRun(r, secret, g, moves, ws) && OrderlyRollout(r) && j < |moves| && Calm(cap, g, ws[j])
    ensures Calm(cap, g, ws[j + 1]) && WorkLeft(cap, g, ws[j + 1]) <= WorkLeft(cap, g, ws[j])
    ensures NothingChanged(g, moves, ws, j) || WorkLeft(cap, g, ws[j + 1]) < WorkLeft(cap, g, ws[j])
  {
    assert TurnedAt(secret, g, moves, ws, j);
    EveryTurnWorks(r, cap, secret, g, moves[j], ws[j], ws[j + 1]);
  }

  lemma OneMore(g: Name, moves: seq<Move>, ws: seq<World>, i: nat, j: nat)
    requires i <= j < |moves|
    ensures Uneventful(g, moves, ws, i, j) && NothingChanged(g, moves, ws, j) ==> Uneventful(g, moves, ws, i, j + 1)
  {
  }

  /** What a pass that changed nothing tells of the moment the stretch began. */

  // The pass at k belongs to a stretch without changes.
  lemma PassInStretch(r: Rules, cap: nat, secret: string, g: Name, moves: seq<Move>, ws: seq<World>, i: nat, j: nat,
                      k: nat)
    requires QuietFrom(r, cap, secret, g, moves, ws) && Uneventful(g, moves, ws, i, j) && i <= k < j
    requires !moves[k].Meanwhile?
    ensures Still(g, ws[i], ws[k]) && Same(g, ws[k], ws[k + 1]) && Turned(secret, g, moves[k], ws[k], ws[k + 1])
    ensures Calm(cap, g, ws[k]) && Kept(r, ws[k]) && Kept(r, ws[k + 1])
  {
    StillThroughout(g, moves, ws, i, k);
    StretchWorks(r, cap, secret, g, moves, ws, 0, k);
    assert TurnedAt(secret, g, moves, ws, k) && NothingChanged(g, moves, ws, k);
  }

  lemma TypeFoundAtRest(r: Rules, cap: nat, secret: string, g: Name, moves: seq<Move>, ws: seq<World>, i: nat, j: nat,
                        k: nat)
    requires QuietFrom(r, cap, secret, g, moves, ws) && Uneventful(g, moves, ws, i, j) && i <= k < j && moves[k].OfType?
    ensures g in ws[i].types && TypeAtRest(ws[i].types[g], FlockOf(ws[i], g).fleets)
  {
    PassInStretch(r, cap, secret, g, moves, ws, i, j, k);
    StretchWorks(r, cap, secret, g, moves, ws, 0, i);
    TypeTurnWorks(r, cap, g, ws[k], ws[k + 1]);
    assert Some(ws[k].types[g]) == FlockOf(ws[k], g).gametype == FlockOf(ws[i], g).gametype == Some(ws[i].types[g]);
  }

  lemma FleetFoundAtRest(r: Rules, cap: nat, secret: string, g: Name, moves: seq<Move>, ws: seq<World>, i: nat, j: nat,
                         k: nat, f: Name)
    requires QuietFrom(r, cap, secret, g, moves, ws) && Uneventful(g, moves, ws, i, j) && i <= k < j
    requires moves[k] == OfFleet(f) && f in FleetsOf(ws[i], g)
    ensures FleetAtRest(ws[i].fleets[f], BroodOf(ws[i], f).servers)
  {
    PassInStretch(r, cap, secret, g, moves, ws, i, j, k);
    FleetTurnWorks(r, cap, g, f, ws[k], ws[k + 1]);
    StillFleet(g, f, ws[i], ws[k]);
  }

  lemma ServerFoundIdle(r: Rules, cap: nat, secret: string, g: Name, moves: seq<Move>, ws: seq<World>, i: nat, j: nat,
                        k: nat, f: Name, s: Name)
    requires QuietFrom(r, cap, secret, g, moves, ws) && Uneventful(g, moves, ws, i, j) && i <= k < j
    requires moves[k] == OfServer(f, s)
    requires f in FleetsOf(ws[i], g) && s in ServersOf(ws[i], f)
    ensures ServerIdle(s, ws[i])
  {
    PassInStretch(r, cap, secret, g, moves, ws, i, j, k);
    ServerTurnWorks(r, cap, secret, g, f, s, ws[k], ws[k + 1]);
    SteadyAlike(r, cap, g, ws[k], ws[k + 1]);
    StillServer(g, f, s, ws[i], ws[k]);
  }

  /** Full rounds. */

  // At some moment of the stretch the GameType had its turn; so had each fleet, unless it was gone or not ripe when
  // its turn came; and so had each server, unless it was gone.
  ghost predicate FullRound(g: Name, moves: seq<Move>, ws: seq<World>, i: nat, j: nat) {
    && i <= j <= |moves| && |ws| == |moves| + 1
    && (exists k | i <= k < j :: moves[k].OfType?)
    && (forall f | f in FleetsOf(ws[i], g) :: exists k | i <= k < j :: FleetHadTurn(g, f, moves[k], ws[k]))
    && (forall f, s | f in FleetsOf(ws[i], g) && s in ServersOf(ws[i], f) ::
          exists k | i <= k < j :: ServerHadTurn(f, s, moves[k], ws[k]))
  }

  ghost predicate FleetHadTurn(g: Name, f: Name, m: Move, w: World) {
    m == OfFleet(f) || f !in FleetsOf(w, g) || !Ripe(w.fleets[f], BroodOf(w, f).servers, w.pods)
  }

  ghost predicate ServerHadTurn(f: Name, s: Name, m: Move, w: World) { m == OfServer(f, s) || s !in ServersOf(w, f) }

  // Servers that need no pass are settled, and so a fleet that has only such is ripe.
  lemma IdleIsRipe(g: Name, f: Name, u: World, w: World)
    requires Still(g, u, w) && f in FleetsOf(u, g) && forall s | s in ServersOf(u, f) :: ServerIdle(s, u)
    ensures f in FleetsOf(w, g) && Ripe(w.fleets[f], BroodOf(w, f).servers, w.pods)
  {
    StillFleet(g, f, u, w);
    forall s | s in BroodOf(w, f).servers ensures Settled(BroodOf(w, f).servers[s], Find(w.pods, s)) {
      StillServer(g, f, s, u, w);
      assert ServerIdle(s, w) && BroodOf(w, f).servers[s] == w.servers[s];
    }
  }

  lemma FoundIdle(r: Rules, cap: nat, secret: string, g: Name, moves: seq<Move>, ws: seq<World>, i: nat, j: nat,
                  f: Name, s: Name)
    requires QuietFrom(r, cap, secret, g, moves, ws) && Uneventful(g, moves, ws, i, j) && FullRound(g, moves, ws, i, j)
    requires f in FleetsOf(ws[i], g) && s in ServersOf(ws[i], f)
    ensures ServerIdle(s, ws[i])
  {
    var k :| i <= k < j && ServerHadTurn(f, s, moves[k], ws[k]);
    StillThroughout(g, moves, ws, i, k);
    StillFleet(g, f, ws[i], ws[k]);
    ServerFoundIdle(r, cap, secret, g, moves, ws, i, j, k, f, s);
  }

  lemma FoundAtRest(r: Rules, cap: nat, secret: string, g: Name, moves: seq<Move>, ws: seq<World>, i: nat, j: nat,
                    f: Name)
    requires QuietFrom(r, cap, secret, g, moves, ws) && Uneventful(g, moves, ws, i, j) && FullRound(g, moves, ws, i, j)
    requires f in FleetsOf(ws[i], g) && forall s | s in ServersOf(ws[i], f) :: ServerIdle(s, ws[i])
    ensures FleetAtRest(ws[i].fleets[f], BroodOf(ws[i], f).servers)
  {
    var k :| i <= k < j && FleetHadTurn(g, f, moves[k], ws[k]);
    StillThroughout(g, moves, ws, i, k);
    IdleIsRipe(g, f, ws[i], ws[k]);
    FleetFoundAtRest(r, cap, secret, g, moves, ws, i, j, k, f);
  }

  // When everything had its turn and no pass changed anything, the goal is reached.
  lemma FullRoundIsGoal(r: Rules, cap: nat, secret: string, g: Name, moves: seq<Move>, ws: seq<World>, i: nat, j: nat)
    requires QuietFrom(r, cap, secret, g, moves, ws)
    requires FullRound(g, moves, ws, i, j) && Uneventful(g, moves, ws, i, j)
    ensures Goal(g, ws[i]) && Goal(g, ws[j])
  {
    var k :| i <= k < j && moves[k].OfType?;
    TypeFoundAtRest(r, cap, secret, g, moves, ws, i, j, k);
    forall f, s | f in FleetsOf(ws[i], g) && s in ServersOf(ws[i], f) ensures ServerIdle(s, ws[i]) {
      FoundIdle(r, cap, secret, g, moves, ws, i, j, f, s);
    }
    forall f | f in FleetsOf(ws[i], g) ensures FleetAtRest(ws[i].fleets[f], BroodOf(ws[i], f).servers) {
      FoundAtRest(r, cap, secret, g, moves, ws, i, j, f);
    }
    StretchWorks(r, cap, secret, g, moves, ws, 0, i);
    RestIsGoal(cap, g, ws[i]);
    GoalLasts(r, cap, secret, g, moves, ws, i, j);
  }

  lemma GoalLasts(r: Rules, cap: nat, secret: string, g: Name, moves: seq<Move>, ws: seq<World>, i: nat, j: nat)
    requires QuietFrom(r, cap, secret, g, moves, ws) && i <= j <= |moves|
    requires Goal(g, ws[i])
    ensures Goal(g, ws[j])
  {
    StretchWorks(r, cap, secret, g, moves, ws, i, j);
    GoalExactlyWhenNoWork(r, cap, g, ws[i]);
    GoalExactlyWhenNoWork(r, cap, g, ws[j]);
  }

  // One full round after another.
  ghost predicate FullRounds(g: Name, moves: seq<Move>, ws: seq<World>, cuts: seq<nat>) {
    forall k {:trigger FullRoundAt(g, moves, ws, cuts, k)} | 0 <= k < |cuts| - 1 :: FullRoundAt(g, moves, ws, cuts, k)
  }

  ghost predicate FullRoundAt(g: Name, moves: seq<Move>, ws: seq<World>, cuts: seq<nat>, k: nat) {
    k + 1 < |cuts| && FullRound(g, moves, ws, cuts[k], cuts[k + 1])
  }

  // A full round leaves less work, or there is none.
  lemma RoundCounts(r: Rules, cap: nat, secret: string, g: Name, moves: seq<Move>, ws: seq<World>, i: nat, j: nat)
    requires QuietFrom(r, cap, secret, g, moves, ws) && FullRound(g, moves, ws, i, j)
    ensures Calm(cap, g, ws[i]) && Calm(cap, g, ws[j])
    ensures WorkLeft(cap, g, ws[j]) <= WorkLeft(cap, g, ws[i])
    ensures WorkLeft(cap, g, ws[j]) == 0 || WorkLeft(cap, g, ws[j]) < WorkLeft(cap, g, ws[i])
  {
    StretchWorks(r, cap, secret, g, moves, ws, i, j);
    if Uneventful(g, moves, ws, i, j) {
      FullRoundIsGoal(r, cap, secret, g, moves, ws, i, j);
      GoalExactlyWhenNoWork(r, cap, g, ws[j]);
    }
  }

  lemma {:induction false} EachRoundCounts(r: Rules, cap: nat, secret: string, g: Name, moves: seq<Move>,
                                           ws: seq<World>, cuts: seq<nat>, k: nat)
    requires QuietFrom(r, cap, secret, g, moves, ws)
    requires FullRounds(g, moves, ws, cuts) && k < |cuts| && cuts[k] <= |moves|
    ensures Calm(cap, g, ws[0]) && Calm(cap, g, ws[cuts[k]])
    ensures WorkLeft(cap, g, ws[cuts[k]]) == 0 || k + WorkLeft(cap, g, ws[cuts[k]]) <= WorkLeft(cap, g, ws[0])
  {
    if k == 0 {
      StretchWorks(r, cap, secret, g, moves, ws, 0, cuts[0]);
    } else {
      assert FullRoundAt(g, moves, ws, cuts, k - 1);
      EachRoundCounts(r, cap, secret, g, moves, ws, cuts, k - 1);
      RoundCounts(r, cap, secret, g, moves, ws, cuts[k - 1], cuts[k]);
    }
  }

  // Whatever else happens in between, more full rounds than there was work to begin with end at the goal.
  lemma FairRunsReachTheGoal(r: Rules, cap: nat, secret: string, g: Name, moves: seq<Move>, ws: seq<World>,
                             cuts: seq<nat>)
    requires QuietFrom(r, cap, secret, g, moves, ws)
    requires FullRounds(g, moves, ws, cuts) && WorkLeft(cap, g, ws[0]) + 1 < |cuts|
    ensures Goal(g, ws[|moves|])
  {
    var k := |cuts| - 1;
    assert FullRoundAt(g, moves, ws, cuts, k - 1);
    EachRoundCounts(r, cap, secret, g, moves, ws, cuts, k);
    GoalExactlyWhenNoWork(r, cap, g, ws[cuts[k]]);
    GoalLasts(r, cap, secret, g, moves, ws, cuts[k], |moves|);
  }
}
