// Breadth-first route search over overworld positions (scripts/bfs_route.py). One
// press-and-settle step is a function from a position and a direction to a position.
module BfsRoute {
  import opened Common

  // A position: the map byte and the two coordinate bytes.
  datatype Key = Key(mapId: Byte, x: Byte, y: Byte)

  datatype Dir = U | D | L | R

  const DIRS: seq<Dir> := [U, D, L, R]

  type Mover = (Key, Dir) -> Key

  // The position a direction string leads to.
  function Follow(step: Mover, from: Key, path: seq<Dir>): Key
    decreases |path|
  {
    if path == [] then from else step(Follow(step, from, path[..|path| - 1]), path[|path| - 1])
  }

  // Every proper prefix of the string is on the starting map.
  ghost predicate StaysUntilLast(step: Mover, start: Key, path: seq<Dir>) {
    forall i :: 0 <= i < |path| ==> Follow(step, start, path[..i]).mapId == start.mapId
  }

  // The string and all its prefixes are on the starting map.
  ghost predicate Stays(step: Mover, start: Key, path: seq<Dir>) {
    StaysUntilLast(step, start, path) && Follow(step, start, path).mapId == start.mapId
  }

  datatype Goal = Goal(targetMap: Option<int>, targetXy: Option<(int, int)>)

  // A position that answers the query: on the target map if that is another map,
  // or at the target coordinates on the starting map.
  predicate Reaches(g: Goal, start: Key, k: Key) {
    if k.mapId != start.mapId then g.targetMap == Some(k.mapId as int) else g.targetXy == Some((k.x as int, k.y as int))
  }

  // A route worth finding: non-empty, leaving the map at most with its last step.
  ghost predicate Route(step: Mover, start: Key, g: Goal, path: seq<Dir>) {
    path != [] && StaysUntilLast(step, start, path) && Reaches(g, start, Follow(step, start, path))
  }

  // The same, away from the position the search starts on, which is marked as
  // visited before the first step and so never counts as newly reached.
  ghost predicate RouteAway(step: Mover, start: Key, g: Goal, path: seq<Dir>) {
    Route(step, start, g, path) && Follow(step, start, path) != start
  }

  // A recorded path replays on the map to the position it is filed under.
  ghost predicate Replays(step: Mover, start: Key, visited: map<Key, seq<Dir>>) {
    forall k :: k in visited ==> Follow(step, start, visited[k]) == k && Stays(step, start, visited[k])
  }

  datatype Entry = Entry(key: Key, path: seq<Dir>)

  // The frontier: recorded positions in order of path length, at most one apart.
  ghost predicate Ordered(visited: map<Key, seq<Dir>>, q: seq<Entry>, depth: nat) {
    && (forall i :: 0 <= i < |q| ==> q[i].key in visited && visited[q[i].key] == q[i].path)
    && (forall i :: 0 <= i < |q| ==> depth <= |q[i].path| <= depth + 1)
    && (forall i, j :: 0 <= i < j < |q| ==> |q[i].path| <= |q[j].path|)
    && (forall k :: k in visited ==> |visited[k]| <= depth + 1)
  }

  ghost predicate Queued(q: seq<Entry>, k: Key) {
    exists i :: 0 <= i < |q| && q[i].key == k
  }

  // All moves out of a position in the given directions were looked at: none is a
  // goal, and those staying on the map are recorded at most one step longer.
  ghost predicate Expanded(step: Mover, start: Key, g: Goal, visited: map<Key, seq<Dir>>, k: Key, dirs: set<Dir>)
    requires k in visited
  {
    forall d :: d in dirs ==>
      var n := step(k, d);
      && (n.mapId != start.mapId ==> g.targetMap != Some(n.mapId as int))
      && (n.mapId == start.mapId ==> n in visited && |visited[n]| <= |visited[k]| + 1)
  }

  const ALL: set<Dir> := {U, D, L, R}

  lemma AllHolds(d: Dir)
    ensures d in ALL
  {
    match d { case U => case D => case L => case R => }
  }

  ghost predicate NoGoalRecorded(start: Key, g: Goal, visited: map<Key, seq<Dir>>) {
    forall k :: k in visited && k != start ==> !Reaches(g, start, k)
  }

  // Recorded positions that are neither waiting nor being expanded are done.
  ghost predicate Settled(step: Mover, start: Key, g: Goal, visited: map<Key, seq<Dir>>, q: seq<Entry>, except: Option<Key>) {
    forall k :: k in visited && !Queued(q, k) && Some(k) != except ==> Expanded(step, start, g, visited, k, ALL)
  }

  ghost predicate Searching(
      step: Mover, start: Key, g: Goal, visited: map<Key, seq<Dir>>, q: seq<Entry>, depth: nat, except: Option<Key>)
  {
    && start in visited && visited[start] == []
    && Replays(step, start, visited)
    && Ordered(visited, q, depth)
    && Settled(step, start, g, visited, q, except)
    && NoGoalRecorded(start, g, visited)
    // nothing shorter than the current depth is still waiting
    && (forall k :: k in visited && |visited[k]| < depth ==> !Queued(q, k) && Some(k) != except)
  }

  // Every position reachable on the map in at most `depth` steps is recorded with
  // a path no longer than the string that reaches it.
  lemma {:induction false} ReachableIsRecorded(
      step: Mover, start: Key, g: Goal, visited: map<Key, seq<Dir>>, q: seq<Entry>, depth: nat, except: Option<Key>,
      path: seq<Dir>)
    requires Searching(step, start, g, visited, q, depth, except)
    requires Stays(step, start, path) && |path| <= depth
    ensures Follow(step, start, path) in visited && |visited[Follow(step, start, path)]| <= |path|
    decreases |path|
  {
    if path != [] {
      var init := path[..|path| - 1];
      PrefixStays(step, start, path);
      ReachableIsRecorded(step, start, g, visited, q, depth, except, init);
      var k := Follow(step, start, init);
      assert Expanded(step, start, g, visited, k, ALL);
      AllHolds(path[|path| - 1]);
    }
  }

  lemma PrefixStays(step: Mover, start: Key, path: seq<Dir>)
    requires path != [] && StaysUntilLast(step, start, path)
    ensures Stays(step, start, path[..|path| - 1])
  {
    var init := path[..|path| - 1];
    assert forall i :: 0 <= i < |init| ==> init[..i] == path[..i];
  }

  // No route away is as short as the current depth: its next-to-last position
  // would be done already, and its last one a recorded or adjacent goal.
  lemma NoShorterRoute(
      step: Mover, start: Key, g: Goal, visited: map<Key, seq<Dir>>, q: seq<Entry>, depth: nat, except: Option<Key>,
      path: seq<Dir>)
    requires Searching(step, start, g, visited, q, depth, except)
    requires RouteAway(step, start, g, path)
    ensures |path| > depth
  {
    if |path| <= depth {
      var init, d := path[..|path| - 1], path[|path| - 1];
      PrefixStays(step, start, path);
      var k := Follow(step, start, init);
      assert Follow(step, start, path) == step(k, d);
      AllHolds(d);
      ReachableIsRecorded(step, start, g, visited, q, depth, except, init);
    }
  }

  // Recorded paths are shortest: no string staying on the map gets there sooner.
  lemma RecordedIsShortest(
      step: Mover, start: Key, g: Goal, visited: map<Key, seq<Dir>>, q: seq<Entry>, depth: nat, except: Option<Key>,
      k: Key, path: seq<Dir>)
    requires Searching(step, start, g, visited, q, depth, except)
    requires k in visited && Stays(step, start, path) && Follow(step, start, path) == k
    ensures |visited[k]| <= |path|
  {
    if |path| <= depth {
      ReachableIsRecorded(step, start, g, visited, q, depth, except, path);
    }
  }

  // What every recorded position means once the search stops.
  ghost predicate ShortestPaths(step: Mover, start: Key, visited: map<Key, seq<Dir>>) {
    forall k :: k in visited ==>
      && Follow(step, start, visited[k]) == k && Stays(step, start, visited[k])
      && forall p :: Stays(step, start, p) && Follow(step, start, p) == k ==> |visited[k]| <= |p|
  }

  lemma SearchingIsShortest(
      step: Mover, start: Key, g: Goal, visited: map<Key, seq<Dir>>, q: seq<Entry>, depth: nat, except: Option<Key>)
    requires Searching(step, start, g, visited, q, depth, except)
    ensures ShortestPaths(step, start, visited)
  {
    forall k, p | k in visited && Stays(step, start, p) && Follow(step, start, p) == k ensures |visited[k]| <= |p| {
      RecordedIsShortest(step, start, g, visited, q, depth, except, k, p);
    }
  }

  // An empty frontier has expanded everything reachable, whatever the depth.
  lemma EmptyFrontierDeepens(
      step: Mover, start: Key, g: Goal, visited: map<Key, seq<Dir>>, depth: nat, deeper: nat)
    requires Searching(step, start, g, visited, [], depth, None) && depth <= deeper
    ensures Searching(step, start, g, visited, [], deeper, None)
  {
  }

  lemma ExtendFollows(step: Mover, start: Key, path: seq<Dir>, d: Dir)
    requires Stays(step, start, path)
    ensures Follow(step, start, path + [d]) == step(Follow(step, start, path), d)
    ensures StaysUntilLast(step, start, path + [d])
  {
    var p := path + [d];
    assert p[..|p| - 1] == path;
    forall i | 0 <= i < |p| ensures Follow(step, start, p[..i]).mapId == start.mapId {
      if i < |path| { assert p[..i] == path[..i]; }
    }
  }

  lemma PopOrdered(visited: map<Key, seq<Dir>>, q: seq<Entry>, depth: nat)
    requires Ordered(visited, q, depth) && q != []
    ensures Ordered(visited, q[1..], |q[0].path|)
    ensures forall k :: k in visited && |visited[k]| < |q[0].path| ==> !Queued(q[1..], k)
  {
    forall i | 0 <= i < |q[1..]|
      ensures |q[0].path| <= |q[1..][i].path| && q[1..][i].key in visited && visited[q[1..][i].key] == q[1..][i].path
    {
      assert q[1..][i] == q[i + 1];
    }
  }

  lemma PopQueued(q: seq<Entry>, k: Key)
    requires q != []
    ensures Queued(q, k) <==> Queued(q[1..], k) || k == q[0].key
  {
    if Queued(q, k) && k != q[0].key {
      var i :| 0 <= i < |q| && q[i].key == k;
      assert q[1..][i - 1].key == k;
    }
  }

  // Taking the front entry off the queue starts its expansion.
  lemma PopKeeps(step: Mover, start: Key, g: Goal, visited: map<Key, seq<Dir>>, q: seq<Entry>, depth: nat)
    requires Searching(step, start, g, visited, q, depth, None) && q != []
    ensures q[0].key in visited && visited[q[0].key] == q[0].path
    ensures Expanding(step, start, g, visited, q[1..], q[0].key, {})
  {
    hide Queued, Replays, NoGoalRecorded;
    assert q[0].key in visited && visited[q[0].key] == q[0].path;
    PopOrdered(visited, q, depth);
    forall k ensures Queued(q, k) <==> Queued(q[1..], k) || k == q[0].key { PopQueued(q, k); }
    hide Ordered;
  }

  // The state in the middle of expanding a position: `done` directions were looked at.
  ghost predicate Expanding(
      step: Mover, start: Key, g: Goal, visited: map<Key, seq<Dir>>, q: seq<Entry>, key: Key, done: set<Dir>)
  {
    && key in visited
    && Searching(step, start, g, visited, q, |visited[key]|, Some(key))
    && Expanded(step, start, g, visited, key, done)
  }

  lemma StaysExtended(step: Mover, start: Key, p: seq<Dir>)
    requires StaysUntilLast(step, start, p) && Follow(step, start, p).mapId == start.mapId
    ensures Stays(step, start, p)
  {
  }

  lemma PushOrdered(visited: map<Key, seq<Dir>>, q: seq<Entry>, depth: nat, n: Key, p: seq<Dir>)
    requires Ordered(visited, q, depth) && n !in visited && |p| == depth + 1
    ensures Ordered(visited[n := p], q + [Entry(n, p)], depth)
  {
  }

  lemma PushQueued(q: seq<Entry>, n: Key, p: seq<Dir>, k: Key)
    ensures Queued(q + [Entry(n, p)], k) <==> Queued(q, k) || k == n
  {
    var q' := q + [Entry(n, p)];
    assert q'[|q|] == Entry(n, p);
    assert forall i :: 0 <= i < |q| ==> q'[i] == q[i];
    if Queued(q, k) {
      var i :| 0 <= i < |q| && q[i].key == k;
      assert q'[i].key == k;
    }
  }

  // Recording one new neighbour of the position under expansion.
  lemma RecordKeeps(
      step: Mover, start: Key, g: Goal, visited: map<Key, seq<Dir>>, q: seq<Entry>, key: Key, d: Dir, done: set<Dir>)
    requires Expanding(step, start, g, visited, q, key, done)
    requires step(key, d) !in visited && step(key, d).mapId == start.mapId && !Reaches(g, start, step(key, d))
    ensures var n, p := step(key, d), visited[key] + [d];
      Expanding(step, start, g, visited[n := p], q + [Entry(n, p)], key, done + {d})
  {
    hide Ordered, Queued, Stays, Follow, StaysUntilLast;
    var n, p := step(key, d), visited[key] + [d];
    var v', q' := visited[n := p], q + [Entry(n, p)];
    ExtendFollows(step, start, visited[key], d);
    StaysExtended(step, start, p);
    PushOrdered(visited, q, |visited[key]|, n, p);
    forall k ensures Queued(q', k) <==> Queued(q, k) || k == n { PushQueued(q, n, p, k); }
    assert forall k :: k in v' && !Queued(q', k) ==> k in visited && !Queued(q, k);
    assert |visited[key]| < |p|;
  }

  // Once all four directions are done, the position counts as done.
  lemma FinishKeeps(
      step: Mover, start: Key, g: Goal, visited: map<Key, seq<Dir>>, q: seq<Entry>, key: Key)
    requires Expanding(step, start, g, visited, q, key, ALL)
    ensures Searching(step, start, g, visited, q, |visited[key]|, None)
  {
  }

  // The outcome of a search that found a route.
  ghost predicate Shortest(step: Mover, start: Key, g: Goal, path: seq<Dir>) {
    RouteAway(step, start, g, path) && forall p :: RouteAway(step, start, g, p) ==> |path| <= |p|
  }

  lemma FoundIsShortest(
      step: Mover, start: Key, g: Goal, visited: map<Key, seq<Dir>>, q: seq<Entry>, key: Key, d: Dir)
    requires key in visited && Searching(step, start, g, visited, q, |visited[key]|, Some(key))
    requires Reaches(g, start, step(key, d)) && step(key, d) != start
    ensures Shortest(step, start, g, visited[key] + [d])
  {
    ExtendFollows(step, start, visited[key], d);
    forall p | RouteAway(step, start, g, p) ensures |visited[key] + [d]| <= |p| {
      NoShorterRoute(step, start, g, visited, q, |visited[key]|, Some(key), p);
    }
  }

  // A neighbour that needs no recording: the position itself, one on another map
  // that is not the target, or one already recorded.
  lemma SkipKeeps(
      step: Mover, start: Key, g: Goal, visited: map<Key, seq<Dir>>, q: seq<Entry>, key: Key, d: Dir, done: set<Dir>)
    requires Expanding(step, start, g, visited, q, key, done)
    requires step(key, d).mapId != start.mapId ==> g.targetMap != Some(step(key, d).mapId as int)
    requires step(key, d).mapId == start.mapId ==> step(key, d) in visited
    ensures Expanding(step, start, g, visited, q, key, done + {d})
  {
  }

  // The goal that ends the search is itself recorded with a shortest path.
  lemma GoalIsShortest(
      step: Mover, start: Key, g: Goal, visited: map<Key, seq<Dir>>, q: seq<Entry>, key: Key, d: Dir)
    requires key in visited && Searching(step, start, g, visited, q, |visited[key]|, Some(key))
    requires Reaches(g, start, step(key, d)) && step(key, d) !in visited && step(key, d).mapId == start.mapId
    ensures ShortestPaths(step, start, visited[step(key, d) := visited[key] + [d]])
  {
    var n, path := step(key, d), visited[key] + [d];
    SearchingIsShortest(step, start, g, visited, q, |visited[key]|, Some(key));
    FoundIsShortest(step, start, g, visited, q, key, d);
    forall p | Stays(step, start, p) && Follow(step, start, p) == n ensures |path| <= |p| {
      assert p != [];
      assert RouteAway(step, start, g, p);
    }
  }

  lemma StartIsRecorded(
      step: Mover, start: Key, g: Goal, visited: map<Key, seq<Dir>>, q: seq<Entry>, depth: nat, except: Option<Key>)
    requires Searching(step, start, g, visited, q, depth, except)
    ensures start in visited
  {
  }

  lemma MapIsRecorded(step: Mover, start: Key, g: Goal, visited: map<Key, seq<Dir>>, q: seq<Entry>, key: Key)
    requires key in visited && Searching(step, start, g, visited, q, |visited[key]|, Some(key))
    ensures key.mapId == start.mapId
  {
    assert Stays(step, start, visited[key]);
  }

  // All byte positions: the finite space the search moves in.
  ghost function Space(): set<Key> {
    set m: int, x: int, y: int | 0 <= m < 256 && 0 <= x < 256 && 0 <= y < 256 :: Key(m, x, y)
  }

  lemma InSpace(k: Key)
    ensures k in Space()
  {
    assert Key(k.mapId, k.x, k.y) == k;
  }

  // Recording a position uses up one free position of the space.
  lemma SpaceShrinks(visited: map<Key, seq<Dir>>, n: Key, p: seq<Dir>)
    requires n !in visited
    ensures |Space() - visited[n := p].Keys| + 1 == |Space() - visited.Keys|
  {
    InSpace(n);
    assert Space() - visited[n := p].Keys == (Space() - visited.Keys) - {n};
  }

  // An exhausted frontier leaves no route away unfound.
  lemma ExhaustedMeansNone(step: Mover, start: Key, g: Goal, visited: map<Key, seq<Dir>>, depth: nat)
    requires Searching(step, start, g, visited, [], depth, None)
    ensures NoneLeft(step, start, g)
  {
    forall p ensures !RouteAway(step, start, g, p) { ExhaustedFor(step, start, g, visited, depth, p); }
  }

  lemma ExhaustedFor(step: Mover, start: Key, g: Goal, visited: map<Key, seq<Dir>>, depth: nat, p: seq<Dir>)
    requires Searching(step, start, g, visited, [], depth, None)
    ensures !RouteAway(step, start, g, p)
  {
    if RouteAway(step, start, g, p) {
      var deeper := if depth <= |p| then |p| else depth;
      EmptyFrontierDeepens(step, start, g, visited, depth, deeper);
      NoShorterRoute(step, start, g, visited, [], deeper, None, p);
    }
  }

  ghost function Free(visited: map<Key, seq<Dir>>): nat { |Space() - visited.Keys| }

  ghost predicate NoneLeft(step: Mover, start: Key, g: Goal) {
    forall p :: !RouteAway(step, start, g, p)
  }

  // One expansion: the four moves out of the position taken from the frontier.
  method Expand(
      step: Mover, start: Key, g: Goal, key: Key, path: seq<Dir>, known: map<Key, seq<Dir>>, waiting: seq<Entry>)
    returns (found: Option<seq<Dir>>, visited: map<Key, seq<Dir>>, frontier: seq<Entry>)
    requires Expanding(step, start, g, known, waiting, key, {}) && known[key] == path
    ensures found.Some? ==> Shortest(step, start, g, found.value) && ShortestPaths(step, start, visited)
    ensures found.None? ==> Expanding(step, start, g, visited, frontier, key, ALL)
    ensures found.None? ==> Free(visited) + |frontier| == Free(known) + |waiting|
  {
    found, visited, frontier := None, known, waiting;
    ghost var done: set<Dir> := {};
    hide Searching, Expanded, Shortest, ShortestPaths, RouteAway;
    for i := 0 to 4
      invariant Expanding(step, start, g, visited, frontier, key, done) && visited[key] == path
      invariant forall j :: 0 <= j < i ==> DIRS[j] in done
      invariant Free(visited) + |frontier| == Free(known) + |waiting|
    {
      var dir := DIRS[i];
      var newKey := step(key, dir);
      if newKey != key {
        if newKey.mapId != start.mapId {
          if g.targetMap == Some(newKey.mapId as int) {
            FoundIsShortest(step, start, g, visited, frontier, key, dir);
            SearchingIsShortest(step, start, g, visited, frontier, |path|, Some(key));
            found := Some(path + [dir]);
            return;
          }
        } else if newKey !in visited {
          if g.targetXy == Some((newKey.x as int, newKey.y as int)) {
            StartIsRecorded(step, start, g, visited, frontier, |path|, Some(key));
            FoundIsShortest(step, start, g, visited, frontier, key, dir);
            GoalIsShortest(step, start, g, visited, frontier, key, dir);
            visited := visited[newKey := path + [dir]];
            found := Some(path + [dir]);
            return;
          }
          RecordKeeps(step, start, g, visited, frontier, key, dir, done);
          SpaceShrinks(visited, newKey, path + [dir]);
          visited := visited[newKey := path + [dir]];
          frontier := frontier + [Entry(newKey, path + [dir])];
          done := done + {dir};
          continue;
        }
      }
      MapIsRecorded(step, start, g, visited, frontier, key);
      SkipKeeps(step, start, g, visited, frontier, key, dir, done);
      done := done + {dir};
    }
    AllDirections(done);
  }

  // The search loop. `explored` counts expanded positions against the node bound;
  // the frontier left over tells an exhausted search from one the bound cut short.
  method Search(step: Mover, start: Key, g: Goal, maxNodes: int)
    returns (found: Option<seq<Dir>>, visited: map<Key, seq<Dir>>, frontier: seq<Entry>, explored: nat)
    ensures found.Some? ==> Shortest(step, start, g, found.value)
    ensures found.None? && (explored < maxNodes || frontier == []) ==> NoneLeft(step, start, g)
    ensures ShortestPaths(step, start, visited)
    ensures 1 <= explored <= if maxNodes < 1 then 1 else maxNodes
  {
    hide Searching, Expanded, Shortest, ShortestPaths, NoneLeft, Free;
    visited := map[start := []];
    frontier := [Entry(start, [])];
    explored := 0;
    found := None;
    ghost var depth: nat := 0;
    StartSearching(step, start, g);
    while frontier != []
      invariant Searching(step, start, g, visited, frontier, depth, None) && found.None?
      invariant explored == 0 || explored < maxNodes
      invariant explored == 0 ==> frontier != []
      decreases Free(visited) + |frontier|
    {
      var Entry(key, path) := frontier[0];
      PopKeeps(step, start, g, visited, frontier, depth);
      frontier := frontier[1..];
      explored := explored + 1;
      depth := |path|;
      found, visited, frontier := Expand(step, start, g, key, path, visited, frontier);
      if found.Some? {
        return;
      }
      FinishKeeps(step, start, g, visited, frontier, key);
      depth := |visited[key]|;
      if explored >= maxNodes {
        break;
      }
    }
    SearchingIsShortest(step, start, g, visited, frontier, depth, None);
    if frontier == [] {
      ExhaustedMeansNone(step, start, g, visited, depth);
    }
  }

  lemma AllDirections(done: set<Dir>)
    requires forall j :: 0 <= j < 4 ==> DIRS[j] in done
    ensures done == ALL
  {
    assert DIRS[0] in done && DIRS[1] in done && DIRS[2] in done && DIRS[3] in done;
    forall d: Dir ensures d in done && d in ALL {
      AllHolds(d);
      match d { case U => case D => case L => case R => }
    }
  }

  lemma StartSearching(step: Mover, start: Key, g: Goal)
    ensures Searching(step, start, g, map[start := []], [Entry(start, [])], 0, None)
  {
    assert [Entry(start, [])][0].key == start;
    assert Follow(step, start, []) == start;
  }

  // ----------------------------------------------- when the answer is complete

  // A map with one way out of `home` and every other move leading back to it.
  function OutAndBack(home: Key): Mover {
    (k: Key, d: Dir) => if k == home && d == U then home.(y := if home.y == 0 then 1 else 0) else home
  }

  predicate AsksForStart(start: Key, g: Goal) { g.targetXy == Some((start.x as int, start.y as int)) }

  // The query also names a map the search may leave for.
  predicate AsksForOtherMap(start: Key, g: Goal) {
    g.targetMap.Some? && 0 <= g.targetMap.value < 256 && g.targetMap.value != start.mapId as int
  }

  // A search asked for the coordinates it starts on, and for no other map, finds
  // nothing whatever the map looks like: the start is marked visited before any step.
  lemma OwnCoordinatesNeverAnswered(step: Mover, start: Key, g: Goal)
    requires AsksForStart(start, g) && !AsksForOtherMap(start, g)
    ensures NoneLeft(step, start, g)
  {
    forall p ensures !RouteAway(step, start, g, p) {
      var k := Follow(step, start, p);
      assert k.mapId == start.mapId && (k.x as int, k.y as int) == (start.x as int, start.y as int) ==> k == start;
    }
  }

  // Such a query is hopeless on every map exactly when it names no other map.
  lemma OwnCoordinatesHopelessExactly(start: Key, g: Goal)
    requires AsksForStart(start, g)
    ensures (forall step :: NoneLeft(step, start, g)) <==> !AsksForOtherMap(start, g)
  {
    if AsksForOtherMap(start, g) {
      var step: Mover := (k: Key, d: Dir) => k.(mapId := g.targetMap.value);
      assert [U][..0] == [] && Follow(step, start, []) == start;
      assert RouteAway(step, start, g, [U]);
      assert !NoneLeft(step, start, g);
    } else {
      forall step ensures NoneLeft(step, start, g) { OwnCoordinatesNeverAnswered(step, start, g); }
    }
  }

  lemma {:induction false} OutAndBackStays(start: Key, p: seq<Dir>)
    ensures Follow(OutAndBack(start), start, p).mapId == start.mapId
    decreases |p|
  {
    if p != [] { OutAndBackStays(start, p[..|p| - 1]); }
  }

  // Asked for the coordinates it starts on, the search finds no route on this map,
  // although a step out and back reaches them.
  lemma OwnCoordinatesMissed(start: Key, g: Goal)
    requires AsksForStart(start, g)
    ensures Route(OutAndBack(start), start, g, [U, D])
    ensures NoneLeft(OutAndBack(start), start, g)
  {
    var step := OutAndBack(start);
    assert [U, D][..1] == [U] && [U, D][..0] == [] && [U][..0] == [];
    assert Follow(step, start, []) == start;
    assert Follow(step, start, [U]) == start.(y := if start.y == 0 then 1 else 0);
    assert Follow(step, start, [U, D]) == start;
    forall p ensures !RouteAway(step, start, g, p) {
      OutAndBackStays(start, p);
    }
  }

  // Looking only for routes away from the start is complete on every map exactly
  // when the query does not ask for the coordinates of the start.
  lemma AwayIsEnough(start: Key, g: Goal)
    ensures (forall step, p :: Route(step, start, g, p) ==> RouteAway(step, start, g, p)) <==> !AsksForStart(start, g)
  {
    if AsksForStart(start, g) {
      OwnCoordinatesMissed(start, g);
    }
  }
}
