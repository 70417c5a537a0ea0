// What the two link protocols have in common: the log of inputs an owner sends, and two
// owners taking their steps in any order (scripts/_timed_battle_probe.py,
// scripts/_timed_trade_probe.py).
module Interleaving {
  import opened Common

  // ---------------------------------------------------------------- input log

  // One input: held from its frame for a number of frames, perhaps under a name.
  datatype PressOf<B, N> = Press(frame: int, button: B, duration: int, once: Option<N>)

  function Extend<B, N>(log: seq<PressOf<B, N>>, p: Option<PressOf<B, N>>): seq<PressOf<B, N>> {
    if p.Some? then log + [p.value] else log
  }

  function NamedCount<B, N(==)>(log: seq<PressOf<B, N>>, o: N): nat
    decreases |log|
  {
    if log == [] then 0
    else NamedCount(log[..|log| - 1], o) + (if log[|log| - 1].once == Some(o) then 1 else 0)
  }

  lemma NamedCountExtends<B, N>(log: seq<PressOf<B, N>>, p: PressOf<B, N>, o: N)
    ensures NamedCount(log + [p], o) == NamedCount(log, o) + (if p.once == Some(o) then 1 else 0)
  {
    assert (log + [p])[..|log|] == log;
  }

  // Every name appears once in the log if it was sent, and never otherwise.
  ghost predicate SentOnce<B, N(!new)>(log: seq<PressOf<B, N>>, sent: set<N>) {
    forall o :: NamedCount(log, o) == if o in sent then 1 else 0
  }

  lemma SentOnceExtends<B, N(!new)>(log: seq<PressOf<B, N>>, sent: set<N>, p: PressOf<B, N>)
    requires SentOnce(log, sent)
    requires p.once.Some? ==> p.once.value !in sent
    ensures SentOnce(log + [p], if p.once.Some? then sent + {p.once.value} else sent)
  {
    hide NamedCount;
    forall o: N { NamedCountExtends(log, p, o); }
  }

  // Input holds [frame, frame + duration) in the order they were sent, none
  // reaching past the next admissible frame.
  ghost predicate HoldsDisjoint<B, N>(log: seq<PressOf<B, N>>, nextInput: int) {
    && (forall i :: 0 <= i < |log| ==> log[i].duration > 0 && log[i].frame + log[i].duration <= nextInput)
    && (forall i, j :: 0 <= i < j < |log| ==> log[i].frame + log[i].duration <= log[j].frame)
  }

  lemma HoldsExtend<B, N>(log: seq<PressOf<B, N>>, nextInput: int, p: PressOf<B, N>, later: int)
    requires HoldsDisjoint(log, nextInput) && nextInput <= p.frame
    requires 0 < p.duration && p.frame + p.duration <= later
    ensures HoldsDisjoint(log + [p], later)
  {
  }

  // ---------------------------------------------------------------- two owners

  datatype SessionOf<C> = Session(listen: C, connect: C)

  datatype WorldOf<S, P> = World(listen: S, connect: S, listenLog: seq<P>, connectLog: seq<P>)

  datatype ScheduledOf<E> = Scheduled(who: Role, event: E)

  function ConfigOf<C>(g: SessionOf<C>, r: Role): C { if r == Listen then g.listen else g.connect }

  function OwnerOf<S, P>(w: WorldOf<S, P>, r: Role): S { if r == Listen then w.listen else w.connect }

  function LogOf<S, P>(w: WorldOf<S, P>, r: Role): seq<P> { if r == Listen then w.listenLog else w.connectLog }

  // One owner's state and log replaced; the other owner's stay as they are.
  function With<S, P>(w: WorldOf<S, P>, r: Role, s: S, log: seq<P>): (w': WorldOf<S, P>)
    ensures OwnerOf(w', r) == s && LogOf(w', r) == log
    ensures OwnerOf(w', Other(r)) == OwnerOf(w, Other(r)) && LogOf(w', Other(r)) == LogOf(w, Other(r))
  {
    if r == Listen then w.(listen := s, listenLog := log) else w.(connect := s, connectLog := log)
  }
}
