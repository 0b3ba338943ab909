/** Where the bodies of a race are: server/game/city.cpp lets physics move them, and nothing else in
    server/game/game.cpp does while a race is on. */
module BodyPlaces {
  import opened Wrappers
  import opened PhysicsWorlds
  import opened Grids
  import opened Races
  import opened Matches
  import opened MatchTheorems
  import opened MatchLedger
  import opened Arenas

  /** Where physics has last reported the body to be, if anywhere. */
  function LastMove(es: seq<Event>, h: Handle): Option<(real, real)> {
    if es == [] then None
    else
      var e := es[|es| - 1];
      if e.Tick? && h in e.physics.moves then Some(e.physics.moves[h]) else LastMove(es[..|es| - 1], h)
  }

  /** A car that is still there has been there, and is where it was reported last. */
  ghost predicate IsWhereReported(w: World, w': World, h: Handle, last: Option<(real, real)>) {
    h in w'.live && w'.live[h].Car? ==>
      && h in w.live && w.live[h].Car?
      && w'.live[h] == if last.Some? then Car(w.live[h].id, last.value.0, last.value.1) else w.live[h]
  }

  lemma EventMovesBodies(town: Town, m: Match, w: World, e: Event, h: Handle)
    requires m.phase.Racing?
    ensures IsWhereReported(w, WorldNext(town, m, w, e), h, if e.Tick? && h in e.physics.moves then Some(e.physics.moves[h]) else None)
  {
    if e.Tick? {
      ActionsAreCheats(m, e.actions);
    }
  }

  lemma ReportedAgain(w: World, w1: World, w2: World, h: Handle, last: Option<(real, real)>, now: Option<(real, real)>)
    requires IsWhereReported(w, w1, h, last) && IsWhereReported(w1, w2, h, now)
    ensures IsWhereReported(w, w2, h, if now.Some? then now else last)
  {
  }

  /** Over any run in the course of one race every body that is left is where physics reported it last, or where the
      race began for it. */
  lemma {:induction false} BodiesAreWhereReported(town: Town, m: Match, w: World, es: seq<Event>, h: Handle)
    requires WellFormed(m) && m.phase.Racing? && Run(m, es) && After(m, es).phase.Racing? && After(m, es).index == m.index
    ensures IsWhereReported(w, WorldAfter(town, m, w, es), h, LastMove(es, h))
    decreases |es|
  {
    if es != [] {
      var e := es[|es| - 1];
      StillInTheRace(m, es);
      BodiesAreWhereReported(town, m, w, Before(es), h);
      EventMovesBodies(town, After(m, Before(es)), WorldAfter(town, m, w, Before(es)), e, h);
      ReportedAgain(w, WorldAfter(town, m, w, Before(es)), WorldAfter(town, m, w, es), h, LastMove(Before(es), h),
                    if e.Tick? && h in e.physics.moves then Some(e.physics.moves[h]) else None);
    }
  }
}
