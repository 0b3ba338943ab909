/** The cars on offer, server/game/garage.cpp with common/car_model.h, and what players drive who come in with
    them. */
module Garages {
  import opened Wrappers
  import opened Players

  /** The cars are numbered from 0. */
  const CARS: nat := 7

  function CarFor(car: nat): Option<CarModel> {
    match car
    case 0 => Some(CarModel(200.0, 800.0, 80.0, 7.0, 50.0, []))
    case 1 => Some(CarModel(200.0, 850.0, 90.0, 8.0, 55.0, []))
    case 2 => Some(CarModel(200.0, 900.0, 110.0, 9.5, 60.0, []))
    case 3 => Some(CarModel(200.0, 880.0, 100.0, 8.8, 56.0, []))
    case 4 => Some(CarModel(200.0, 1200.0, 85.0, 7.2, 48.0, []))
    case 5 => Some(CarModel(200.0, 1350.0, 75.0, 7.0, 45.0, []))
    case 6 => Some(CarModel(200.0, 1500.0, 65.0, 6.8, 42.0, []))
    case _ => None
  }

  /** Whoever asks for a car that is not on offer does not come in. */
  function Enter(players: map<PlayerId, Player>, p: PlayerId, car: nat): map<PlayerId, Player> {
    var model := CarFor(car);
    if model == None then players else players[p := Player(model.value, model.value, 0, 0)]
  }

  /** Everybody's own car came out of the garage. */
  ghost predicate FromGarage(players: map<PlayerId, Player>) {
    forall p | p in players :: exists car :: 0 <= car < CARS && CarFor(car) == Some(players[p].base)
  }

  lemma EveryCarIsOnOffer(car: nat)
    ensures CarFor(car).Some? <==> car < CARS
    ensures CarFor(car).Some? ==> CarFor(car).value.life == 200.0 && CarFor(car).value.improvements == []
  {
  }

  lemma EnteringKeepsGarage(players: map<PlayerId, Player>, p: PlayerId, car: nat)
    requires FromGarage(players)
    ensures FromGarage(Enter(players, p, car))
  {
    EveryCarIsOnOffer(car);
    var players' := Enter(players, p, car);
    forall q | q in players'
      ensures exists c :: 0 <= c < CARS && CarFor(c) == Some(players'[q].base)
    {
      if q != p || CarFor(car) == None {
        assert players'[q] == players[q];
      }
    }
  }

  /** Everybody who has come in, each with a number and a choice of car. */
  function Entered(arrivals: seq<(PlayerId, nat)>): map<PlayerId, Player> {
    if arrivals == [] then map[]
    else
      var last := arrivals[|arrivals| - 1];
      Enter(Entered(arrivals[..|arrivals| - 1]), last.0, last.1)
  }

  /** Whatever cars were asked for, everybody inside has one of the garage's, so 200 of health and no upgrade. */
  lemma {:induction false} EverybodyDrivesFromTheGarage(arrivals: seq<(PlayerId, nat)>)
    ensures FromGarage(Entered(arrivals))
    ensures forall p | p in Entered(arrivals) ::
              Entered(arrivals)[p].base.life == 200.0 && Entered(arrivals)[p].base.improvements == []
              && Entered(arrivals)[p].current == Entered(arrivals)[p].base
    decreases |arrivals|
  {
    if arrivals != [] {
      var last := arrivals[|arrivals| - 1];
      EverybodyDrivesFromTheGarage(arrivals[..|arrivals| - 1]);
      EnteringKeepsGarage(Entered(arrivals[..|arrivals| - 1]), last.0, last.1);
      EveryCarIsOnOffer(last.1);
    }
  }
}
