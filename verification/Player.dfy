/** Players and their cars: server/Player/player.h, common/car_model.h.
    Race time is in ticks of 1/60 s; market prices and penalties are whole seconds. */
module Players {

  type PlayerId = nat

  const TICKS_PER_SECOND: nat := 60

  datatype CarImprovement = Health | Speed | Acceleration | Mass | Controllability | Nitro | Init | Unlisted(code: nat)

  datatype CarModel = CarModel(life: real, mass: real, force: real, torque: real, topSpeed: real,
                               improvements: seq<CarImprovement>)

  datatype Player = Player(base: CarModel, current: CarModel, raceTime: nat, penalty: nat) {
    function TotalTime(): nat { raceTime + TICKS_PER_SECOND * penalty }
    function RegisterRaceResult(time: nat, penaltySeconds: nat): Player {
      this.(raceTime := raceTime + time, penalty := penalty + penaltySeconds)
    }
  }
}
