/** Flight profiles: the eco / standard / performance constant triples and the
    by-name selection every script uses.  Two tables exist in the code: the
    camera-window simulations (DroneParams with yaw rates in rad/s) and the
    tkinter / pynput scripts (DroneParams with yaw rates in deg/s). */
module Profiles {

  /** One profile: ground speed (m/s), vertical speed (m/s) and a yaw rate
      (rad/s in the simulation table, deg/s in the tkinter/pynput table). */
  datatype FlightProfile = FlightProfile(groundSpeed: real, verticalSpeed: real, yawRate: real)

  // DroneParams of elevatexy_simulation.py and elevatexy_simulation_arm.py
  const SimStandard: FlightProfile := FlightProfile(5.0, 0.5, 0.5)
  const SimEco: FlightProfile := FlightProfile(3.5, 0.35, 0.35)
  const SimPerformance: FlightProfile := FlightProfile(6.0, 0.6, 0.6)

  // DroneParams of elevatexy_sim_tkinter.py and elevatexy_pynput.py
  const TkStandard: FlightProfile := FlightProfile(3.0, 0.5, 30.0)
  const TkEco: FlightProfile := FlightProfile(2.0, 0.35, 20.0)
  const TkPerformance: FlightProfile := FlightProfile(4.5, 0.75, 45.0)

  /** The three names set_flight_mode accepts in elevatexy_simulation.py. */
  predicate IsProfileName(name: string)
  {
    name == "eco" || name == "standard" || name == "performance"
  }

  /** The update_speeds selection: "eco" and "performance" pick their triple,
      any other name falls back to standard. */
  function Select(name: string, eco: FlightProfile, standard: FlightProfile, performance: FlightProfile): (p: FlightProfile)
    ensures p == eco || p == standard || p == performance
    ensures name == "eco" ==> p == eco
    ensures name == "performance" ==> p == performance
    ensures name != "eco" && name != "performance" ==> p == standard
  {
    if name == "eco" then eco else if name == "performance" then performance else standard
  }

  function SimProfile(name: string): FlightProfile
  {
    Select(name, SimEco, SimStandard, SimPerformance)
  }

  function TkProfile(name: string): FlightProfile
  {
    Select(name, TkEco, TkStandard, TkPerformance)
  }

  /** Positive speeds, and eco <= standard <= performance on every component,
      in both tables; every selected profile has positive speeds. */
  lemma ProfilesOrdered(name: string)
    ensures SimEco.groundSpeed < SimStandard.groundSpeed < SimPerformance.groundSpeed
    ensures SimEco.verticalSpeed < SimStandard.verticalSpeed < SimPerformance.verticalSpeed
    ensures SimEco.yawRate < SimStandard.yawRate < SimPerformance.yawRate
    ensures TkEco.groundSpeed < TkStandard.groundSpeed < TkPerformance.groundSpeed
    ensures TkEco.verticalSpeed < TkStandard.verticalSpeed < TkPerformance.verticalSpeed
    ensures TkEco.yawRate < TkStandard.yawRate < TkPerformance.yawRate
    ensures Positive(SimProfile(name)) && Positive(TkProfile(name))
  {
  }

  predicate Positive(p: FlightProfile)
  {
    p.groundSpeed > 0.0 && p.verticalSpeed > 0.0 && p.yawRate > 0.0
  }

  /** The value of numpy's pi, taken as an exact real. */
  const Pi: real := 3.141592653589793

  /** np.degrees and np.radians over exact reals (the model makes no claim
      about floating-point rounding). */
  function Degrees(rad: real): (deg: real)
    ensures rad > 0.0 <==> deg > 0.0
  {
    rad * 180.0 / Pi
  }

  function Radians(deg: real): (rad: real)
    ensures deg > 0.0 <==> rad > 0.0
  {
    deg * Pi / 180.0
  }
}
