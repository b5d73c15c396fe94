# ElevateXY command logic in Dafny

ElevateXY is a face-following drone controller. Operator keys and face
positions become one body-frame velocity `(vx, vy, vz, yaw_rate)`. The
controller holds that vector as shared state and forwards it to the vehicle,
in most scripts only while the vehicle reports armed. The repository holds
the same logic in several variant scripts, with real differences between
them. This project models each variant's command logic on its own:

- `link.dfy` (`Link`): the velocity record, and the vehicle reduced to its
  armed flag plus a log of sent messages. A `send_mavlink` call is one log
  entry, and so is the arm request that dronekit's `armed` setter makes.
- `grid.dfy` (`Grid`): the 3×3 zone grid of `setup_grid_zones`, and
  `get_face_zone` as a loop proved equal to an arithmetic reference
  classifier.
- `profiles.dfy` (`Profiles`): the two eco/standard/performance tables and
  the by-name selection.
- `tracking.dfy` (`Tracking`): the autonomous mappers (with and without
  pixel dead zones), and the decision part of `detect_and_track`.
- `manual.dfy` (`ManualControl`): `ManualDroneController`, the single-key
  mappers of the two camera-window scripts, and the held-key mapper.
- `power.dfy` (`PowerPanel`): the voltage, power and battery-level colour
  bands.
- `simulation.dfy`, `simulation_arm.dfy`: the camera-window session
  objects, with their key dispatch, tracking step, stop and cleanup.
- `tkinter.dfy`, `pynput.dfy`: the two sessions with a 10 Hz background
  sender, keyboard-state maps and sets, and one sender tick.
- `sender.dfy` (`CommandSender`): `ContinuousCommandSender`.
- `text.dfy` (`Text`), `repl.dfy` (`Repl`): `strip()`, `lower()` and
  `replace("Key.", "")`, plus the two terminal front ends with their move
  tables, dispatch and confirmation gate.

Speeds are exact `real`s and pixels are `int`s. `np.degrees` and
`np.radians` use π = 3.141592653589793 over exact reals. No claim is made
about floating-point rounding.

Events become method calls. A key press or release, one camera frame and
one tick of a sender loop are each one call. What a callback observes from
outside becomes a parameter:

- whether a face was found, and its centre;
- whether the command interval has elapsed;
- whether `send_mavlink` raised;
- what the operator typed;
- whether the vehicle became armable or armed within a wait.

## Model

| member | source | states |
|---|---|---|
| Link.NonzeroAxes | elevatexy_simulation.py:202-209 | counts the nonzero fields of a velocity; zero exactly for the all-zero command |
| Link.Vehicle.constructor | elevatexy_simulation.py:381-390 | a connected vehicle with the given armed flag and nothing sent yet |
| Link.Vehicle.Send | elevatexy_simulation.py:514 | send_mavlink appends exactly that message and leaves the armed flag alone |
| Text.LStripPadded | elevatexy_working.py:39 | leading whitespace before a non-space start is removed entirely, nothing more |
| Text.RStripPadded | elevatexy_working.py:39 | trailing whitespace after a non-space end is removed entirely, nothing more |
| Text.LStripAllSpace | elevatexy_working.py:39 | an all-whitespace line strips to empty |
| Text.LStripTrimmedStart | elevatexy_working.py:39 | after stripping on the left, the text starts with a non-space and is no longer |
| Text.RStripKeepsStart | elevatexy_working.py:39 | stripping on the right keeps a non-space start, and leaves a non-space end |
| Text.StripPadded | elevatexy_final.py:168 | strip() of a trimmed text padded with any whitespace is that text |
| Text.StripIsTrimmed | elevatexy_final.py:168 | whatever the input, strip() leaves no whitespace at either end |
| Text.LowerChar | elevatexy_final.py:168 | lower() maps A–Z to a–z and keeps every other character |
| Text.Lower | elevatexy_final.py:168 | lower() keeps the length and lowers each character in place |
| Text.RemoveKeyDot | elevatexy_pynput.py:233 | replace("Key.", "") never lengthens the text |
| Text.RemoveKeyDotNoDot | elevatexy_pynput.py:233 | a text without a dot is left unchanged |
| Text.NamedKeyText | elevatexy_pynput.py:233 | str(Key.name) becomes name for every dot-free key name |
| Grid.ColumnOf | elevatexy_simulation.py:91-101 | every zone has column 0, 1 or 2 |
| Grid.RowOf | elevatexy_simulation.py:91-101 | every zone has row 0, 1 or 2 |
| Grid.ZoneAt | elevatexy_simulation.py:91-101 | the zone named by a row and column has that row and column |
| Grid.ContainsIffClassified | elevatexy_simulation.py:267-284 | a point lies in a zone's half-open rectangle iff it is in the frame and the cut-line classification picks that zone |
| Grid.ZonesDisjoint | elevatexy_simulation.py:267-284 | no point lies in two zones |
| Grid.ZonesCover | elevatexy_simulation.py:267-284 | every in-frame point lies in some zone |
| Grid.GetFaceZone | elevatexy_simulation.py:462-467 | the dict-order search returns the classifier's zone: the containing zone, or CENTER when none contains the point |
| Grid.StandardFrameCases | elevatexy_simulation.py:269-284 | 640×480: cuts at x 213/426 and y 160/320, (0,0) TOP_LEFT, (320,240) CENTER, outside the frame CENTER |
| Profiles.Select | elevatexy_simulation.py:145-158 | eco picks the eco triple, performance the performance triple, every other name standard |
| Profiles.ProfilesOrdered | elevatexy_sim_tkinter.py:24-39 | a check of the constants: eco < standard < performance on every component of both tables; every selected profile is positive |
| Profiles.Degrees | elevatexy_simulation.py:150 | np.degrees keeps the sign |
| Profiles.Radians | elevatexy_sim_tkinter.py:327-329 | np.radians keeps the sign |
| PowerPanel.VoltageColor | elevatexy_simulation_arm.py:586-595 | ≥22.2 green, [21.0, 22.2) yellow, [18.0, 21.0) orange, <18.0 red, each band iff |
| PowerPanel.PowerColor | elevatexy_simulation_arm.py:597-604 | <150 green, [150, 300) yellow, ≥300 orange, never red |
| PowerPanel.BatteryLevelColor | elevatexy_simulation_arm.py:606-615 | ≥30 green, [25, 30) yellow, [15, 25) orange, <15 red |
| PowerPanel.ColorsMonotone | elevatexy_simulation_arm.py:586-615 | lower voltage or level, or higher power, never shows a calmer colour |
| Tracking.DeadZonedCommand | elevatexy_simulation.py:469-500 | vx = yaw = 0; vy < 0 iff left column and more than 80 px off centre, vy > 0 iff right column likewise; vz by top/bottom row and 60 px |
| Tracking.GatesIndependent | elevatexy_simulation.py:477-498 | moving the face horizontally never changes vz, vertically never vy |
| Tracking.ZoneCommand | elevatexy_sim_tkinter.py:366-386 | no face or CENTER gives zero; otherwise vy and vz are ∓speed by column and row, vx = yaw = 0 |
| Tracking.AutonomousCommandsBounded | elevatexy_simulation_arm.py:394-426 | both mappers stay within the selected ground and vertical speeds |
| Tracking.DeadZonesInactiveInFrame | elevatexy_simulation.py:477-498 | in the 640×480 frame the dead-zoned mapper equals the plain zone mapper for every in-frame face |
| Tracking.Decide | elevatexy_simulation.py:547-564 | autonomous: an off-centre face after the interval adjusts; a centred face after the interval, or no face, stops; otherwise nothing |
| Tracking.TopRightPerformance | elevatexy_sim_tkinter.py:372-384 | a worked example, not a general property: performance profile, TOP_RIGHT face gives (0, 4.5, −0.75, 0) |
| ManualControl.ManualDroneController.constructor | elevatexy_simulation.py:133-143 | a new controller holds zero and the speeds of its flight mode |
| ManualControl.ManualDroneController.UpdateSpeeds | elevatexy_simulation.py:145-158 | the speeds become the mode's triple, unknown names standard, yaw in deg/s |
| ManualControl.ManualDroneController.SetFlightMode | elevatexy_simulation_arm.py:163-166 | stores any name unvalidated and re-derives the speeds |
| ManualControl.ManualDroneController.SetForward | elevatexy_simulation.py:165-166 | vx = speed |
| ManualControl.ManualDroneController.SetBackward | elevatexy_simulation.py:168-169 | vx = −speed |
| ManualControl.ManualDroneController.SetLeft | elevatexy_simulation.py:171-172 | vy = −speed |
| ManualControl.ManualDroneController.SetRight | elevatexy_simulation.py:174-175 | vy = speed |
| ManualControl.ManualDroneController.SetUp | elevatexy_simulation.py:177-178 | vz = −speed (NED) |
| ManualControl.ManualDroneController.SetDown | elevatexy_simulation.py:180-181 | vz = speed |
| ManualControl.ManualDroneController.SetYawLeft | elevatexy_simulation.py:183-184 | yaw = −radians(rate) |
| ManualControl.ManualDroneController.SetYawRight | elevatexy_simulation.py:186-187 | yaw = radians(rate) |
| ManualControl.ManualDroneController.StopAll | elevatexy_simulation.py:189-193 | all four fields zero |
| ManualControl.ManualDroneController.SendCommand | elevatexy_simulation.py:195-217 | the held vector is logged iff the vehicle is present and armed |
| ManualControl.SimKeyCommand | elevatexy_simulation.py:568-606 | at most one axis is set; each sign occurs iff its key (w/s/a/d, arrows 82/84/81/83) was pressed |
| ManualControl.ArmKeyCommand | elevatexy_simulation_arm.py:497-516 | at most one axis, never yaw, never backwards; s and the yaw arrows stop; each sign iff w/a/d/82/84 |
| ManualControl.HeldVelocityBounded | elevatexy_sim_tkinter.py:307-329 | for every held-key state each axis stays within its rate |
| ManualControl.OpposingKeysLastWins | elevatexy_sim_tkinter.py:307-329 | both keys of a pair held: s, d, e and Right win; the axis is not zero |
| ManualControl.HeldVelocityAxes | elevatexy_pynput.py:320-352 | no key held gives zero; an axis with neither key held is zero |
| ManualControl.SingleKeyOfPair | elevatexy_sim_tkinter.py:307-329 | one key of a pair held without its opposite: that axis is the key's signed rate (w +, s −, a −, d +, q −, e +, Left −, Right +) |
| Simulation.MaskKey | elevatexy_simulation.py:795 | waitKey & 0xFF is in 0..255, identity on bytes, and −1 becomes 255 |
| Simulation.ElevateXYSimulation.constructor | elevatexy_simulation.py:220-265 | standard mode and speeds, manual mode, no controller, face CENTER at the frame centre |
| Simulation.ElevateXYSimulation.Connect | elevatexy_simulation.py:424-427 | a fresh controller for the same vehicle and flight mode, holding zero |
| Simulation.ElevateXYSimulation.UpdateSpeedsForMode | elevatexy_simulation.py:298-315 | session speeds follow the mode (unknown names standard) and the controller is told the mode |
| Simulation.ElevateXYSimulation.SetFlightMode | elevatexy_simulation.py:317-322 | unknown names leave mode and speeds unchanged; accepted names install the triple in session and controller |
| Simulation.ElevateXYSimulation.SendVelocityCommand | elevatexy_simulation.py:502-519 | logged iff the vehicle is present and armed |
| Simulation.ElevateXYSimulation.StopMovement | elevatexy_simulation.py:521-525 | gated zero command and a zeroed controller |
| Simulation.ElevateXYSimulation.DetectAndTrack | elevatexy_simulation.py:527-566 | zone from get_face_zone; sends the dead-zoned command, a stop, or nothing, as Decide says |
| Simulation.ElevateXYSimulation.HandleManualControl | elevatexy_simulation.py:568-609 | the controller ends at SimKeyCommand and it is sent, gated, only in manual mode; the armed flag is kept |
| Simulation.ElevateXYSimulation.HandleKey | elevatexy_simulation.py:795-839 | q quits; 1/2/3 set the mode; space flips and, into manual, stops; l leaves autonomous; other keys in manual drive the controller; every other case leaves the controller and the log unchanged; the armed flag is never changed |
| Simulation.ElevateXYSimulation.Cleanup | elevatexy_simulation.py:847-861 | autonomous off; with a vehicle, a gated zero and a zeroed controller |
| SimulationArm.ElevateXYSimulationArm.constructor | elevatexy_simulation_arm.py:215-245 | standard mode, manual mode, no controller, face CENTER |
| SimulationArm.ElevateXYSimulationArm.Connect | elevatexy_simulation_arm.py:321-338 | a fresh zeroed controller for the same vehicle and mode |
| SimulationArm.ElevateXYSimulationArm.SetFlightMode | elevatexy_simulation_arm.py:340-345 | any name is stored; the controller's speeds read unknown names as standard |
| SimulationArm.ElevateXYSimulationArm.ArmDrone | elevatexy_simulation_arm.py:347-381 | succeeds iff a vehicle is present, armable when checked, and armed after the wait; past the armable gate one unforced arm request is logged, before it nothing |
| SimulationArm.ElevateXYSimulationArm.AutonomousSpeeds | elevatexy_simulation_arm.py:399-408 | the inline profile lookup is one of the three triples and positive |
| SimulationArm.ElevateXYSimulationArm.SendVelocityCommand | elevatexy_simulation_arm.py:430-447 | logged iff the vehicle is present and armed |
| SimulationArm.ElevateXYSimulationArm.StopMovement | elevatexy_simulation_arm.py:449-453 | gated zero command and a zeroed controller |
| SimulationArm.ElevateXYSimulationArm.DetectAndTrack | elevatexy_simulation_arm.py:455-495 | as in the simulation, with speeds looked up by mode name |
| SimulationArm.ElevateXYSimulationArm.HandleManualControl | elevatexy_simulation_arm.py:497-519 | the controller ends at ArmKeyCommand with its own speeds, sent only in manual mode |
| SimulationArm.ElevateXYSimulationArm.HandleKey | elevatexy_simulation_arm.py:771-816 | as in the simulation, plus x/X running arm_drone, which logs one unforced arm request when armable; q, 1/2/3, t, l, x, no key and every key while autonomous leave the controller unchanged, and all of them but x leave the log unchanged |
| SimulationArm.ElevateXYSimulationArm.Cleanup | elevatexy_simulation_arm.py:824-838 | autonomous off; with a vehicle, a gated zero and a zeroed controller |
| SimulationArm.ArmKeysSubsetOfSimKeys | elevatexy_simulation_arm.py:497-516 | except s and the yaw arrows, both single-key mappers agree; s stops |
| TkinterControl.HeldOf | elevatexy_sim_tkinter.py:310-329 | each held flag is keyboard_state.get(key, False) of its keysym |
| TkinterControl.NoMovementKeyMeansStopped | elevatexy_sim_tkinter.py:296-300 | with no movement key down the held-key vector is zero, matching key_release's stop |
| TkinterControl.TkinterSimulation.constructor | elevatexy_sim_tkinter.py:55-97 | standard speeds, manual mode, sender inactive, empty key map, zero vector |
| TkinterControl.TkinterSimulation.UpdateSpeeds | elevatexy_sim_tkinter.py:99-112 | the speeds become the mode's triple, unknown names standard |
| TkinterControl.TkinterSimulation.SetVelocity | elevatexy_sim_tkinter.py:224-229 | all four fields overwritten, nothing sent |
| TkinterControl.TkinterSimulation.StopMovement | elevatexy_sim_tkinter.py:231-233 | all four fields zero |
| TkinterControl.TkinterSimulation.StartCommandSender | elevatexy_sim_tkinter.py:197-202 | the sender becomes active |
| TkinterControl.TkinterSimulation.CommandLoopIteration | elevatexy_sim_tkinter.py:204-222 | one tick sends the current vector iff active, present and armed, and the link succeeds; the loop goes on while active |
| TkinterControl.TkinterSimulation.ProcessManualControl | elevatexy_sim_tkinter.py:302-332 | armed: the vector becomes the held-key vector; otherwise unchanged |
| TkinterControl.TkinterSimulation.KeyPress | elevatexy_sim_tkinter.py:235-286 | key recorded; space flips, into manual zeroes; 1/2/3 set the mode; l/r leave autonomous; in manual an armed vehicle gets the held-key vector |
| TkinterControl.TkinterSimulation.AnyMovementKeyDown | elevatexy_sim_tkinter.py:299 | true iff some movement key is down |
| TkinterControl.TkinterSimulation.KeyRelease | elevatexy_sim_tkinter.py:288-300 | key marked up if recorded; zero iff manual, a movement key and none left down; else unchanged |
| TkinterControl.TkinterSimulation.DetectFace | elevatexy_sim_tkinter.py:341-364 | a found face records its centre and classified zone |
| TkinterControl.TkinterSimulation.CalculateAutonomousCommands | elevatexy_sim_tkinter.py:366-386 | the vector becomes ZoneCommand of the recorded face |
| TkinterControl.TkinterSimulation.CameraStep | elevatexy_sim_tkinter.py:449-452 | autonomous: the vector follows the frame's face; manual: unchanged |
| TkinterControl.TkinterSimulation.Cleanup | elevatexy_sim_tkinter.py:601-608 | sender stopped first, then the vector zeroed when a vehicle is present |
| TkinterControl.ForwardScenario | elevatexy_sim_tkinter.py:307-311 | standard mode, armed, w pressed: (3.0, 0, 0, 0) |
| TkinterControl.ReleaseKeepsStaleAxis | elevatexy_sim_tkinter.py:288-300 | w and a held, w released: the vector still moves forward although only a is held |
| TkinterControl.CentredFaceScenario | elevatexy_sim_tkinter.py:366-369 | autonomous, face in CENTER: zero |
| PynputControl.KeyText | elevatexy_pynput.py:230-233 | a non-empty typed character is lowered character by character; otherwise a dot-free printed key is kept as is, and "Key." followed by a dot-free name becomes that name |
| PynputControl.KeyTextExamples | elevatexy_pynput.py:230-233 | worked examples of KeyText: 'W' becomes "w"; Key.name becomes name |
| PynputControl.HeldOf | elevatexy_pynput.py:320-344 | each held flag is membership of its key text in keys_pressed |
| PynputControl.PynputSession.constructor | elevatexy_pynput.py:56-92 | standard speeds, manual mode, empty key set, zero vector |
| PynputControl.PynputSession.UpdateSpeeds | elevatexy_pynput.py:123-136 | the speeds become the mode's triple, unknown names standard |
| PynputControl.PynputSession.SetVelocity | elevatexy_pynput.py:219-224 | all four fields overwritten |
| PynputControl.PynputSession.StartCommandSender | elevatexy_pynput.py:192-197 | the sender becomes active |
| PynputControl.PynputSession.CommandLoopIteration | elevatexy_pynput.py:199-217 | one tick sends the current vector iff active, present and armed, and the link succeeds |
| PynputControl.PynputSession.ProcessManualKeys | elevatexy_pynput.py:315-352 | armed: the vector becomes the held-key vector; otherwise unchanged |
| PynputControl.PynputSession.Cleanup | elevatexy_pynput.py:525-537 | sender stopped; with a vehicle the vector is zero |
| PynputControl.PynputSession.OnPress | elevatexy_pynput.py:226-295 | key text added; space/1/2/3/esc and t/l/r (with a vehicle) return before the mapper; esc cleans up and stops listening |
| PynputControl.PynputSession.OnRelease | elevatexy_pynput.py:297-313 | key text discarded; in manual an armed vehicle gets the held-key vector |
| PynputControl.PynputSession.DetectFace | elevatexy_pynput.py:376-398 | a found face records its centre and classified zone |
| PynputControl.PynputSession.CalculateAutonomousCommands | elevatexy_pynput.py:400-418 | the vector becomes ZoneCommand of the recorded face |
| PynputControl.PynputSession.CameraStep | elevatexy_pynput.py:508-510 | autonomous: the vector follows the frame's face; manual: unchanged |
| PynputControl.ReleaseRecomputes | elevatexy_pynput.py:297-313 | w and a held, w released: only the strafe remains |
| PynputControl.ModeKeyKeepsVector | elevatexy_pynput.py:261-310 | w held, 3 pressed: the vector keeps the standard speed until the next key event that reaches the mapper; releasing 3 gives (4.5, 0, 0, 0) |
| CommandSender.ContinuousCommandSender.constructor | manual_control_fix.py:19-31 | inactive, no thread, zero snapshot |
| CommandSender.ContinuousCommandSender.SetVelocity | manual_control_fix.py:33-39 | the whole snapshot is replaced |
| CommandSender.ContinuousCommandSender.SendLoopIteration | manual_control_fix.py:41-62 | sends the snapshot iff active, present and armed, and the link succeeds; a link error leaves the loop running |
| CommandSender.ContinuousCommandSender.Start | manual_control_fix.py:64-70 | active afterwards; a thread is spawned only if it was not active |
| CommandSender.ContinuousCommandSender.Stop | manual_control_fix.py:72-77 | inactive afterwards; nothing sent, snapshot kept |
| CommandSender.SenderLifecycle | manual_control_fix.py:41-77 | two starts spawn one thread; each tick resends the snapshot; nothing after stop |
| Repl.MoveVector | elevatexy_final.py:103-110 | six entries, each with one nonzero axis: horizontal at ±speed, vertical at ±0.5, no yaw; None otherwise |
| Repl.MoveVectorDirection | elevatexy_working.py:104-111 | each entry's vector points in its own direction |
| Repl.MoveVectorInjective | elevatexy_working.py:104-111 | distinct directions give distinct vectors |
| Repl.MovePulse | elevatexy_final.py:112-120 | a known direction gives its vector then zero; an unknown one gives nothing |
| Repl.Normalise | elevatexy_final.py:168 | strip().lower() leaves no outer whitespace and no upper-case letter |
| Repl.NormalisePadded | elevatexy_final.py:168 | a trimmed command padded with any whitespace normalises to its lower-case form |
| Repl.NormaliseYes | elevatexy_working.py:39 | worked example: " YES\n" normalises to "yes", which passes the arm gate |
| Repl.NormaliseW | elevatexy_working.py:39 | worked example: " W " normalises to the movement key "w" |
| Repl.NormaliseIdempotent | elevatexy_working.py:158 | normalising twice changes nothing more |
| Repl.ParseFinal | elevatexy_final.py:168-192 | quit/exit, takeoff, the six moves, land, status and blank, each iff its normalised text; unknown iff none of those words |
| Repl.ParseWorking | elevatexy_working.py:158-182 | the same with arm in place of takeoff |
| Repl.ParsersAgree | elevatexy_working.py:158-182 | the two dispatchers agree except on takeoff and arm |
| Repl.ElevateXY.constructor | elevatexy_final.py:14-16 | no vehicle, speed 2.0 |
| Repl.ElevateXY.ConnectAndVerify | elevatexy_final.py:46-72 | succeeds iff connected and reporting armed |
| Repl.ElevateXY.SetVelocity | elevatexy_final.py:74-82 | one message carrying the arguments with yaw 0, armed or not |
| Repl.ElevateXY.Move | elevatexy_final.py:101-120 | sends MovePulse of the direction |
| Repl.ElevateXY.Land | elevatexy_final.py:122-134 | returns only with the vehicle disarmed |
| Repl.ElevateXY.Step | elevatexy_final.py:166-192 | only a move line sends (its pulse); quit and land end disarmed; quit ends the loop |
| Repl.ElevateXYFinal.constructor | elevatexy_working.py:12-14 | no vehicle, speed 2.0 |
| Repl.ElevateXYFinal.Connect | elevatexy_working.py:16-28 | records the vehicle and reports success |
| Repl.ElevateXYFinal.ArmAndTakeoff | elevatexy_working.py:30-90 | nothing sent unless the answer normalises to "yes"; then one forced arm (21196); success iff armed afterwards |
| Repl.ElevateXYFinal.SetVelocity | elevatexy_working.py:92-100 | one message carrying the arguments with yaw 0 |
| Repl.ElevateXYFinal.Move | elevatexy_working.py:102-119 | sends MovePulse of the direction |
| Repl.ElevateXYFinal.Land | elevatexy_working.py:121-131 | returns only with the vehicle disarmed |
| Repl.ElevateXYFinal.Step | elevatexy_working.py:156-182 | as ElevateXY.Step; arm sends the forced arm only after "yes" and leaves armed as the wait's outcome; other lines than quit, arm and land keep the armed flag |

## Behaviour worth noting

- Opposing keys held together do not cancel. The key of the pair that is
  checked later wins: s over w, d over a, e over q, Right over Left.
  See `ManualControl.OpposingKeysLastWins`.
- Toggling into autonomous mode leaves the vector as it was. Only toggling
  into manual mode zeroes it.
- In the tkinter script, `key_press` zeroes the vector on the way into
  manual mode and then re-runs the held-key mapper. So an armed vehicle
  immediately gets the velocity of whatever movement keys are still held.
- In the tkinter script, `key_release` does not recompute the vector.
  Releasing one of two held keys leaves that key's axis moving. See
  `TkinterControl.ReleaseKeepsStaleAxis`. The pynput script does recompute
  on release; see `PynputControl.ReleaseRecomputes`.
- In the pynput script, pressing a flight-mode key does not rescale the
  streamed vector. Releasing it does, because every release in manual mode
  re-runs the mapper. See `PynputControl.ModeKeyKeepsVector`.
- `ContinuousCommandSender.stop` sends no final zero command. Both tkinter
  and pynput `cleanup` stop the sender before zeroing the vector.
- In elevatexy_simulation_arm.py, `set_flight_mode` stores any name. Only
  elevatexy_simulation.py rejects unknown names.
- The two REPL scripts send velocity commands whether or not the vehicle is
  armed.

## Left out

- Camera and vision are not modelled: frame capture, Haar-cascade
  detection and largest-face selection. A frame's result enters as
  `(faceFound, center)`.
- UI drawing is not modelled: `draw_interface`, `draw_power_panel`, the
  tkinter widgets and status labels. The inline voltage colouring of
  elevatexy_simulation.py's `draw_interface` is part of this.
- Threads, sleeps and the 10 Hz cadence are not modelled. Each loop is one
  call per tick, and the `time.time()` rate limit of `detect_and_track` is
  the `intervalElapsed` input. No real-time claim is made.
- The MAVLink encoding is not modelled: message layout, the type mask
  0b0000111111000111 and the frame constant. That mask sets the yaw-rate
  ignore bit, so the model makes no claim that the autopilot honours the
  yaw rate.
- Vehicle mode changes are not modelled: GUIDED, LAND and RTL, plus
  `simple_takeoff` and its altitude wait. The t key and the takeoff
  command change no modelled state.
- `Repl.ElevateXY.Land`, `Repl.ElevateXYFinal.Land`: the wait until
  disarmed is taken at its outcome (the vehicle reports disarmed). A vehicle
  that never disarms, where the source loops forever, is not modelled.
- `SimulationArm.ElevateXYSimulationArm.ArmDrone`,
  `Repl.ElevateXYFinal.ArmAndTakeoff`: the armable and arming busy-waits are
  replaced by their outcomes, given as inputs.
- Connection set-up and its exceptions are not modelled: `connect`,
  `wait_ready` and the battery-parameter writes. `Connect` takes the
  connected vehicle. Link errors are modelled only in the background
  senders, as the `linkOk` input. Elsewhere a send always succeeds.
- The status and telemetry printouts are not modelled: `status`, the
  status loop, GPS and battery readouts.
- `Text.LowerChar`: `lower()` is modelled for ASCII letters only. Case
  mappings outside ASCII (Python's Unicode `lower()`) are not modelled.
- `Profiles.Degrees`, `Profiles.Radians`: exact-real conversions with π =
  3.141592653589793. IEEE-754 rounding is not modelled.
- Process exit after the quit key is not modelled, and neither are
  `KeyboardInterrupt` handling and `vehicle.close()`.
- `TkinterControl.TkinterSimulation.SetVelocity`,
  `PynputControl.PynputSession.SetVelocity`: the four `current_*` writes
  are one step, and so is each sender tick's read, but the source takes no
  lock for them. A tick that reads between two writes can send a mix of
  the old and the new vector. The model does not capture that torn read.
  Only `ContinuousCommandSender` holds a lock.
