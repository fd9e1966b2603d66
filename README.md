# Behaviour controllers of the subCULTron swarm

This project models the per-agent behaviour controllers of the subCULTron swarm scenarios:
the aFish, aPad and aMussel robots of the FaMouS simulator. A controller runs once per
simulation step. It reads the clock, its random draws, its proximity rays and the
broadcasts that its transceiver has queued. It then updates its own fields and issues
commands to its propellers, transceiver, LEDs, electric-sense electrodes or ballast.

The project has these modules:

- `Common`: messages, rays, the strict dwell-timer test, the turn-sign and turn-dwell
  formulas, and the sums that reduce a batch of messages.
- `Avoidance`: the obstacle-avoidance law shared by the mobile fish.
- `Walk`: the EXPLORE/TURN automaton shared by the random-walking controllers, written as
  functions.
- One module per controller. Each holds a `class` with the controller's fields and its
  methods (`Step`, the state methods, `Reset`):
  - `Aggregation`: the aggregation fish;
  - `RandomWalk`: the random-walk fish;
  - `OpticalCommunication`: the optical-communication fish;
  - `PadRandomWalk`: the random-walk pad;
  - `SignalPropagation`: the signal-propagation fish;
  - `Firefly`: the firefly-synchronisation fish;
  - `ElectricSense`: the electric-sense desynchronisation fish;
  - `Docking`: the docking mussel.

Devices are modelled as fields that record what the controller did with them:
- the last left and right propeller commands;
- a colour tag;
- the number of broadcasts sent;
- the last polarisation vector;
- the list of ballast commands.

The transceiver's receive queue is a `mailbox` sequence. `Step` consumes it, and `Deliver`
appends to it on behalf of the medium.

Each class has a `View()` snapshot. Every method is proved against a pure function of the
old snapshot and the step's inputs. The properties of the controllers are lemmas about
those functions, including lemmas over whole runs (sequences of steps).

The time, the speeds and the counters are `real`. The draws that the C++ code takes from
its random-number generator are inputs:
- `sample >= 0`: the standard exponential draw, standing for -log(1 - U); an explore dwell
  is `sample * mean`;
- `angle`: the uniform turn angle;
- `u`: the uniform draw of a blink or a reset.

The arc tangent of the C library is a function parameter `atan2`. Pi is a positive
constant.

## Model

| member | source | states |
|---|---|---|
| Common.Abs | subCULTron/aFishRandomWalk/ControllerAFish.cpp:100 | the C `fabs`: the result is never negative and is the argument or its negation |
| Common.TurnSign | subCULTron/aFishRandomWalk/ControllerAFish.cpp:95-98 | the turn sign is +1 exactly when the drawn angle is negative, and -1 otherwise |
| Common.FishTurnDuration | subCULTron/aFishRandomWalk/ControllerAFish.cpp:100 | the fish turn dwell \|angle\|/pi/3/turnSpeed is never negative, is at most 1/(3 turnSpeed) for an angle in [-pi, pi], and is zero exactly for angle 0 |
| Common.Mean | subCULTron/aFishAggregation/ControllerAFish.cpp:69-74 | the reduced component is zero when no message arrived; otherwise it times the count gives back the sum |
| Common.CloseCount | subCULTron/aFishAggregation/ControllerAFish.cpp:55-66 | the number of close emitters never exceeds the number of messages |
| Common.SumsAppend | subCULTron/aFishAggregation/ControllerAFish.cpp:55-66 | the x and y sums and the close count of two batches of messages are the sums and counts of each batch added together |
| Common.ReductionOrderIndependent | subCULTron/aFishAggregation/ControllerAFish.cpp:55-66 | the reduction of the mailbox does not depend on the order in which two batches arrived |
| Common.SumsBounded | subCULTron/aFishAggregation/ControllerAFish.cpp:55-66 | with unit bearing components, each sum is at most the message count in absolute value |
| Common.MeanBearingBounded | subCULTron/aFishAggregation/ControllerAFish.cpp:69-74 | the mean bearing of unit-direction messages lies in the unit square |
| Avoidance.AvoidanceCommand | subCULTron/aFishRandomWalk/ControllerAFish.cpp:122-179 | an override exists exactly when an upper-front or side ray hit; the two commands sum to twice the bias and differ by twice the avoidance speed; with a positive speed the fish spins left exactly when the right proximity is at least the left one |
| Avoidance.ComputeAvoidance | subCULTron/aFishRandomWalk/ControllerAFish.cpp:122-179 | the step-by-step computation, with its overwritten proportional brake, reports active exactly when an obstacle is perceived and yields exactly the command of AvoidanceCommand |
| Avoidance.TieTurnsLeft | subCULTron/aFishRandomWalk/ControllerAFish.cpp:150-171 | equal proximities on both sides give the left spin (-s, s), never the brake |
| Avoidance.DownRaysNeverTrigger | subCULTron/aFishRandomWalk/ControllerAFish.cpp:127-144 | the hit flags of the two downward rays never change whether avoidance happens |
| Avoidance.AvoidanceMirror | subCULTron/aFishRandomWalk/ControllerAFish.cpp:159-171 | mirroring the rays left to right swaps the two commands, unless the proximities tie |
| Walk.ResetState | subCULTron/aFishRandomWalk/ControllerAFish.cpp:182-200 | after a reset the fish is in EXPLORE at time 0 with the explore timer started at 0, a dwell of sample times the mean, zeroed turn fields, sign +1, the walk invariant holding and the propellers untouched |
| Walk.FishStepKeepsInv | subCULTron/aFishRandomWalk/ControllerAFish.cpp:44-119 | every step keeps the dwells non-negative, the sign a unit and the state before a turn EXPLORE |
| Walk.FishExploreTransition | subCULTron/aFishRandomWalk/ControllerAFish.cpp:69-103 | EXPLORE moves to TURN exactly when the explore timer has strictly expired; the entry sets the sign and the dwell from the angle and stamps the turn start, leaves the explore timer alone and issues no propeller command |
| Walk.FishExploreDrive | subCULTron/aFishRandomWalk/ControllerAFish.cpp:72-87 | a step in EXPLORE that has not expired stays in EXPLORE and changes only the clock and the propellers: the cruise command with no obstacle, the avoidance command otherwise |
| Walk.FishTurnStep | subCULTron/aFishRandomWalk/ControllerAFish.cpp:105-119 | TURN returns to EXPLORE exactly on strict expiry, with a fresh dwell and no propeller command that step; before expiry it commands (spin·sign, -spin·sign) and keeps its timer |
| RandomWalk.ControllerAFish.constructor | subCULTron/aFishRandomWalk/ControllerAFish.cpp:35-42 | construction ends in the reset state and keeps the walk invariant |
| RandomWalk.ControllerAFish.Step | subCULTron/aFishRandomWalk/ControllerAFish.cpp:44-54 | the new state is the walk step with cruise exploreSpeed and spin turnSpeed; the invariant is kept |
| RandomWalk.ControllerAFish.StateExploreInit | subCULTron/aFishRandomWalk/ControllerAFish.cpp:56-66 | EXPLORE is entered with a dwell of sample times the mean, starting now, with the colour yellow |
| RandomWalk.ControllerAFish.StateExplore | subCULTron/aFishRandomWalk/ControllerAFish.cpp:69-88 | one EXPLORE step as the walk function describes it |
| RandomWalk.ControllerAFish.StateTurnInit | subCULTron/aFishRandomWalk/ControllerAFish.cpp:91-103 | TURN is entered with the sign and the dwell of the angle, starting now, and with no propeller command |
| RandomWalk.ControllerAFish.StateTurn | subCULTron/aFishRandomWalk/ControllerAFish.cpp:105-119 | one TURN step as the walk function describes it |
| RandomWalk.ControllerAFish.ObstacleAvoidance | subCULTron/aFishRandomWalk/ControllerAFish.cpp:122-179 | reports an obstacle exactly when one is perceived, and then writes the avoidance command to the propellers; otherwise it changes nothing |
| RandomWalk.ControllerAFish.Reset | subCULTron/aFishRandomWalk/ControllerAFish.cpp:182-200 | the new state is the walk reset of the old one |
| OpticalCommunication.ControllerAFish.constructor | subCULTron/aFishOpticalCommunication/ControllerAFish.cpp:38-43 | construction ends in the reset state with nothing sent and an empty queue |
| OpticalCommunication.ControllerAFish.Step | subCULTron/aFishOpticalCommunication/ControllerAFish.cpp:46-66 | exactly one broadcast per step and an empty queue afterwards, whatever was received; the walk state changes exactly as in the random-walk fish, so the messages received have no effect |
| OpticalCommunication.ControllerAFish.StateExploreInit | subCULTron/aFishOpticalCommunication/ControllerAFish.cpp:68-78 | EXPLORE is entered with a dwell of sample times the mean, starting now |
| OpticalCommunication.ControllerAFish.StateExplore | subCULTron/aFishOpticalCommunication/ControllerAFish.cpp:81-100 | one EXPLORE step as the walk function describes it |
| OpticalCommunication.ControllerAFish.StateTurnInit | subCULTron/aFishOpticalCommunication/ControllerAFish.cpp:103-115 | TURN is entered with the sign and the dwell of the angle, starting now |
| OpticalCommunication.ControllerAFish.StateTurn | subCULTron/aFishOpticalCommunication/ControllerAFish.cpp:117-131 | one TURN step as the walk function describes it |
| OpticalCommunication.ControllerAFish.ObstacleAvoidance | subCULTron/aFishOpticalCommunication/ControllerAFish.cpp:134-187 | reports an obstacle exactly when one is perceived and only then overrides the propellers |
| OpticalCommunication.ControllerAFish.Deliver | subCULTron/aFishOpticalCommunication/ControllerAFish.cpp:55-58 | a delivered message is appended to the receive queue and nothing else changes |
| OpticalCommunication.ControllerAFish.Reset | subCULTron/aFishOpticalCommunication/ControllerAFish.cpp:190-207 | the new state is the walk reset of the old one |
| PadRandomWalk.PadTurnDuration | subCULTron/aPadRandomWalk/ControllerAPad.cpp:95 | the pad turn dwell \|angle\|/pi·7.3/turnSpeed is never negative, at most 7.3/turnSpeed for an angle in [-pi, pi], and exactly 7.3/turnSpeed for a half circle |
| PadRandomWalk.PadResetState | subCULTron/aPadRandomWalk/ControllerAPad.cpp:116-137 | after a reset the pad is in TURN at time 0 with sign -1, a dwell of 7.3, the turn started at 0 and EXPLORE as the state before it; the explore fields are set by the draw and the propellers are untouched |
| PadRandomWalk.PadStepKeepsInv | subCULTron/aPadRandomWalk/ControllerAPad.cpp:44-114 | every pad step keeps the walk invariant |
| PadRandomWalk.PadExploreStep | subCULTron/aPadRandomWalk/ControllerAPad.cpp:69-98 | EXPLORE turns exactly on strict expiry and leaves the explore timer and the propellers alone; otherwise it commands (exploreSpeed, exploreSpeed) whatever surrounds the pad |
| PadRandomWalk.PadTurnStep | subCULTron/aPadRandomWalk/ControllerAPad.cpp:100-114 | TURN returns to EXPLORE exactly on strict expiry, with no command that step; before expiry it commands (turnSpeed·sign, -turnSpeed·sign) and changes nothing else |
| PadRandomWalk.ControllerAPad.constructor | subCULTron/aPadRandomWalk/ControllerAPad.cpp:35-42 | construction ends in the reset state and keeps the invariant |
| PadRandomWalk.ControllerAPad.Step | subCULTron/aPadRandomWalk/ControllerAPad.cpp:44-54 | the new state is the pad step of the old one; the invariant holds, and the collision-decision field is never touched |
| PadRandomWalk.ControllerAPad.StateExploreInit | subCULTron/aPadRandomWalk/ControllerAPad.cpp:56-66 | EXPLORE is entered with a dwell of sample times 5.0, starting now |
| PadRandomWalk.ControllerAPad.StateExplore | subCULTron/aPadRandomWalk/ControllerAPad.cpp:69-83 | one pad EXPLORE step: turn on strict expiry, else cruise |
| PadRandomWalk.ControllerAPad.StateTurnInit | subCULTron/aPadRandomWalk/ControllerAPad.cpp:86-98 | TURN is entered with the sign and the pad dwell of the angle, leaving the explore timer alone |
| PadRandomWalk.ControllerAPad.StateTurn | subCULTron/aPadRandomWalk/ControllerAPad.cpp:100-114 | one pad TURN step |
| PadRandomWalk.ControllerAPad.Reset | subCULTron/aPadRandomWalk/ControllerAPad.cpp:116-137 | the new state is the pad reset: the explore init, then TURN with angle pi |
| Aggregation.RestSteering | subCULTron/aFishAggregation/ControllerAFish.cpp:217-245 | no attraction gives (0, 0); otherwise either a crawl ahead or back with both commands at a tenth of the attraction speed, or a spin whose two commands are opposite and exactly at the attraction speed; never more |
| Aggregation.Defaults | subCULTron/aFishAggregation/ControllerAFish.h:32-41 | all speed defaults are positive; BRAKE and REST dwell the fixed 0.5 s and 30 s, and the explore mean is 5 s |
| Aggregation.StepKeepsInv | subCULTron/aFishAggregation/ControllerAFish.cpp:46-87 | every step keeps the shared dwell non-negative, the sign a unit and EXPLORE as the state before a turn |
| Aggregation.StepReducesMailbox | subCULTron/aFishAggregation/ControllerAFish.cpp:51-78 | every step broadcasts once and drains the whole queue; the count is the number of messages, the means are zero with none and are otherwise the component means, and attraction is on exactly when something arrived and at most two emitters were closer than 0.4 |
| Aggregation.StepEdges | subCULTron/aFishAggregation/ControllerAFish.cpp:80-207 | a step changes the state only along EXPLORE to BRAKE, EXPLORE to TURN, TURN to EXPLORE, BRAKE to REST and REST to EXPLORE |
| Aggregation.ExploreTransitions | subCULTron/aFishAggregation/ControllerAFish.cpp:102-145 | three or more messages brake at (-brakeSpeed, -brakeSpeed) before the timer is looked at; otherwise EXPLORE turns exactly on strict expiry, commanding (turnSpeed·sign, -turnSpeed·sign), and else avoids with the biased command or cruises |
| Aggregation.TurnTransitions | subCULTron/aFishAggregation/ControllerAFish.cpp:147-157 | TURN returns to EXPLORE exactly on strict expiry with a fresh exponential dwell, and issues no propeller command |
| Aggregation.BrakeTransitions | subCULTron/aFishAggregation/ControllerAFish.cpp:172-195 | BRAKE goes to REST exactly when strictly more than 0.5 s have passed; REST starts now with the fixed 30 s dwell and stopped propellers |
| Aggregation.RestTransitions | subCULTron/aFishAggregation/ControllerAFish.cpp:198-247 | REST explores exactly on strict expiry, even in a crowd, entering EXPLORE with a dwell of sample times the mean starting now, yellow and no propeller command that step; before that a crowd restarts the timer now and the propellers follow RestSteering of the mean bearing |
| Aggregation.RestSteeringHeadings | subCULTron/aFishAggregation/ControllerAFish.cpp:217-245 | bearing 0 crawls ahead, bearing ±pi crawls back, ±pi/2 spins towards the emitters |
| Aggregation.RestSteeringMirror | subCULTron/aFishAggregation/ControllerAFish.cpp:217-245 | a bearing mirrored about the heading swaps the two commands |
| Aggregation.RestHeld | subCULTron/aFishAggregation/ControllerAFish.cpp:198-214 | along any run that starts at rest, every step whose clock lies within the REST dwell keeps the fish at rest with the same dwell, whatever it hears |
| Aggregation.ControllerAFish.constructor | subCULTron/aFishAggregation/ControllerAFish.cpp:37-44 | construction ends in the reset of the field defaults, with attraction off, nothing sent and an empty queue |
| Aggregation.ControllerAFish.Step | subCULTron/aFishAggregation/ControllerAFish.cpp:46-87 | clock and timestep stored, one broadcast, the queue reduced, then the active state's behaviour; the invariant is kept |
| Aggregation.ControllerAFish.ReceiveMessages | subCULTron/aFishAggregation/ControllerAFish.cpp:55-78 | the loop over the queue leaves the count, the component means and the attraction flag of the reduction, and an empty queue |
| Aggregation.ControllerAFish.RunState | subCULTron/aFishAggregation/ControllerAFish.cpp:80-86 | runs exactly the behaviour of the active state |
| Aggregation.ControllerAFish.StateExploreInit | subCULTron/aFishAggregation/ControllerAFish.cpp:89-99 | EXPLORE is entered with a dwell of sample times 5.0 on the shared timer, starting now |
| Aggregation.ControllerAFish.StateExplore | subCULTron/aFishAggregation/ControllerAFish.cpp:102-127 | one EXPLORE step: crowd, then expiry, then avoidance, then cruise |
| Aggregation.ControllerAFish.StateTurnInit | subCULTron/aFishAggregation/ControllerAFish.cpp:130-145 | TURN is entered on the shared timer with the sign and the dwell of the angle, and commands the spin at once |
| Aggregation.ControllerAFish.StateTurn | subCULTron/aFishAggregation/ControllerAFish.cpp:147-157 | one TURN step |
| Aggregation.ControllerAFish.StateBrakeInit | subCULTron/aFishAggregation/ControllerAFish.cpp:160-169 | BRAKE restarts the shared timer, shows red and commands (-brakeSpeed, -brakeSpeed) |
| Aggregation.ControllerAFish.StateBrake | subCULTron/aFishAggregation/ControllerAFish.cpp:172-179 | one BRAKE step |
| Aggregation.ControllerAFish.StateRestInit | subCULTron/aFishAggregation/ControllerAFish.cpp:182-195 | REST starts now with the 30 s dwell, stopped propellers and the pale-green colour |
| Aggregation.ControllerAFish.StateRest | subCULTron/aFishAggregation/ControllerAFish.cpp:198-247 | one REST step |
| Aggregation.ControllerAFish.ObstacleAvoidance | subCULTron/aFishAggregation/ControllerAFish.cpp:249-302 | reports an obstacle exactly when one is perceived, and then writes the command biased by +0.01 on both propellers |
| Aggregation.ControllerAFish.Deliver | subCULTron/aFishAggregation/ControllerAFish.cpp:55-66 | a delivered message is appended to the receive queue and nothing else changes |
| Aggregation.ControllerAFish.Reset | subCULTron/aFishAggregation/ControllerAFish.cpp:305-321 | clock, timestep and timers zeroed, sign +1, then EXPLORE is entered |
| SignalPropagation.Steering | subCULTron/aFishSignalPropagation/ControllerAFish.cpp:89-119 | nothing heard gives (0, 0); otherwise either a crawl with both commands at forwardCoeff times the speed, or a spin whose two commands are opposite and exactly at the speed; never more |
| SignalPropagation.BlinkRule | subCULTron/aFishSignalPropagation/ControllerAFish.cpp:67-87 | at most one broadcast per step, sent exactly when outside the refractory period the spontaneous draw fires or a message is pending; a blink stamps the clock and shows red; the queue is always drained |
| SignalPropagation.RefractoryKeepsCourse | subCULTron/aFishSignalPropagation/ControllerAFish.cpp:67-123 | inside the refractory period only the queue and the propellers change, and the propellers get the held speeds |
| SignalPropagation.SteeringFollowsMessages | subCULTron/aFishSignalPropagation/ControllerAFish.cpp:48-123 | outside the refractory period the held speeds become the steering of the mean bearing of this step's messages and go to the propellers, giving (0, 0) with no message |
| SignalPropagation.SteeringHeadings | subCULTron/aFishSignalPropagation/ControllerAFish.cpp:89-119 | emitters ahead crawl forward, behind crawl back, abeam spin towards their side |
| SignalPropagation.SteeringMirror | subCULTron/aFishSignalPropagation/ControllerAFish.cpp:89-119 | emitters mirrored about the heading swap the two commands |
| SignalPropagation.LastBlinkMonotone | subCULTron/aFishSignalPropagation/ControllerAFish.cpp:67-83 | along any run the last blink time never decreases |
| SignalPropagation.BlinksSeparated | subCULTron/aFishSignalPropagation/ControllerAFish.cpp:67-83 | any two blinks of a run are strictly more than the refractory period apart |
| SignalPropagation.NoEarlyBlink | subCULTron/aFishSignalPropagation/ControllerAFish.h:31-32 | from a last blink at 0 no blink happens at a time of 2 s or less |
| SignalPropagation.ControllerAFish.constructor | subCULTron/aFishSignalPropagation/ControllerAFish.cpp:33-39 | construction ends reset, with the held speeds 0 |
| SignalPropagation.ControllerAFish.Step | subCULTron/aFishSignalPropagation/ControllerAFish.cpp:42-126 | the receive loop and the response give exactly the step function |
| SignalPropagation.ControllerAFish.Respond | subCULTron/aFishSignalPropagation/ControllerAFish.cpp:67-123 | the blink decision and steering outside the refractory period, then the held speeds to the propellers |
| SignalPropagation.ControllerAFish.Deliver | subCULTron/aFishSignalPropagation/ControllerAFish.cpp:48-64 | a delivered message is appended to the receive queue and nothing else changes |
| SignalPropagation.ControllerAFish.Reset | subCULTron/aFishSignalPropagation/ControllerAFish.cpp:128-134 | the last blink time and both held speeds become 0 |
| Firefly.FireflyStep | subCULTron/aFishFireflySynchronization/ControllerAFish.cpp:41-81 | after every step the counter is above 0.1, the queue is empty and at most one broadcast was sent |
| Firefly.FireRule | subCULTron/aFishFireflySynchronization/ControllerAFish.cpp:46-73 | the fish fires exactly when the decayed and coupled counter is at most 0.1; firing sends once, stamps the clock, shows red and restarts the counter at 1; otherwise the counter keeps that value |
| Firefly.CouplingOncePerStep | subCULTron/aFishFireflySynchronization/ControllerAFish.cpp:50-57 | the outcome of a step does not depend on how many flashes were pending, as long as at least one was |
| Firefly.RefractoryDropsFlashes | subCULTron/aFishFireflySynchronization/ControllerAFish.cpp:50-60 | inside the refractory period pending flashes have no effect; outside it they lower the counter by exactly epsilon |
| Firefly.CounterBounded | subCULTron/aFishFireflySynchronization/ControllerAFish.cpp:46-73 | with gamma·dt in [0, 1], a counter at most 1 ends in (0.1, 1], and between flashes a non-negative counter never grows |
| Firefly.ResetState | subCULTron/aFishFireflySynchronization/ControllerAFish.cpp:83-90 | a reset counter drawn in [0, 1) is in [0, 1], the last flash is one refractory period before 0, and a step at time 0 ignores pending flashes |
| Firefly.RunCounterBounded | subCULTron/aFishFireflySynchronization/ControllerAFish.cpp:46-73 | along any run with gamma·dt in [0, 1] a counter that starts at most 1 stays at most 1, and is above 0.1 after the first step |
| Firefly.ControllerAFish.constructor | subCULTron/aFishFireflySynchronization/ControllerAFish.cpp:33-39 | construction ends in the reset of the field defaults, so the default counter 1 is overwritten by the draw |
| Firefly.ControllerAFish.Step | subCULTron/aFishFireflySynchronization/ControllerAFish.cpp:41-81 | decay, a single coupling, the drain loop and the fire test give exactly the step function |
| Firefly.ControllerAFish.Deliver | subCULTron/aFishFireflySynchronization/ControllerAFish.cpp:50-60 | a delivered flash is appended to the receive queue and nothing else changes |
| Firefly.ControllerAFish.Reset | subCULTron/aFishFireflySynchronization/ControllerAFish.cpp:83-90 | the counter becomes the draw, the last flash is set to minus the refractory period, and the colour is yellow |
| ElectricSense.PassiveRule | subCULTron/electricSenseDesynchronization/ControllerAFish.cpp:55-90 | at or below the threshold the polarisation is zero; a sensed current holds the counter still with active-passive 1; no current grows it by one timestep with active-passive 0 |
| ElectricSense.ActiveWindow | subCULTron/electricSenseDesynchronization/ControllerAFish.cpp:91-110 | the polarisation is (10, 0, 0, 0, 0) exactly when the incremented counter is above the threshold and below the ceiling, and all zero otherwise |
| ElectricSense.CeilingResets | subCULTron/electricSenseDesynchronization/ControllerAFish.cpp:55-110 | for every step: the counter after the passive/active branch (held still by a sensed current at or below the threshold, one timestep more otherwise) is restarted at 0 exactly when it reaches the ceiling, which also overrides the polarisation to zero, active-passive to 0 and the colour to yellow; below the ceiling the counter keeps that value |
| ElectricSense.CeilingReachedResets | subCULTron/electricSenseDesynchronization/ControllerAFish.cpp:101-110 | a counter below the ceiling that a step carries to it, without a held current, restarts at 0, passive, with active-passive 0 |
| ElectricSense.CounterBounded | subCULTron/electricSenseDesynchronization/ControllerAFish.cpp:55-110 | with a non-negative timestep a counter in [0, ceiling) stays there |
| ElectricSense.StepKeepsInv | subCULTron/electricSenseDesynchronization/ControllerAFish.cpp:48-134 | every step keeps the walk invariant and active-passive in {0, 1}, sends once and drains the queue |
| ElectricSense.OnlyAvoidanceMoves | subCULTron/electricSenseDesynchronization/ControllerAFish.cpp:149-221 | after any step the propellers hold the previous command, zero, or an avoidance command issued while an obstacle is perceived |
| ElectricSense.RunCounterBounded | subCULTron/electricSenseDesynchronization/ControllerAFish.cpp:55-110 | along any run with non-negative timesteps, a counter that starts in [0, ceiling) stays there |
| ElectricSense.ControllerAFish.constructor | subCULTron/electricSenseDesynchronization/ControllerAFish.cpp:40-45 | construction resets the walk and keeps the given counter and active-passive flag, with nothing sent and no polarisation yet |
| ElectricSense.ControllerAFish.Step | subCULTron/electricSenseDesynchronization/ControllerAFish.cpp:48-134 | the duty cycle, one broadcast, the drained queue and the zero-speed walk step give exactly the step function; the invariant is kept |
| ElectricSense.ControllerAFish.DutyCycle | subCULTron/electricSenseDesynchronization/ControllerAFish.cpp:55-110 | the counter, polarisation, colour and active-passive updates of the duty cycle, keeping active-passive in {0, 1} |
| ElectricSense.ControllerAFish.Communicate | subCULTron/electricSenseDesynchronization/ControllerAFish.cpp:119-126 | one broadcast and an empty queue, nothing else changed |
| ElectricSense.ControllerAFish.RunState | subCULTron/electricSenseDesynchronization/ControllerAFish.cpp:129-133 | the walk step with zero cruise and zero spin, keeping the walk invariant |
| ElectricSense.ControllerAFish.StateExploreInit | subCULTron/electricSenseDesynchronization/ControllerAFish.cpp:136-146 | EXPLORE is entered with a dwell of sample times the mean, starting now |
| ElectricSense.ControllerAFish.StateExplore | subCULTron/electricSenseDesynchronization/ControllerAFish.cpp:149-180 | one EXPLORE step commanding (exploreSpeed·0, exploreSpeed·0) unless avoiding |
| ElectricSense.ControllerAFish.StateTurnInit | subCULTron/electricSenseDesynchronization/ControllerAFish.cpp:183-195 | TURN is entered with the sign and the dwell of the angle |
| ElectricSense.ControllerAFish.StateTurn | subCULTron/electricSenseDesynchronization/ControllerAFish.cpp:197-221 | one TURN step commanding zero spin |
| ElectricSense.ControllerAFish.ObstacleAvoidance | subCULTron/electricSenseDesynchronization/ControllerAFish.cpp:224-277 | reports an obstacle exactly when one is perceived and only then overrides the propellers |
| ElectricSense.ControllerAFish.Deliver | subCULTron/electricSenseDesynchronization/ControllerAFish.cpp:122-126 | a delivered message is appended to the receive queue and nothing else changes |
| ElectricSense.ControllerAFish.Reset | subCULTron/electricSenseDesynchronization/ControllerAFish.cpp:280-297 | the walk is reset; the counter and the active-passive flag are left alone |
| Docking.Toggled | subCULTron/docking/ControllerAMussel.cpp:58-59 | the toggled factor is 1 or -1, and it flips -1 to 1 and 1 to -1 |
| Docking.StepRule | subCULTron/docking/ControllerAMussel.cpp:51-66 | a step with ten seconds or more since the last toggle flips the factor, stamps the clock and sends the new factor; any other step changes nothing but the ballast; either way the last command sent is 1 |
| Docking.FactorInvariant | subCULTron/docking/ControllerAMussel.cpp:54-62 | along any run the factor stays in {-1, 1} |
| Docking.LastTimeMonotone | subCULTron/docking/ControllerAMussel.cpp:54-56 | along any run the time of the last toggle never goes back, whatever the factor |
| Docking.FirstToggleAfterPeriod | subCULTron/docking/ControllerAMussel.cpp:45-56 | after a reset (last toggle at 0) every toggle of a run, including a lone one, comes at ten seconds or later |
| Docking.TogglesSeparated | subCULTron/docking/ControllerAMussel.cpp:54-56 | two toggles of a run are at least ten seconds apart, and after a reset the earlier one comes no earlier than ten seconds |
| Docking.ControllerAMussel.constructor | subCULTron/docking/ControllerAMussel.cpp:33-38 | construction ends with last time 0, factor -1 and no ballast command |
| Docking.ControllerAMussel.Step | subCULTron/docking/ControllerAMussel.cpp:51-66 | the new state is the step function of the old one |
| Docking.ControllerAMussel.Reset | subCULTron/docking/ControllerAMussel.cpp:45-49 | last time 0 and factor -1; the ballast commands are untouched |

## Left out

- The scenario set-up in the `Experiment.cpp` and `Experiment.h` files is not modelled: scene and service construction, initial placement, run loops, and the water-volume height functions. These are physics and rendering plumbing.
- The random-number generator, `log`, `atan2` and `M_PI` are not computed. Draws, dwells and angles are inputs, `atan2` is a function parameter, and nothing statistical is proved about the exponential sampling.
- Floating-point rounding is not modelled: every quantity is a `real`. For example, the electric-sense counter's `+ dt` then `- dt` nets exactly zero here.
- Device internals are not modelled. This covers the transceiver, the rays, the electrodes, the propellers, the LEDs and the ballast. Only the values read and the commands issued are recorded. Colours are tags rather than RGB values.
- The transport of broadcasts between agents is not modelled. `Deliver` appends to one agent's queue on behalf of the medium, and run lemmas take the messages each step delivers as inputs.
- Console and debug output is not modelled.
- The walker of the random-walk fish and the pad keeps no timestep field: those controllers store the simulator timestep each step and zero it on reset, but never read it. The optical-communication and electric-sense fish never store or reset the timestep; the electric-sense fish reads the simulator timestep, which the model takes as the step input `dt`.
- The headers of the random-walk, optical-communication and electric-sense fish are not part of this model. Their parameters are therefore constructor arguments. For the electric-sense fish these include the threshold, the ceiling, and the initial counter and active-passive values.
- The electric-sense polarisation starts as the empty sequence, meaning no command issued yet.
- Avoidance.ComputeAvoidance: requires a non-negative threshold. This ensures that the proportional brake, which is always overwritten, never divides by zero. A negative threshold, which no controller uses, is left out.
- Walk.ValidParams: a zero turn speed, which the fish divide by, is left out. So are a negative explore mean and a negative avoidance threshold. The defaults that are shown are all positive.
- The firefly's `DoFirefly` is declared in its header but never defined, so it is not modelled. The firefly's declared but unused fields are not modelled either.
- The opinion-dynamics fish and the diving mussel are not modelled. Only their declarations exist and no bodies are shown.
- The electric-sense aggregation mussel is not modelled. It only sets a constant polarisation and reads currents.
- The signal-propagation header declares `step` and `reset` while the implementation defines `Step` and `Reset`. The model follows the implementation bodies.
