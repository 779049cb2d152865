# drift_mode core, modelled in Dafny

drift_mode is a car simulator built on the s&box engine. Each car is a set of
wheels hanging from a rigid body. Each wheel finds the ground with a fan of
scene casts, carries a spring and damper suspension and produces tyre
forces from a friction curve. A drivetrain delivers the engine's torque to
the wheels. It is a chain of engine, clutch, gearbox and differential nodes,
and each node passes torque, inertia and angular velocity down to the next.
Around this physics sit several other parts:

- driver input normalisation;
- anti-lock braking and stability control;
- a steering and brake controller;
- wheel registries that sum tyre loads;
- a tuning and outfit container with bit-flag slot compatibility;
- the lap and checkpoint progression of a street race;
- a ring buffer of skid-mark sections.

This project models that decision logic and state in Dafny and proves
properties of it. The modules follow the source files:

- Values the source only computes are datatypes and functions.
- Objects whose fields the source updates in place are classes with field
  frames.
- Loops are methods proved against specification functions.
- The host engine's numerics and geometry are parameters. These include
  sine, arctangent, arcsine, cosine, curve evaluation, interpolation, unit
  conversion and scene traces.
- Floats are modelled as real numbers.

`common.dfy` holds the shared pieces: `Option`, the 3-vector `Vec3`,
`Clamp`, `Min`, `Max` and `Div`. `Div` gives 0 for a zero divisor. It is
used wherever the source divides by a quantity that may be 0, and stands in
for the infinity or NaN a float division would give there.

## Model

| member | source | states |
|---|---|---|
| Common.FirstPeakIsFirstMaximum | code/Powertrain/EngineComponent.cs:541-553 | a running-maximum scan that starts at 0 and moves only on a strictly larger sample finds nothing exactly when no sample is positive, and otherwise the first sample of greatest value |
| CarTunings.SlotsOver | code/Tuning/CarTuning.cs:74 | the outer slots are the stored mask for a plain piece and always Wheel for a wheel piece (also code/Tuning/Tunings/WheelTuning.cs:7) |
| CarTunings.HideBody | code/Tuning/CarTuning.cs:135-137 | the hidden body groups are the stored mask for a plain piece and always FL, FR, RR and RL for a wheel piece (also code/Tuning/Tunings/WheelTuning.cs:8) |
| CarTunings.Category | code/Tuning/CarTuning.cs:95 | the category is the stored one for a plain piece and always Wheel for a wheel piece (also code/Tuning/Tunings/WheelTuning.cs:9) |
| CarTunings.CanBeWornWith | code/Tuning/CarTuning.cs:172-184 | two pieces can be worn together exactly when they are different pieces and neither their outer nor their inner slot masks share a bit |
| CarTunings.NotWornWithItself | code/Tuning/CarTuning.cs:174-175 | no piece can be worn with itself |
| CarTunings.CanBeWornWithSymmetric | code/Tuning/CarTuning.cs:172-184 | compatibility does not depend on which piece asks |
| CarTunings.Split | code/Tuning/CarTuning.cs:158 | `Split(" ")` gives at least one piece and no piece contains the separator |
| CarTunings.JoinSplit | code/Tuning/CarTuning.cs:158 | gluing the pieces of a split back together with the separator gives the original tags string, so no character is lost |
| CarTunings.LookupKeys | code/Tuning/CarTuning.cs:159-161 | the inner loop finds a value only when some key is in the dictionary and the value is that key's entry; it finds none exactly when there is no dictionary or no key is in it |
| CarTunings.LookupKeysAppend | code/Tuning/CarTuning.cs:159-161 | looking up a concatenation of keys finds the first part's hit when there is one, else the second part's |
| CarTunings.GetModelFirstHit | code/Tuning/CarTuning.cs:150-164 | `GetModel` returns the entry of the first key, over the pieces in order and their tags in split order, that the dictionary holds, and `Model` when none does |
| CarTunings.GetModelWithoutConditionalModels | code/Tuning/CarTuning.cs:150-164 | without a dictionary of conditional models the result is always `Model` |
| CarTunings.GetModelSkipsUntagged | code/Tuning/CarTuning.cs:155-156 | pieces with null or empty tags are skipped |
| CarTunings.GetBodyGroups | code/Tuning/CarTuning.cs:224-232 | five pairs named root, rl, rr, fl and fr in that order, each valued 0 or 1 |
| CarTunings.HideMaskHas | code/Tuning/CarTuning.cs:226 | the or-aggregated mask has a bit of a flag exactly when some piece of the list hides it |
| CarTunings.BodyGroupValue | code/Tuning/CarTuning.cs:224-232 | a pair's value is 1 exactly when some piece hides that group, and every value is 0 for an empty list |
| CarTunings.BodyGroupsIgnoreSpoilerAndBrakeDisk | code/Tuning/CarTuning.cs:60-69 | two lists whose masks differ only in the Spoiler and BrakeDisk bits give the same pairs (also lines 224-232) |
| WheelTunings.NewWheelTuning | code/Tuning/Tunings/WheelTuning.cs:5-16 | a new wheel piece has radius and width 1, outer slot Wheel and category Wheel |
| WheelTunings.WheelGettersIgnoreFields | code/Tuning/Tunings/WheelTuning.cs:7-9 | whatever was stored, any two wheel pieces read the same outer slots, hidden groups and category |
| WheelTunings.TwoWheelsClash | code/Tuning/CarTuning.cs:177-178 | two wheel pieces can never be worn together (also code/Tuning/Tunings/WheelTuning.cs:7) |
| WheelTunings.WheelHidesArches | code/Tuning/CarTuning.cs:224-232 | a list holding a wheel piece sets rl, rr, fl and fr to 1 (also code/Tuning/Tunings/WheelTuning.cs:8) |
| TuningContainers.WithoutTuning | code/Tuning/TuningContainer.cs:79-82 | `RemoveAll` for `t` keeps exactly the entries that do not refer to `t` |
| TuningContainers.Wearable | code/Tuning/TuningContainer.cs:91 | the eviction keeps exactly the entries whose piece can be worn with `t` |
| TuningContainers.FindEntryFirst | code/Tuning/TuningContainer.cs:102-105 | `FindEntry` is null exactly when no entry refers to `t`, and otherwise is the first entry that does |
| TuningContainers.Serialized | code/Tuning/TuningContainer.cs:107-117 | one serialised entry per list entry, in order, holding the piece's resource id and the tint |
| TuningContainers.WithoutTuningRemovesOnlyT | code/Tuning/TuningContainer.cs:79-82 | after removal no entry refers to `t`, and every other piece keeps its number of entries |
| TuningContainers.CountZeroIffAbsent | code/Tuning/TuningContainer.cs:70-73 | a piece has no entries exactly when `Has` is false for it |
| TuningContainers.AddLeavesExactlyOne | code/Tuning/TuningContainer.cs:89-95 | after `Add(t)` exactly one entry refers to `t`, and it is the last one, because a piece is never wearable with itself (also code/Tuning/CarTuning.cs:174-175) |
| TuningContainers.AddKeepsCompatible | code/Tuning/TuningContainer.cs:89-95 | `Add` keeps a clash-free outfit clash-free |
| TuningContainers.WearableSubsequence | code/Tuning/TuningContainer.cs:91 | the survivors of the eviction from a clash-free outfit are still clash-free |
| TuningContainers.WearableKeepsAll | code/Tuning/TuningContainer.cs:91 | when every piece can be worn with `t`, the eviction removes nothing |
| TuningContainers.ParseSerializedRoundTrip | code/Tuning/TuningContainer.cs:154-166 | parsing the serialised form of a clash-free outfit whose ids all resolve gives back the same entries, in order, tints included (also lines 107-117) |
| TuningContainers.ParseAllCompatible | code/Tuning/TuningContainer.cs:154-166 | parsing any entry array onto a clash-free outfit gives a clash-free outfit |
| TuningContainers.DeserializeBlank | code/Tuning/TuningContainer.cs:130-134 | null, empty or whitespace input leaves the container empty |
| TuningContainers.TuningContainer.constructor | code/Tuning/TuningContainer.cs:40 | a new container is empty |
| TuningContainers.TuningContainer.Remove | code/Tuning/TuningContainer.cs:79-82 | every entry for `t` goes and nothing else; afterwards `Has(t)` is false |
| TuningContainers.TuningContainer.Add | code/Tuning/TuningContainer.cs:89-95 | the pieces that cannot be worn with `t` are evicted in order and a fresh untinted entry for `t` is appended and returned; afterwards exactly one entry refers to `t` |
| TuningContainers.TuningContainer.Toggle | code/Tuning/TuningContainer.cs:46-52 | a present piece is removed and an absent one added, so `Has(t)` flips |
| TuningContainers.TuningContainer.TryAdd | code/Tuning/TuningContainer.cs:57-64 | returns false and changes nothing when `t` is present; otherwise adds it and returns true; either way `t` is present afterwards |
| TuningContainers.TuningContainer.FindEntry | code/Tuning/TuningContainer.cs:102-105 | null exactly when `Has(t)` is false; otherwise an entry of the list that refers to `t` |
| TuningContainers.TuningContainer.GetSerialized | code/Tuning/TuningContainer.cs:107-117 | one serialised entry per list entry, with the piece's id and the entry's tint |
| TuningContainers.TuningContainer.ParseEntries | code/Tuning/TuningContainer.cs:154-166 | a null array or one that fails to deserialise changes nothing; otherwise each entry in turn is added, with its tint, when its id resolves and skipped when it does not |
| TuningContainers.TuningContainer.Deserialize | code/Tuning/TuningContainer.cs:130-152 | the list is cleared first; blank input stops there; an array is parsed directly and an object through its "Items" array; the result is always clash-free |
| Powertrain.WithWheel | code/Powertrain/WheelComponent.cs:13 | replacing a wheel node's wheel state keeps it a wheel node holding exactly the new state |
| Powertrain.NewShaft | code/Powertrain/PowertrainComponent.cs:89-90 | a fresh component has inertia 0.05 and no output, so it ends a chain (also lines 21) |
| Powertrain.QueryInertiaIsSum | code/Powertrain/PowertrainComponent.cs:139-148 | `QueryInertia` is the sum of `Inertia` over every node of the chain but the last, plus the last node's own answer (also code/Powertrain/WheelComponent.cs:58-64) |
| Powertrain.ShaftChainInertiaIsSum | code/Powertrain/PowertrainComponent.cs:139-148 | on a chain of plain components `QueryInertia` is the sum of their inertias |
| Powertrain.QueryAngularVelocityFrame | code/Powertrain/PowertrainComponent.cs:126-137 | `QueryAngularVelocity` never changes a link and writes only nodes on the chain |
| Powertrain.QueryAngularVelocityAnswer | code/Powertrain/PowertrainComponent.cs:126-137 | the answer is the last node's: a wheel's own angular velocity, otherwise the velocity passed in (also code/Powertrain/WheelComponent.cs:51-56) |
| Powertrain.QueryAngularVelocityPassesThrough | code/Powertrain/PowertrainComponent.cs:128 | every plain component on the chain records the velocity passed in as its input velocity (also lines 135) |
| Powertrain.PathSameLinks | code/Powertrain/PowertrainComponent.cs:62-90 | the chain followed from a node depends only on the output links |
| Powertrain.PathRanks | code/Powertrain/PowertrainComponent.cs:62-90 | following outputs never comes back to a node already visited |
| Powertrain.ForwardStepFrame | code/Powertrain/PowertrainComponent.cs:149-160 | `ForwardStep` never changes a link and writes only nodes on the chain |
| Powertrain.ForwardStepAnswer | code/Powertrain/PowertrainComponent.cs:154-155 | a plain last node answers the torque passed in; a wheel answers the magnitude of its counter torque, never negative (also code/Powertrain/WheelComponent.cs:84) |
| Powertrain.ForwardStepTorque | code/Powertrain/WheelComponent.cs:73-78 | every node on the chain receives the same input torque (also code/Powertrain/PowertrainComponent.cs:151, 157) |
| Powertrain.ForwardStepAccumulates | code/Powertrain/WheelComponent.cs:74-79 | the last node receives the starting inertia plus the inertias of every node before it, and a wheel adds its own cached inertia on top (also code/Powertrain/PowertrainComponent.cs:152, 158) |
| Powertrain.ForwardStepKeepsVelocities | code/Powertrain/PowertrainComponent.cs:149-160 | `ForwardStep` changes no node's input or output angular velocity |
| Powertrain.GetPowerInKW | code/Powertrain/PowertrainComponent.cs:189-198 | `GetPowerInKW` computes the same power as `TorqueToPowerInKW`, arguments swapped |
| Powertrain.PowerTorqueRoundTrip | code/Powertrain/PowertrainComponent.cs:162-183 | for an angular velocity of magnitude at least 1, converting torque to power and back gives the torque |
| Powertrain.PowerToTorqueNearStandstill | code/Powertrain/PowertrainComponent.cs:179-181 | below 1 rad/s in magnitude the torque is the power in watts, whatever the velocity (the `> -1` test always holds) |
| Powertrain.Drivetrain.constructor | code/Powertrain/PowertrainComponent.cs:6-28 | the drivetrain holds exactly the given nodes |
| Powertrain.Drivetrain.SetInput | code/Powertrain/PowertrainComponent.cs:34-51 | null or self clears the input and its hash; another node is stored with its name hash; no other node changes |
| Powertrain.Drivetrain.SetOutput | code/Powertrain/PowertrainComponent.cs:62-88 | self clears the output and hash; null clears them; another node is linked with its hash and gets this node as its input; nothing else changes |
| Powertrain.Drivetrain.SetDamage | code/Powertrain/PowertrainComponent.cs:97-101 | the stored damage is the value clamped to [0, 1], and only that field changes |
| Powertrain.Drivetrain.QueryInertia | code/Powertrain/PowertrainComponent.cs:139-148 | on a drivetrain of plain components the answer is the sum of inertias along the chain |
| Powertrain.Drivetrain.QueryAngularVelocity | code/Powertrain/PowertrainComponent.cs:126-137 | the recursion down the chain writes exactly the nodes and returns exactly the answer of the chain specification (frame, answer and pass-through proved about it) (also code/Powertrain/WheelComponent.cs:51-56) |
| Powertrain.Drivetrain.ForwardStep | code/Powertrain/WheelComponent.cs:71-85 | the recursion down the chain writes exactly the nodes and returns exactly the answer of the chain specification (frame, torque, inertia accumulation proved about it) (also code/Powertrain/PowertrainComponent.cs:149-160) |
| Powertrain.Drivetrain.WheelOnStart | code/Powertrain/WheelComponent.cs:15-21 | the wheel node caches the wheel's current rolling resistance and inertia; nothing else changes |
| Powertrain.Drivetrain.AddBrakeTorque | code/Powertrain/WheelComponent.cs:31-48 | only that wheel's brake torque changes, to the as-written rule's value, so it is at least the limit and at least 0 |
| Powertrain.Drivetrain.ApplyRollingResistanceMultiplier | code/Powertrain/WheelComponent.cs:66-70 | the wheel's rolling resistance becomes the cached initial value times the multiplier, whatever it was; no other node changes |
| WheelComponents.DtScale | code/Powertrain/WheelComponent.cs:61 | the step-size factor is between 2 and 10 |
| WheelComponents.WheelQueryInertia | code/Powertrain/WheelComponent.cs:58-64 | the wheel's inertia estimate is never negative for a non-negative mass, and is mass·r² at the smallest step and 5·mass·r² at the largest |
| WheelComponents.BrakeTorqueAfterAdd | code/Powertrain/WheelComponent.cs:31-48 | as written: a positive request is added, and the result is at least the limit and at least 0 |
| WheelComponents.SmallRequestBrakesFully | code/Powertrain/WheelComponent.cs:40 | as written, a 10 Nm request on a released wheel with a 1000 Nm limit stores 1000 Nm |
| WheelComponents.BrakeTorqueAfterAddCorrected | code/Powertrain/WheelComponent.cs:26-48 | corrected: the result is never negative and never above the limit, and it is the old value plus the request while that stays within [0, limit] |
| WheelComponents.CorrectedBrakeNeverExceedsRequest | code/Powertrain/WheelComponent.cs:26-48 | with the corrected rule, a wheel within the limit ends between its old torque and its old torque plus the request, and within the limit |
| WheelComponents.NonPositiveBrakeAddsNothing | code/Powertrain/WheelComponent.cs:35-38 | a request of zero or less has the effect of a zero request |
| Engines.TargetIsWeightedAverage | code/Powertrain/EngineComponent.cs:360-366 | the two inertia weights of the target velocity add up to 1, and with non-negative inertias the target lies between the engine's and the drivetrain's velocity |
| Engines.PowerSamples | code/Powertrain/EngineComponent.cs:545-547 | the power scan reads the curve at exactly the 20 points 0, 0.05, ..., 0.95 |
| Engines.SampleRpmIsProduct | code/Powertrain/EngineComponent.cs:521-523 | the RPM of torque sample k is its curve position 0.05·(k+1) times the rev-limiter RPM |
| Engines.TorqueSamples | code/Powertrain/EngineComponent.cs:521-531 | the torque scan has 19 samples, each P·1000/ω at its RPM, or 0 when that RPM is below idle |
| Engines.PeakPowerWithoutPositiveSample | code/Powertrain/EngineComponent.cs:541-557 | when no curve sample is positive the peak power is 0 at the rev-limiter RPM |
| Engines.PeakPowerIsMaximum | code/Powertrain/EngineComponent.cs:541-557 | for a non-negative maximum power, no sample's power exceeds the reported peak |
| Engines.PeakTorqueIsMaximum | code/Powertrain/EngineComponent.cs:516-539 | the peak torque is never negative, no sample above idle beats it, and a zero peak is reported at RPM 0 |
| Engines.Engine.constructor | code/Powertrain/EngineComponent.cs:31-114 | a new engine carries the property defaults: ICE, auto start, ignition on, stalling on, idle 900 RPM, 120 kW, rev limiter at 4700 RPM, start duration 0.5 s |
| Engines.Engine.IsStalled | code/Powertrain/EngineComponent.cs:206-212 | stalled only for an ICE engine with stalling enabled, and always when such an engine turns below 40% of idle velocity |
| Engines.Engine.OnStart | code/Powertrain/EngineComponent.cs:231-249 | an electric motor switches off stalling and the starter, idles at 0 RPM, starts flying, and uses a 0.001 s start and no cut-off; an ICE engine keeps every setting |
| Engines.Engine.StopEngine | code/Powertrain/EngineComponent.cs:303-307 | the ignition goes off and nothing else changes |
| Engines.Engine.StartEngine | code/Powertrain/EngineComponent.cs:251-301 | the ignition goes on; an ICE engine with a flying start jumps to idle velocity with the starter off; otherwise, without a running starter and with a controller, the starter engages with a start duration of at least 0.1 s and the torque that reaches idle velocity in that time; no other node and no link changes |
| Engines.Engine.StartStopEngine | code/Powertrain/EngineComponent.cs:313-319 | a running engine loses its ignition and no node changes; a stopped one gets its ignition |
| Engines.Engine.ApplyICEIdleCorrection | code/Powertrain/EngineComponent.cs:483-494 | below 110% of idle with the ignition on, the throttle becomes the larger of the driver's input and the idle correction, so it never drops below the driver's input nor rises above 1 when that input does not; otherwise it stays |
| Engines.Engine.GetPeakPower | code/Powertrain/EngineComponent.cs:541-557 | the scan returns the first greatest positive curve sample times the maximum power, at its position times the rev-limiter RPM (the loop is proved against the peak specification) |
| Engines.Engine.GetPeakTorque | code/Powertrain/EngineComponent.cs:516-539 | the scan returns the first greatest torque among the samples at or above idle, with its RPM, or 0 at RPM 0 (the loop is proved against the peak specification) |
| Engines.Engine.TorqueAt | code/Powertrain/EngineComponent.cs:523-531 | the torque computed for one sample above idle is that sample of the torque scan |
| Engines.Engine.UpdatePeakPowerAndTorque | code/Powertrain/EngineComponent.cs:321-325 | the four cached peak values are those of the two scans |
| Engines.Engine.OnFixedUpdate | code/Powertrain/EngineComponent.cs:327-389 | the cached velocities are refreshed; it stops early exactly when the rev-limiter velocity is 0, and then changes no node, no running state and no input; otherwise a start/stop press is consumed, clearing only the input's start/stop flag; a running engine has its ignition on and an engine that stops running loses it; the start logic leaves the engine velocity as it was or at idle (`started`), and a full step leaves drivetrain, velocity, generated power, RPM fraction and load exactly as `EngineStep` gives them for the drivetrain with that velocity, hence in [0, 1.05·rev-limiter velocity] and [0, 1] |
| Engines.Engine.CacheValues | code/Powertrain/EngineComponent.cs:329-335 | throttle and user input become the input; idle, rev-limiter and stall velocities are recomputed, the stall velocity being 40% of idle, or -1e10 with stalling off |
| Engines.Engine.UpdateRunning | code/Powertrain/EngineComponent.cs:339-354 | after auto-start, the start/stop button and the stall check, a running engine has its ignition on, and one that stopped running has it off; the start/stop press is consumed, so the input's flag is cleared and every other input state is kept; links are kept |
| Engines.Engine.PhysicsUpdate | code/Powertrain/EngineComponent.cs:356-389 | it runs to the end exactly when the engine has an output and engine plus drivetrain inertia is not 0 (`Steps`); otherwise no node changes; a full step leaves the drivetrain, the engine velocity, the generated power, the RPM fraction and the load exactly as `EngineStep` gives them for the old drivetrain, so the velocity ends in [0, 1.05·rev-limiter velocity] and the RPM fraction and load in [0, 1] |
| Engines.EngineReaction | code/Powertrain/EngineComponent.cs:360-373 | querying the drivetrain velocity keeps the chain links (and acyclicity); the reaction torque is the one that moves the engine to the inertia-weighted blend of its own and the drivetrain velocity in one step |
| Engines.EngineDrive | code/Powertrain/EngineComponent.cs:369-388 | the generated power is `TorqueToPowerInKW` of the engine velocity and the delegate torque; the new velocity is the engine velocity integrated with generated, returned and reaction torque over the total inertia, clamped to [0, 1.05·rev-limiter velocity], and it is what the engine node holds; the RPM fraction is that velocity over the rev limiter and the load the power over the maximum, both clamped to [0, 1]; links are kept |
| Engines.EngineStep | code/Powertrain/EngineComponent.cs:356-388 | one full physics step of the engine: velocity bounds, RPM fraction and load in [0, 1], the generated power from the engine velocity before the step, links kept |
| Engines.Engine.StepPhysics | code/Powertrain/EngineComponent.cs:365-388 | on the drivetrain array, the physics step leaves exactly the state `EngineStep` gives for the old drivetrain |
| Engines.Engine.Drive | code/Powertrain/EngineComponent.cs:369-388 | on the drivetrain array, sending the torque down the chain and integrating leaves exactly the state `EngineDrive` gives for the old drivetrain |
| Gearboxes.RatioSignTellsGear | code/Engine/Gearbox/BaseGearbox.cs:44-52 | with a positive reverse ratio and positive table, the ratio is negative exactly in reverse, 0 exactly in neutral and positive exactly in a forward gear |
| Gearboxes.ShiftTarget | code/Engine/Gearbox/BaseGearbox.cs:31-39 | a shift moves the gear by at most one step in the direction's sign and never leaves the accepted range [-1, number of ratios] |
| Gearboxes.MaxRpm | code/Engine/Gearbox/BaseGearbox.cs:60 | the axle RPM chosen is one of the axles' and no axle's is larger |
| Gearboxes.Gearbox.constructor | code/Engine/Gearbox/BaseGearbox.cs:24-30 | a new gearbox is in neutral with ratio 0, reverse ratio 3.082 and a 0.14 s cooldown (also lines 8) |
| Gearboxes.Gearbox.CalcRatio | code/Engine/Gearbox/BaseGearbox.cs:44-52 | the ratio is minus the reverse ratio in reverse, 0 in neutral and the table entry in a forward gear |
| Gearboxes.Gearbox.SetGearValue | code/Engine/Gearbox/BaseGearbox.cs:11-20 | the `Gear` setter stores the gear, restarts the cooldown (elapsed time 0) and recomputes the ratio |
| Gearboxes.Gearbox.SetGear | code/Engine/Gearbox/BaseGearbox.cs:31-35 | an accepted gear is assigned with a fresh cooldown and ratio; any other gear changes nothing |
| Gearboxes.Gearbox.Shift | code/Engine/Gearbox/BaseGearbox.cs:36-39 | the gear moves by 0 or the sign of the direction and stays in range; an accepted move restarts the cooldown, a refused one changes nothing; `Shift(0)` still restarts the cooldown |
| Gearboxes.Gearbox.Think | code/Engine/Gearbox/BaseGearbox.cs:53-61 | no torque passes during the cooldown and the clutch torque times the ratio after it; the RPM is `OutputRpm`: the fastest axle's RPM times the ratio, for any sign of the ratio; it is one axle's RPM times the ratio, the largest such product for a non-negative ratio and the smallest for a negative one |
| Gearboxes.OutputRpm | code/Engine/Gearbox/BaseGearbox.cs:60 | the output RPM is one of the axles' RPMs times the ratio |
| Gearboxes.OutputRpmOrder | code/Engine/Gearbox/BaseGearbox.cs:60 | the output RPM is the largest of the axles' RPMs times the ratio for a non-negative ratio, and the smallest in reverse (negative ratio) |
| Gearboxes.ScaledMaximum | code/Engine/Gearbox/BaseGearbox.cs:60 | multiplying by a non-negative ratio keeps the maximum RPM on top; a negative ratio makes it the minimum |
| Gearboxes.ScaledOrder | code/Engine/Gearbox/BaseGearbox.cs:60 | multiplying two RPMs by a non-negative ratio keeps their order, by a negative one reverses it |
| Gearboxes.Gearbox.OnUpdate | code/Engine/Gearbox/ManualGearbox.cs:6-17 | during the cooldown nothing changes; otherwise GearUp shifts up and wins over GearDown, GearDown alone shifts down, and no press changes nothing; an accepted shift restarts the cooldown and recomputes the ratio for the new gear, and a shift past either end keeps gear, cooldown and ratio (also code/Engine/Gearbox/BaseGearbox.cs:11-39) |
| Clutches.TargetTorqueCases | code/Engine/Chutch.cs:24-30 | nothing passes with the pedal down or in neutral; otherwise the target is the engine torque plus the RPM slip in rad/s times the stiffness |
| Clutches.Clutch.constructor | code/Engine/Chutch.cs:10-13 | a new clutch has no torque and unit stiffness and damping |
| Clutches.Clutch.Think | code/Engine/Chutch.cs:17-34 | the gearbox updates from the clutch torque of the previous step before its RPM is read, and that RPM is the fastest axle's RPM times the ratio (the largest scaled axle RPM forward, the smallest in reverse); the target follows the rule above on the new gearbox RPM, and the torque moves towards it by the damping |
| EngineIces.FlywheelInertiaSign | code/Engine/EngineICE.cs:35-38 | a disc of non-negative mass has non-negative inertia, and none without mass or radius |
| EngineIces.IdleFade | code/Engine/EngineICE.cs:65-66 | an idle fade factor is always in [0, 1] |
| EngineIces.EngineIce.constructor | code/Engine/EngineICE.cs:11-34 | a new engine has the default flywheel (2.4 kg, 0.358 m), limits (7000 and 800 RPM), friction and limiter duration, but inertia 0 because only the setters compute it |
| EngineIces.EngineIce.SetFlywheelMass | code/Engine/EngineICE.cs:35-38 | the mass is stored, the radius kept, and the inertia becomes that of the new disc (also lines 24) |
| EngineIces.EngineIce.SetFlywheelRadius | code/Engine/EngineICE.cs:35-38 | the radius is stored, the mass kept, and the inertia becomes that of the new disc (also lines 25) |
| EngineIces.EngineIce.UpdateThrottle | code/Engine/EngineICE.cs:59-82 | the master throttle is in [0, 1]; above the maximum RPM the driver's throttle is dropped and the limiter timer restarts; within the limiter duration it stays dropped; otherwise it is added to the idle supply; the torque is the mapped torque times the master throttle plus friction |
| EngineIces.EngineIce.OnFixedUpdate | code/Engine/EngineICE.cs:55-91 | after the throttle update and the clutch step (which reads the previous RPM and the new torque), the RPM moves by the net torque over the inertia and never goes negative |
| Differentials.AxleAverage | code/Engine/Differential.cs:21 | the average of two wheel velocities lies between them, at equal distance from both (also lines 39) |
| Differentials.GetVelAsWritten | code/Engine/Differential.cs:17-22 | as written, the reading is the left wheel's velocity whatever the right wheel does |
| Differentials.RightWheelIgnored | code/Engine/Differential.cs:19-21 | a left wheel at 10 rad/s and a right wheel at rest read as 10, where the mean is 5 |
| Differentials.GetVelMatchesMeanIffEqual | code/Engine/Differential.cs:17-22 | the reading equals the true mean of both wheels exactly when they turn alike |
| Differentials.Differential.constructor | code/Engine/Differential.cs:9-14 | a new differential has average RPM 0, final drive 2.2 and distribution 1 |
| Differentials.Differential.LinearVelocity | code/Engine/Differential.cs:15-22 | `LinearVelocity` is the left wheel's angular velocity |
| Differentials.Differential.OnFixedUpdate | code/Engine/Differential.cs:23-40 | both wheels get the same motor torque, gearbox torque times distribution times final drive; the lock term reaches neither; the average RPM is the left wheel's velocity in RPM times the final drive; no wheel velocity changes |
| Springs.Spring.constructor | code/Car/Spring.cs:18-27 | a new spring exerts at most 16000 N, is 12 in long when relaxed, and starts in the Normal state with everything else 0 |
| CarWheels.WheelInertiaConvertsOnce | code/Car/WheelAPI.cs:97-100 | for a linear inch-to-metre conversion by k, `CalcInertia` gives 0.5·k·mass·r²: the conversion is applied once to the squared radius |
| CarWheels.InertiaOfTenInchWheel | code/Car/WheelAPI.cs:99 | at 0.0254 m per inch a 20 kg, 10 in wheel gets inertia 25.4 where the disc's is 0.64516 |
| CarWheels.WheelInertiaCorrected | code/Car/WheelAPI.cs:97-100 | corrected: a disc's inertia from the radius converted to metres first, never negative for a non-negative mass, and 0 without mass or radius |
| CarWheels.WheelInertiaCorrectedScales | code/Car/WheelAPI.cs:97-100 | with the corrected rule a linear conversion by k enters squared, 0.5·k²·mass·r² |
| CarWheels.Wheel.constructor | code/Car/WheelAPI.cs:8-113 | a new wheel holds the shared Asphalt preset with Asphalt as its active name, load contribution 0.25, load rating 5400, extension speed 6, and every other value 0 |
| CarWheels.Wheel.Rpm | code/Car/WheelAPI.cs:23-27 | `RPM` has the sign of the angular velocity and divides back to it by 9.55 |
| CarWheels.Wheel.SetRadius | code/Car/WheelAPI.cs:65-75 | the radius is stored, the mass kept, and the inertia is what `CalcInertia` gives for them |
| CarWheels.Wheel.SetMass | code/Car/WheelAPI.cs:78-88 | the mass is stored, the radius kept, and the inertia is what `CalcInertia` gives for them |
| CarWheels.Wheel.SetWidth | code/Car/WheelAPI.cs:90-92 | the width is stored and the inertia is left alone |
| CarWheels.Wheel.ApplyMotorTorque | code/Car/Wheel.cs:49-52 | the torque for the next force step is the value given |
| CarWheels.Wheel.SetActivePresetEnum | code/Car/WheelAPI.cs:44-54 | the name is recorded and the four parameters of the named preset are copied into the preset object the wheel holds; every table entry that is that object sees the new parameters |
| CarWheels.ChoosingIceRewritesSharedAsphalt | code/Car/WheelAPI.cs:51 | since a new wheel holds the shared Asphalt object, choosing Ice rewrites the table's Asphalt entry to Ice's parameters (also lines 54) |
| Dampers.GuardsGiveZero | code/Vehicle/Damper.cs:97 | the bump force is 0 in rebound and the rebound force is 0 in bump (also lines 120) |
| Dampers.BumpForcePiecewiseLinear | code/Vehicle/Damper.cs:95-110 | the bump force has slope SlowBump·BumpRate below the division velocity and FastBump·BumpRate beyond it, and the two pieces meet there |
| Dampers.ReboundMirrorsBump | code/Vehicle/Damper.cs:95-133 | the rebound force is the negated bump force, at the negated velocity, of the settings with rebound values in place of bump values |
| Dampers.DamperForceAtRest | code/Vehicle/Damper.cs:118-133 | with a non-negative rebound division velocity the damper exerts no force at rest (also lines 77-87) |
| Dampers.TwoSlopeNonNegative | code/Vehicle/Damper.cs:99-109 | the two-slope curve is never negative for a non-negative velocity and settings (also lines 122-132) |
| Dampers.TwoSlopeMonotone | code/Vehicle/Damper.cs:99-109 | the two-slope curve never decreases as the velocity grows, for non-negative settings (also lines 122-132) |
| Dampers.DamperForceSignAndMonotone | code/Vehicle/Damper.cs:77-133 | with non-negative settings the damper force has the sign of the velocity and never decreases as the velocity grows |
| Dampers.ForceSign | code/Vehicle/Damper.cs:77-133 | with non-negative settings bump forces are never negative and rebound forces never positive |
| Dampers.Damper.constructor | code/Vehicle/Damper.cs:19-69 | a new damper has the default settings (rates 3000, slopes 1.4/0.6 and 1.6/0.6, division velocities 0.06 and 0.05) and no force |
| WheelControllers.ContactSine | code/Vehicle/WheelController.cs:173-175 | the sine fed to `Asin` is always in [-1, 1], and is the plain ratio when that already is |
| WheelControllers.PlacedZ | code/Vehicle/WheelController.cs:169-187 | grounded, the wheel sits at the higher of its resting and free-drop heights, one of the two; airborne, it drops by step length times travel times the extension coefficient |
| WheelControllers.ClampedLengthInTravel | code/Vehicle/WheelController.cs:189-204 | the clamped length lies in [0, MaxLength]; BottomedOut exactly at 0, OverExtended exactly at MaxLength, and a Normal spring keeps its raw length strictly inside |
| WheelControllers.CompressionIsFraction | code/Vehicle/WheelController.cs:207 | the compression of a spring within its travel is in [0, 1]: 1 when fully compressed, 0 when fully extended |
| WheelControllers.WheelController.constructor | code/Vehicle/WheelController.cs:64-74 | a new controller is not grounded, has no load, extension coefficient 6 and the step length it was created with |
| WheelControllers.WheelController.PlaceWheel | code/Vehicle/WheelController.cs:168-187 | the previous length is remembered and only the wheel's height changes, to the placed height |
| WheelControllers.WheelController.ClampSpring | code/Vehicle/WheelController.cs:189-204 | the length and state are the clamped length and extension state of the wheel's height, and over-extension, only, lifts the wheel off the ground |
| WheelControllers.WheelController.UpdateForces | code/Vehicle/WheelController.cs:206-225 | compression velocity and compression as in the source; spring and damper forces only on the ground; the load is never negative, 0 in the air, and the suspension force is the normal times load over the step |
| WheelControllers.WheelController.SettledInTravel | code/Vehicle/WheelController.cs:189-225 | after any update the length lies in [0, MaxLength], BottomedOut and OverExtended hold exactly at the two ends, compression is in [0, 1], over-extension means airborne, and the load is non-negative and 0 off the ground with no spring or damper force |
| WheelControllers.WheelController.UpdateSpringAndDamper | code/Vehicle/WheelController.cs:165-226 | the whole step, as `Settled` from the old grounding, position and length: the spring length ends in [0, MaxLength] with its matching state, compression in [0, 1], grounded only if not over-extended, and a non-negative load that is 0 off the ground |
| WheelControllers.WheelController.Step | code/Vehicle/WheelController.cs:117-143 | a disabled wheel changes nothing; otherwise the step length is read, a hit replaces the contact point and normal, the wheel is grounded exactly when the cast hit and the spring is not over-extended, the suspension is `Settled` from the cast's grounding (placed height, clamped length and state, compression velocity, spring and damper forces, load and contact force), and without a hit the load is 0 (also lines 237-246) |
| WheelControllers.WheelController.OnFixedUpdate | code/Vehicle/WheelController.cs:247-253 | nothing when `AutoSimulate` is off or the wheel is disabled; otherwise the step reads the step length, takes the cast's contact, and leaves the suspension `Settled` from the cast's grounding with a non-negative load |
| VehicleWheels.RadiusSetterMissesInertia | code/Vehicle/Wheel.cs:75-83 | as written, a 1 kg wheel going from radius 1 to 2 stores inertia 1 where the disc has 2 |
| VehicleWheels.WidthSetterMissesInertia | code/Vehicle/Wheel.cs:90-98 | as written, setting the width of a 20 kg wheel of radius 1 to 0.3 stores inertia 0.15 where the disc has 10 |
| VehicleWheels.Wheel.constructor | code/Vehicle/Wheel.cs:9-144 | a new wheel has every value 0, so its inertia is current |
| VehicleWheels.Wheel.Rpm | code/Vehicle/Wheel.cs:26-30 | `RPM` has the sign of the angular velocity and divides back to it by 9.5493 |
| VehicleWheels.Wheel.SetMass | code/Vehicle/Wheel.cs:59-68 | the mass is stored, the radius kept, and the inertia is the disc inertia of the two |
| VehicleWheels.Wheel.SetRadius | code/Vehicle/Wheel.cs:75-83 | as written: the radius is stored, the mass kept, and the inertia is half the new radius times the old radius squared |
| VehicleWheels.Wheel.SetWidth | code/Vehicle/Wheel.cs:90-98 | as written: the width is stored, mass and radius kept, and the inertia is half the width times the radius squared |
| VehicleWheels.Wheel.UpdateProperties | code/Vehicle/Wheel.cs:146-149 | the inertia becomes the disc inertia of mass and radius, so a second call changes nothing |
| VehicleWheels.Wheel.SetRadiusCorrected | code/Vehicle/Wheel.cs:75-83 | corrected: the radius is stored, the mass kept, and the inertia stays the disc inertia |
| VehicleWheels.Wheel.SetWidthCorrected | code/Vehicle/Wheel.cs:90-98 | corrected: the width is stored and a current inertia stays current |
| WheelApis.NormalizedSlip | code/Vehicle/WheelAPI.cs:77-85 | the normalised slip is the absolute slip capped at 1, so it lies in [0, 1] (also lines 98-106) |
| WheelApis.NormalizedSlipIsEven | code/Vehicle/WheelAPI.cs:81-83 | the normalised slip ignores the direction of the slip (also lines 102-104) |
| WheelApis.SkiddingIffSlipAboveThreshold | code/Vehicle/WheelAPI.cs:71-74 | a wheel skids exactly when its slip is more than 0.35 in either direction (also lines 92-95) |
| WheelApis.NeverSkids | code/Vehicle/WheelAPI.cs:24 | the slips are get-only and never assigned, so they read 0 and no wheel reports a skid (also lines 68, 89) |
| Registries.RemoveFirstCutsAtIndex | code/Car/WheelManager.cs:44 | `List.Remove(x)` cuts the list at the first occurrence of `x`, keeping every other element in order; an absent `x` leaves the list as it is |
| Registries.RemoveFirstFromDistinct | code/Car/WheelManager.cs:40-47 | removing from a list without duplicates leaves no `x`, no duplicates, one element fewer when `x` was present, and every other element present exactly as before |
| Registries.AppendThenRemove | code/Car/WheelManager.cs:30-47 | registering an absent wheel and unregistering it again gives back the list |
| Registries.SumConcat | code/Car/WheelManager.cs:22-27 | the loop's running sum adds up over concatenated lists |
| Registries.SumWithout | code/Car/WheelManager.cs:22-27 | taking an element out of the list takes its value out of the sum (also lines 44) |
| WheelManagers.LoadsWithout | code/Car/WheelManager.cs:44 | the loads follow the list when one wheel is cut out |
| WheelManagers.WheelManager.constructor | code/Car/WheelManager.cs:8-12 | an empty list, count 0 and combined load 0 |
| WheelManagers.WheelManager.OnStart | code/Car/WheelManager.cs:14-18 | the discovered wheels become the list and the count its length |
| WheelManagers.WheelManager.OnFixedUpdate | code/Car/WheelManager.cs:20-28 | the combined load is the sum of the loads of the first `count` wheels (none for a negative count), which is the sum over the whole list while the count matches it |
| WheelManagers.WheelManager.Register | code/Car/WheelManager.cs:30-37 | the wheel is listed afterwards; an absent one is appended and counted, a listed one changes nothing; count equal to length and no duplicates are preserved |
| WheelManagers.WheelManager.UnRegister | code/Car/WheelManager.cs:40-47 | the list loses its first occurrence of the wheel and the count drops by one exactly when it was listed, taking the wheel's load out of the list's total; afterwards the wheel is not listed and the registry stays consistent |
| WheelControllerManagers.LoadsWithout | code/Vehicle/WheelControllerManager.cs:44 | the loads follow the list when one wheel is cut out |
| WheelControllerManagers.WheelControllerManager.constructor | code/Vehicle/WheelControllerManager.cs:11-14 | an empty list, count 0 and combined load 0 |
| WheelControllerManagers.WheelControllerManager.UpdateCombinedLoad | code/Vehicle/WheelControllerManager.cs:21-29 | the combined load is the sum of the loads of the first `count` wheels (none for a negative count), which is the sum over the whole list while the count matches it |
| WheelControllerManagers.WheelControllerManager.OnFixedUpdate | code/Vehicle/WheelControllerManager.cs:16-19 | the combined load is refreshed as `UpdateCombinedLoad` computes it |
| WheelControllerManagers.WheelControllerManager.Register | code/Vehicle/WheelControllerManager.cs:31-38 | the wheel is listed afterwards; an absent one is appended and counted, a listed one changes nothing; count equal to length and no duplicates are preserved |
| WheelControllerManagers.WheelControllerManager.Deregister | code/Vehicle/WheelControllerManager.cs:40-47 | the list loses its first occurrence of the wheel and the count drops by one exactly when it was listed, taking the wheel's load out of the list's total; afterwards the wheel is not listed and the registry stays consistent |
| FrictionInfos.Evaluate | code/Ground/FrictionInfo.cs:14-27 | the friction value is always in [0, float.MaxValue] |
| FrictionInfos.Scaled | code/Ground/FrictionInfo.cs:17-26 | at a non-negative slip, the raw value times the stiffness, clamped, so always in [0, float.MaxValue] |
| FrictionInfos.EvaluateIsEven | code/Ground/FrictionInfo.cs:16 | the sign of the slip does not matter |
| FrictionInfos.RisesLinearlyToExtremum | code/Ground/FrictionInfo.cs:17-20 | up to the extremum slip the raw value lies on the line from (0, 0) to the extremum: 0 at rest and the extremum value at the extremum |
| FrictionInfos.FollowsLineBeyondExtremum | code/Ground/FrictionInfo.cs:21-24 | beyond the extremum the raw value lies on the line through the extremum and the asymptote, reaches the asymptote value there, and does not stay at it past the asymptote |
| FrictionInfos.DefaultCurve | code/Ground/FrictionInfo.cs:14-27 | with the defaults: 0 at rest, 20000 at slip 1, 10000 at slip ±2, and 0 at slip 3.5, where the line has gone negative (also lines 3-7) |
| WheelFrictionCurves.HermiteEnds | code/Ground/WheelFrictionCurve.cs:172-182 | each Hermite segment starts at its first point and ends at its second |
| WheelFrictionCurves.TableEnds | code/Ground/WheelFrictionCurve.cs:95-117 | the extremum table starts at the origin, the asymptote table at the extremum, and entry i has parameter i/50 |
| WheelFrictionCurves.Search | code/Ground/WheelFrictionCurve.cs:141-160 | the binary search ends on two neighbouring samples inside the starting bracket, the lower at or below the slip (unless it is the start) and the upper above it (unless it is the end) |
| WheelFrictionCurves.SearchBrackets | code/Ground/WheelFrictionCurve.cs:141-160 | a slip between the first and last sample ends between two neighbouring samples that bracket it, whatever the table holds |
| WheelFrictionCurves.Interpolate | code/Ground/WheelFrictionCurve.cs:162-169 | the interpolation gives the lower sample's force at its slip and the upper sample's force at its slip |
| WheelFrictionCurves.EvaluateCurveProperties | code/Ground/WheelFrictionCurve.cs:120-137 | the curve ignores the sign of the slip, is proportional to the stiffness, and is the asymptote value times the stiffness from the asymptote on |
| WheelFrictionCurves.WheelFrictionCurve.constructor | code/Ground/WheelFrictionCurve.cs:80-93 | a new curve has extremum (0.4, 1), asymptote (0.8, 0.5), stiffness 1 and two separate freshly generated 50-entry tables |
| WheelFrictionCurves.WheelFrictionCurve.UpdateArrays | code/Ground/WheelFrictionCurve.cs:95-118 | both tables hold exactly the Hermite samples of the current settings |
| WheelFrictionCurves.WheelFrictionCurve.SetExtremumSlip | code/Ground/WheelFrictionCurve.cs:20-31 | the value is stored and both tables are regenerated |
| WheelFrictionCurves.WheelFrictionCurve.SetExtremumValue | code/Ground/WheelFrictionCurve.cs:32-43 | the value is stored and both tables are regenerated |
| WheelFrictionCurves.WheelFrictionCurve.SetAsymptoteSlip | code/Ground/WheelFrictionCurve.cs:44-55 | the value is stored and both tables are regenerated |
| WheelFrictionCurves.WheelFrictionCurve.SetAsymptoteValue | code/Ground/WheelFrictionCurve.cs:56-67 | the value is stored and both tables are regenerated |
| WheelFrictionCurves.WheelFrictionCurve.SetStiffness | code/Ground/WheelFrictionCurve.cs:68-78 | the value is stored and the tables, which do not depend on it, stay current |
| WheelFrictionCurves.WheelFrictionCurve.EvaluateIn | code/Ground/WheelFrictionCurve.cs:139-170 | the loop's search settles on the same samples as the search specification, and the result is the interpolation between them |
| WheelFrictionCurves.WheelFrictionCurve.Evaluate | code/Ground/WheelFrictionCurve.cs:120-137 | the result is the curve specification at the slip: a table lookup below the extremum or asymptote slip, the flat asymptote value beyond, scaled by the stiffness |
| MagicFormula.FrictionValueIsEven | code/Ground/FrictionPreset.cs:99-107 | the friction value ignores the sign of the slip (also code/Ground/PacejkaCurve.cs:96-104) |
| MagicFormula.FrictionValueZeroAtRest | code/Ground/FrictionPreset.cs:99-107 | at slip 0 the friction value is 0 when the host's sine and arc tangent vanish at 0 |
| MagicFormula.GridShape | code/Ground/FrictionPreset.cs:76-92 | the key grid starts at 0, has its twelfth key at 0.22 and its last at 1.02, rises strictly, and steps by 0.02 after keys 0 to 10 and by 0.1 after the rest (also code/Ground/PacejkaCurve.cs:73-89) |
| MagicFormula.BuildCurve | code/Ground/FrictionPreset.cs:74-93 | the loop builds 20 keys, key i at the grid slip with the friction value there (also code/Ground/PacejkaCurve.cs:71-90) |
| MagicFormula.PeakSlipIsFirstMaximum | code/Ground/FrictionPreset.cs:52-68 | the peak slip is -1 exactly when no sample at 0, 0.01, ..., 0.99 is positive; otherwise it is the slip of the first sample of greatest value (also code/Ground/PacejkaCurve.cs:49-65) |
| MagicFormula.ScanPeakSlip | code/Ground/FrictionPreset.cs:52-68 | the running-maximum loop returns exactly the peak slip of the samples (also code/Ground/PacejkaCurve.cs:49-65) |
| FrictionPresets.PresetShapesDistinct | code/Ground/FrictionPreset.cs:109-134 | the eleven presets of the table have pairwise different parameters |
| FrictionPresets.FrictionPreset.Default | code/Ground/FrictionPreset.cs:10-13 | the parameterless preset has the default parameters (12.5, 2.05, 0.925, 0.97) and a current curve and peak slip (also lines 24-27) |
| FrictionPresets.FrictionPreset.constructor | code/Ground/FrictionPreset.cs:15-22 | the four-parameter preset holds exactly those parameters, with a current curve and peak slip |
| FrictionPresets.FrictionPreset.UpdateFrictionCurve | code/Ground/FrictionPreset.cs:74-96 | afterwards the curve and peak slip are the ones the parameters generate |
| FrictionPresets.FrictionPreset.SetStiffness | code/Ground/FrictionPreset.cs:31 | only B changes, and the curve and peak slip are regenerated |
| FrictionPresets.FrictionPreset.SetShapeFactor | code/Ground/FrictionPreset.cs:34 | only C changes, and the curve and peak slip are regenerated |
| FrictionPresets.FrictionPreset.SetPeakValue | code/Ground/FrictionPreset.cs:37 | only D changes, and the curve and peak slip are regenerated |
| FrictionPresets.FrictionPreset.SetCurvatureFactor | code/Ground/FrictionPreset.cs:40 | only E changes, and the curve and peak slip are regenerated |
| FrictionPresets.FrictionPreset.To | code/Ground/FrictionPreset.cs:151-158 | the preset takes over the other preset's four parameters, as they were before the call even when it is itself, and regenerates |
| PacejkaCurves.PresetTable | code/Ground/PacejkaCurve.cs:106-134 | Grass and Dirt are the only two names with equal parameters, and no name reaches the Street parameters |
| PacejkaCurves.PacejkaCurve.Default | code/Ground/PacejkaCurve.cs:7-10 | the parameterless curve has the default parameters and a current curve and peak slip (also lines 21-24) |
| PacejkaCurves.PacejkaCurve.constructor | code/Ground/PacejkaCurve.cs:12-19 | the four-parameter curve holds exactly those parameters, with a current curve and peak slip |
| PacejkaCurves.PacejkaCurve.UpdateFrictionCurve | code/Ground/PacejkaCurve.cs:71-93 | afterwards the curve and peak slip are the ones the parameters generate |
| PacejkaCurves.PacejkaCurve.EvaluateIsEven | code/Ground/PacejkaCurve.cs:66 | `Evaluate` gives the same value at a time and its negation |
| PacejkaCurves.PacejkaCurve.SetStiffness | code/Ground/PacejkaCurve.cs:28 | only B changes, and the curve and peak slip are regenerated |
| PacejkaCurves.PacejkaCurve.SetShapeFactor | code/Ground/PacejkaCurve.cs:31 | only C changes, and the curve and peak slip are regenerated |
| PacejkaCurves.PacejkaCurve.SetPeakValue | code/Ground/PacejkaCurve.cs:34 | only D changes, and the curve and peak slip are regenerated |
| PacejkaCurves.PacejkaCurve.SetCurvatureFactor | code/Ground/PacejkaCurve.cs:37 | only E changes, and the curve and peak slip are regenerated |
| PacejkaCurves.PacejkaCurve.Apply | code/Ground/PacejkaCurve.cs:152-159 | the curve takes over the other curve's four parameters and regenerates |
| GroundHits.EarliestMinUnique | code/Ground/MultiRayCastGroundDetection.cs:74-78 | the strict-`<` scan's choice is determined: at most one trace is the earliest nearest hit (also code/Ground/StandartGroundDetection.cs:197-201) |
| GroundHits.LatestMinUnique | code/Ground/RayCastGroundDetection.cs:38-43 | the `<=` scan's choice is determined: at most one trace is the latest nearest hit |
| GroundHits.SelectedIsMinimal | code/Ground/RayCastGroundDetection.cs:38-43 | the chosen trace's key is no larger than the key of any hit (also code/Ground/MultiRayCastGroundDetection.cs:74-78; code/Ground/StandartGroundDetection.cs:197-201) |
| GroundHits.EarliestStep | code/Ground/StandartGroundDetection.cs:173-206 | one turn of the strict scan: the new trace takes over exactly when it hits below the best so far, and otherwise the choice over one more trace is unchanged (also code/Ground/MultiRayCastGroundDetection.cs:59-82) |
| GroundHits.LatestStep | code/Ground/RayCastGroundDetection.cs:28-45 | one turn of the `<=` scan: the new trace takes over exactly when it hits at or below the best so far |
| RayCastGroundDetections.FanIsAsymmetric | code/Ground/RayCastGroundDetection.cs:28-31 | the 20 rays are 7 degrees apart, from 70 down to -63 degrees (also lines 8) |
| RayCastGroundDetections.RayCastGroundDetection.constructor | code/Ground/RayCastGroundDetection.cs:7 | a new detector's kept hit has `Hit` false |
| RayCastGroundDetections.RayCastGroundDetection.GetNearestHit | code/Ground/RayCastGroundDetection.cs:10-47 | a hit result is the ray with the smallest squared hit distance, the last among equals; with no hit the previous nearest hit comes back with `Hit` cleared |
| RayCastGroundDetections.RayCastGroundDetection.Cast | code/Ground/RayCastGroundDetection.cs:49-52 | the result hits exactly when some ray hit, and is then the nearest ray's trace, the last among equals; without a hit it is the previously kept hit with `Hit` cleared; either way it is the `_nearestHit` kept afterwards |
| MultiRayCastGroundDetections.CastsSweepHalfTurn | code/Ground/MultiRayCastGroundDetection.cs:45-48 | the 21 casts are 9 degrees apart and sweep 180 degrees |
| MultiRayCastGroundDetections.CastReach | code/Ground/MultiRayCastGroundDetection.cs:32-36 | the casts reach 2.2 radii plus the suspension travel below the wheel whatever the offset, and start higher (1.1 against 0.1 radii) with a suspension |
| MultiRayCastGroundDetections.MultiRayCastGroundDetection.constructor | code/Ground/MultiRayCastGroundDetection.cs:7-9 | a new detector's kept hit has `Hit` false |
| MultiRayCastGroundDetections.MultiRayCastGroundDetection.GetGroundHit | code/Ground/MultiRayCastGroundDetection.cs:22-89 | a hit result is the cast that puts the wheel centre highest, the first among equals; with no hit below 1e10 the previous hit comes back with `Hit` cleared |
| StandardGroundDetections.RoundHalfEvenIsNearest | code/Ground/StandartGroundDetection.cs:159 | `Math.Round` gives an integer within a half of its argument, and the even one on a tie |
| StandardGroundDetections.StepCountIsOdd | code/Ground/StandartGroundDetection.cs:159-160 | the number of casts is odd, so one sits in the centre, and is the rounded ratio or one more |
| StandardGroundDetections.FanSweepsHalfTurn | code/Ground/StandartGroundDetection.cs:163 | with three or more casts the step angle is positive and the fan sweeps 180 degrees |
| StandardGroundDetections.ResultsStep | code/Ground/StandartGroundDetection.cs:181-195 | one more cast appends its hit, if it hit, to the recorded hits |
| StandardGroundDetections.ResultsAreTheHits | code/Ground/StandartGroundDetection.cs:180-195 | every recorded hit comes from a cast that hit, at that cast's hit position, and every cast that hit is recorded |
| StandardGroundDetections.ValidIffBelow | code/Ground/StandartGroundDetection.cs:197-213 | after the scan the nearest fraction is below 1e9 exactly when some hit's fraction is |
| StandardGroundDetections.InsideWheelIffWithinBox | code/Ground/StandartGroundDetection.cs:219-232 | a point is inside the wheel exactly when its sideways offset is within half the width and its `y` offset within the radius, in size |
| StandardGroundDetections.StandardGroundDetection.constructor | code/Ground/StandartGroundDetection.cs:15-16 | a new detector has no recorded casts or hits (also lines 56-57) |
| StandardGroundDetections.StandardGroundDetection.FireCast | code/Ground/StandartGroundDetection.cs:173-203 | the cast is recorded, its hit is recorded if it hit, and it becomes the nearest exactly when its fraction beats the best so far |
| StandardGroundDetections.StandardGroundDetection.FireCasts | code/Ground/StandartGroundDetection.cs:152-206 | all casts and all hits are recorded in order, and the nearest is the hit with the smallest fraction, the first among equals |
| StandardGroundDetections.StandardGroundDetection.WheelCastMultiSphere | code/Ground/StandartGroundDetection.cs:150-216 | the cast succeeds exactly when some hit's fraction is below 1e9, and then the result is the nearest hit with its fraction as distance; otherwise the result is unchanged |
| StandardGroundDetections.StandardGroundDetection.Cast | code/Ground/StandartGroundDetection.cs:59-88 | the recorded casts and hits are exactly this call's, in cast order; valid exactly when some hit is below 1e9, and then the result is the smallest-fraction cast (the first among equals) with its fraction as distance, and the wheel hit takes that cast's point, normal and collider; otherwise the wheel hit and the result are unchanged |
| WheelColliders.SlipFollowsComponent | code/Car/WheelCollider.cs:108-111 | the slip has the sign of the velocity's component along the direction, and times the padded speed gives that component back |
| WheelColliders.FrictionOpposesSlip | code/Car/WheelCollider.cs:113-116 | the friction force points against the slip, has the curve's size at the slip, and vanishes at zero slip |
| WheelColliders.DecayShrinksSpin | code/Car/WheelCollider.cs:74-79 | an airborne step keeps the direction of spin and strictly slows a spinning wheel |
| WheelColliders.WheelCollider.constructor | code/Car/WheelCollider.cs:24-28 | the property and field defaults: stiffness 3000, damping 140, width 6, max length 8, radius 14, min length 0, both stiffness factors 1, no spin, slip or torque (also lines 11-14, 19-20, 34-36) |
| WheelColliders.WheelCollider.Rpm | code/Car/WheelCollider.cs:27 | RPM is never negative, is 0 exactly for a still wheel, and is six times the spin's magnitude |
| WheelColliders.WheelCollider.UpdateTotalSuspensionLength | code/Car/WheelCollider.cs:38-47 | the total length is current: max length plus radius less min length |
| WheelColliders.WheelCollider.SetMinSuspensionLength | code/Car/WheelCollider.cs:44-47 | the value is stored and the total length is kept current (also lines 9) |
| WheelColliders.WheelCollider.SetMaxSuspensionLength | code/Car/WheelCollider.cs:44-47 | the value is stored and the total length is kept current (also lines 10) |
| WheelColliders.WheelCollider.SetWheelRadius | code/Car/WheelCollider.cs:44-47 | the value is stored and the total length is kept current (also lines 13) |
| WheelColliders.WheelCollider.UpdateStiffness | code/Car/WheelCollider.cs:139-143 | both stiffness factors take the given values |
| WheelColliders.WheelCollider.DoTrace | code/Car/WheelCollider.cs:145-161 | the wheel is grounded exactly when the trace hit within the wheel radius, and the distance is the trace's capped at the radius |
| WheelColliders.WheelCollider.SuspensionForce | code/Car/WheelCollider.cs:122-136 | no force while airborne; grounded, the force is minus damping times the normal velocity minus stiffness times (hit distance − total suspension length), which at rest along the normal is the spring term alone |
| WheelColliders.WheelCollider.UpdateWheelForces | code/Car/WheelCollider.cs:61-107 | airborne, the spin decays and the slips stay; grounded, the slips are the scaled contact components and the spin is the forward component times tau over the radius |
| WheelColliders.WheelCollider.OnFixedUpdate | code/Car/WheelCollider.cs:48-60 | without a rigid body the contact, spin and slips keep their values; otherwise the trace runs (grounded iff the hit is within the radius, distance capped at it), a proxy stops there with spin and slips kept, an airborne wheel's spin decays with the slips kept, and a grounded wheel takes the slips and spin `UpdateWheelForces` gives |
| CarInputs.Reset | code/Car/CarInputStates.cs:49-61 | `Reset` puts every state but the brakes at rest (axes 0, flags false, `ShiftInto` -999) and keeps the brakes |
| CarInputs.ResetFixesExactlyTheRestStates | code/Car/CarInputStates.cs:49-61 | `Reset` leaves a state as it is exactly when it is already at rest, and resetting twice is resetting once |
| CarInputs.ResetForgetsAllButBrakes | code/Car/CarInputStates.cs:49-61 | two states with the same brakes reset to the same state: nothing but the brakes survives a reset |
| CarInputs.ResetKeepsRanges | code/Car/CarInputStates.cs:11-32 | a reset state with its brakes in range has every axis in its declared range (also lines 49-61) |
| CarInputs.ClearShiftFlags | code/Car/CarInputHandler.cs:191-196 | both shift flags are cleared and `ShiftInto` is -999; every other state is kept |
| CarInputs.ResetSubsumesShiftReset | code/Car/CarInputHandler.cs:191-196 | clearing the shift flags before or after a reset changes nothing, and clearing twice is clearing once |
| CarInputs.VerticalThrottle | code/Car/CarInputHandler.cs:35-46 | the throttle the `Vertical` setter stores is in [0, 1]: the value capped at 1 when positive, 0 otherwise |
| CarInputs.VerticalNeverBrakes | code/Car/CarInputHandler.cs:35-46 | as written the setter always stores brakes 0, so a negative value reads back as 0 instead of itself |
| CarInputs.VerticalCorrectedRoundTrip | code/Car/CarInputHandler.cs:25-48 | with brakes `Clamp(-value, 0, 1)` the brakes are in [0, 1], throttle minus brakes reads back the value clamped to [-1, 1], and at most one of the two is non-zero |
| CarInputs.PolledStates | code/Car/CarInputHandler.cs:179-188 | after polling, every axis is in range; the handbrake is 1 exactly when its button is down; the clutch is 1 when the clutch or handbrake button is down; the shift flags latch presses; the other flags and `ShiftInto` are kept |
| CarInputs.StickSplitsIntoAxes | code/Car/CarInputHandler.cs:179-180 | with both triggers released and the stick pushed forward, the throttle is the stick capped at 1 and the brakes are 0 |
| CarInputs.CarInputHandler.constructor | code/Car/CarInputHandler.cs:12-23 | swapping in reverse and auto input are on and every state starts at 0 (also lines 84, 96) |
| CarInputs.CarInputHandler.SetVertical | code/Car/CarInputHandler.cs:30-48 | the setter as written: only throttle and brakes change, and the getter then reads `Clamp(value, 0, 1)`, losing every negative value |
| CarInputs.CarInputHandler.SetVerticalCorrected | code/Car/CarInputHandler.cs:25-48 | the setter as documented: the getter then reads the value clamped to [-1, 1], and the axes stay in range |
| CarInputs.CarInputHandler.SetThrottle | code/Car/CarInputHandler.cs:54-61 | only the throttle changes; it is in [0, 1] and equals the value when that is already in range |
| CarInputs.CarInputHandler.SetBrakes | code/Car/CarInputHandler.cs:67-74 | only the brakes change; they are in [0, 1] and equal the value when that is already in range |
| CarInputs.CarInputHandler.SetSteering | code/Car/CarInputHandler.cs:103-110 | only the steering changes; it is in [-1, 1] and equals the value when that is already in range |
| CarInputs.CarInputHandler.SetClutch | code/Car/CarInputHandler.cs:114-121 | only the clutch changes; it is in [0, 1] and equals the value when that is already in range |
| CarInputs.CarInputHandler.SetHandbrake | code/Car/CarInputHandler.cs:129-136 | only the handbrake changes; it is in [0, 1] and equals the value when that is already in range |
| CarInputs.CarInputHandler.CalculateInputSwappedValues | code/Car/CarInputHandler.cs:197-202 | in a reverse gear with swapping on, throttle and brakes are exchanged, otherwise copied; either way the pair is the two axes in some order and stays in [0, 1] (also lines 165-168) |
| CarInputs.CarInputHandler.Update | code/Car/CarInputHandler.cs:171-190 | with auto input off the states are kept; with it on they become the polled states; either way the swapped pair is recomputed for the gear |
| CarInputs.CarInputHandler.ResetShiftFlags | code/Car/CarInputHandler.cs:191-196 | the states become `ClearShiftFlags` of the old states, and the axes stay in range |
| CarControllers.ControlledWheel.constructor | code/Car/CarController.cs:83-101 | a wheel as the controller sees it starts with no brake torque, no steering, the given preset, not grounded and no slip (also lines 128-129) |
| CarControllers.Direction | code/Car/CarController.cs:45 | the direction is 0 exactly below 1 m/s, 1 exactly when the velocity is within 90 degrees of the heading (strictly), -1 exactly otherwise |
| CarControllers.DirectionIsSymmetric | code/Car/CarController.cs:45 | sliding left or right by the same angle gives the same direction |
| CarControllers.SteerMultiplier | code/Car/CarController.cs:112-113 | the steering factor always lies between the minimum and maximum multipliers |
| CarControllers.SteerMultiplierFallsWithSpeed | code/Car/CarController.cs:34-36 | for a positive speed bound the factor never grows with speed, and at or beyond the bound it is the minimum multiplier (when that is non-negative) (also lines 112-113) |
| CarControllers.HelpWhenFastAndForward | code/Car/CarController.cs:117 | the drift help is on exactly above 20 m/s with the velocity within 90 degrees of the heading |
| CarControllers.FrontWheelAngle | code/Car/CarController.cs:124-125 | the front wheel angle is within the steering range widened by 10 degrees each way, and equals help plus steering whenever that sum is already inside it |
| CarControllers.AbsFactor | code/Powertrain/Modules/ABSModule.cs:27-57 | the ABS factor multiplying a wheel's brake torque is 1 or 0.01 (also code/Car/CarController.cs:95-96) |
| CarControllers.BrakeTorqueBounds | code/Car/CarController.cs:92-101 | with brake and handbrake inputs in [0, 1] and a non-negative maximum, a wheel listed at most once as powered ends both loops with a brake torque between 0 and three times the maximum |
| CarControllers.CarController.constructor | code/Car/CarController.cs:29-39 | the property defaults: steering multiplier enabled, speed bound 100, multipliers 0.05 and 1, the Asphalt preset, and zero speed and angles |
| CarControllers.CarController.PoweredReadings | code/Powertrain/Modules/ABSModule.cs:40-48 | the ABS reads one entry per powered wheel |
| CarControllers.CarController.UpdateWheelsFriction | code/Car/CarController.cs:81-87 | every wheel gets the controller's preset object itself, and nothing else of any wheel changes |
| CarControllers.CarController.SetFrictionPresetEnum | code/Car/CarController.cs:75-80 | the enum is stored, the controller's preset becomes the table's object for it, and so does every wheel's; nothing else of any wheel changes (also lines 37) |
| CarControllers.CarController.ResetBrakes | code/Car/CarController.cs:92-98 | every wheel's brake torque becomes the swapped brake input times the maximum, times the ABS factor when there is an ABS, which is 0.01 exactly when the ABS engages on the powered wheels' readings; the ABS settings and the wheels' other fields are kept; a disabled ABS keeps its active flag, an enabled one (with at least one wheel asked) ends up active exactly when the factor is 0.01 |
| CarControllers.CarController.AddToWheel | code/Car/CarController.cs:101 | one wheel's brake torque grows by the given amount; no other wheel and no other field changes |
| CarControllers.CarController.AddHandbrake | code/Car/CarController.cs:100-101 | each wheel's brake torque grows by handbrake times twice the maximum once per listing in the powered-wheel list (`HandbrakeShare`), so an unlisted wheel is left alone and a wheel listed twice gets it twice |
| CarControllers.Listings | code/Car/CarController.cs:100-101 | the number of times a wheel is listed as powered is 0 exactly when it is not listed |
| CarControllers.ShareCounts | code/Car/CarController.cs:100-101 | adding the handbrake torque once per listing sums to the number of listings times that torque |
| CarControllers.SharesAreHandbrakeShares | code/Car/CarController.cs:100-101 | for every wheel, the loop's total over all listings equals its handbrake share |
| CarControllers.ShareStep | code/Car/CarController.cs:100-101 | one more loop iteration adds the torque to the wheel it names and to no other |
| CarControllers.ListedOnce | code/Car/CarController.cs:100-101 | when no wheel is listed twice, a wheel is listed once exactly when it is powered and never otherwise, so it gets the handbrake torque once or not at all |
| CarControllers.CarController.UpdateSteerAngle | code/Car/CarController.cs:108-131 | the steering eases by `lerp` towards input times maximum angle (times the speed factor when enabled); the velocity angle is stored; both front wheels get the same angle, help plus steering clamped to the widened range, with help decided on the previous velocity angle; nothing else of the wheels changes |
| CarControllers.CarController.OnFixedUpdate | code/Car/CarController.cs:88-104 | the speed is stored; each wheel's brake torque is the ABS-scaled brake share plus the handbrake share once per listing as a powered wheel; then the steering eases towards its speed-dependent target, the velocity angle is stored, and both front wheels take the same clamped angle (drift help decided on the previous velocity angle and the new speed) within the widened range; friction presets, the rear wheels' angles and every wheel's ground contact and forward slip are untouched; a disabled ABS keeps its active flag, an enabled one ends up active exactly when the factor is 0.01 (also code/Powertrain/Modules/ABSModule.cs:25-58) |
| ABSModules.ABSModule.constructor | code/Powertrain/Modules/ABSModule.cs:10-21 | a new module is enabled and not active, with speed threshold 1 and slip threshold 0.1 |
| ABSModules.ABSModule.BrakeTorqueModifier | code/Powertrain/Modules/ABSModule.cs:25-58 | the factor is 1 or 0.01; a disabled module answers 1 and leaves `IsActive` alone; an enabled one answers 0.01 exactly when the speed is at the threshold or above, the brakes are on, the rev limiter is off, the handbrake is below 0.1 and some grounded wheel's forward slip times the sign of the travel direction exceeds the threshold; `IsActive` records whether it answered 0.01 |
| ABSModules.AirborneWheelsNeverEngage | code/Powertrain/Modules/ABSModule.cs:40-47 | when no powered wheel is grounded the ABS never engages, whatever the slips |
| ABSModules.NoTravelNoEngage | code/Powertrain/Modules/ABSModule.cs:48-49 | with zero sideways velocity the sign is 0, so a non-negative threshold is never exceeded and the ABS never engages |
| ESCModules.Braked | code/Powertrain/Modules/ESCModule.cs:36-43 | handling the wheel list in order keeps the chain's length and every node's kind, and changes no node that has no grounded entry in the list |
| ESCModules.BrakedAddsEachCorrectionOnce | code/Powertrain/Modules/ESCModule.cs:36-43 | with each wheel listed once, every grounded wheel ends with exactly one `AddBrakeTorque` of `-angle * sign(x) * 50 * intensity` applied to its old brake torque |
| ESCModules.ESCModule.constructor | code/Powertrain/Modules/ESCModule.cs:15-21 | intensity 0.4 and speed threshold 4 |
| ESCModules.ESCModule.BrakeWheels | code/Powertrain/Modules/ESCModule.cs:36-43 | the loop leaves the drivetrain exactly as `Braked` describes: one `AddBrakeTorque` per grounded wheel, in list order |
| ESCModules.ESCModule.OnFixedUpdate | code/Powertrain/Modules/ESCModule.cs:23-44 | below the speed threshold, with the rev limiter on, or with a slip angle (signed angle less half the steering) under 2 in size, nothing changes; otherwise the wheels are braked by that slip angle as `Braked` says |
| StreetManagers.FindSpawnLocation | code/GamePlay/Street/StreetManager.cs:100-107 | with a non-empty spawn list the result is the point at the connection count minus one, and the index fails exactly when that count is 0 or past the list; with no list or an empty one the result is the manager's own transform |
| StreetManagers.SpawnPointsNotShared | code/GamePlay/Street/StreetManager.cs:100-107 | with distinct spawn points, two players joining at different connection counts are placed at different points |
| StreetManagers.StreetManager.constructor | code/GamePlay/Street/StreetManager.cs:18-22 | a new manager is not started, has no handler attached, `MaxLaps` 1 and `Lap` 0 |
| StreetManagers.StreetManager.StartRace | code/GamePlay/Street/StreetManager.cs:133-138 | the current checkpoint becomes the first, one handler is attached to it and the race is started; from an idle manager this is a running race with exactly one handler |
| StreetManagers.StreetManager.SetStarted | code/GamePlay/Street/StreetManager.cs:17 | the `Started` setter stores the value and starts the race when the value is true, and changes nothing else when it is false |
| StreetManagers.StreetManager.Win | code/GamePlay/Street/StreetManager.cs:144-148 | the handler is detached from the current checkpoint and the race stops; a running race becomes idle |
| StreetManagers.StreetManager.MoveToNext | code/GamePlay/Street/StreetManager.cs:161-163 | the handler moves from the current checkpoint to its `Next`; a running race stays running with one handler |
| StreetManagers.StreetManager.OnTriggerEnter | code/GamePlay/Street/StreetManager.cs:150-165 | at the first checkpoint with the last lap counted the race is won and nothing else changes; at the first checkpoint otherwise one lap is counted; in both other cases the handler moves on to the next checkpoint; the lap count never passes `MaxLaps`, and a running race becomes idle only by winning |
| StreetManagers.OneLapRace | code/GamePlay/Street/StreetManager.cs:133-165 | on a three-checkpoint circuit, starting and then passing four triggers counts one lap and wins, leaving the manager idle |
| SkidmarkBuffers.Opacity | code/Car/Skidmarks.cs:16 | scaling the alpha by the full opacity and casting back to a byte keeps the alpha (also lines 103) |
| SkidmarkBuffers.NextSlot | code/Car/Skidmarks.cs:129-137 | the next write slot is in [0, 2048): one back (wrapping from 0 to 2047) when a new mark starts, one on (wrapping from 2047 to 0) otherwise |
| SkidmarkBuffers.Link | code/Car/Skidmarks.cs:84-101 | the new section links to the wheel's last section exactly when there is one and its squared distance is at most ten times the minimum squared distance; otherwise to nothing (-1) |
| SkidmarkBuffers.Added | code/Car/Skidmarks.cs:76-140 | a call keeps the buffer at 2048 sections and the write slot in range, and keeps every link in range or -1 |
| SkidmarkBuffers.CloseCallChangesNothing | code/Car/Skidmarks.cs:84-91 | a position within the minimum distance of the wheel's last section changes nothing and returns the last index |
| SkidmarkBuffers.WrittenSection | code/Car/Skidmarks.cs:97-110 | otherwise the call returns the old write slot; that slot now holds the lifted position, the normal, the colour with its alpha kept and the link; a link is kept exactly when the last section lies within the tenfold squared distance, and then lies between the minimum and tenfold squared distances; the write slot moves back for a new mark and on for a linked one (also lines 83, 129-139) |
| SkidmarkBuffers.OnlyLinkedSectionTouched | code/Car/Skidmarks.cs:105-125 | every slot other than the write slot and the linked one is unchanged; the linked one keeps its position, normal, colour and link, and changes at all only when it starts its own mark |
| SkidmarkBuffers.FirstSectionGetsSides | code/Car/Skidmarks.cs:112-124 | a linked section that starts its own mark takes the new section's tangent and side points, and the tangent's w is 1 |
| SkidmarkBuffers.LinkedWritesAdvance | code/Car/Skidmarks.cs:129-137 | a linked write records the link and moves the write slot off the slot just written, so the next call writes elsewhere (with the mesh vertex list allocated; see Left out) |
| SkidmarkBuffers.Skidmarks.constructor | code/Car/Skidmarks.cs:30-31 | the buffer holds 2048 unlinked sections and writing starts at slot 0 (also lines 11) |
| SkidmarkBuffers.Skidmarks.AddSkidMark | code/Car/Skidmarks.cs:76-140 | the array, the write slot and the returned index after the call are exactly those `Added` gives for the old array and slot, and the buffer stays valid (with the mesh vertex list allocated; see Left out) |

## Left out

- Scene traces, rigid-body forces and impulses, velocities at a point, transforms, rotations and quaternions are host-engine services. They are not modelled. Cast results, contact frames and contact points arrive as parameters: a function from cast index to trace result, or the outcome of one trace.
- The host's numerics are function parameters with no properties assumed, apart from the sign of the rev-limiter velocity that `Engines.Engine.OnFixedUpdate` requires (below). These are sine, arctangent, arcsine, cosine, `Curve.Evaluate`, `MathX.Lerp` and `Remap`, `InchToMeter`, and the RPM and rad/s conversions. The Magic Formula's values therefore stay abstract. Only the sample grid, the peak scan and the preset tables are modelled.
- Floating point: floats are real numbers. Nothing is claimed about rounding, overflow, infinities or NaN.
- MagicFormula.ScanPeakSlip: the peak-slip scans of `PacejkaCurve.GetPeakSlip` and `FrictionPreset.GetPeakSlip` step a float counter by 0.01 while it is below 1 (code/Ground/PacejkaCurve.cs:54, code/Ground/FrictionPreset.cs:57). The model takes the 100 exact samples 0, 0.01, ..., 0.99. In single precision the counter is still just below 1 after 100 steps, so the source takes a 101st sample near 1.0, which the model does not.
  - A division whose divisor can be 0 goes through `Common.Div`, which answers 0 where the float division would give an infinity or NaN.
  - The float loop counters that step by 0.05 or 0.01 are integer-indexed samples at exact decimal positions.
- `Time.Delta` is required to be positive wherever a step divides by it. This holds for the host engine's fixed step, and the source does not check it.
- Coroutines and timers are left out.
  - `StarterCoroutine` is modelled only up to its first wait.
  - `RevLimiter` is left out. The rev limiter's state is a parameter wherever a module reads it.
  - `CalculateTorqueICE` and `CalculateTorqueElectric` are left out. The torque the engine generates is a parameter.
- JSON parsing in `TuningContainer.Deserialize` is an input: the list of parsed entries, or a parse failure. The clearing and the skipping of unknown ids around it are modelled. `Serialize` writes through the JSON library and is not part of this model. `GetSerialized` is modelled.
- Rendering, sound and editor code are not part of this model:
  - the skid-mark mesh, and `Skidmarks.OnStart`;
  - the smoke emitter of the older wheel collider;
  - gizmos;
  - the engine sound interpolator, and the body impulses of `EngineICE`;
  - `TuningContainer.Apply` and `Reset`, and `CarTuning.DressSceneObject`.
- SkidmarkBuffers.Skidmarks.AddSkidMark assumes the mesh's vertex list is allocated. The source never assigns `vertices` (code/Car/Skidmarks.cs:39). On a write to a section that links to an earlier one, `UpdateSkidmarksMesh` (code/Car/Skidmarks.cs:148-151) reads from that list and throws a `NullReferenceException` before the write slot moves. The model, like `LinkedWritesAdvance`, describes the buffer as if the mesh update succeeded: the slot advances and the old slot is returned.
- Gearboxes.Gearbox.SetGearValue (the `Gear` setter) requires a gear no larger than the number of ratios. Above that, the source's `CalcRatio` reads `Ratios[Gear - 1]` past the end of the array and throws `IndexOutOfRangeException` (code/Engine/Gearbox/BaseGearbox.cs:44-52), after the gear and the shift timer were already stored. `SetGear` and `Shift` only assign gears within range, so this case is reachable only by assigning `Gear` directly.
- Engines.Engine.OnFixedUpdate requires the rev-limiter RPM to convert to a non-negative angular velocity. For a negative one, the source's `Math.Clamp(av, 0, revLimiter * 1.05)` has its minimum above its maximum and throws `ArgumentException` (code/Powertrain/EngineComponent.cs:382-384), after the drivetrain has already been stepped. The model does not describe that partly completed step. `PhysicsUpdate` and `StepPhysics` require a positive value for the same reason (zero returns earlier).
- TuningContainers.TuningContainer.Deserialize takes the parsed array as a list of entries with no null element. In the source, a null element makes `entry.Id` throw `NullReferenceException` in `ParseEntries` (code/Tuning/TuningContainer.cs:160-162). The `catch` in `Deserialize` (:148-151) swallows it and keeps the entries added before it. The model does not describe that partial list.
- Gearboxes.Gearbox.Think requires a non-empty axle list. On an empty list the source's `MaxBy` throws `InvalidOperationException`.
- Powertrain.Drivetrain.SetOutput can link a chain into a cycle; the source does not check. The chain walks (`QueryInertia`, `QueryAngularVelocity`, `ForwardStep`) require an acyclic chain, given by a rank that falls along every link. On a cycle the source recurses until the stack overflows, and the model does not describe that.
- SkidmarkBuffers.Skidmarks.constructor: the source never allocates the section buffer. The model's constructor allocates 2048 sections, each a copy of the blank section it is given and unlinked.
- Device input (`Input.Down`, `Pressed`, `GetAnalog`) is a parameter: the clutch pedal, the shift buttons, and `CarInputHandler.Update` with automatic input.
- The boolean input setters only store their argument. Each is covered by the input-state record, without a member of its own.
- CarControllers.CarController.UpdateSteerAngle requires two front wheels and a minimum multiplier no larger than the maximum. With fewer wheels the source's list index throws, and with the bounds crossed `Math.Clamp` throws. It also requires `MaxSteerAngle` to be at least -10, as `FrontWheelAngle` does.
- CarControllers.FrontWheelAngle requires `MaxSteerAngle` >= -10, so that the clamp range [-(MaxSteerAngle + 10), MaxSteerAngle + 10] is not crossed. Below that the source calls the host's `MathX.Clamp` with its bounds crossed (code/Car/CarController.cs:125). That helper is not part of this model, so the wheel angle it gives then is not described.
- CarControllers.CarController.OnFixedUpdate carries the requirements of `UpdateSteerAngle` above: two front wheels, the multiplier bounds in order, and `MaxSteerAngle` >= -10. Its brake-torque part needs none of them.
- Parts of `CarController` are not part of this model: `OnUpdate`, `OnStart`, the network `ClientInit` and the sound hookup. Only `CarDirection`, `UpdateSteerAngle`, the brake-torque loops of `OnFixedUpdate` and `OnFrictionChanged` are modelled.
- The lobby and networking parts of `StreetManager` are not part of this model: `OnLoad`, `WaitingPlayers`, `OnActive` and `OnUpdate`. The arrow and player spawning are left out too, apart from `FindSpawnLocation`.
- Manager lookup in the scene is not modelled. The drivetrain, the wheels and the managers are passed explicitly.
- ESCModules.BrakedAddsEachCorrectionOnce requires each wheel to be listed once. With a wheel listed twice, the source adds its correction twice. `Braked` describes that case, but the lemma does not state it.
- StandardGroundDetections.StepCount rounds with `Math.Round` into an unbounded integer. The overflow of the `(int)` cast for huge ratios is not modelled.
- The single-sphere cast of `StandardGroundDetection` is left out because the source never calls it. The implied wheel height its multi-sphere loop computes for each hit is also left out, because it is never used.
- `WheelCollider.GetCenter` is left out because it only reads a transform. The older wheel collider's `Load` comes from the `Stereable` base class, which is not part of this model, and it appears as a field.
- The `GroundHit` constructor is left out because it copies a host trace result. The detectors return the trace records themselves.
- Differentials.Differential.OnFixedUpdate: the lock term of the torque split is computed but reaches neither wheel in the source, and the model keeps it that way.

## Findings

| source | as written | input that shows it | evidently intended | confidence | as-written member | corrected member |
|---|---|---|---|---|---|---|
| code/Engine/Differential.cs:17-22 | `GetVel` averages the left wheel's angular velocity with itself | left wheel at 10, right wheel at 0: reads 10 | the mean of the left and right wheels, 5 | not executed | Differentials.RightWheelIgnored | Differentials.AxleAverage |
| code/Vehicle/Wheel.cs:75-83 | the `Radius` setter computes the inertia from the new radius times the old radius squared | 1 kg wheel, radius 1 to 2: inertia 1 | the disc inertia of the new radius, 2 | not executed | VehicleWheels.RadiusSetterMissesInertia | VehicleWheels.Wheel.SetRadiusCorrected |
| code/Vehicle/Wheel.cs:90-98 | the `Width` setter overwrites the inertia with half the width times the radius squared | 20 kg wheel of radius 1, width 0.3: inertia 0.15 | the width does not change a disc's inertia, so 10 | not executed | VehicleWheels.WidthSetterMissesInertia | VehicleWheels.Wheel.SetWidthCorrected |
| code/Car/CarInputHandler.cs:35-46 | the `Vertical` setter stores brakes 0 for every value | `Vertical = -0.5`: brakes 0, reads back 0 | a negative value brakes, so brakes 0.5 and it reads back -0.5 | not executed | CarInputs.VerticalNeverBrakes | CarInputs.VerticalCorrectedRoundTrip |
| code/Powertrain/WheelComponent.cs:31-48 | `AddBrakeTorque` takes `Math.Max` with the maximum brake torque, which its documentation says it clamps to | current 0, request 10, maximum 1000: brake torque 1000 | the request clamped to the maximum, so 10 | not executed | WheelComponents.SmallRequestBrakesFully | WheelComponents.CorrectedBrakeNeverExceedsRequest |
| code/Car/WheelAPI.cs:97-100 | `CalcInertia` converts the squared radius from inches once, `InchToMeter(Radius * Radius)` | 20 kg, radius 10 in: inertia 25.4 | the radius converted before squaring: 0.64516 | not executed | CarWheels.InertiaOfTenInchWheel | CarWheels.WheelInertiaCorrected |
