# RT-WDF scattering core in Dafny

RT-WDF is a C++ library that simulates analog circuits one sample at a time
with wave digital filters. A circuit is a tree:

- leaves are capacitors, inductors, resistors and resistive voltage sources;
- inner nodes are series, parallel, inverter and R-type adaptors;
- one or more subtrees hang off a root.

Each root is one of three kinds:

- a simple root, closed by one unterminated element (switch, unadapted
  C/L/R, ideal voltage or current source);
- an R-type root, a scattering matrix S;
- a nonlinear root, whose Newton solver finds the operating point of diode,
  transistor and triode models at every sample.

A sample (`cycleWave`) pulls the reflected waves up every subtree, lets the
root answer them, and pushes the answers back down. `adaptTree` gives every
port its resistance and every adaptor its coefficients. The switchable
attenuator example (`wdfSwitchTree`) is a resistive source in series with
Res1, in parallel with Res2, under a switch.

The model has these modules:

- `Waves`: the port, its voltage and its current.
- `Elements`: what every node kind computes.
- `TreeSpec`: the four tree passes as functions on tree values.
- `TreeNodes`: the `wdfTreeNode` class. Its recursive methods are proved
  against TreeSpec.
- `RootNodes`: the unterminated elements.
- `Roots`: the three roots.
- `Types`: `matData` and `paramData`.
- `NlModels`: the device models. They write into the solver's `fNL` array
  and `JNL` two-dimensional array.
- `NlSolvers`: the Newton solver, proved against a function `Iterate` that
  runs the same passes.
- `Trees`: the `wdfTree` class.
- `SwitchTreeRtype`: the attenuator's R-type adaptor RT1.
- `SwitchTrees`: the attenuator.

Doubles are `real`.

The main results:

- Every adapted junction obeys Kirchhoff's laws after a sample:
  - series: one current, and voltages that sum to zero;
  - parallel: one voltage, and currents that sum to zero;
  - inverter: the voltage flips and the current passes through;
  - R-type: b = S a;
  - resistor and resistive source: Ohm's law.
- Every connection is a joined pair of ports.
- The unadapted C and L are the trapezoidal rule.
- A Newton run stops settled within ITMAX passes.
- Each device's Jacobian block satisfies the identities that make it the
  derivative of its currents.
- The attenuator's output is Vs·Res1/(RSource+Res1) with the switch closed,
  and Vs·Res1/(RSource+Res1+Res2) with it open.

Several quirks of the code are modelled as written:

- `wdfRoot::setPortResistances` is not virtual, so `adaptTree` calls the
  empty base method. It never reaches `wdfRootSimple::setPortResistances`,
  and the root element's reflection coefficient is left as it was.
- `wdfRootNode`'s constructor assigns its parameter `numPorts` to itself, so
  the member is never set. Every `setPortResistance` does the same with
  `Rp`.
- The series adaptor's `calculateDownB` divides by `yl` and `yr`.
- Armadillo's bounds checks and size checks are modelled as preconditions.

Other facts about the code that the model keeps:

- The Newton solver has no damping: its step length is always 1.
- The solver stops only when the residual norm falls below TOL or after
  ITMAX passes. It keeps no convergence-failure counter and makes no
  step-size test.
- Device currents are not clamped.
- Each sample after the first starts the solver from `F·fNL + E·in`, built
  from the previous solution's currents.
- The simple root reflects through its unterminated element.
- Nothing checks at construction time that resistances are positive or that
  node arities are right.

## Model

| member | source | states |
|---|---|---|
| Waves.WavesFromVoltageAndCurrent | Libs/rt-wdf/rt-wdf.cpp:242-249 | the voltage and current a port reports determine its waves again, a = v + Rp i and b = v − Rp i |
| Waves.JoinedPortsShareVoltage | Libs/rt-wdf/rt-wdf.cpp:242-249 | across a connection (the wave leaving one side enters the other at the same resistance) both sides show one voltage and opposite currents |
| Elements.UpResPositive | Libs/rt-wdf/rt-wdf.cpp:414-419 | with positive children and parameters, every calculateUpRes (series, parallel, inverter, RT1, C, L, R, resistive source) divides by nonzero numbers only and gives a positive resistance |
| Elements.ParallelBelowChildren | Libs/rt-wdf/rt-wdf.cpp:465-470 | the parallel resistance of two positive resistances is positive, smaller than each, and its conductance is the sum of theirs |
| Elements.ScatterCoeffs | Libs/rt-wdf/rt-wdf.cpp:422-434 | the coefficients a node computes keep the number of children its kind takes |
| Elements.ScatterCoeffsIdempotent | Libs/rt-wdf/rt-wdf.cpp:473-485 | computing the coefficients again from the same resistances changes nothing |
| Elements.DownWaves | Libs/rt-wdf/rt-wdf.cpp:443-446 | calculateDownB writes only the reflected wave b of each down port; resistance and incident wave stay |
| Elements.NextState | Libs/rt-wdf/rt-wdf.cpp:571-574 | the state update of calculateDownB keeps the kind of the node and the number of children it takes |
| Elements.SeriesAdapted | Libs/rt-wdf/rt-wdf.cpp:422-434 | adapted to positive children, yu = 1, yl + yr = 1 and yl = Rl/(Rl+Rr) lies strictly between 0 and 1, so calculateDownB never divides by zero |
| Elements.ParallelAdapted | Libs/rt-wdf/rt-wdf.cpp:473-485 | adapted to positive children, du = 1, dl + dr = 1 and dl = Gl/(Gl+Gr) lies strictly between 0 and 1 |
| Elements.CurrentByConductance | Libs/rt-wdf/rt-wdf.cpp:247-249 | the port current is the conductance times half the wave difference |
| Elements.SeriesWaves | Libs/rt-wdf/rt-wdf.cpp:437-446 | the series up wave and down waves give all three ports the same current (a_l + a_r + d)/(2(Rl+Rr)) and voltages that cancel |
| Elements.SeriesKirchhoff | Libs/rt-wdf/rt-wdf.cpp:437-446 | an adapted series adaptor, after calculateUpB and calculateDownB, carries one current through all three ports and its voltages sum to zero |
| Elements.ParallelBalance | Libs/rt-wdf/rt-wdf.cpp:488-496 | the parallel down waves and up wave make the three port currents cancel, written in conductances |
| Elements.ParallelKirchhoff | Libs/rt-wdf/rt-wdf.cpp:488-496 | an adapted parallel adaptor shows one voltage at all three ports and its currents sum to zero |
| Elements.InverterLaws | Libs/rt-wdf/rt-wdf.cpp:509-529 | the inverter passes its child's resistance up, flips the voltage and passes the current |
| Elements.InverterInvolution | Libs/rt-wdf/rt-wdf.cpp:521-529 | inverting twice gives back the wave, both upwards and downwards |
| Elements.RtypeScattering | Libs/rt-wdf/rt-wdf.cpp:366-394 | with S(0,0) = 0, calculateUpB and calculateDownB together compute b = S a over the up port and all down ports |
| Elements.RT1IsSeries | Examples/wdfSwitchTree.hpp:46-81 | the RT1 matrix built for positive resistances reflects exactly the up and down waves of the series adaptor over the same children |
| Elements.NodeLaws | Libs/rt-wdf/rt-wdf.cpp:437-662 | every adapted junction and memoryless leaf obeys its law after a sample: series, parallel, inverter and R-type as above, the resistor Ohm's law, the resistive source V = Vs + RSer I |
| Elements.LeafRun | Libs/rt-wdf/rt-wdf.cpp:566-574 | a leaf driven over n samples reflects n waves |
| Elements.LeafDelay | Libs/rt-wdf/rt-wdf.cpp:566-662 | driven sample by sample, a capacitor reflects the wave it received one sample earlier and an inductor its negation (the initial state at sample 0); a resistor reflects 0 and a resistive source Vs |
| SwitchTreeRtype.RT1UpRes | Examples/wdfSwitchTree.hpp:46-52 | RT1's up resistance, the series sum, exceeds each positive child resistance |
| SwitchTreeRtype.RT1Matrix | Examples/wdfSwitchTree.hpp:55-81 | RT1's scattering matrix is 3 x 3 |
| SwitchTreeRtype.RT1Weights | Examples/wdfSwitchTree.hpp:57-63 | RT1's weights are yu = 1 and yl, yr summing to 1 |
| SwitchTreeRtype.RT1MatrixEntries | Examples/wdfSwitchTree.hpp:65-75 | every entry of RT1's matrix is S(i,j) = [i = j] − y_i |
| SwitchTreeRtype.RT1Adapted | Examples/wdfSwitchTree.hpp:46-63 | with Rup = Rl + Rr, RT1's yl is Rl/(Rl+Rr), strictly between 0 and 1 |
| SwitchTreeRtype.RT1Involution | Examples/wdfSwitchTree.hpp:55-81 | RT1's matrix is its own inverse: scattering twice gives back the incident waves |
| TreeSpec.WithPorts | Libs/rt-wdf/rt-wdf.cpp:285-291 | createPorts appends one fresh port per child at every node and leaves everything else alone; an unported tree of the right arities comes out wired |
| TreeSpec.Adapt | Libs/rt-wdf/rt-wdf.cpp:294-301 | adaptPorts over a wired tree of positive elements leaves it adapted: every down port has its child's up resistance, every up port the resistance calculateUpRes gives, all positive |
| TreeSpec.Scatter | Libs/rt-wdf/rt-wdf.cpp:422-434 | calculateScatterCoeffs over a tree of positive resistances leaves every node holding the coefficients of its own resistances |
| TreeSpec.Pull | Libs/rt-wdf/rt-wdf.cpp:304-311 | pullWaveUp keeps the wiring, the elements and the ability to be pushed |
| TreeSpec.Push | Libs/rt-wdf/rt-wdf.cpp:314-320 | pushWaveDown keeps the wiring and the ability to be pushed again |
| TreeSpec.ScatterDefinedWhenPositive | Libs/rt-wdf/rt-wdf.cpp:422-485 | positive resistances leave no division by zero in calculateScatterCoeffs |
| TreeSpec.ScatterKeepsResistances | Libs/rt-wdf/rt-wdf.cpp:422-519 | new coefficients change neither a node's up resistance nor the positivity of its parameters |
| TreeSpec.ResistancesOnly | Libs/rt-wdf/rt-wdf.cpp:414-485 | calculateUpRes and calculateScatterCoeffs read the down ports' resistances and not their waves |
| TreeSpec.NextStateKeepsNode | Libs/rt-wdf/rt-wdf.cpp:566-606 | the delayed wave a leaf stores changes none of its resistance or coefficient formulas |
| TreeSpec.AdaptOnlyResistances | Libs/rt-wdf/rt-wdf.cpp:294-301 | adaptPorts changes port resistances and nothing else |
| TreeSpec.PullOnlyWaves | Libs/rt-wdf/rt-wdf.cpp:304-311 | pullWaveUp changes waves and nothing else |
| TreeSpec.AdaptThenScatter | Libs/rt-wdf/rt-wdf.cpp:87-92 | adaptTree's two passes over a wired tree of positive elements leave it consistent: resistances matched across every connection and every coefficient computed from them |
| TreeSpec.AdaptedResPositive | Libs/rt-wdf/rt-wdf.cpp:294-301 | an adapted tree has only positive port resistances |
| TreeSpec.ScatterKeepsAdapted | Libs/rt-wdf/rt-wdf.cpp:422-434 | computing coefficients does not disturb adaptation |
| TreeSpec.ConsistentPushable | Libs/rt-wdf/rt-wdf.cpp:443-446 | an adapted tree has nonzero series coefficients, so pushWaveDown divides by nonzero numbers only |
| TreeSpec.PullKeepsConsistent | Libs/rt-wdf/rt-wdf.cpp:304-311 | pullWaveUp keeps an adapted tree adapted |
| TreeSpec.PushKeepsConsistent | Libs/rt-wdf/rt-wdf.cpp:314-320 | pushWaveDown keeps an adapted tree adapted, leaf memories included |
| TreeSpec.CycleLaws | Libs/rt-wdf/rt-wdf.cpp:51-62 | after one pull and one push with any descending wave, every junction of an adapted tree obeys its law and every connection is a joined pair |
| TreeNodes.TreeNode.KidSnaps | Libs/rt-wdf/rt-wdf.cpp:258-274 | the first k children's subtrees as values, child by child |
| TreeNodes.TreeNode.constructor | Libs/rt-wdf/rt-wdf.cpp:258-274 | a node holds the given children, a fresh zero up port and no down ports, and its subtree is a tree over the children's disjoint subtrees |
| TreeNodes.TreeNode.SetParentInChildren | Libs/rt-wdf/rt-wdf.cpp:277-282 | every node below learns its parent; elements, ports and shape stay as they were |
| TreeNodes.TreeNode.SetParents | Libs/rt-wdf/rt-wdf.cpp:278-281 | the loop of setParentInChildren reaches every child |
| TreeNodes.TreeNode.SetParent | Libs/rt-wdf/rt-wdf.cpp:279-280 | one pass sets child i's parent and recurses into it |
| TreeNodes.TreeNode.CreatePorts | Libs/rt-wdf/rt-wdf.cpp:285-291 | the subtree becomes WithPorts of what it was, every child's up port is connected back to its parent, and parent links are kept |
| TreeNodes.TreeNode.AddPorts | Libs/rt-wdf/rt-wdf.cpp:286-290 | the loop of createPorts: one new port per child and every child subtree ported |
| TreeNodes.TreeNode.AddPort | Libs/rt-wdf/rt-wdf.cpp:287-289 | one pass appends the port for child i and ports that child |
| TreeNodes.TreeNode.ConnectChild | Libs/rt-wdf/rt-wdf.cpp:288-289 | child i is connected back and its subtree ported |
| TreeNodes.TreeNode.PortsAll | Libs/rt-wdf/rt-wdf.cpp:285-291 | after the loop the subtree is WithPorts of the starting value |
| TreeNodes.TreeNode.AdaptPorts | Libs/rt-wdf/rt-wdf.cpp:294-301 | the subtree becomes Adapt of what it was, the returned value is the new up resistance, and no parentNode or connectedNode link changes |
| TreeNodes.TreeNode.AdaptNode | Libs/rt-wdf/rt-wdf.cpp:294-301 | the passes of adaptPorts: the subtree becomes Adapt of what it was, writing only elements and ports |
| TreeNodes.TreeNode.AdaptChildren | Libs/rt-wdf/rt-wdf.cpp:295-297 | the loop of adaptPorts adapts every child and copies its resistance into the down port |
| TreeNodes.TreeNode.AdaptChild | Libs/rt-wdf/rt-wdf.cpp:296 | one pass adapts child i and stores its resistance in down port i |
| TreeNodes.TreeNode.AdaptKid | Libs/rt-wdf/rt-wdf.cpp:296 | child i adapts and reports the up resistance Adapt gives it |
| TreeNodes.TreeNode.AdaptStart | Libs/rt-wdf/rt-wdf.cpp:294-295 | the loop invariant of adaptPorts holds before the first pass |
| TreeNodes.TreeNode.AdaptedAll | Libs/rt-wdf/rt-wdf.cpp:299-300 | after the loop, setting the up resistance completes Adapt |
| TreeNodes.TreeNode.CalculateScatterCoeffs | Libs/rt-wdf/rt-wdf.cpp:422-434 | the subtree becomes Scatter of what it was, and no link changes |
| TreeNodes.TreeNode.ScatterNode | Libs/rt-wdf/rt-wdf.cpp:422-434 | the passes of calculateScatterCoeffs: the subtree becomes Scatter of what it was, writing only elements and ports |
| TreeNodes.TreeNode.ScatterChildren | Libs/rt-wdf/rt-wdf.cpp:431-433 | the recursion of calculateScatterCoeffs reaches every child |
| TreeNodes.TreeNode.ScatterChild | Libs/rt-wdf/rt-wdf.cpp:432 | one pass recomputes child i's subtree |
| TreeNodes.TreeNode.ScatterStart | Libs/rt-wdf/rt-wdf.cpp:422-430 | the loop invariant holds once the node has its own coefficients |
| TreeNodes.TreeNode.ScatteredAll | Libs/rt-wdf/rt-wdf.cpp:422-434 | after the loop the subtree is Scatter of the starting value |
| TreeNodes.TreeNode.PullWaveUp | Libs/rt-wdf/rt-wdf.cpp:304-311 | the subtree becomes Pull of what it was, the returned value is the new up wave, and no link changes |
| TreeNodes.TreeNode.PullNode | Libs/rt-wdf/rt-wdf.cpp:304-311 | the passes of pullWaveUp: the subtree becomes Pull of what it was, writing only elements and ports |
| TreeNodes.TreeNode.PullChildren | Libs/rt-wdf/rt-wdf.cpp:305-307 | the loop of pullWaveUp pulls every child into its down port |
| TreeNodes.TreeNode.PullChild | Libs/rt-wdf/rt-wdf.cpp:306 | one pass pulls child i and stores its wave as a_i |
| TreeNodes.TreeNode.PullKid | Libs/rt-wdf/rt-wdf.cpp:306 | child i reports the up wave Pull gives it |
| TreeNodes.TreeNode.PullStart | Libs/rt-wdf/rt-wdf.cpp:304-305 | the loop invariant of pullWaveUp holds before the first pass |
| TreeNodes.TreeNode.PulledAll | Libs/rt-wdf/rt-wdf.cpp:309-310 | after the loop, calculateUpB completes Pull |
| TreeNodes.TreeNode.PushWaveDown | Libs/rt-wdf/rt-wdf.cpp:314-320 | the subtree becomes Push of what it was with the descending wave d, and no link changes |
| TreeNodes.TreeNode.PushNode | Libs/rt-wdf/rt-wdf.cpp:314-320 | the passes of pushWaveDown: the subtree becomes Push of what it was, writing only elements and ports |
| TreeNodes.TreeNode.LinksKept | Libs/rt-wdf/rt-wdf.cpp:277-291 | a pass that writes no parentNode and no connectedNode keeps the subtree parented and connected as setParentInChildren and createPorts left it |
| TreeNodes.TreeNode.CalculateDownB | Libs/rt-wdf/rt-wdf.cpp:443-446 | the node's down ports get DownWaves, its state becomes NextState, and its up port is untouched |
| TreeNodes.TreeNode.PushChildren | Libs/rt-wdf/rt-wdf.cpp:317-319 | the loop of pushWaveDown pushes each child the wave its down port reflected |
| TreeNodes.TreeNode.PushChild | Libs/rt-wdf/rt-wdf.cpp:318 | one pass pushes child i with b_i |
| TreeNodes.TreeNode.PushStart | Libs/rt-wdf/rt-wdf.cpp:314-316 | a wired, pushable node can reflect down, and the loop invariant holds at the start |
| TreeNodes.TreeNode.PushedAll | Libs/rt-wdf/rt-wdf.cpp:314-320 | after the loop the subtree is Push of the starting value |
| TreeNodes.TreeNode.SetResistance | Examples/wdfSwitchTree.hpp:186-187 | writing R of a resistor changes only R |
| TreeNodes.TreeNode.SetVoltage | Examples/wdfSwitchTree.hpp:166-168 | writing Vs of a resistive source changes only Vs |
| TreeNodes.ReprOf | Libs/rt-wdf/rt-wdf.cpp:269-274 | the objects of the given subtrees include every subtree |
| Trees.AdaptOne | Libs/rt-wdf/rt-wdf.cpp:89-91 | adaptPorts and then calculateScatterCoeffs leave a subtree consistent with the up resistance adaptPorts gave it |
| Trees.ScatterKeepsUp | Libs/rt-wdf/rt-wdf.cpp:422-434 | calculateScatterCoeffs leaves a node's up port as it was |
| Trees.CycleAllLaws | Libs/rt-wdf/rt-wdf.cpp:51-62 | after cycleWave, whatever the root answered, every junction of every adapted subtree obeys its law and the subtree stays consistent |
| Trees.AdaptSubtree | Libs/rt-wdf/rt-wdf.cpp:89-91 | one subtree adapted and scattered, and its up resistance reported |
| Trees.WdfTree.Snaps | Libs/rt-wdf/rt-wdf.cpp:51-62 | the subtrees as values, one per entry node |
| Trees.WdfTree.SnapsUpTo | Libs/rt-wdf/rt-wdf.cpp:52 | the first k subtrees as values |
| Trees.WdfTree.constructor | Libs/rt-wdf/rt-wdf.cpp:38-44 | the base constructor sets no wave vectors and a rate and period of 1; the subclass supplies subtrees, root, Rp and parameters |
| Trees.WdfTree.SetSamplerate | Libs/rt-wdf/rt-wdf.cpp:76-79 | the rate becomes fs and the period T its inverse |
| Trees.WdfTree.GetSamplerate | Libs/rt-wdf/rt-wdf.cpp:82-84 | the rate returned times the period is 1 |
| Trees.WdfTree.ProgressAll | Libs/rt-wdf/rt-wdf.cpp:52-55 | after a pass over every subtree, the subtrees are the ones the loop produced |
| Trees.WdfTree.InitTree | Libs/rt-wdf/rt-wdf.cpp:65-73 | both wave vectors get one entry per subtree, and every subtree gets its ports and parent links |
| Trees.WdfTree.InitEach | Libs/rt-wdf/rt-wdf.cpp:69-72 | the loop of initTree ports and links every subtree |
| Trees.WdfTree.InitOne | Libs/rt-wdf/rt-wdf.cpp:70-71 | one pass links and ports subtree i and leaves the others alone |
| Trees.WdfTree.AdaptTree | Libs/rt-wdf/rt-wdf.cpp:87-102 | every subtree is adapted and scattered and Rp holds its up resistance; the simple root is left untouched (the non-virtual call) and returns 0; the other roots return what setRootMatrData returns and keep the matrices it wrote; the links initTree set are kept |
| Trees.WdfTree.AdaptRoot | Libs/rt-wdf/rt-wdf.cpp:94-101 | the end of adaptTree: the base setPortResistances changes nothing; a root with matrices hands them to setRootMatrData |
| Trees.WdfTree.AdaptSubtrees | Libs/rt-wdf/rt-wdf.cpp:88-92 | the loop of adaptTree: every subtree adapted, Rp[i] its up resistance |
| Trees.WdfTree.AdaptEach | Libs/rt-wdf/rt-wdf.cpp:88-92 | the same loop, with the new Rp returned |
| Trees.WdfTree.AdaptOneSubtree | Libs/rt-wdf/rt-wdf.cpp:89-91 | one pass adapts subtree i and reports its resistance |
| Trees.WdfTree.CycleWave | Libs/rt-wdf/rt-wdf.cpp:51-62 | the ascending waves are the subtrees' pulled waves; the root answers them from its state before the call; every subtree is pushed the answer for it; the links initTree set are kept |
| Trees.WdfTree.AnswerAndPush | Libs/rt-wdf/rt-wdf.cpp:57-61 | the root answers the ascending waves, then every subtree is pushed the answer for it, and no link changes |
| Trees.WdfTree.LinksKept | Libs/rt-wdf/rt-wdf.cpp:69-72 | passes that write no link keep every subtree as linked as initTree left it |
| Trees.WdfTree.NodesKept | Libs/rt-wdf/rt-wdf.cpp:57 | a step that touches no node keeps the subtree values and their links |
| Trees.WdfTree.RootStep | Libs/rt-wdf/rt-wdf.cpp:57 | processAscendingWaves answers the ascending waves and changes no subtree and no link |
| Trees.WdfTree.PullSubtrees | Libs/rt-wdf/rt-wdf.cpp:52-55 | the first loop of cycleWave: every subtree pulled, its wave in ascendingWaves[i], pushable subtrees stay pushable, and no link changes |
| Trees.WdfTree.PullEach | Libs/rt-wdf/rt-wdf.cpp:52-55 | the same loop, with the waves returned |
| Trees.WdfTree.PullOneSubtree | Libs/rt-wdf/rt-wdf.cpp:53-54 | one pass pulls subtree i and reports its up wave |
| Trees.WdfTree.PushSubtrees | Libs/rt-wdf/rt-wdf.cpp:59-61 | the second loop of cycleWave pushes subtree i with descendingWaves[i], leaves the root's answer as it was, and changes no link |
| Trees.WdfTree.PushEach | Libs/rt-wdf/rt-wdf.cpp:59-61 | the loop itself |
| Trees.WdfTree.PushOneSubtree | Libs/rt-wdf/rt-wdf.cpp:60 | one pass pushes subtree i |
| RootNodes.SizeAdd | Libs/rt-wdf/rt-wdf.cpp:703-704 | the port index advances in size_t arithmetic, wrapping at 2^64 |
| RootNodes.AfterDownB | Libs/rt-wdf/rt-wdf.cpp:739-779 | the unadapted capacitor and inductor remember the ascending and the reflected wave; every other element keeps its state |
| RootNodes.AfterSetPortResistance | Libs/rt-wdf/rt-wdf.cpp:682-684 | Rp keeps its value (self-assignment); C, L and R store the reflection coefficient for the given resistance; the others change nothing |
| RootNodes.RootNode.UnterminatedSwitch | Libs/rt-wdf/rt-wdf.cpp:694-697 | the switch is built at the given position |
| RootNodes.RootNode.UnterminatedCap | Libs/rt-wdf/rt-wdf.cpp:728-736 | the capacitor is built with both remembered waves at zero |
| RootNodes.RootNode.UnterminatedInd | Libs/rt-wdf/rt-wdf.cpp:760-768 | the inductor is built with both remembered waves at zero |
| RootNodes.RootNode.UnterminatedRes | Libs/rt-wdf/rt-wdf.cpp:793-796 | the unadapted resistor holds R |
| RootNodes.RootNode.IdealVSource | Libs/rt-wdf/rt-wdf.cpp:819-822 | the ideal voltage source holds Vs |
| RootNodes.RootNode.IdealCSource | Libs/rt-wdf/rt-wdf.cpp:844-847 | the ideal current source holds Is |
| RootNodes.RootNode.CalculateDownB | Libs/rt-wdf/rt-wdf.cpp:700-715 | only the descending wave at portIndex is written, with the element's reflection; the state follows AfterDownB; the index advances by numPorts |
| RootNodes.RootNode.SetPortResistance | Libs/rt-wdf/rt-wdf.cpp:753-757 | the state becomes AfterSetPortResistance |
| RootNodes.RootNode.GetNumPorts | Libs/rt-wdf/rt-wdf.cpp:686-688 | the member numPorts, which no constructor sets |
| RootNodes.RootNode.SetSwitch | Libs/rt-wdf/rt-wdf.cpp:717-720 | only the position changes |
| RootNodes.SwitchLaws | Libs/rt-wdf/rt-wdf.cpp:706-714 | position 0 (open) lets no current through the port; any other position (closed) holds its voltage at zero |
| RootNodes.VSourceVoltage | Libs/rt-wdf/rt-wdf.cpp:825-831 | the ideal voltage source holds the port voltage at Vs whatever arrives |
| RootNodes.CSourceCurrent | Libs/rt-wdf/rt-wdf.cpp:850-856 | the ideal current source drives Is out of a port of its own resistance Rp |
| RootNodes.ResOhm | Libs/rt-wdf/rt-wdf.cpp:799-815 | with the coefficient setPortResistance stored, the unadapted resistor obeys v = R i at the port |
| RootNodes.CapTrapezoidal | Libs/rt-wdf/rt-wdf.cpp:739-757 | with its coefficient stored, the unadapted capacitor is the trapezoidal rule for i = C dv/dt: the voltage step between samples is T/(2C) times the sum of the two currents |
| RootNodes.IndTrapezoidal | Libs/rt-wdf/rt-wdf.cpp:771-789 | with its coefficient stored, the unadapted inductor is the trapezoidal rule for v = L di/dt: the sum of two successive voltages is 2L/T times the current step |
| RootNodes.MatchedReflection | Libs/rt-wdf/rt-wdf.cpp:739-815 | matched to its own resistance, an unadapted C, L or R reflects what the adapted leaf does: the previous wave, its negation, or nothing |
| Roots.Root.Simple | Libs/rt-wdf/rt-wdf.cpp:206-209 | a simple root over the given element, with no solver |
| Roots.Root.Rtype | Libs/rt-wdf/rt-wdf.cpp:133-141 | S is numSubtrees x numSubtrees with unset entries, and E, F, M, N are empty |
| Roots.Root.NL | Libs/rt-wdf/rt-wdf.cpp:166-181 | a fresh solver over the models of the ID list, and matrices sized for its port count: S square over subtrees plus nonlinear ports, E, F, M, N of the matching shapes |
| Roots.Root.RootMatrices | Libs/rt-wdf/rt-wdf.cpp:127-156 | the simple root has no matrices; the R-type and nonlinear roots hand out theirs |
| Roots.Root.SimpleSetPortResistances | Libs/rt-wdf/rt-wdf.cpp:212-214 | the root element takes the first subtree's port resistance |
| Roots.Root.ProcessAscendingWaves | Libs/rt-wdf/rt-wdf.cpp:148-221 | the simple root reflects asc[0] through its element into position 0; the R-type root answers S asc; the nonlinear root answers M asc + N fNL at the solver's last iterate; the matrices do not change |
| Roots.RtypeIdentity | Libs/rt-wdf/rt-wdf.cpp:148-151 | whatever an R-type root whose S is the identity answers in processAscendingWaves is the ascending waves themselves |
| NlModels.ModelOfId | Libs/rt-wdf/rt-wdf_nlSolvers.cpp:55-86 | the four IDs 0, 1, 10, 20 give the diode, the anti-parallel pair, the npn and the triode; every other ID gives no model |
| NlModels.NumPorts | Libs/rt-wdf/rt-wdf_nlModels.cpp:56-144 | the diodes have one port, the transistor and the triode two |
| NlModels.PortVoltages | Libs/rt-wdf/rt-wdf_nlModels.cpp:66-166 | a model reads x at its own ports, from the cursor on |
| NlModels.ModelCurrents | Libs/rt-wdf/rt-wdf_nlModels.cpp:61-202 | a model writes one current per port |
| NlModels.ModelJacobian | Libs/rt-wdf/rt-wdf_nlModels.cpp:61-202 | a model writes a square Jacobian block of its port count |
| NlModels.DiodeSlope | Libs/rt-wdf/rt-wdf_nlModels.cpp:69-70 | the diode's JNL entry is the derivative of its current: VT·JNL = fNL + Is |
| NlModels.AntiParallelSlope | Libs/rt-wdf/rt-wdf_nlModels.cpp:89-90 | the pair's JNL entry is the sum of the slopes of its two diodes, at v and at −v |
| NlModels.NpnEmSlopes | Libs/rt-wdf/rt-wdf_nlModels.cpp:128-134 | the transistor's JNL columns are the derivatives of the exponential terms in vBC and vBE: each row sums to (current + its constant)/VT, and J10 = −αR·J00, J01 = −αF·J11 |
| NlModels.TriodeGridSlope | Libs/rt-wdf/rt-wdf_nlModels.cpp:174-181 | the grid current's JNL row is its derivative: zero in vAC, and E·e_g·(Ig − Ig0)/((1 + e_g)·l_g) in vGC |
| NlModels.TriodeCathodeSlopes | Libs/rt-wdf/rt-wdf_nlModels.cpp:188-197 | the cathode current's slope in vAC is y·e_k·Ik/(μ(1 + e_k)·l_k), its slope in vGC is μ times that, and the first row takes off the grid current's slope |
| NlModels.HoldingWrittenIsBlockWritten | Libs/rt-wdf/rt-wdf_nlModels.cpp:61-73 | writing a block through the arrays is the block write on values |
| NlModels.Write1 | Libs/rt-wdf/rt-wdf_nlModels.cpp:70-71 | a one-port model writes one entry of fNL and one of JNL, nothing else |
| NlModels.Write2 | Libs/rt-wdf/rt-wdf_nlModels.cpp:131-136 | a two-port model writes two entries of fNL and its 2 x 2 block of JNL, nothing else |
| NlModels.Calculate | Libs/rt-wdf/rt-wdf_nlModels.cpp:61-202 | every model writes only its own ports' block of fNL and JNL, with its currents and Jacobian at x, and advances the cursor by its port count |
| NlModels.CalculateDiode | Libs/rt-wdf/rt-wdf_nlModels.cpp:61-73 | the diode writes Is(e^(v/VT) − 1) and its derivative at its port |
| NlModels.CalculateDiodeAp | Libs/rt-wdf/rt-wdf_nlModels.cpp:81-93 | the anti-parallel pair writes its current and conductance at its port |
| NlModels.CalculateNpnEm | Libs/rt-wdf/rt-wdf_nlModels.cpp:113-137 | the Ebers-Moll transistor writes collector and emitter currents and their 2 x 2 Jacobian |
| NlModels.CalculateTriDw | Libs/rt-wdf/rt-wdf_nlModels.cpp:150-202 | the Dempwolf triode writes cathode-less-grid and grid currents and their Jacobian |
| NlModels.DiodeAtRest | Libs/rt-wdf/rt-wdf_nlModels.cpp:61-73 | the diode carries no current at zero voltage |
| NlModels.AntiParallelSymmetric | Libs/rt-wdf/rt-wdf_nlModels.cpp:81-93 | the pair's current is odd and its conductance even in the voltage |
| NlModels.AntiParallelIsTwoDiodes | Libs/rt-wdf/rt-wdf_nlModels.cpp:81-93 | the pair is two single diodes in opposite directions |
| NlModels.TriodeCurrents | Libs/rt-wdf/rt-wdf_nlModels.cpp:150-202 | port 1 carries the grid current, port 0 the cathode current less the grid current, and the grid current does not depend on the anode voltage |
| NlSolvers.ModelsOf | Libs/rt-wdf/rt-wdf_nlSolvers.cpp:55-86 | the solver builds at most one model per ID |
| NlSolvers.Currents | Libs/rt-wdf/rt-wdf_nlSolvers.cpp:168-170 | the currents of all models, one per nonlinear port |
| NlSolvers.Residual | Libs/rt-wdf/rt-wdf_nlSolvers.cpp:172-173 | F = E in + F fNL − x, one entry per nonlinear port |
| NlSolvers.ResidualJacobian | Libs/rt-wdf/rt-wdf_nlSolvers.cpp:174 | J = F JNL − I is square |
| NlSolvers.Direction | Libs/rt-wdf/rt-wdf_nlSolvers.cpp:143 | the Newton direction −J⁻¹F has one entry per port |
| NlSolvers.NewtonStep | Libs/rt-wdf/rt-wdf_nlSolvers.cpp:143-145 | one step x + 1·p keeps the size of x |
| NlSolvers.Iterate | Libs/rt-wdf/rt-wdf_nlSolvers.cpp:141-154 | the Newton run keeps the size of x |
| NlSolvers.IterateStep | Libs/rt-wdf/rt-wdf_nlSolvers.cpp:141-154 | while the residual norm is at least TOL and passes remain, the run continues at the Newton step |
| NlSolvers.IterateStop | Libs/rt-wdf/rt-wdf_nlSolvers.cpp:141 | once the loop condition fails, the run ends where it is |
| NlSolvers.NewtonSolver.constructor | Libs/rt-wdf/rt-wdf_nlSolvers.cpp:51-100 | one model per known ID in list order, the port count is their sum, every buffer zero, firstRun set |
| NlSolvers.NewtonSolver.GetNumPorts | Libs/rt-wdf/rt-wdf_nlSolvers.cpp:43-45 | the total port count of the models, which is the length of fNL |
| NlSolvers.NewtonSolver.EvalNlModels | Libs/rt-wdf/rt-wdf_nlSolvers.cpp:161-175 | fNL, JNL, F fNL, the residual and its Jacobian all hold the evaluation at x |
| NlSolvers.NewtonSolver.NlSolve | Libs/rt-wdf/rt-wdf_nlSolvers.cpp:116-158 | the first solve starts from x0, later ones from F fNL + E in; x0 ends at the last iterate of the Newton run from there, evaluated; the answer is M in + N fNL(x0) |
| NlSolvers.NewtonSolver.NewtonLoop | Libs/rt-wdf/rt-wdf_nlSolvers.cpp:141-154 | the while loop leaves x0 at the last iterate of Iterate from the starting x0 |
| NlSolvers.NewtonSolver.NewtonPass | Libs/rt-wdf/rt-wdf_nlSolvers.cpp:143-152 | one pass moves x0 one Newton step along the run and evaluates it again |
| NlSolvers.Combine | Libs/rt-wdf/rt-wdf_nlSolvers.cpp:172-174 | Fmat_fNL, F and J from the model outputs |
| NlSolvers.ZeroEntries | Libs/rt-wdf/rt-wdf_nlSolvers.cpp:165 | every entry of JNL becomes zero |
| NlSolvers.CalculateAll | Libs/rt-wdf/rt-wdf_nlSolvers.cpp:164-170 | the model loop over a zeroed JNL leaves the currents of all models in fNL and their block-diagonal Jacobian in JNL |
| NlSolvers.PortsOfPrefix | Libs/rt-wdf/rt-wdf_nlSolvers.cpp:88-91 | the port count grows model by model and never beyond the total |
| NlSolvers.StepCurrents | Libs/rt-wdf/rt-wdf_nlSolvers.cpp:169 | each model's call extends the currents written so far by its own block |
| NlSolvers.CurrentsSnoc | Libs/rt-wdf/rt-wdf_nlSolvers.cpp:168-170 | the currents of k+1 models are those of k models followed by model k's |
| NlSolvers.StepJacobian | Libs/rt-wdf/rt-wdf_nlSolvers.cpp:169 | each model's call extends the Jacobian written so far by its own block |
| NlSolvers.JnlComplete | Libs/rt-wdf/rt-wdf_nlSolvers.cpp:164-170 | once every model has written, JNL is the Jacobian |
| NlSolvers.ModelsOfAllKnown | Libs/rt-wdf/rt-wdf_nlSolvers.cpp:55-86 | with only known IDs, model i is the one for ID i |
| NlSolvers.ModelsOfSkipsUnknown | Libs/rt-wdf/rt-wdf_nlSolvers.cpp:81-84 | unknown IDs add no model |
| NlSolvers.CurrentsPrefix | Libs/rt-wdf/rt-wdf_nlSolvers.cpp:168-170 | the currents of the first k models are a prefix of all the currents |
| NlSolvers.CurrentsBlock | Libs/rt-wdf/rt-wdf_nlSolvers.cpp:168-170 | model k's currents sit at its own ports, computed from the voltages at those ports |
| NlSolvers.JacobianOffBlock | Libs/rt-wdf/rt-wdf_nlSolvers.cpp:164-170 | the Jacobian is block diagonal: an entry that couples two models is zero |
| NlSolvers.PortsBelow | Libs/rt-wdf/rt-wdf_nlSolvers.cpp:88-91 | a prefix of the models has no more ports than all of them |
| NlSolvers.ResidualZeroIffFixedPoint | Libs/rt-wdf/rt-wdf_nlSolvers.cpp:173 | the residual is zero exactly when x = E in + F fNL(x), in both directions |
| NlSolvers.WarmStartIsFixedPointStep | Libs/rt-wdf/rt-wdf_nlSolvers.cpp:128 | the warm start F fNL + E in is one fixed-point step x + F(x) from the previous solution |
| NlSolvers.IterateWithinBudget | Libs/rt-wdf/rt-wdf_nlSolvers.cpp:141-154 | a Newton run makes at most ITMAX = 50 passes |
| NlSolvers.StopWithinBudget | Libs/rt-wdf/rt-wdf_nlSolvers.cpp:141 | a run that stops at once is within the budget |
| NlSolvers.StopSettled | Libs/rt-wdf/rt-wdf_nlSolvers.cpp:141 | a run that stops at once is settled |
| NlSolvers.IterateSettled | Libs/rt-wdf/rt-wdf_nlSolvers.cpp:141-154 | every run ends settled: it used all ITMAX passes or its residual norm is below TOL |
| SwitchTrees.DividerSplit | Examples/wdfSwitchTree.hpp:183-188 | Res1 and Res2 always sum to R1 + R2, Res2 takes the share p, and both are positive for 0 < p < 1 |
| SwitchTrees.BoolValue | Examples/wdfSwitchTree.hpp:179-180 | the stored value is 0 or 1, and 0 exactly when the input is 0 |
| SwitchTrees.SwitchFor | Examples/wdfSwitchTree.hpp:181 | setSwitch(!value) opens the switch (position 0) exactly when the value is nonzero, else closes it |
| SwitchTrees.InitialParams | Examples/wdfSwitchTree.hpp:133-152 | the two declared parameters, a switch and a ratio, start in range: the switch stored as a bool (closed) and the ratio splitting R1 + R2 into R1 and R2 |
| SwitchTrees.SetRootMatrData | Examples/wdfSwitchTree.hpp:160-163 | the attenuator's hook changes no matrix and reports success |
| SwitchTrees.Resized | Examples/wdfSwitchTree.hpp:186-187 | the divider with new Res1 and Res2 and the same source |
| SwitchTrees.WithSource | Examples/wdfSwitchTree.hpp:166-168 | the divider with a new source voltage and the same resistors |
| SwitchTrees.AdaptDivider | Libs/rt-wdf/rt-wdf.cpp:87-102 | adaptTree keeps the divider's components and gives it the port resistance (RSource + Res1) ∥ Res2 |
| SwitchTrees.AdaptParts | Libs/rt-wdf/rt-wdf.cpp:294-301 | adaptPorts alone gives the divider that resistance |
| SwitchTrees.ScatterParts | Libs/rt-wdf/rt-wdf.cpp:422-485 | calculateScatterCoeffs changes no component of the divider |
| SwitchTrees.CycleDivider | Libs/rt-wdf/rt-wdf.cpp:51-62 | a sample keeps the divider's components, and its top port receives the root's wave and keeps the wave it reflected |
| SwitchTrees.SourceKeepsConsistent | Examples/wdfSwitchTree.hpp:166-168 | a new input voltage keeps an adapted divider adapted |
| SwitchTrees.SeriesKeepsConsistent | Examples/wdfSwitchTree.hpp:166-168 | the same for S1 |
| SwitchTrees.LeafKeepsConsistent | Examples/wdfSwitchTree.hpp:166-168 | the same for Vres |
| SwitchTrees.SeriesBranch | Examples/wdfSwitchTree.hpp:171-173 | after a sample the output is Res1 I and the branch voltage is (RSource + Res1) I − Vs, with I the branch current |
| SwitchTrees.ParallelTop | Libs/rt-wdf/rt-wdf.cpp:488-496 | after a sample the top port and S1 share one voltage, Res2 obeys Ohm's law at that voltage, and the top port carries the currents of S1 and Res2 |
| SwitchTrees.DividerOutput | Examples/wdfSwitchTree.hpp:171-173 | closed switch: out·(RSource + Res1) = Vs·Res1; open switch: out·(RSource + Res1 + Res2) = Vs·Res1 |
| SwitchTrees.ClosedOutput | Libs/rt-wdf/rt-wdf.cpp:711-714 | the closed switch shorts the divider: the output is Res1's share of RSource + Res1 |
| SwitchTrees.OpenOutput | Libs/rt-wdf/rt-wdf.cpp:706-709 | the open switch sends the branch current through Res2: the output is Res1's share of RSource + Res1 + Res2 |
| SwitchTrees.PositiveDivider | Examples/wdfSwitchTree.hpp:114-118 | positive resistors and period make every element of the divider positive |
| SwitchTrees.BuildDivider | Examples/wdfSwitchTree.hpp:114-121 | the six node objects of the constructor, each fresh and distinct, wired as P1(S1(Vres, Res1), Res2), with RT1 over Vres and Res1 |
| SwitchTrees.BuildTree | Examples/wdfSwitchTree.hpp:109-152 | the tree part: a simple root over the switch, one subtree with entry P1, Rp one zero, the two parameters, rate 44100 |
| SwitchTrees.SourceKeepsWired | Examples/wdfSwitchTree.hpp:166-168 | the wiring does not depend on the source voltage |
| SwitchTrees.Retuned | Examples/wdfSwitchTree.hpp:183-188 | setParam(1, p) gives a consistent divider with the split resistances and the port resistance of the new divider |
| SwitchTrees.ResizeKeepsWired | Examples/wdfSwitchTree.hpp:186-187 | the wiring does not depend on Res1 and Res2 |
| SwitchTrees.PortsDivider | Libs/rt-wdf/rt-wdf.cpp:65-73 | initTree wires the divider and changes no component |
| SwitchTrees.SwitchTree.Assembly | Examples/wdfSwitchTree.hpp:125-126 | the tree's one subtree is P1's subtree |
| SwitchTrees.SwitchTree.constructor | Examples/wdfSwitchTree.hpp:109-152 | rate 44100; Vres (0 V, 1 Ω), Res1 and Res2 at 250 kΩ; RT1 built and left out of the tree; S1 and P1; the switch built open and then closed; the parameters; the divider has no ports yet |
| SwitchTrees.SwitchTree.SetInputValue | Examples/wdfSwitchTree.hpp:166-168 | only the source voltage changes, and an initialised or adapted attenuator stays so |
| SwitchTrees.SwitchTree.GetOutputValue | Examples/wdfSwitchTree.hpp:171-173 | the output is the voltage across Res1, negated |
| SwitchTrees.SwitchTree.SetParam | Examples/wdfSwitchTree.hpp:176-189 | ID 0 stores the value as a bool and opens the switch when it is nonzero; ID 1 stores the ratio, resizes Res1 and Res2 and adapts the tree again, Rp becoming the new divider's resistance; any other ID changes nothing |
| SwitchTrees.SwitchTree.SetSwitchParam | Examples/wdfSwitchTree.hpp:179-182 | the bool stored and the switch set to its negation, nothing else touched |
| SwitchTrees.SwitchTree.Resize | Examples/wdfSwitchTree.hpp:184-187 | the ratio stored and Res1, Res2 resized, the wiring kept |
| SwitchTrees.SwitchTree.Readapt | Examples/wdfSwitchTree.hpp:188 | adaptTree over the attenuator: the divider adapted with the same components, and Rp its port resistance |
| SwitchTrees.SwitchTree.Prepare | wdfRenderer/JUCE/wdfRenderer/Source/MainComponent.cpp:105-107 | initTree and then adaptTree leave the attenuator adapted with its components as built |
| SwitchTrees.SwitchTree.InitPorts | Libs/rt-wdf/rt-wdf.cpp:65-73 | initTree over the attenuator: ports everywhere, one-entry wave vectors, components kept |
| SwitchTrees.SwitchTree.ProcessSample | wdfRenderer/JUCE/wdfRenderer/Source/RenderThread.cpp:89-91 | one sample leaves the attenuator adapted and outputs Vs·Res1/(RSource+Res1) with the switch closed, Vs·Res1/(RSource+Res1+Res2) with it open |
| SwitchTrees.SwitchTree.SampleOutput | Examples/wdfSwitchTree.hpp:171-173 | once a sample has gone round, the output takes the closed form for the switch position |
| SwitchTrees.SwitchTree.Cycle | Libs/rt-wdf/rt-wdf.cpp:51-62 | cycleWave over the attenuator keeps the components, every junction obeys its law, and the switch has answered the divider's wave (equal when open, opposite when closed) |

## Left out

- Floating point. Doubles are reals, with no rounding, overflow or IEEE
  infinities. `T = 1.0f / fs` is an exact inverse, and R1 and R2 (floats
  of 250e3) are exact.
- `exp`, `log`, `pow`, Armadillo's matrix inverse `i()` and `norm` are not
  modelled as functions.
  - The first four are fields of a `Numerics` value passed in, with only
    positivity of `exp` and the shape of the inverse assumed. The triode's
    slope lemmas also assume pow(u, p) = u·pow(u, p − 1) for positive u and
    log(y) > 0 for y > 1.
- NlModels.ModelJacobian: that the JNL block is the derivative of the
  currents is not stated as a derivative, because exp, log and pow are given
  functions without one. It is stated through the identities the chain rule
  forces between the block and fNL, in NlModels.DiodeSlope,
  NlModels.AntiParallelSlope, NlModels.NpnEmSlopes, NlModels.TriodeGridSlope
  and NlModels.TriodeCathodeSlopes.
- NlSolvers.Direction: a singular Jacobian is not modelled. Armadillo's `i()`
  at rt-wdf_nlSolvers.cpp:143 throws `std::runtime_error` when J has no
  inverse. The model's inverse always returns a matrix of the right shape, so
  NlSolvers.NewtonSolver.NlSolve returns an answer where the code raises that
  exception.
  - The loop test `norm(F) >= TOL` is modelled as
    `NormSquared(F) >= TOL*TOL`, which is the same for a non-negative norm.
- Matrix entries Armadillo leaves unset (`set_size`) are arbitrary values
  of the right shape.
- Armadillo's size and bounds exceptions are preconditions, never thrown.
- `getType`, `getParams`, `getTreeIdentifier`'s use by the user interface,
  the parameter names and units, and the destructors are not modelled.
- Roots.Root.SetPortResistances: `wdfRoot::setPortResistances` has an empty
  body, so the member has no contract. Its effect, that nothing changes, is
  stated by Trees.WdfTree.AdaptRoot.
- wdfTerminatedRtype is modelled only with the attenuator's RT1 hooks
  (`calculateUpRes` and `calculateScatterCoeffs`), because the library
  leaves both to the user. RT1 is built by the constructor but never joined
  to the tree, as in the code.
- The renderer is out of scope: its threads, audio buffers, oversampling
  and user interface. Its call sequence is modelled only by
  SwitchTrees.SwitchTree.Prepare and SwitchTrees.SwitchTree.ProcessSample.
  The sample values it converts to `float` are reals here.
- The connectedNode pointers of down ports are implicit: down port i always
  faces child i.
- SwitchTrees.SwitchTree.SetParam: requires an initialised tree and
  0 < paramValue < 1 for ID 1. At 0 or 1 one resistor is zero, and the code
  then depends on IEEE infinities in the parallel adaptor.
- SwitchTrees.SwitchTree.ProcessSample: the output law is stated for the
  tree as adapted by Prepare or SetParam. A sample on an unadapted tree is
  not covered.
- The nonlinear root's `solverType` argument is ignored, as in the code:
  every nonlinear root gets a Newton solver.
