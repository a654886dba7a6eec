# Rustacene core in Dafny

Rustacene is an artificial-life simulation. Organisms live on a square grid of cells. Each carries a
genome of 32-bit connection genes, and the genome is decoded into a small neural network (its "brain").
Each step, the brain turns sensor inputs into one of six actions. Initial genomes are grouped into
species by genetic distance, and pellets of food are spread over empty cells.

This project models the logic underneath the simulation and proves properties about it:

- **Genetic encoding** (`Genes`, `Genomes`, `Connections`, `Neurons`, `Activations`). A gene is a `bv32` with
  five bit fields. Replication flips at most one bit per gene, never bit 31. The distance between two
  genomes counts differing wiring and weight differences. A connection gene is decoded into an edge
  whose indices are folded into the input, hidden and output partitions of the node index space.
- **The current neural system** (`NeuralSystems`). Construction:
  - builds the graph;
  - keeps exactly the nodes that can reach an output, found by an explicit depth-first post-order
    search over the reversed graph;
  - classifies the kept nodes into sources, self-connected nodes and nodes to clear.

  The forward pass resets, snapshots, clears and walks the execution order, in place over an array of
  neurons. `GetAction` decodes the drawn output.
- **Three older generations of the neural system.**
  - `BfsNeuralSystems`: a breadth-first search backwards from the outputs, an edge list, a value map and
    the softmax of the source.
  - `DfsNeuralSystems`: sources found by depth-first searches in node order, and a queue-driven forward
    pass.
  - `LayeredNeuralSystems`: layering of connections by filters, and a layered forward pass.
- **Species.**
  - `Clustering`: greedy seed-based clustering of the initial genomes.
  - `SpeciesRegistry`: the registry class that gives each species a colour of its own.
- **Helpers.**
  - `Dirs` and `LegacyDirs`: compass directions.
  - `Actions`: action decoding.
  - `Coords`: coordinate arithmetic.
  - `Grids` and `LegacyGrids`: the world grid as a class over an `array2`, with its neighbourhood
    search and window extraction.
  - `Pellets`: the pellet rule.
- **Shared support.** `Graphs` holds edge lists and reachability for every neural-system generation.
  `Wrappers` holds `Option`.

Where the source mutates state, the model does too:

- The neural systems, the grids and the species registry are classes. Their methods modify fields or
  arrays and are proved against specification functions.
- The loops of the source (searches, classification, clustering, the distance sum, the layered passes)
  are methods with loop invariants.

Reals stand for `f32`. The numeric functions `tanh`, `exp` and the activation functions are
uninterpreted parameters. Random draws are nondeterministic choices, or explicit draw parameters in
pure functions.

Two behaviours of the code are worth naming, since a reader might expect otherwise:

- A hidden source is reset to its own threshold `w` at each forward pass
  (src/components/neural_system.rs:146-150).
- The genetic distance divides by the length of the second genome (src/components/genome.rs:53). It is
  therefore not symmetric, as `Genomes.DistanceAsymmetric` shows.

## Model

| member | source | states |
|---|---|---|
| Genes.Weight | src/components/gene.rs:18-22 | the raw weight is the low 15 bits of the gene, so it is below 2^15 |
| Genes.OutIndex | src/components/gene.rs:24-28 | the raw output index is bits 15-21, so it is below 128 |
| Genes.InIndex | src/components/gene.rs:30-34 | the raw input index is bits 22-28, so it is below 128 |
| Genes.OutType | src/components/gene.rs:36-40 | the output type is bit 29, so it is 0 or 1 |
| Genes.InType | src/components/gene.rs:42-46 | the input type is bit 30, so it is 0 or 1 |
| Genes.WeightF | src/components/gene.rs:11-16 | the float weight is the raw weight minus 0x4000 divided by `i16::MAX / 4` = 8191; it lies in [-16384/8191, 16383/8191] and is zero exactly when the raw weight is 0x4000 |
| Genes.FlipBit | src/components/gene.rs:48-51 | flipping bit `pos` changes the gene in exactly one bit, and that bit is bit `pos` |
| Genes.PackUnpack | src/components/gene.rs:7-46 | the five fields and the top bit cover the whole word: re-packing the fields of a gene gives the gene back |
| Genes.UnpackPack | src/components/gene.rs:7-46 | the fields do not overlap: packing any field values and reading them back gives each value unchanged |
| Genes.FlipBitInvolution | src/components/gene.rs:48-51 | flipping the same bit twice restores the gene |
| Genes.FlipWeightBit | src/components/gene.rs:18-51 | flipping a bit below 15 moves the raw weight by exactly 2^pos, up when the bit was clear and down when it was set, and leaves the other fields unchanged |
| Genes.FlipOutIndexBit | src/components/gene.rs:24-51 | flipping a bit in 15-21 toggles one bit of the output index and leaves the other fields unchanged |
| Genes.FlipInIndexBit | src/components/gene.rs:30-51 | flipping a bit in 22-28 toggles one bit of the input index and leaves the other fields unchanged |
| Genes.FlipOutTypeBit | src/components/gene.rs:36-51 | flipping bit 29 inverts the output type and leaves the other fields unchanged |
| Genes.FlipInTypeBit | src/components/gene.rs:42-51 | flipping bit 30 inverts the input type and leaves the other fields unchanged |
| Genes.TestVector | src/components/gene.rs:64-100 | the unit-test gene 1383925379 has weight 1667, output index 122, input index 73, output type 0 and input type 1; flipping bits 30, 29 and 12 gives input type 0, output type 1 and weight 5763 |
| Genomes.New | src/components/genome.rs:10-15 | a fresh genome holds exactly `len` genes, each drawn at random |
| Genomes.Replicate | src/components/genome.rs:22-37 | the child has one gene per parent gene, each the parent gene or that gene with the drawn bit flipped |
| Genomes.FlipIsOneBitApart | src/components/genome.rs:29-30 | a flip at a position below 31 changes exactly one bit and never the sign bit 31 |
| Genomes.ReplicateSound | src/components/genome.rs:22-37 | every outcome of replication is a replica: per gene either unchanged or one bit among 0-30 flipped, with bit 31 kept |
| Genomes.ReplicateComplete | src/components/genome.rs:22-37 | conversely, every replica is the outcome of some admissible draw at any rate strictly between 0 and 1 |
| Genomes.DrawFor | src/components/genome.rs:29-33 | for a gene and a replica of it there is an admissible draw (keep, or flip one position below 31) producing the replica |
| Genomes.ReplicateAtRateZero | src/components/genome.rs:29 | at mutation rate 0 no gene flips, so the child equals the parent |
| Genomes.ReplicateCanFlipInType | src/components/genome.rs:30 | bit 30 is among the candidate positions, so replication can change an input sensor into an internal node |
| Genomes.PairDistance | src/components/genome.rs:42-50 | an aligned pair contributes 1 when any of the four wiring fields differ, otherwise the absolute weight difference; it is 0 exactly when the wiring and the raw weight agree |
| Genomes.SumPairs | src/components/genome.rs:40-51 | the zipped sum of pair contributions is never negative |
| Genomes.Clamp01 | src/components/genome.rs:53 | the clamp lies in [0, 1] and leaves values already in [0, 1] unchanged |
| Genomes.Distance | src/components/genome.rs:39-54 | the distance is undefined (a NaN in the source) exactly when `other` is empty, and lies in [0, 1] otherwise |
| Genomes.GetDistance | src/components/genome.rs:39-54 | the accumulating loop over the zipped genes computes `Distance`, dividing by the length of `other` |
| Genomes.SumPairsSelf | src/components/genome.rs:40-51 | a genome zipped with itself sums to 0 |
| Genomes.PairDistanceSymmetric | src/components/genome.rs:42-50 | the pair contribution does not depend on the order of the pair |
| Genomes.SumPairsSymmetric | src/components/genome.rs:40-51 | the zipped sum does not depend on the order of the genomes |
| Genomes.DistanceToSelf | src/components/genome.rs:39-54 | a non-empty genome is at distance 0 from itself |
| Genomes.DistanceSymmetricEqualLength | src/components/genome.rs:39-54 | between genomes of equal length the distance is symmetric |
| Genomes.DistanceAsymmetric | src/components/genome.rs:41-53 | between genomes of different length it is not: the zip stops at the shorter genome but the divisor is the length of `other` (1/2 one way, 1 the other) |
| Genomes.DistanceTestVector | src/components/genome.rs:65-85 | the distance test: equal first genes, a weight difference in the second and different wiring in the third give (weight difference + 1) / 3 |
| Activations.Get | src/components/activation.rs:11-20 | indices 0-4 decode to Tanh, Sigmoid, ReLU, Gaussian and None, each to the variant whose index it is; the precondition `n < 5` is the panic arm |
| Activations.Index | src/components/activation.rs:11-20 | the index decoding to each variant is below 5 |
| Activations.GetOnto | src/components/activation.rs:11-20 | every variant is decoded from its index, so `get` is onto |
| Activations.GetInjective | src/components/activation.rs:11-20 | distinct indices decode to distinct variants, so `get` is one-to-one on 0-4 |
| Neurons.New | src/components/neuron.rs:11-18 | a new neuron keeps its threshold and activation and starts at value 0 |
| Neurons.FromGene | src/components/neuron.rs:20-31 | a neuron gene yields its node index, its memory flag and a neuron with the gene's threshold and activation at value 0 |
| Neurons.Fire | src/components/neuron.rs:33-40 | when the magnitude of the value exceeds the threshold the value is replaced by its activation and emitted; otherwise the neuron is unchanged and 0 is emitted |
| Neurons.FireOutputIsValueOrZero | src/components/neuron.rs:33-40 | the emitted signal is the neuron's value after firing, or 0 |
| Connections.FromSensors | src/components/conn.rs:13-24 | the type is InOut iff both flags are set, In iff only the input flag is, Out iff only the output flag is, and Internal iff neither is |
| Connections.FromSensorsRoundTrip | src/components/conn.rs:13-24 | both sensor flags can be read back from the type, as `renumber` does |
| Connections.RenumberInIndex | src/components/conn.rs:88-94 | a sensor-side input index is kept; any other moves up by the offset |
| Connections.RenumberOutIndex | src/components/conn.rs:96-102 | an output-sensor index moves up by the second offset, any other by the first |
| Connections.Renumber | src/components/conn.rs:70-85 | renumbering keeps weight and type, shifts hidden input indices past the inputs, output-sensor indices past inputs and hidden nodes, and hidden output indices past the inputs |
| Connections.FromGene | src/components/conn.rs:45-68 | a decoded connection has the gene's weight and the type of its two flag bits; its input index is below `input` for a sensor input and in `[input, input + hidden)` otherwise; its output index is in `[input + hidden, n)` for a sensor output and in `[input, input + hidden)` otherwise; a zero partition size it divides by is excluded, as it panics |
| Connections.FromGeneTypeFromTypeBits | src/components/conn.rs:48-65 | only bits 29 and 30 decide the connection type |
| Connections.FromGeneDirection | src/components/conn.rs:45-68 | a decoded edge never starts at an output node and never ends at an input node |
| Connections.FromGeneTestVector | src/components/conn.rs:108-131 | with shape (2, 1, 1) the three test genes decode to In 0→2, In 1→2 and Out 2→3 |
| Coords.New | src/coord.rs:10-14 | a new coordinate stores `x` and `y` unchanged |
| Coords.Add | src/coord.rs:27-36 | addition is componentwise: the sum exceeds `a` by `b` in each component |
| Coords.Sub | src/coord.rs:16-25 | subtraction is componentwise: adding `b` back to `a - b` gives `a` |
| Coords.AddAssign | src/coord.rs:38-43 | `a += b` leaves `a` equal to the old `a + b` |
| Coords.AddSubInverse | src/coord.rs:16-36 | over unbounded integers `(a + b) - b == a` |
| Coords.AddCommutative | src/coord.rs:27-36 | over unbounded integers `a + b == b + a` |
| Coords.AddAssociative | src/coord.rs:27-36 | over unbounded integers addition is associative |
| Dirs.Value | src/components/dir.rs:38-49 | the unit step of a direction has components in {-1, 0, 1} and is never (0, 0) |
| Dirs.Index | src/components/dir.rs:51-63 | the index decoding to each direction is below 8 |
| Dirs.Get | src/components/dir.rs:51-63 | indices 0-7 decode to N, S, E, W, NE, NW, SE and SW, each to the direction whose index it is; the precondition `index < 8` is the panic arm |
| Dirs.Sample | src/components/dir.rs:21-35 | a random direction comes from a draw in 0..8, which decodes like `get`, so the panic arm is never reached |
| Dirs.GetOnto | src/components/dir.rs:51-63 | every direction is decoded from its own index, so `get` is a bijection from 0-7 onto the directions |
| Dirs.Rotate | src/components/dir.rs:65-77 | a clockwise eighth turn maps the step (x, y) to the unit step in the direction of (x + y, y - x), the step turned 45 degrees clockwise |
| Dirs.RotateCounter | src/components/dir.rs:79-91 | a counter-clockwise eighth turn maps the step (x, y) to the unit step in the direction of (x - y, x + y), the step turned 45 degrees counter-clockwise |
| Dirs.Neg | src/components/dir.rs:131-146 | the opposite direction has the negated unit step, componentwise |
| Dirs.RotateInverse | src/components/dir.rs:65-91 | clockwise and counter-clockwise rotation undo each other |
| Dirs.RotateFourTimesIsNeg | src/components/dir.rs:65-77 | four clockwise eighth turns give the opposite direction |
| Dirs.RotateEightTimesIsIdentity | src/components/dir.rs:65-77 | eight clockwise eighth turns give the direction back |
| Dirs.NegInvolution | src/components/dir.rs:131-146 | negation is an involution |
| Dirs.ValueInjective | src/components/dir.rs:38-49 | distinct directions have distinct unit steps |
| Dirs.ToArr | src/components/dir.rs:93-128 | the four-slot encoding sets slot 0 iff the step's y is 1, slot 1 iff y is -1, slot 2 iff x is 1 and slot 3 iff x is -1, and leaves the others 0 |
| LegacyDirs.Value | src/dir.rs:37-48 | the unit step of a direction has components in {-1, 0, 1} and is never (0, 0) |
| LegacyDirs.Index | src/dir.rs:50-62 | the index decoding to each direction is below 8 |
| LegacyDirs.Get | src/dir.rs:50-62 | indices 0-7 decode to the eight directions, each to the direction whose index it is; larger indices are the panic arm |
| LegacyDirs.Sample | src/dir.rs:20-34 | a draw in 0..8 decodes like `get`, so the panic arm of sampling is unreachable |
| LegacyDirs.GetOnto | src/dir.rs:50-62 | every direction is decoded from its own index, so `get` is a bijection from 0-7 |
| LegacyDirs.Neg | src/dir.rs:65-80 | the opposite direction has the negated unit step, componentwise |
| LegacyDirs.NegInvolution | src/dir.rs:65-80 | negation is an involution |
| Actions.Index | src/components/action.rs:14-37 | the index decoding to each action is below `N_ACTIONS` = 6 |
| Actions.Get | src/components/action.rs:27-37 | indices 0-5 decode to Halt, MoveContinue, MoveRandom, MoveReverse, Rotate and RotateCounter; 6 and above are the panic arm |
| Actions.GetOnto | src/components/action.rs:14-37 | every action is decoded from an index below `N_ACTIONS`, which is therefore the number of actions |
| Actions.GetDir | src/components/action.rs:16-25 | MoveContinue keeps the heading, MoveRandom takes the drawn one, MoveReverse negates it, and Rotate and RotateCounter turn it; Halt panics and is excluded |
| Actions.GetDirUndo | src/components/action.rs:20-22 | reversing twice, or rotating clockwise then counter-clockwise, restores the heading |
| Pellets.PelletCount | src/systems/simulation_system/generate_pellets.rs:8 | `100 * (250 / n)` with integer division, clamped to `0..n`, never exceeds `n`; `n = 0` divides by zero and is excluded, as the caller guards it |
| Pellets.PelletCountClosedForm | src/systems/simulation_system/generate_pellets.rs:8 | the count is `n` up to 125 entities, 100 from 126 to 250, and 0 above 250 |
| Pellets.GeneratePellets | src/systems/simulation_system/generate_pellets.rs:6-14 | the pellets are distinct Empty cells of the grid, as many as the count or as there are Empty cells, whichever is smaller |
| Grids.RowCellsSpec | src/resources/grid.rs:26-37 | the scan of one row keeps exactly the cells of that row holding the type, in column order |
| Grids.CellsFromSpec | src/resources/grid.rs:26-37 | the scan of the rows from `x` on keeps exactly the cells of those rows holding the type, in row-major order |
| Grids.Grid.GetCellCoords | src/resources/grid.rs:26-37 | `get_cell_coords(t)` lists exactly the coordinates on the grid holding `t`, in row-major order and so without repetition |
| Grids.ScanLineSpec | src/resources/grid.rs:52-70 | the inner loop keeps exactly the wanted cells of its columns (not the origin, on the grid, holding the type), in increasing order |
| Grids.ScanSound | src/resources/grid.rs:45-70 | everything the search keeps is within Chebyshev radius `r` of the origin, is not the origin, lies on the grid and holds the requested type |
| Grids.ScanComplete | src/resources/grid.rs:45-70 | every such cell of the window is kept |
| Grids.ScanIncreasing | src/resources/grid.rs:51-52 | the search lists its cells in row-major order, hence without repetition |
| Grids.ScanBeforeLine | src/resources/grid.rs:51-52 | every cell of the rows already scanned comes before every cell of the next row |
| Grids.ScanLineIncreasing | src/resources/grid.rs:52-70 | one row of the scan lists its cells in increasing column order |
| Grids.IncreasingAppend | src/resources/grid.rs:51-52 | the rows of the outer loop come one after another in row-major order, so their concatenation stays ordered |
| Grids.Grid.constructor | src/resources/grid.rs:11-16 | a new grid has the given shape and every cell Empty |
| Grids.Grid.Get | src/resources/grid.rs:22-24 | the cell read at (x, y) is the one type whose cell list contains (x, y) |
| Grids.Grid.Set | src/resources/grid.rs:18-24 | after `set(x, y, t)` the cell reads `t` and every other cell is unchanged; indices must be in bounds |
| Grids.Grid.SearchArea | src/resources/grid.rs:39-74 | the nested loops compute the scan of the whole window, so by `ScanSound`, `ScanComplete` and `ScanIncreasing` the result is exactly the wanted cells in row-major order; the bounds check uses the first dimension for both axes, so the second dimension must be at least the first |
| Grids.Grid.SearchLine | src/resources/grid.rs:52-70 | the inner loop appends the scan of one row of the window |
| Grids.Grid.GetArea | src/resources/grid.rs:76-107 | the result is a (2r+1) x (2r+1) window whose cell (x + r, y + r) is the grid cell at origin + (x, y), or Empty when that lies off the grid |
| Grids.ProbeOnEmptyGrid | src/resources/grid.rs:58-69 | on an all-Empty grid one offset is kept exactly when it is not the origin and lies on the grid |
| Grids.ShortLine | src/resources/grid.rs:51-52 | with radius 1 a row of the window is its three offsets |
| Grids.ShortScan | src/resources/grid.rs:51-52 | with radius 1 the window is its three rows |
| Grids.ScanOnEmptyGrid | src/resources/grid.rs:39-74 | on an all-Empty grid the radius-1 search finds exactly the on-grid neighbours of the origin |
| Grids.SearchAreaOnEmptyGrid | src/resources/grid.rs:115-125 | on an all-Empty 100 x 100 grid the radius-1 search finds 8 cells around (10, 10) and 3 around (0, 0) |
| Grids.SearchAreaTest | src/resources/grid.rs:114-125 | the search test: 8 neighbours in the interior and 3 in the corner |
| Grids.GetAreaTest | src/resources/grid.rs:127-143 | the window test: an 11 x 11 window with Consumable at (5, 10) and (10, 10), Impassable at (1, 0) and Empty at (3, 2) |
| LegacyGrids.Grid.Init | src/grid.rs:18-23 | a new grid has the given shape and every cell Empty |
| LegacyGrids.Grid.GetCoords | src/grid.rs:25-60 | the nested loops compute the same scan as the newer search, so the result is exactly the cells within radius, other than the origin, on the grid and holding the type, in row-major order; the bounds check uses the first dimension for both axes |
| LegacyGrids.Grid.CoordsLine | src/grid.rs:38-57 | the inner loop appends the scan of one row of the window, skipping the origin and cells off the grid |
| LegacyGrids.FreeCoordsTest | src/grid.rs:68-79 | on an all-Empty 100 x 100 grid the radius-1 search finds 8 cells around (10, 10) and 3 around (0, 0) |
| SpeciesRegistry.ColorAt | src/resources/species.rs:20-24 | the k-th colour of the draw space has every channel in 0..254 |
| SpeciesRegistry.ColorAtInjective | src/resources/species.rs:20-24 | distinct positions of the draw space are distinct colours |
| SpeciesRegistry.HoldsFirstColors | src/resources/species.rs:19-25 | a set holding the first `m` colours of the draw space has at least `m` elements |
| SpeciesRegistry.FreshColorExists | src/resources/species.rs:19-59 | while fewer than 255^3 colours are in use, some drawable colour is still free, so the retry loops can end |
| SpeciesRegistry.RegisterKeeps | src/resources/species.rs:45-60 | registering a new id with a fresh drawable colour keeps the registry invariant: one colour per id, no colour shared, as many colours as ids |
| SpeciesRegistry.AddKeyValues | src/resources/species.rs:55-56 | adding a fresh key to the colour map adds exactly its colour to the colours in use |
| SpeciesRegistry.AddKeyInjective | src/resources/species.rs:54-56 | a colour not yet in use keeps the colour map one-to-one |
| SpeciesRegistry.DrawFresh | src/resources/species.rs:48-54 | a successful draw yields a colour with channels in 0..254 not yet in use |
| SpeciesRegistry.DrawColors | src/resources/species.rs:16-25 | the drawing loop of `new` ends with exactly as many distinct drawable colours as ids |
| SpeciesRegistry.Pair | src/resources/species.rs:27-30 | zipping the ids with the colours gives every id its own colour and uses every colour |
| SpeciesRegistry.Species.constructor | src/resources/species.rs:14-37 | after `new` the ids are the given ones, each has one colour, all colours are distinct and the map keys are the ids |
| SpeciesRegistry.Species.NextSpecies | src/resources/species.rs:39-42 | the next species id is the number of registered ids, which equals the number of colours and of map keys |
| SpeciesRegistry.Species.AddSpecies | src/resources/species.rs:44-61 | a registered id changes nothing; a new id is added with a colour not previously in use, and every earlier id keeps its colour |
| SpeciesRegistry.Species.GetColor | src/resources/species.rs:63-69 | the colour is WHITE exactly for an unknown id, and otherwise the stored colour, one of those in use |
| SpeciesRegistry.AddSpeciesGrowsNext | src/resources/species.rs:39-61 | registering a new id raises the next species id by one; registering a known id leaves it unchanged |
| SpeciesRegistry.RegistryExample | src/resources/species.rs:14-69 | a registry of ids {0, 1, 2} has next id 3, a non-WHITE colour for a known id and WHITE for an unknown one; adding id 7 gives it a colour of its own and makes the next id 4 |
| Clustering.Owner | src/systems/world_system/init_world.rs:53-71 | the genome whose species `j` joins is `j` itself or an earlier genome |
| Clustering.OwnerFrom | src/systems/world_system/init_world.rs:53-71 | the first seed from `i` on that `j` joins lies between `i` and `j` |
| Clustering.SeedCount | src/systems/world_system/init_world.rs:51-74 | the species counter after `j` genomes is at most `j` |
| Clustering.SpeciesOf | src/systems/world_system/init_world.rs:58-69 | the species id of genome `j` is at most `j` |
| Clustering.OwnerFromSpec | src/systems/world_system/init_world.rs:53-71 | the owner found from `i` on is a seed the genome joins, and no seed between `i` and it is joined |
| Clustering.OwnerSpec | src/systems/world_system/init_world.rs:53-71 | a genome joins the species of the first earlier seed within the threshold; with none, it seeds its own |
| Clustering.Unclaimed | src/systems/world_system/init_world.rs:54-71 | a later genome left to seed `i` is taken by it exactly when `i` is a seed and the genome is within the threshold of it |
| Clustering.AssignAll | src/systems/world_system/init_world.rs:67-69 | the member loop writes the species id into every member slot and leaves every other slot unchanged, in any iteration order |
| Clustering.ClusterSpecies | src/systems/world_system/init_world.rs:47-78 | the assignment has one entry per genome, each the id of the first earlier seed it joins (its own new id when it joins none), independently of the set iteration order; the species set is exactly {0 .. k-1} for the final counter k |
| Clustering.VisitGenome | src/systems/world_system/init_world.rs:53-75 | one turn of the loop keeps the loop invariant: the unassigned genomes are exactly the later ones no seed so far has claimed, and every claimed genome holds its final id |
| Clustering.SeedVisited | src/systems/world_system/init_world.rs:54-75 | visiting an unassigned genome makes it the seed of species `counter`, claims its members, takes the counter up by one and keeps the loop invariant |
| Clustering.SkipVisited | src/systems/world_system/init_world.rs:54-56 | visiting an already assigned genome changes nothing and keeps the loop invariant |
| Clustering.OwnerIsSeed | src/systems/world_system/init_world.rs:53-71 | every genome ends up in the species of a seed |
| Clustering.Claim | src/systems/world_system/init_world.rs:60-71 | a seed takes exactly the unassigned genomes it owns, and the rest stay unassigned |
| Clustering.ClaimData | src/systems/world_system/init_world.rs:58-69 | after a seed and its members are written, every genome owned by a seed so far holds its final id |
| Clustering.SeedIff | src/systems/world_system/init_world.rs:53-65 | a genome becomes a seed exactly when no earlier seed is within the threshold of it |
| Clustering.SeedCountMonotone | src/systems/world_system/init_world.rs:73-74 | the species counter never decreases |
| Clustering.SeedIdsIncrease | src/systems/world_system/init_world.rs:58-74 | a later seed receives a larger species id than an earlier one, so ids are given in seed order |
| Clustering.EveryIdHasSeed | src/systems/world_system/init_world.rs:58-74 | every id below the final counter belongs to a seed, so the ids are consecutive from 0 |
| Clustering.FirstGenomeSeedsSpeciesZero | src/systems/world_system/init_world.rs:53-58 | the first genome always seeds species 0 |
| Clustering.DistanceOfThree | src/components/genome.rs:39-54 | the distance between two three-gene genomes is the clamped third of their summed pair contributions |
| Clustering.SumPairsAtLeast | src/components/genome.rs:39-50 | the summed contributions are at least any single pair's contribution |
| Clustering.SumPairsSingle | src/components/genome.rs:39-50 | when every pair but one contributes 0, the sum is that pair's contribution |
| Clustering.SumPairsZero | src/components/genome.rs:39-50 | when every pair contributes 0, the sum is 0 |
| Clustering.PairDistanceSelf | src/components/genome.rs:42-47 | a gene contributes 0 against itself |
| Clustering.PairsOfWeightApart | src/components/genome.rs:42-49 | genomes differing only in the weight of gene `k` have contribution `delta / 8191` at `k` and 0 elsewhere |
| Clustering.SumOfWeightApart | src/components/genome.rs:39-50 | genomes differing only in the weight of gene `k` sum to `delta / 8191` |
| Clustering.FarApart | src/components/genome.rs:39-54 | two three-gene genomes whose wiring differs in one gene are at distance at least 1/3 |
| Clustering.WeightDelta | src/components/genome.rs:42-47 | two genes with the same wiring whose raw weights differ by `delta` contribute `delta / 8191` |
| Clustering.WeightApart | src/components/genome.rs:39-54 | two three-gene genomes differing only in the weight of one gene, by `delta` raw units, are `delta / 8191 / 3` apart |
| Clustering.TestJoins | src/systems/world_system/init_world.rs:90-126 | in the test population, genomes 1 and 2 are within 0.1 of genome 0 and genome 4 of genome 3, while 3, 4 and 5 are not within 0.1 of genome 0 nor 5 of genome 3 |
| Clustering.OwnersOfTestShape | src/systems/world_system/init_world.rs:53-71 | six genomes with those joins have genomes 0, 3 and 5 as seeds, owning [0, 0, 0, 3, 3, 5] |
| Clustering.SeedCountsOfTestShape | src/systems/world_system/init_world.rs:58-74 | with seeds 0, 3 and 5 the ids are [0, 0, 0, 1, 1, 2] and the counter ends at 3 |
| Clustering.ClusteringTestVector | src/systems/world_system/init_world.rs:85-128 | the clustering test at threshold 0.1 gives species [0, 0, 0, 1, 1, 2] and three species in all |
| NeuralSystems.ConnEdges | src/components/neural_system.rs:48-50 | one graph edge per connection, from its input index to its output index with its weight, in connection order |
| NeuralSystems.PushPreds | src/components/neural_system.rs:59-65 | a first visit pushes only nodes that reach the search root, keeps the stack, and leaves every predecessor of the node either discovered or on the stack |
| NeuralSystems.PopKeeps | src/components/neural_system.rs:59-65 | popping the top of the search stack keeps every other node on it |
| NeuralSystems.DiscoverStep | src/components/neural_system.rs:59-65 | discovering the top of the stack and pushing its predecessors keeps the search state: every predecessor of a discovered node is discovered or on the stack |
| NeuralSystems.PopStep | src/components/neural_system.rs:59-65 | popping a node seen before and emitting it if not yet emitted keeps each node emitted at most once and exactly the finished ones |
| NeuralSystems.OrderedSnoc | src/components/neural_system.rs:59-65 | appending a node whose predecessors other than itself are all listed keeps the list in dependency order |
| NeuralSystems.TopReachesGray | src/components/neural_system.rs:59-65 | the node on top of the search stack reaches every node whose visit is still open |
| NeuralSystems.NewGrayWaits | src/components/neural_system.rs:59-65 | on a graph without cycles, a predecessor of a newly visited node is finished already or waits above it on the stack |
| NeuralSystems.DiscoverOrder | src/components/neural_system.rs:59-65 | on a graph without cycles, a first visit keeps the emitted nodes in dependency order and every unfinished predecessor of an open node above it on the stack |
| NeuralSystems.PopOrder | src/components/neural_system.rs:59-65 | popping a node keeps the emitted nodes in dependency order: all its predecessors were emitted before it |
| NeuralSystems.Discover | src/components/neural_system.rs:59-65 | a first visit of the top node keeps the whole search state: reachability, the open visits and, without cycles, the post-order |
| NeuralSystems.Pop | src/components/neural_system.rs:59-65 | popping a discovered node and emitting it once keeps the whole search state |
| NeuralSystems.DfsPostOrder | src/components/neural_system.rs:59-65 | the post-order search over the reversed graph lists each node at most once, lists exactly the nodes that can reach the start, and, when the graph has no cycle, lists every predecessor of a node before the node (post-order) |
| NeuralSystems.ExecutionOrder | src/components/neural_system.rs:52-66 | the execution order holds no node twice, holds exactly the nodes that can reach some output, and, when the graph has no cycle, puts every predecessor of a node before the node |
| NeuralSystems.PlaceNext | src/components/neural_system.rs:60-64 | the next node of a search joins the execution order in dependency order when all it emitted before is placed |
| NeuralSystems.SetOf | src/components/neural_system.rs:68-69 | the set of a node list holds exactly its elements |
| NeuralSystems.PrunedEdges | src/components/neural_system.rs:68-74 | removing the nodes that neither reach an output nor are inputs keeps exactly the edges both of whose ends are kept |
| NeuralSystems.Classify | src/components/neural_system.rs:76-106 | the classification loop yields exactly the inputs plus the nodes whose incoming edges are all self-loops as sources, and the nodes with a self-loop as self-connected |
| NeuralSystems.PrunedCountsAgree | src/components/neural_system.rs:68-74 | removing the nodes that cannot reach an output leaves the incoming and self-loop counts of a kept node whose predecessors are all kept unchanged |
| NeuralSystems.IncomingOfExecutionSet | src/components/neural_system.rs:68-74 | every predecessor of a node that reaches an output survives the pruning |
| NeuralSystems.SourcesCharacterised | src/components/neural_system.rs:76-106 | a node is a source exactly when it is an input, or it reaches an output and every edge into it in the unpruned graph is a self-loop |
| NeuralSystems.SelfConnectedCharacterised | src/components/neural_system.rs:95-101 | a node is self-connected exactly when it reaches an output and carries a self-loop |
| NeuralSystems.InitialNeurons | src/components/neural_system.rs:33-46 | the graph has input plus hidden plus output neurons, in that order |
| NeuralSystems.Build | src/components/neural_system.rs:23-119 | construction yields the pruned edges, an execution order of exactly the nodes reaching an output, in dependency order when the graph has no cycle, the classified sources and self-connected nodes, and the nodes to clear, which are the ordered nodes that are neither sources nor memory |
| NeuralSystems.AddAlong | src/components/neural_system.rs:193-218 | propagating along edges changes only neuron values, never thresholds or activations, and keeps the neuron count |
| NeuralSystems.AddAlongSnoc | src/components/neural_system.rs:214-218 | propagating along one more edge adds its weight times the sent value to its target and leaves every other neuron unchanged |
| NeuralSystems.AddAlongValue | src/components/neural_system.rs:193-218 | each node gains exactly the sent value times the summed weight of the selected edges into it |
| NeuralSystems.AddAlongUntargeted | src/components/neural_system.rs:214-218 | a node that no selected edge enters keeps its neuron |
| NeuralSystems.Reset | src/components/neural_system.rs:141-151 | resetting the sources keeps the neuron count |
| NeuralSystems.Snapshot | src/components/neural_system.rs:153-162 | the snapshot holds one value for each self-connected node, and no other |
| NeuralSystems.Clear | src/components/neural_system.rs:164-170 | clearing keeps the neuron count |
| NeuralSystems.Step | src/components/neural_system.rs:172-219 | one step of the walk keeps the neuron count |
| NeuralSystems.Walk | src/components/neural_system.rs:172-220 | walking the execution order keeps the neuron count |
| NeuralSystems.ForwardState | src/components/neural_system.rs:139-220 | a forward pass keeps the neuron count |
| NeuralSystems.Outputs | src/components/neural_system.rs:222-236 | the result has one value per output, the i-th being the value of the i-th output neuron |
| NeuralSystems.StepKeeps | src/components/neural_system.rs:205-219 | a step leaves alone a node that no edge enters, unless that step fires the node itself |
| NeuralSystems.WalkKeeps | src/components/neural_system.rs:172-220 | the walk leaves alone a source without self-loops that no edge enters |
| NeuralSystems.SourcesHoldResetValue | src/components/neural_system.rs:141-151 | a source that no edge enters ends the pass with its reset value: its input for an input node, its threshold for a hidden one |
| NeuralSystems.WalkStart | src/components/neural_system.rs:141-170 | before the walk, sources hold their reset value, other ordered nodes are zero unless they are memory nodes, which keep the previous value, and each self-connected node's snapshot is its value after the reset |
| NeuralSystems.ForwardOutputsLength | src/components/neural_system.rs:222-236 | a forward pass returns one value per output |
| NeuralSystems.DrawWeights | src/components/neural_system.rs:124-129 | a negative output weighs nothing in the draw, a positive output weighs its own value, and no weight is negative |
| NeuralSystems.ChooseIndex | src/components/neural_system.rs:131-134 | with some positive output the draw picks an index of positive weight; with none it falls back to index 0 |
| NeuralSystems.NeuralSystem.constructor | src/components/neural_system.rs:23-119 | the system holds the built structure (dependency-ordered on graphs without cycles) and a fresh array of the initial neurons for the given shape and connections |
| NeuralSystems.NeuralSystem.AddAlongInPlace | src/components/neural_system.rs:193-218 | in-place propagation leaves the neurons as the propagation function computes them |
| NeuralSystems.NeuralSystem.StepInPlace | src/components/neural_system.rs:172-219 | one in-place step leaves the neurons as the step function computes them |
| NeuralSystems.NeuralSystem.ResetInPlace | src/components/neural_system.rs:141-151 | the in-place reset agrees with the reset function |
| NeuralSystems.NeuralSystem.TakeSnapshot | src/components/neural_system.rs:153-162 | the snapshot taken agrees with the snapshot function |
| NeuralSystems.NeuralSystem.ClearInPlace | src/components/neural_system.rs:164-170 | the in-place clearing agrees with the clearing function |
| NeuralSystems.NeuralSystem.WalkInPlace | src/components/neural_system.rs:172-220 | the in-place walk over the whole execution order agrees with the walk function |
| NeuralSystems.NeuralSystem.ReadOutputs | src/components/neural_system.rs:222-236 | the returned outputs are the output neurons' values |
| NeuralSystems.NeuralSystem.Forward | src/components/neural_system.rs:139-237 | a forward pass leaves the neurons in the state the pass function defines and returns the output values |
| NeuralSystems.NeuralSystem.GetAction | src/components/neural_system.rs:121-137 | the pass runs once; with no positive output the action is Halt, otherwise it is the action of some output with positive value |
| NeuralSystemTests.SelfSourceOrder | src/components/neural_system.rs:311-324 | in the self-connected-source test the only dependency order of the hidden node and the output is hidden first |
| NeuralSystemTests.SelfSourceStructure | src/components/neural_system.rs:311-324 | the test system runs hidden node 1 then output 2, keeps every edge, has the input and node 1 as its two sources, node 1 self-connected, and clears only the output |
| NeuralSystemTests.SelfSourceForward | src/components/neural_system.rs:326-339 | with input 0 the output is tanh(tanh(0.5 + 0.5 * (0.7 + 1 + 0.3)) * 0.2): the source resets to its threshold 0.5 and adds its snapshot along its three self-loops |
| NeuralSystemTests.SelfConnectedSourceTest | src/components/neural_system.rs:311-340 | building the test system and running one forward pass returns that single output |
| NeuralSystemTests.SelfOrder | src/components/neural_system.rs:342-356 | in the self-connected test the dependency orders are the two inputs in either order, then the hidden node, then the output |
| NeuralSystemTests.SelfStructure | src/components/neural_system.rs:342-356 | the test system has one of those orders, keeps every edge, has the inputs as sources, node 2 self-connected, and clears nodes 2 and 3 |
| NeuralSystemTests.SelfForward | src/components/neural_system.rs:363-375 | with node 2 at 0.74 and input [0.9, 0.4] the output is tanh(tanh(0.74 * (0.7 + 1 + 0.3) + 0.9 * 1.2 + 0.4 * 0.9) * 0.2), in either order of the inputs |
| NeuralSystemTests.SelfConnectedTest | src/components/neural_system.rs:342-381 | building the test system, setting node 2 to 0.74 and running one forward pass returns that single output |
| NeuralSystemTests.OrderingOrder | src/components/neural_system.rs:278-295 | in the ordering test the dependency orders put hidden 3 before hidden 2 before hidden 1 before the output, with the input anywhere before hidden 1 |
| NeuralSystemTests.OrderingStructure | src/components/neural_system.rs:278-296 | the test system has one of those three orders, keeps every edge, has exactly two sources (the input and hidden 3), nothing self-connected, and clears nodes 1, 2 and 4 |
| NeuralSystemTests.OrderingForward | src/components/neural_system.rs:298-303 | with input 0.8 the output is tanh(tanh(tanh(0.5 * 0.4) * 0.6 + 0.8) * 0.5) in each of the three orders |
| NeuralSystemTests.OutputNodeOrderingTest | src/components/neural_system.rs:278-309 | building the test system gives two sources, and one forward pass returns that single output |
| BfsNeuralSystems.InEdgesSpec | src/components/ns.rs:58-74 | the incoming walk of a node yields exactly the edges into it |
| BfsNeuralSystems.InEdgesMember | src/components/ns.rs:68-70 | each edge collected for a node is an edge of the graph into that node |
| BfsNeuralSystems.IntoSetSpec | src/components/ns.rs:75 | the edges collected for a set of nodes are exactly the graph's edges into that set |
| BfsNeuralSystems.IntoSetNone | src/components/ns.rs:51 | nothing is collected before any node is processed |
| BfsNeuralSystems.IntoSetAdd | src/components/ns.rs:75 | processing one more node adds exactly its incoming edges to the collection, as a multiset |
| BfsNeuralSystems.IntoSetSame | src/components/ns.rs:75 | two node sets that contain the same edge targets collect the same edges |
| BfsNeuralSystems.Reversed | src/components/ns.rs:78 | the reversal has the same length and puts the i-th last edge at position i |
| BfsNeuralSystems.ReversedMultiset | src/components/ns.rs:78 | reversing the collected edges keeps them as a multiset |
| BfsNeuralSystems.PopFront | src/components/ns.rs:56-57 | the popped head is a connected, unprocessed, non-input node that reaches an output, and the search invariant holds for the rest of the queue |
| BfsNeuralSystems.PushBack | src/components/ns.rs:71-73 | enqueueing a newly connected node that reaches an output keeps the search invariant and grows the connected set by one |
| BfsNeuralSystems.EdgeReaches | src/components/ns.rs:68-73 | the source of an edge into a node that reaches an output reaches it too |
| BfsNeuralSystems.Enqueue | src/components/ns.rs:71-73 | the edge's source ends up connected, and it is appended to the back of the queue exactly when it was not connected before |
| BfsNeuralSystems.SourcesGrow | src/components/ns.rs:68-73 | once an edge's source is connected, all sources walked so far are connected |
| BfsNeuralSystems.TakeOneMore | src/components/ns.rs:68-70 | the walked prefix grows by the next edge |
| BfsNeuralSystems.FirstSeenSpec | src/components/ns.rs:68-73 | the nodes a walk enqueues are distinct, none of them was connected before, and they are exactly the unconnected sources of the walked edges |
| BfsNeuralSystems.FirstSeenAppend | src/components/ns.rs:68-73 | walking two edge lists one after the other enqueues what the first enqueues, then what the second enqueues once those are connected too |
| BfsNeuralSystems.FirstSeenSnoc | src/components/ns.rs:71-73 | one more edge enqueues its source exactly when that source is not connected yet |
| BfsNeuralSystems.CollectedSnoc | src/components/ns.rs:75 | dequeuing one more node appends its incoming edges to the collected ones |
| BfsNeuralSystems.WalkingEnd | src/components/ns.rs:68-74 | at the end of the inner loop the queue is the old tail followed by the newly seen sources, and the connected set grew by exactly those |
| BfsNeuralSystems.VisitIncoming | src/components/ns.rs:57-75 | the inner loop collects exactly the edges into the head node, removes the head and appends to the back of the queue each source not yet connected, once, in the order its edges were walked, connects them, and keeps the search invariant with the head processed |
| BfsNeuralSystems.OutputQueue | src/components/ns.rs:52 | the initial queue lists the output nodes in index order |
| BfsNeuralSystems.SearchStart | src/components/ns.rs:50-54 | the inputs and outputs, connected, with the outputs queued, meet the search invariant |
| BfsNeuralSystems.FifoStart | src/components/ns.rs:50-54 | before any dequeue the queue is the outputs in index order, the connected set the inputs and outputs, and nothing is collected |
| BfsNeuralSystems.FirstSeenStep | src/components/ns.rs:68-75 | walking the edges of one more node from the current connected set enqueues exactly the sources the whole collected walk sees for the first time |
| BfsNeuralSystems.FifoStep | src/components/ns.rs:56-75 | dequeuing the head and walking its incoming edges keeps the queue first-in first-out: everything ever enqueued is the outputs followed by each newly seen source in walk order |
| BfsNeuralSystems.LoopStep | src/components/ns.rs:56-76 | dequeuing the head and walking its incoming edges keeps the outer invariant: reachability bookkeeping, the first-in first-out queue, and the collected edges as those into the processed nodes |
| BfsNeuralSystems.VisitNext | src/components/ns.rs:56-76 | one turn of the outer loop dequeues the head, appends its incoming edges to the collection and keeps the search and queue invariants |
| BfsNeuralSystems.SearchEnd | src/components/ns.rs:56-76 | when the queue empties, the connected nodes are exactly the inputs and the nodes with a path to an output, and the collected edges are exactly those into connected nodes |
| BfsNeuralSystems.Connect | src/components/ns.rs:50-78 | the breadth-first search connects exactly the inputs and the nodes with a path to an output; the nodes are dequeued first-in first-out, the outputs in index order and then each newly connected source in the order its edge was walked; the result is the incoming edges of the dequeued nodes, node after node, reversed |
| BfsNeuralSystems.NodesJoinConnected | src/components/ns.rs:56-76 | every collected edge joins two connected nodes and never enters an input |
| BfsNeuralSystems.IsHiddenSource | src/components/ns.rs:92-105 | a hidden node passes the test exactly when every edge into it is a self-loop, vacuously so when there is none |
| BfsNeuralSystems.ClassifySources | src/components/ns.rs:80-107 | the sources are exactly the inputs and the connected hidden nodes whose incoming edges are all self-loops; no output is a source |
| BfsNeuralSystems.InitWeights | src/components/ns.rs:109-115 | every connected node gets a value, 0.5 for a source and 0 otherwise |
| BfsNeuralSystems.EdgeStep | src/components/ns.rs:158-181 | one edge of the walk keeps the keys of the value and activation maps |
| BfsNeuralSystems.Walked | src/components/ns.rs:158-181 | the walk over the first `k` collected edges keeps the keys of the value and activation maps |
| BfsNeuralSystems.WalkedKeeps | src/components/ns.rs:158-181 | an activated node that no edge enters keeps its value and stays activated through the first `k` edges |
| BfsNeuralSystems.Propagate | src/components/ns.rs:158-181 | the walk keeps the keys of the value and activation maps |
| BfsNeuralSystems.PropagateKeeps | src/components/ns.rs:158-181 | an activated node that no edge enters keeps its value and stays activated through the walk |
| BfsNeuralSystems.ReadOutputs | src/components/ns.rs:183-190 | one value per output, the i-th being the value of the i-th output node |
| BfsNeuralSystems.SumExp | src/components/ns.rs:204-206 | the sum of exponentials is nonnegative when every exponential is |
| BfsNeuralSystems.SumExpPositive | src/components/ns.rs:204-206 | the sum of exponentials over a non-empty output vector is positive |
| BfsNeuralSystems.Softmax | src/components/ns.rs:203-208 | the softmax has one entry per value |
| BfsNeuralSystems.SoftmaxScales | src/components/ns.rs:203-208 | each entry times the sum of exponentials is the raw value, so an entry is positive or zero exactly when its value is |
| BfsNeuralSystems.SoftmaxAt | src/components/ns.rs:204-208 | the sum of exponentials is positive and each entry is its value divided by it |
| BfsNeuralSystems.DivideByPositive | src/components/ns.rs:207 | a quotient by a positive sum, multiplied back, gives the value, and has the value's sign |
| BfsNeuralSystems.Evaluated | src/components/ns.rs:143-181 | setting the inputs and walking the edges keeps the keys of the value map |
| BfsNeuralSystems.SetInputs | src/components/ns.rs:145-149 | setting the inputs keeps the node set; a present node below the input count takes its input value, every other node keeps its value |
| BfsNeuralSystems.SetInputsStep | src/components/ns.rs:145-149 | setting one more input updates that entry only if it is present |
| BfsNeuralSystems.NeuralSystem.constructor | src/components/ns.rs:39-123 | the values are kept for exactly the inputs and the nodes with a path to an output; the edges are the incoming edges of the nodes in their first-in first-out dequeue order, reversed; the sources are classified as above, and sources start at 0.5, the rest at 0 |
| BfsNeuralSystems.NeuralSystem.SetInputsInPlace | src/components/ns.rs:145-149 | setting the inputs in place agrees with the input-setting function |
| BfsNeuralSystems.NeuralSystem.StepInPlace | src/components/ns.rs:158-181 | one edge step in place agrees with the edge-step function |
| BfsNeuralSystems.NeuralSystem.WalkInPlace | src/components/ns.rs:158-181 | the walk in place agrees with the walk function |
| BfsNeuralSystems.NeuralSystem.ReadOutputsInPlace | src/components/ns.rs:183-190 | reading the outputs in place agrees with the output function |
| BfsNeuralSystems.ClearNonSources | src/components/ns.rs:192-197 | clearing keeps the node set, keeps every source's value and sets every other value to 0 |
| BfsNeuralSystems.NeuralSystem.ClearInPlace | src/components/ns.rs:192-197 | clearing in place zeroes every value that is not a source's and keeps the others |
| BfsNeuralSystems.EvaluatedKeepsInputs | src/components/ns.rs:145-198 | after the pass and the clearing every input node holds its input: no edge enters an input node and input nodes are sources |
| BfsNeuralSystems.NeuralSystem.Forward | src/components/ns.rs:143-200 | the result is the softmax of the outputs after the walk, with one entry per output; afterwards every non-source value is 0, the inputs hold the given inputs, and the node set is unchanged |
| DfsNeuralSystems.GeneToConn | src/ns/ns.rs:144-173 | the weight is the gene's weight, the sensor flags are its type bits, a sensor input lands among the inputs and any other input among the hidden nodes, a sensor output among the outputs and any other output among the hidden nodes |
| DfsNeuralSystems.GeneToConnTestVector | src/ns/ns.rs:180-204 | the three genes of the decoding test carry the expected sensor flags |
| DfsNeuralSystems.GetNnGraph | src/ns/ns.rs:104-118 | the graph has one node per neuron, all valued 0, and one edge per connection, in connection order |
| DfsNeuralSystems.OutEdges | src/ns/ns.rs:77-88 | the outgoing walk of a node yields only edges leaving it, and every edge leaving it |
| DfsNeuralSystems.PushSuccessors | src/ns/ns.rs:130-136 | a first visit pushes only nodes reached from the start, keeps the stack, and leaves every successor of the node either discovered or on the stack |
| DfsNeuralSystems.PopKeeps | src/ns/ns.rs:133-136 | popping the top of the search stack keeps every other node on it |
| DfsNeuralSystems.SearchStatePop | src/ns/ns.rs:130-136 | popping a node already discovered keeps the search state, and the rest of the stack still holds only reached nodes |
| DfsNeuralSystems.VisitStep | src/ns/ns.rs:130-136 | the first visit of a node emits it once, discovers it and leaves each of its successors discovered or on the stack |
| DfsNeuralSystems.DfsFrom | src/ns/ns.rs:130-136 | the search path starts at the start node, holds no node twice, and holds exactly the nodes reachable from the start |
| DfsNeuralSystems.ReachedByAdd | src/ns/ns.rs:125-141 | a node is reached by the sources plus one more exactly when the old sources or the new one reach it |
| DfsNeuralSystems.UnreachedBeforeAdd | src/ns/ns.rs:125-141 | a source added at or above a node does not change whether an earlier source reaches that node |
| DfsNeuralSystems.AddSource | src/ns/ns.rs:125-137 | a node nobody visited becomes a source and its search joins the visited nodes, keeping the scan invariant |
| DfsNeuralSystems.AddSourceVisited | src/ns/ns.rs:125-137 | after a new source's search, the visited nodes are exactly those reached from some source, the new one included |
| DfsNeuralSystems.AddSourceClassified | src/ns/ns.rs:125-137 | after a new source, a node up to it is a source exactly when no earlier source reaches it |
| DfsNeuralSystems.SkipVisited | src/ns/ns.rs:126-128 | passing over an already visited node keeps the scan invariant |
| DfsNeuralSystems.GetSources | src/ns/ns.rs:120-142 | the sources are increasing node indices; a node is a source exactly when no source below it reaches it; every node is reached by some source |
| DfsNeuralSystems.ReachedHasEdgeInto | src/ns/ns.rs:125-141 | a node reached from a different node has an edge into it |
| DfsNeuralSystems.UnenteredIsSource | src/ns/ns.rs:125-141 | a node that no edge enters is a source |
| DfsNeuralSystems.SpreadOne | src/ns/ns.rs:82-88 | one edge changes only its target's value, and the queue grows by exactly the nodes newly visited |
| DfsNeuralSystems.Spread | src/ns/ns.rs:77-88 | spreading along a node's edges keeps the node count and the result, and the queue grows by exactly the nodes newly visited |
| DfsNeuralSystems.Step | src/ns/ns.rs:57-89 | one step keeps the state well formed, and the queue shrinks by one plus the nodes newly visited |
| DfsNeuralSystems.Drain | src/ns/ns.rs:57-89 | the pass runs until the queue is empty and keeps the state well formed |
| DfsNeuralSystems.SetInputs | src/ns/ns.rs:43-49 | the first nodes take the inputs and the others keep their values |
| DfsNeuralSystems.SpreadKeeps | src/ns/ns.rs:82-88 | a node that none of the spread edges enters keeps its value |
| DfsNeuralSystems.DrainKeeps | src/ns/ns.rs:57-89 | a non-output source that no edge enters keeps its value through the whole pass |
| DfsNeuralSystems.EdgeReaches | src/ns/ns.rs:130-136 | an edge is a path of one step |
| DfsNeuralSystems.IncreasingEnds | src/ns/ns.rs:141 | an increasing sequence ends at its largest element |
| DfsNeuralSystems.ReachedNotSource | src/ns/ns.rs:125-141 | a node reached from an earlier source is not a source |
| DfsNeuralSystems.IncreasingFront | src/ns/ns.rs:141 | the k-th element of an increasing sequence is its smallest element not below the first k |
| DfsNeuralSystems.SourcesTestGraph | src/ns/ns.rs:235-252 | on the graph of the sources test, nodes 0, 1, 2 and 5 have no incoming edge, 0 reaches 3 and 6, 5 reaches 7, and no input reaches 4 |
| DfsNeuralSystems.SourcesTestMembers | src/ns/ns.rs:253-260 | on that graph the sources are exactly 0, 1, 2, 4 and 5 |
| DfsNeuralSystems.SourcesTestOrder | src/ns/ns.rs:253-260 | listed increasingly, those sources are 0, 1, 2, 4, 5 |
| DfsNeuralSystems.SourcesTest | src/ns/ns.rs:235-261 | in whatever order the connections come, the sources found are 0, 1, 2, 4 and 5 |
| DfsNeuralSystems.ForwardTestOutEdges | src/ns/ns.rs:206-216 | in the forward test graph, 0 and 1 each feed node 2 with weight 1 and node 2 feeds node 3 with weight 0.3 |
| DfsNeuralSystems.SpreadSingle | src/ns/ns.rs:82-88 | spreading along a single edge is one edge step |
| DfsNeuralSystems.ForwardTestFirstStep | src/ns/ns.rs:220-230 | the first step of the forward test adds input 0 into node 2 and queues node 2 |
| DfsNeuralSystems.ForwardTestSecondStep | src/ns/ns.rs:220-230 | the second step adds input 1 into node 2 |
| DfsNeuralSystems.ForwardTestThirdStep | src/ns/ns.rs:220-230 | node 2, not a source, is reset to 0 and its squashed sum times 0.3 goes into output node 3, which is queued |
| DfsNeuralSystems.ForwardTestLastStep | src/ns/ns.rs:220-230 | the output step writes tanh of node 3's value into the result and empties the queue |
| DfsNeuralSystems.ForwardTestTail | src/ns/ns.rs:220-230 | from node 2 onward the pass ends with the result tanh(0.3 * tanh(1.3)) |
| DfsNeuralSystems.DrainTwoSteps | src/ns/ns.rs:57-89 | two steps that lead from one state to another leave the end of the pass unchanged |
| DfsNeuralSystems.ForwardTest | src/ns/ns.rs:206-233 | with sources 0 and 1 and inputs 0.5 and 0.8 the output is tanh(0.3 * tanh(0.5 + 0.8)) |
| DfsNeuralSystems.NeuralSystem.constructor | src/ns/ns.rs:19-38 | the edges are the decoded genes in order, the sources are exactly the nodes no earlier source reaches, every node is reached by a source, and sources start at 0.5, the rest at 0 |
| DfsNeuralSystems.NeuralSystem.InitSources | src/ns/ns.rs:94-101 | every source is set to 0.5 and every other node keeps its value |
| DfsNeuralSystems.NeuralSystem.SetInputsInPlace | src/ns/ns.rs:43-49 | writing the inputs in place agrees with the input-setting function |
| DfsNeuralSystems.NeuralSystem.SpreadInPlace | src/ns/ns.rs:77-88 | spreading in place agrees with the spread function |
| DfsNeuralSystems.NeuralSystem.StepInPlace | src/ns/ns.rs:57-89 | one step in place agrees with the step function |
| DfsNeuralSystems.NeuralSystem.Forward | src/ns/ns.rs:40-92 | the result and the final values are those of the pass function started from the sources with the inputs set; one result per output, and the inputs hold the given inputs |
| LayeredNeuralSystems.NewConnection | src/ns.rs:157-172 | the fields are the given ones, and the connection is a self-loop exactly when it joins a hidden node to itself |
| LayeredNeuralSystems.FoldConnection | src/ns.rs:20-29 | the weight and sensor flags come from the gene, each index lies within the partition its flag selects, and the self-loop flag follows the constructor's rule |
| LayeredNeuralSystems.Keep | src/ns.rs:99-130 | a filter is never longer than its input |
| LayeredNeuralSystems.KeepCount | src/ns.rs:99-130 | a filter holds each connection passing the test as often as the input does, and no other |
| LayeredNeuralSystems.KeepAppend | src/ns.rs:99-130 | filtering keeps order: the filter of a concatenation is the concatenation of the filters |
| LayeredNeuralSystems.KeepMembers | src/ns.rs:99-130 | a connection is in the filter exactly when it is in the input and passes the test |
| LayeredNeuralSystems.TargetIds | src/ns.rs:132-135 | a node is a target exactly when some connection of the chain writes it |
| LayeredNeuralSystems.ProcessConnections | src/ns.rs:90-144 | the four layers are the order-keeping filters of the connections by their tests, the internal test reading the output layer and the input test reading the internal and output layers, and the ids are the targets of the input and internal layers |
| LayeredNeuralSystems.LayerMembers | src/ns.rs:99-130 | the direct layer holds exactly the sensor-to-sensor connections, the output layer the hidden-to-sensor ones, the internal layer the hidden-to-hidden ones into a node some output connection reads, and the input layer the sensor-to-hidden ones into a node some internal or output connection reads |
| LayeredNeuralSystems.CollectTargets | src/ns.rs:132-135 | the loop gathers exactly the targets of the chain |
| LayeredNeuralSystems.Init | src/ns.rs:16-48 | each gene is decoded in order, and the system holds the layers of the decoded connections with the output count of the shape |
| LayeredNeuralSystems.DirectPass | src/ns.rs:59-61 | the direct pass keeps the result length |
| LayeredNeuralSystems.InputPass | src/ns.rs:62-71 | the input pass keeps the set of hidden nodes holding values |
| LayeredNeuralSystems.SelfPass | src/ns.rs:72-77 | the self-loop pass keeps the set of hidden nodes holding values |
| LayeredNeuralSystems.OutPass | src/ns.rs:78-84 | the output pass keeps the result length |
| LayeredNeuralSystems.Evaluate | src/ns.rs:50-86 | a forward pass yields one value per output |
| LayeredNeuralSystems.KeepMembersWrite | src/ns.rs:65-71 | the self-loops set aside write only nodes that hold values |
| LayeredNeuralSystems.ApplyDirect | src/ns.rs:59-61 | the loop over the direct connections agrees with the direct pass |
| LayeredNeuralSystems.ApplyInput | src/ns.rs:62-64 | the loop over the input connections agrees with the input pass |
| LayeredNeuralSystems.ApplyInternal | src/ns.rs:65-71 | the loop over the internal connections agrees with the internal pass and sets aside exactly the self-loops, in order |
| LayeredNeuralSystems.ApplySelf | src/ns.rs:72-77 | the loop over the self-loops agrees with the self-loop pass |
| LayeredNeuralSystems.ApplyOut | src/ns.rs:78-84 | the loop over the output connections agrees with the output pass |
| LayeredNeuralSystems.Forward | src/ns.rs:50-86 | the forward pass returns the evaluation of the system, one value per output |
| LayeredNeuralSystems.KeepFolded | src/ns.rs:99-130 | every connection of a filter of decoded connections is decoded and passes the test |
| LayeredNeuralSystems.WritesTargets | src/ns.rs:132-135 | every input and internal connection writes a node that holds a value |
| LayeredNeuralSystems.InitRunnable | src/ns.rs:16-84 | a system decoded from a genome indexes nothing out of bounds and finds every value it writes, for any input vector at least as long as the input and hidden layers |
| LayeredNeuralSystems.DirectPassKeeps | src/ns.rs:59-61 | the direct pass leaves alone every output no direct connection writes |
| LayeredNeuralSystems.OutPassKeeps | src/ns.rs:78-84 | the output pass leaves alone every output no output connection writes |
| LayeredNeuralSystems.UnwiredOutput | src/ns.rs:51-85 | an output that no direct and no output connection writes ends as tanh(0) |
| LayeredNeuralSystems.KeepFrom | src/ns.rs:99-130 | the filter of a suffix is the verdict on its head followed by the filter of the rest |
| LayeredNeuralSystems.KeepThree | src/ns.rs:99-130 | the filter of three connections is the three verdicts in order |
| LayeredNeuralSystems.KeepNine | src/ns.rs:99-130 | the filter of nine connections is the nine verdicts in order, three at a time |
| LayeredNeuralSystems.LayeringTestOuter | src/ns.rs:180-213 | in the layering test the direct layer is the first connection and the output layer the fifth and sixth |
| LayeredNeuralSystems.LayeringTestInternal | src/ns.rs:180-212 | in the layering test the internal layer is the third and fourth connections |
| LayeredNeuralSystems.LayeringTestInput | src/ns.rs:180-211 | in the layering test the input layer is the second connection |
| LayeredNeuralSystems.LayeringTestIds | src/ns.rs:180-214 | in the layering test exactly one hidden node holds a value |
| LayeredNeuralSystems.LayeringTest | src/ns.rs:179-215 | the layering test yields 1 direct, 1 input, 2 internal and 2 output connections and 1 value id |

## Left out

**Not modelled at all:**
- Bevy systems, UI, input, camera, sensors, energy accounting, organism wrappers and the build script. They are not part of this model.
- Floating point. `f32` is modelled as `real`, with no rounding, NaN or infinities. The one exception is the empty-genome distance, which is NaN in the source and `None` here. The 1e-9 comparisons of the tests are not modelled.
- The values of `tanh`, `exp`, the sigmoid, the Gaussian and ReLU. They are uninterpreted function parameters, so tests that compare exact outputs are stated symbolically (e.g. `tanh(0.3 * tanh(1.3))`).
- Random number generation. It is a nondeterministic choice (`:|`) or an explicit draw parameter. The probability distributions of `choose_weighted`, `choose_multiple` and the mutation rate are not modelled; only which outcomes are possible is.
- Integer widths. `usize` is `nat`. The 32-bit gene is a `bv32`, so its fields are exact.

**Stand-ins for code whose body is not part of this model:**
- Genes: `get_conn_weight`, `get_neuron_index`, `get_neuron_weight`, `is_memory` and `get_activation_type` have no bodies here. They are function parameters (`Connections.FromGene`'s `connWeight`, `Neurons.NeuronGeneDecoder`).
- DfsNeuralSystems: src/gene.rs, which the older generations decode with, is not part of this model. The current field layout of `Genes` is used instead.

**Changed representation:**
- Neurons.Fire: returns the fired neuron together with its output instead of updating the neuron in place. The neural-system classes store the result back into their neuron array.
- NeuralSystems.InitialNeurons: input neurons get `Activation.None`, where the source names `Activation::Identity` (src/components/neural_system.rs:34), a variant src/components/activation.rs does not declare. The behaviour does not depend on it: an input node is always a source, and sources are never fired (src/components/neural_system.rs:207-211).
- Coords.AddAssign: returns the updated coordinate instead of updating the receiver in place.
- NeuralSystems: petgraph's `StableGraph` is an edge list, and removed nodes leave their array slot unused. The pruning search walks the edges into a node newest first, as petgraph lists them (`Graphs.Preds`). The forward pass adds along the edges out of a node oldest first (`NeuralSystems.AddAlong`), where petgraph walks them newest first; with exact reals the sums agree, and only `f32` rounding could differ.
- BfsNeuralSystems: the HashMaps become Dafny maps. An entry update on a missing key is a no-op, as `entry().and_modify()` is.

**Contracts weaker than the source, or extra requirements:**
- NeuralSystems.Build: on a graph without cycles the execution order is pinned down to a dependency order (every predecessor first) of exactly the nodes that reach an output, not to the one sequence petgraph's `DfsPostOrder` emits, which depends on petgraph's iteration order; on a graph with cycles only the set of nodes and their distinctness are stated.
- NeuralSystemTests.OutputNodeOrderingTest: the test shuffles its connections first (src/components/neural_system.rs:293); the model builds from the connections in the order written. Its result holds for each of the three dependency orders the graph allows.
- NeuralSystems.ChooseIndex: states only which indices the weighted draw can return, not its distribution.
- NeuralSystems.NeuralSystem.GetAction: requires at most `N_ACTIONS` outputs, because `Action::get` panics beyond them.
- BfsNeuralSystems.NeuralSystem.Forward: requires `exp` to be positive, which makes the softmax sum nonzero; `f32` overflow to infinity is not modelled.
- BfsNeuralSystems: `get_action` of this generation is not modelled. Its weighted draw over softmax values is the same library call whose distribution the current generation also leaves out.
- LayeredNeuralSystems.Forward: requires `Runnable`, because the source panics on an index out of bounds or a missing map key. `LayeredNeuralSystems.InitRunnable` shows that a decoded system is runnable for any input vector covering the input and hidden layers. An internal connection reads `input[c.in_index]` with its hidden index, as the source does (src/ns.rs:67).
- SpeciesRegistry.Species.AddSpecies: requires the colours not to be exhausted, because otherwise the retry loop of the source never ends. A retry that draws a colour already in use is collapsed into picking a fresh colour directly.
- SpeciesRegistry.Pair: the constructor's zip pairs ids with colours in an iteration order the model leaves open.
- Grids, LegacyGrids: the searches and the window (`Grids.Grid.SearchArea`, `Grids.Grid.SearchLine`, `Grids.Grid.GetArea`, `LegacyGrids.Grid.GetCoords`, `LegacyGrids.Grid.CoordsLine`) require `Length0 <= Length1`. The source checks both axes against the first dimension, so on a grid with fewer columns than rows it may index out of bounds; every caller builds a square grid (src/systems/world_system/init_world.rs:13, src/components/sensory_system.rs:72).
- DfsNeuralSystems.NeuralSystem.constructor: the `n_connections` capacity hint and the `println!` of `get_sources` are left out.

**Tests not checked concretely, for lack of a Dafny graph value small enough to evaluate:**
- NeuralSystems: the pruning tests of the current system, with their node and edge counts after pruning (src/components/neural_system.rs:246-276, 384-424), and the memory-node test (427-449). `NeuralSystems.ExecutionOrder`, `NeuralSystems.SourcesCharacterised` and `NeuralSystems.WalkStart` state the general facts they check.
- BfsNeuralSystems: the pruning and concurrency tests (src/components/ns.rs:215-337). `BfsNeuralSystems.Connect` and `BfsNeuralSystems.ClassifySources` state the general facts.
