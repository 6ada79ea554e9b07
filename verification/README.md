# DdlRT-LRC: proofs about the code, the merge and the simulator

A Dafny 4.11 model of a distributed storage system that protects stripes with
locally repairable codes, and proofs about it.  `dafny verify dfyconfig.toml`
checks everything.  A stripe has k data blocks, r global parities and z local
parities.  In the code type `DdlRT_LRC` stripes are laid out in batches of 2^N,
so that pairs of them can later be merged into stripes with twice the data
without moving data blocks.

The model has four parts.

1. **The code** (`project/src/encoder.cpp`).  `Gf256Tables` and `Gf256` have the
   field of 256 elements and its table arithmetic, `LinearAlgebra` and
   `MatrixBuffer` vectors and matrices over it, `GaussJordan` the in-place
   inversion, `Generators` the generator matrices, `Encoding` the encoders,
   `LocalParities` what every block of an encoded stripe is in terms of the others,
   `LocalRepair` the repair of single blocks, `DecodePlan` the planner of
   multi-block repairs.  What the planner's answer means is in `GlobalRows` (what
   Vandermonde and Cauchy rows determine), `DecodeRows`, `DecodeAccepts`,
   `DecodeExact` and `DecodeLimits`.
2. **Layout and merge** (`project/src/config.cpp`, `coordinator.cpp`,
   `client.cpp`, `datanode.cpp`).  `MergeConfig` has the search for the number of
   merge rounds, `TailClasses`, `TailUnionFind`, `TailLayout` and `ConfigLayout`
   the layout of a batch, `MergePlan` and `MergeMoves` the planning of a merge,
   `MergeTables`, `MergeIndex`, `MergeIndexed`, `MergeCommit`, `MergeParity`,
   `MergeIO`, `MergeTasks`, `MergeFiles` and `MergeProtocol` the merge with its
   failures and its files,
   `MergePlacement`, `MergeUpload` and `MergeRuns` uploads and whole runs,
   `BatchLayout` to `BatchWidth` the rounds of a batch, `RackRepair` the repair of
   a lost data block.
3. **The simulator** (`simulation/`).  `SimClusters` to `SimRun` model clusters,
   relabelling, relocation, parities, batches and stages, `SimNames` which blocks
   belong to which stripe by id, `SimIds` and `SimPlacement` the initial placement, `SimFormula` the closed form and its
   comparison with the simulation.
4. **Appends** (`coordinator.cpp`, `client.cpp`, `datanode.cpp`).  `AppendSlices`
   has the slicing of both programs, `AppendRuns` whole runs of appends.

Objects that the source updates in place are classes here (`Coordinator`,
`Config`, `Merging`, `Simulation`, `StripeAppends`), matrices and union-find
parents are arrays, and every loop of the source is a loop.  k, r, z, block
lengths and numbers of stripes are unbounded.  Steps that can fail - copying a
block, folding a parity, deleting a file - fail at any point that an
`Environment` chooses, including half-written files.

## Model

| member | source | states |
|---|---|---|
| Gf256.GfMul | project/src/encoder.cpp:153-166 | adding table logarithms gives the product of the two bytes as polynomials modulo 0x11d, for all pairs |
| Gf256.GfInv | project/src/encoder.cpp:97-103 | the byte found in the tables times a nonzero a is 1; 0 is sent to 0 |
| Gf256.GfPow | project/src/encoder.cpp:168-179 | square and multiply gives the iterated product, for every base and exponent |
| Gf256.MulAssoc | project/src/encoder.cpp:153-166 | the product is associative, so that coefficients can be combined before they meet a block |
| Gf256Tables.PowerOfLog | project/include/encoder.h:9-47 | every nonzero byte is 2 to the power of its entry in the logarithm table, which is between 1 and 255 |
| GaussJordan.GfInvertMatrix | project/src/encoder.cpp:181-235 | returns 0 if and only if the matrix has a left inverse, and then the output times the original input is the identity; returns -1 if and only if some nonzero vector is sent to zero |
| LinearAlgebra.LeftInverseNotSingular | project/src/encoder.cpp:196-214 | having a left inverse and sending a nonzero vector to zero exclude each other, so the two outcomes of the inversion are never both possible |
| Generators.GenMatrix | project/src/encoder.cpp:478-547 | each of the four in-place generators leaves exactly the rows of its code: unit rows, rows of powers of 2^(j+1), and the local rows over the code's groups |
| Encoding.GfVectMulInit | project/src/encoder.cpp:779-882 | the 32 bytes written multiply: for every byte x, the low-nibble entry plus the high-nibble entry is c times x; nothing before them changes |
| Encoding.TwoLookups | project/src/encoder.cpp:779-882 | the product of any two bytes is the sum of one product by the low and one by the high nibble |
| Encoding.EcInitTables | project/src/encoder.cpp:766-777 | after all coefficients every 32-byte entry still multiplies by its own coefficient |
| LocalParities.DataBlock | project/src/encoder.cpp:286-302 | the first k blocks of an encoded stripe are its data, in all four codes |
| LocalParities.PowerBlock | project/src/encoder.cpp:115-133 | global parity j of UniLRC and AzureLRC is the sum over all p of 2^((j+1)p) times data block p |
| LocalParities.CauchyBlock | project/src/encoder.cpp:135-151 | global parity block i of OptimalLRC and UniformLRC weighs data block j with the inverse of i xor j |
| LocalParities.UnilrcLocal | project/src/encoder.cpp:478-494 | local parity g of UniLRC is the XOR of data blocks i with i / (k/z) = g and of the r/z global parities from number g * r / z on |
| LocalParities.AzureLocal | project/src/encoder.cpp:496-505 | local parity g of AzureLRC is the XOR of the data blocks of its group and nothing else |
| LocalParities.OptimalLocal | project/src/encoder.cpp:507-526 | local parity g of OptimalLRC is the weighed sum of data blocks i with i / (k/z) = g plus the XOR of all global parities, for every g |
| LocalParities.UniformLocal | project/src/encoder.cpp:528-547 | local parity g of UniformLRC is the weighed sum of data blocks i with i / ((k+r)/z) = g, plus the XOR of all global parities exactly for g = z - 1 |
| LocalParities.WeightInverts | project/src/encoder.cpp:105-113 | while i and k + r are different bytes, the weight of data block i times i xor (k + r) is 1, and likewise for Cauchy entries |
| LocalParities.UnilrcMembers | project/src/coordinator.cpp:1720-1727 | a block is a member of recovery group g if and only if the coordinator computes g for it |
| Encoding.EncodeStripe | project/src/encoder.cpp:286-302 | the table-driven parities equal rows k.. of the generator times the data, for every code, k, r, z and length |
| Encoding.PartialEncodeStripe | project/src/encoder.cpp:303-333 | encoding d of k blocks equals encoding all k with the others zero |
| DecodePlan.GetMultiDecodePlan | project/src/encoder.cpp:896-1041 | a plan is returned if and only if there are k candidates with independent rows; its k sources are distinct survivors, and its factors rebuild every failed block of every stripe |
| DecodePlan.NoPivotDependent | project/src/encoder.cpp:956-968 | a column without a pivot makes the original candidate rows dependent, whatever was swapped and eliminated before; hence the inversion after a full elimination cannot fail |
| GlobalRows.Vandermonde | project/src/encoder.cpp:115-133 | a stripe that is zero except at n positions with different points is zero if n consecutive global parities are, the sum of all blocks counting as the one before the first |
| GlobalRows.Cauchy | project/src/encoder.cpp:135-151 | a stripe that is zero except at n positions is zero if any n global parities with Cauchy rows are, for k + r <= 256 |
| DecodeAccepts.EnoughIndependent | project/src/encoder.cpp:920-998 | blocks that are enough - after the data blocks that are the only loss of their group, one global parity for each open one - have independent rows |
| DecodeAccepts.RunDecides | project/src/encoder.cpp:920-998 | with rows of powers, and as many consecutive surviving global parities as lost data blocks, the candidates determine the data if and only if no two lost blocks are a multiple of 255 apart; so always up to k = 255 |
| DecodeAccepts.TwoLostDecides | project/src/encoder.cpp:920-998 | with two lost data blocks and no need to top up, the candidates determine the data if and only if two surviving global parities have a distance whose product with that of the lost blocks is no multiple of 255 |
| DecodeExact.DecideDecodable | project/src/encoder.cpp:896-1041 | what is accepted is decodable; k survivors among data and global parities of OptimalLRC and UniformLRC (k + r <= 256), or for UniLRC and AzureLRC a run of global parities as long as the lost data (k <= 255), are always accepted, and so is every set of candidates that is enough; if only local parities of intact groups are left out, what is refused is undecodable; if one of an intact group is taken, the answer is a refusal |
| DecodeExact.DecideTwoLost | project/src/encoder.cpp:896-1041 | two lost data blocks, any global parities lost, any k: accepted if and only if two surviving global parities tell the blocks apart |
| DecodeExact.EnoughDecodes | project/src/encoder.cpp:896-1041 | survivors that are enough determine the data, whether the planner looks at them or not |
| DecodeExact.AllTaken | project/src/encoder.cpp:920-942 | if no survivor is cut off by the limit of k candidates, the planner is exact |
| DecodeExact.NotDecodable | project/src/encoder.cpp:896-1041 | where the survivors do not determine the data, a nonzero stripe has all its surviving blocks zero |
| DecodeLimits.RefusesDecodable | project/src/encoder.cpp:920-942 | the planner refuses blocks 2 and 3 of AzureLRC with k = 4, r = 1, z = 2, although the other blocks determine them |
| DecodeLimits.RefusesGap | project/src/encoder.cpp:920-942 | the planner refuses blocks 0 and 85 of AzureLRC with k = 86, r = 4, z = 2 when global parities 1 and 2 are lost, although each block's local parity restores it |
| LocalRepair.UnilrcDecodes | project/src/encoder.cpp:549-559 | any of the n blocks of a UniLRC stripe is the XOR of the rest of the recovery group that the coordinator chooses for it |
| LocalRepair.UniformDecodes | project/src/encoder.cpp:658-692 | the scaled local vector over the rest of a UniformLRC group gives back any of its members, while k + r < 256 |
| LocalRepair.DecodeUniformLrc | project/src/encoder.cpp:658-692 | the method computes the combination that UniformDecodes is about |
| LocalRepair.DecodeInParts | project/src/encoder.cpp:658-692 | the sum of what any list of parts decodes to is what the joined list decodes to |
| LocalRepair.RacksDecode | project/src/encoder.cpp:658-692 | however the surviving members of a group are split among racks, the sum of the racks' partial decodes is the failed block |
| MergeConfig.OverlapIs | project/src/config.cpp:166-177 | two consecutive levels share 1 rack or 1 + z racks, never another number, for all k, r, z |
| MergeConfig.SearchLevels | project/src/config.cpp:186-197 | the loop finds the largest level up to 30 whose racks fit, and the overlap of every round up to it |
| MergeConfig.Config.InitMergeParameters | project/src/config.cpp:179-198 | accepted parameters get the result of that search in the fields of the configuration, all others 0 rounds |
| TailUnionFind.JoinTails | project/src/coordinator.cpp:239-283 | with path compression and a changing shape, the root of every tail is its group's representative class over all levels |
| TailClasses.ClassesAreRacks | project/src/coordinator.cpp:261-303 | the classes of tails plus the full racks of all stripes are exactly the racks of the fully merged stripe |
| TailLayout.BuildLayout | project/src/coordinator.cpp:239-303 | classes and full racks get pairwise different columns behind the parity rack's, as many as the arithmetic says: tails in the order in which their classes first appear, then full racks in order |
| TailLayout.PlaceStripe | project/src/coordinator.cpp:192-411 | which of the two refusals happens, if and only if which condition holds, and otherwise the slot of every block |
| TailLayout.SlotsDistinct | project/src/coordinator.cpp:332-379 | no two data blocks of a batch's 2^N stripes share a rack column and a node column |
| TailClasses.AllPlaceable | project/src/coordinator.cpp:341-349 | every position of a batch can be placed if and only if no sharing round follows a non-sharing one |
| ConfigLayout.LayoutOf | project/src/coordinator.cpp:192-307 | every accepted configuration of 17 clusters leads to a layout of at most 17 racks |
| ConfigLayout.LaidIsKnown | project/src/coordinator.cpp:341-349 | the layout is one that the rounds of a batch can start from if and only if no sharing round follows a non-sharing one |
| ConfigLayout.PlaceFrom | project/src/coordinator.cpp:303-349 | with such a layout the "only 17 are available" refusal never happens, and the tail refusal happens if and only if the position is not placeable |
| ConfigLayout.FourthStripeRefused | project/src/coordinator.cpp:348-349 | k = 3, r = 3, z = 1 with 17 clusters is accepted, and its fourth stripe is refused |
| MergeMoves.ChooseTarget | project/src/coordinator.cpp:5613-5659 | the chosen target is a candidate, and none comes before it by load, rack column and node column |
| MergeMoves.Plan | project/src/coordinator.cpp:5574-5686 | on properly laid out stripes the validation never refuses; only right blocks move, each once and to the best candidate of its turn; the result is properly laid out; nothing moves if and only if no node is doubled and no rack overfull; a refused plan has the fault that is reported, and resources are exhausted only if a block is stuck |
| MergeParity.MergeStripeParityGfXor | project/src/encoder.cpp:62-95 | left plus coefficient times right, for the coefficients 0 and 1 with paths of their own as for all others |
| MergeParity.GlobalParityMerges | project/src/coordinator.cpp:5700-5710 | with coefficient (2^(j+1))^k and the k before the merge, the folded global parity is the parity of the merged data |
| MergeParity.LocalParityMerges | project/src/coordinator.cpp:5700-5710 | with coefficient 1 the folded local parity is the XOR of all data of that local group, contiguous or not |
| MergeParity.EncodedGlobal | project/src/encoder.cpp:115-133 | the parity that merging preserves is what the encoder of new stripes writes |
| MergeIO.RunTasks | project/src/coordinator.cpp:5712-5794 | under any interleaving of the mover and the parity workers and any failure, only targets change; without failures every target holds its result |
| MergeIO.Cleanup | project/src/coordinator.cpp:5798-5813 | exactly the files that the deletions name are gone, all others keep their bytes, at every moment |
| MergeFiles.FilesOfSteps | project/src/coordinator.cpp:5816-5890 | the files a merge writes are, told from the old tables alone, the relocated blocks at their new nodes and the folded parities under the task's keys; those it reads and leaves behind are the old parities of both stripes and the relocated blocks at their old nodes |
| MergeTables.TaskRoundIs | project/src/coordinator.cpp:5696-5699 | batch, round and both stripes can be read off a task's number, up to 16, 8 and 20 bits |
| MergeIndex.IndexGroups | project/src/coordinator.cpp:5865-5874 | the group table lists every position exactly once, under its group |
| MergeCommit.CommitSane | project/src/coordinator.cpp:5825-5881 | the merged stripe has 2k + r + z blocks, each in its position and on its own node, and all tables are consistent again |
| MergeCommit.CommitReadable | project/src/coordinator.cpp:5825-5881 | if moved blocks and folded parities are stored, every block that the new tables name has its right bytes |
| MergeIndexed.CommitRack | project/src/coordinator.cpp:5828-5874 | every rack lists exactly the stripes and blocks on it, with no trace of the right stripe |
| MergeIndexed.CommitIndexed | project/src/coordinator.cpp:5828-5881 | racks, nodes, groups and spanned racks all agree with the merged blocks |
| MergeTasks.ObsoleteUnused | project/src/coordinator.cpp:5883-5890 | nothing in the list of obsolete files is named by the new tables |
| MergeProtocol.Coordinator.MergeStripes | project/src/coordinator.cpp:5535-5893 | under every failure and at every moment all blocks that the tables name are readable; without success the tables are unchanged; which refusal happens, and when; success leaves the committed tables; if the deletions take place, no old parity and no source of a moved block is left after success, and no new parity and no target of a move after a failed step; no other file ever changes; without failures a planned merge is done |
| MergeUpload.SetStripe | project/src/coordinator.cpp:1538-1637 | a stored stripe is numbered, indexed and readable, with its parities computed by the encoder |
| MergeUpload.RefuseStripe | project/src/coordinator.cpp:1563-1628 | a refused upload leaves all stripes readable, uses up a number, and leaves racks and nodes listing blocks of a stripe that does not exist |
| MergeRuns.RunRequests | project/src/coordinator.cpp:5535-5893 | over any run of uploads and merges with any failures, every named block is readable at every moment, and no data block is lost, doubled or changed |
| BatchRounds.StartMerge | project/src/client.cpp:1515-1640 | every pair has its own failures: all pairs up to the first that fails are merged, without any data migration, and it is a step of that pair that has failed; a finished round leaves the multiples of 2^round; a round of which a pair has been merged before merges nothing and changes nothing |
| BatchRounds.RunRounds | project/src/client.cpp:1515-1640 | every round and pair has its own failures: without one all rounds succeed; otherwise the round and the number of merged pairs at the first failure; no data block ever moves |
| BatchRows.RowsOfCycle | project/src/coordinator.cpp:233-237 | rack row times the number of node rows plus node row is the batch number modulo the number of pairs of rows |
| BatchRows.EveryPairOnce | project/src/coordinator.cpp:233-237 | among as many consecutive batches as there are pairs of rows, every pair is used by exactly one |
| BatchRows.SameNumber | project/src/coordinator.cpp:332-379 | two data blocks of a stripe get the same placement group if and only if they get the same rack column |
| BatchPlacement.StoreBatches | project/src/coordinator.cpp:192-423 | storing full batches leads to the state that the rounds start from: stripe s is position s % 2^N of batch s / 2^N; every block is on the rack and node that the rows of its batch name for its columns, parities on the first nodes of column 1; placement groups are the racks, numbered from 0 in order; stripe s holds the s-th data |
| BatchData.MergedInOrder | project/src/coordinator.cpp:5825-5881 | merging two stripes with none between them leaves the data of all stripes, read in the order of their numbers, as it was |
| BatchPlacement.StoreAndMerge | project/src/client.cpp:1515-1640 | from an empty system: batches are stored and merged until a step fails, to one stripe each if none does, without a single data migration; at the end the data of all stripes in order is the data that was stored |
| BatchRacks.LevelSpans | project/src/config.cpp:166-177 | after round q every stripe spans exactly the racks that the arithmetic gives for level q |
| BatchRacks.LeastRacks | project/src/config.cpp:170-174 | z groups of m blocks on racks of one group and limited capacity need z times the rounded-up quotient |
| BatchWidth.NoneIsNarrower | project/src/config.cpp:166-177 | no placement of the merged stripe's data on racks of one group with r + 1 blocks uses fewer racks than the merged stripe does |
| RackRepair.HelpersRebuild | project/src/coordinator.cpp:2590-2601 | the XOR of the blocks selected as helpers is the lost block, whatever merges came before |
| RackRepair.RecoverDataBlock | project/src/coordinator.cpp:2582-2680 | grouped by rack and added up, the helpers give the lost data; only the helpers' files must exist |
| RackRepair.LoseAndRecover | project/src/coordinator.cpp:2582-2680 | in every reachable state any data block's file may be deleted or damaged, and is rebuilt with its original bytes |
| SimClusters.RemoveBlock | simulation/utils.py:59-72 | the in-place walk leaves exactly the other blocks in their order, with the counters matching, and reports exactly the groups removed |
| SimSums.TightCost | simulation/optimal.py:140-148 | what a group costs depends only on its number of data blocks, if at most one of its data clusters is not full |
| SimNames.BatchIsNamed | simulation/optimal.py:104-173 | after relabelling and recomputing, stripe n has exactly the global parities n*g to n*g + g - 1 and for every group i the local parity n*l + i, each once and in its cluster; its data is that of the merged stripes, and the other stripes' parities are as before |
| SimNames.NamesApart | simulation/utils.py:158-179 | if all stripes have their own parities, no two parities of one kind share an id |
| SimRelabel.RelabelWorld | simulation/optimal.py:133-138 | relabelling in place merges the stripes' contents without capturing blocks of other stripes, although labels are used again |
| SimMove.MoveLoose | simulation/optimal.py:182-228 | exactly the required number of blocks leaves the parity cluster, none is lost or doubled, no other stripe changes, the stripe's clusters of that group are filled in order and new ones only after them |
| SimStages.Merging.MergeBatch | simulation/optimal.py:90-233 | one batch becomes one stripe; its cost is as calculated, its data stays, and the other stripes remain as they are; it has exactly its own parities by id, each once |
| SimPlacement.Place | simulation/optimal.py:7-76 | all stripes are alike and tightly filled, every data id below x times k is placed once, in its own stripe and group, and every stripe has its own parities by id |
| SimIds.EveryIdOnce | simulation/utils.py:158-179 | the ids that the stripes generate are exactly the numbers below x times k, each once |
| SimRun.Simulation.StripeMerging | simulation/optimal.py:81-242 | after any accepted list of stages every stripe has one local parity per group and g global ones, data is conserved, and the cost lists are those of the phases; parities bear the ids of their stripe, no two of a kind share one, and every data block is in the stripe and group that its id says |
| SimFormula.CalCostForOpt | simulation/formula_validation.py:26-62 | the loops add up to the sums per stage, with every division exact |
| SimFormula.FormulaExact | simulation/formula_validation.py:26-62 | for accepted runs the closed form equals the simulated costs in all stages if and only if no block is loose or the first stage collects exactly g loose blocks per group |
| SimFormula.Compare | simulation/optimal.py:81-242 | placement, simulation and closed form run side by side: equal lists if and only if that condition holds, no data lost, one stripe left, with its own parities and every data block in its group |
| SimFormula.CheckIsNotEnough | simulation/utils.py:257-263 | two stripes with k = l = g = 1 merged at once pass the check, and the closed form misses their relocation |
| AppendSlices.DataSlices | project/src/coordinator.cpp:1243-1272 | every touched block, and no other, gets a slice that begins at what earlier bytes filled and has the size of what this append adds |
| AppendSlices.ClientSizes | project/src/client.cpp:140-194 | the client's loop computes the same sizes from the same definition |
| AppendSlices.ParitySlice | project/src/coordinator.cpp:1208-1241 | the parity slice covers every touched range of every data block and stays inside every block size the stripe can have; in the mode CACHED it is the least range of whole units that covers the rows touched; in the mode UNILRC it ends where the last touched range does, and starts where the first one does or at the last unit border before it, with the exact condition |
| AppendSlices.ClusterAppendSize | project/src/coordinator.cpp:1156-1171 | the coordinator's loop gives the bytes that SizesAgree compares: the cluster's data slices and an even part of all parity bytes |
| AppendSlices.ClientCluster | project/src/client.cpp:201-225 | the client lists one size per data slice of the cluster, then one per parity block, then that of a local parity, and they add up to the bytes that SizesAgree compares |
| AppendSlices.SizesAgree | project/src/coordinator.cpp:1156-1171 | client and coordinator reckon with equal bytes for every cluster if and only if z divides r, whatever is appended |
| AppendSlices.ClustersAgree | project/src/client.cpp:201-225 | the same for the parity bytes alone |
| AppendRuns.StripeAppends.Append | project/src/datanode.cpp:158-181 | an append that fits is never refused by a datanode: every slice lands right behind what its file holds |
| AppendRuns.AppendAll | project/src/datanode.cpp:413-450 | when a run of appends fills the stripe, every file is its block, and the folded slices are the parity of the whole stripe |

## Findings

Properties that the source relies on and that do not hold for all inputs.  Each
line gives an input that fails and the exact condition that is proved.

- **The closed form of the relocation cost.**  `check_parameter`
  (`simulation/utils.py:257-263`) accepts m = g with any first stage.  With
  k = 1, l = 1, g = 1 and the single stage 2, the simulation relocates one block,
  and `cal_cost_for_opt` says 0 (`SimFormula.CheckIsNotEnough`).  For accepted
  parameters the closed form is right in all stages if and only if m = 0 or the
  first factor times m is g (`SimFormula.FormulaExact`, `SimFormula.Compare`).
- **The shared tail rack.**  `initialize_ddlrt_lrc_stripe_placement` throws
  "shared tail rack exceeds r+1 nodes" for configurations that were accepted:
  k = 3, r = 3, z = 1 with 17 clusters fails at the fourth stripe, position 3
  (`ConfigLayout.FourthStripeRefused`, `ConfigLayout.PositionThree`).  All
  positions can be placed if and only if no sharing round (s = 1 + z) follows a
  non-sharing one (s = 1) (`TailClasses.AllPlaceable`).
- **Cluster sizes of appends.**  The coordinator divides the parity bytes evenly
  among the clusters, the client counts parity blocks.  They agree about all
  clusters if and only if r % z == 0 (`AppendSlices.SizesAgree`); otherwise the last
  cluster differs (`AppendSlices.UnevenShares`), for example with r = 1 and z = 2.
- **The decode planner refuses decodable failures.**  It looks at the data
  and global parities that have survived, and at local ones only until it has k
  candidates.  That goes wrong in two ways.
  (1) It tops up with the local parity of a group that has lost nothing, which
  adds nothing: AzureLRC with k = 4, r = 1, z = 2 and blocks 2 and 3 lost
  (`DecodeLimits.RefusesDecodable`).  If such a parity is among the candidates
  it always refuses; if the ones left out all belong to intact groups it refuses
  if and only if the failure is undecodable (`DecodeExact.DecideDecodable`).
  (2) It takes global parities that do not tell lost blocks apart, and leaves out
  the local parities that do: AzureLRC with k = 86, r = 4, z = 2, blocks 0 and 85
  and global parities 1 and 2 lost (`DecodeLimits.RefusesGap`).  For two lost data
  blocks p < q it accepts if and only if two surviving global parities i < j have
  (q - p) * (j - i) no multiple of 255 (`DecodeExact.DecideTwoLost`).  For any
  number of lost data blocks and a run of as many global parities it accepts if
  and only if no two lost blocks are a multiple of 255 apart
  (`DecodeAccepts.RunDecides`).
- **A merge round that has failed cannot be retried.**  After a failure the client
  says that one can retry from the current stripes (`client.cpp:1643-1646`).  It
  pairs all stripes by number again, so stripe 0, merged already, comes first and
  is refused, or the number of stripes is odd.  With N = 1 and two batches, stripes
  0 to 3, a failure of the second pair leaves 0, 2 and 3.  Retrying the round
  merges something if and only if no pair of it had been merged
  (`BatchRounds.StartMerge`).
- **A refused upload leaves its blocks behind.**  When a proxy refuses the
  placement, `uploadSetValue` returns without an entry in the stripe table, but
  the blocks are in the tables of racks and nodes by then.  From consistent tables
  a refused upload always leads to wrong ones, and a successful one to
  consistent ones (`MergeUpload.RefuseStripe`, `MergeUpload.SetStripe`).

## Left out

- DecodeExact.DecideDecodable: says nothing about refusals, beyond the exact cases, when three or more data blocks remain open and the surviving global parities have gaps among them, or a group that lacks several blocks has its local parity among the candidates; the outcome then depends on minors of Vandermonde rows with gaps, or mixed with group sums, some of which vanish. For OptimalLRC and UniformLRC it says nothing about k + r > 256, where evaluation points repeat.
- AppendRuns.AppendAll: assumes that a parity slice holds what the appended bytes add to the parity. The client functions that fill slices are commented out or only declared, so nothing in the source fixes their contents. The cumulative slices that the helpers for the mode CACHED suggest are not modelled; for that mode only the place and size of the slice are proved (`AppendSlices.ParitySlice`).
- LocalRepair.UniformDecodes: requires k + r < 256, as the evaluation points are bytes that must differ.
- SimFormula.Compare: requires stages of at least 1 and k divisible by l, as the source's loops and checks do.
- BatchPlacement.StoreBatches: the layout is computed once and passed on instead of anew for every stripe, and batches are stored when every position is placeable; for others, ConfigLayout.PlaceFrom says which position is refused.
- MergeProtocol.Coordinator.MergeStripes: a write that arrives after its caller has given up is not modelled.
- Pairs that a client merges at the same time: the coordinator's lock makes them one after the other, and the model does so in order.
- The AVX2 paths and the large multiplication table (`GF_LARGE_TABLES`); the model has the portable loops and the logarithm tables.
- gRPC, sockets, threads outside a merge's two phases, logging, timing and the interactive prompt. Relocation and cleanup run in proxies (`proxy.cpp` is not part of this model); they are contracts that copy and keep the source, or delete by name, and may fail.
- Reading the orthogonal-array files; the tables are parameters that satisfy the source's own validation.
- Block objects are numbers with an entry in a table, so that identity of pointers is identity of numbers; keys are values of a datatype instead of strings.
- The table of object commits, used columns and object names of stripes, which nothing else here reads; stripe ids are natural numbers.
- MergeUpload.SetStripe: models uploads that every proxy accepts and writes completely; for those that a proxy refuses see MergeUpload.RefuseStripe. Clients that break off while sending are not modelled.
- Tables that a throwing placement has updated in part.
- The planner's test for racks without parities: it only looks at data blocks, so it never refuses anything.
- The node that replaces a failed one is not recorded by the repair in the source, nor here.
- Repair of parity blocks of `DdlRT_LRC` stripes.
- `decode_optimal_lrc`, the Azure repair of global parities, and the merge, placement and encoding of plain RS stripes.
- That any r failures can be repaired: not true for these generators.
- The random, dispersed and aggregated simulations, and the second closed form.
- Lists of block names per stripe in the simulator (`stripe_information`) beyond their ids; averages over L clusters are compared by cross-multiplication instead of floating point.
