# ENRG protocol: a verified model

ENRG pays SRC tokens for metered energy. Devices sign reports, oracles verify them and vote on
them, and a Solana program mints the reward, keeps the device records, the oracle quorum, the
energy pools, the token supply and the governance proposals. Around it stand a registry service
that commits to manifests with a Merkle root, an oracle server that queues mints, and client
libraries. This project models that behaviour in Dafny and proves what the protocol promises about
it, for all inputs and over all runs. `dafny verify dfyconfig.toml` checks every file.

## How it is laid out

| file | part of the system |
|---|---|
| `Arithmetic.dfy`, `FixedPoint.dfy`, `MapSums.dfy`, `Numerals.dfy`, `Protocol.dfy` | machine widths, u128 fixed point, sums over maps, positional numerals, keys, errors and outcomes |
| `ExpSeries.dfy`, `LnSeries.dfy`, `Emission.dfy` | the emission curve: the two Taylor loops, difficulty, device multiplier, rewards |
| `EnergyWindow.dfy` | the device's and the network's 30-day windows |
| `Merkle.dfy` | the registry's root and the on-chain proof check |
| `Base58.dfy` | the three base58 codecs against one change of base |
| `Devices.dfy` | the device lifecycle and key rotation |
| `OracleQuorum.dfy` | registry, deposits, votes, attestations, vote rewards |
| `Pool.dfy` | pools and the two-pass split |
| `Tokens.dfy` | every instruction that moves supply |
| `Governance.dfy` | proposals, votes, timelock, emission |
| `EnergyMint.dfy` | `mint_energy` and the policy engine, tying the parts together |
| `MintQueue.dfy` | the server's mint queue on its event loop |

Each stateful part is written three times over, on purpose: a class whose methods update fields in
the program's own order; one specification function per instruction, which the method is proved
equal to (`Commits`: the new state, or the first error and no change); and a machine that runs those
functions in any order, over which the invariants are proved. A failed instruction leaves its state
alone, as a failed transaction does. The class methods, and the lemmas that spell out a verdict
(`GateIff`, `VerifyIff`, `DefaultsAdmitIff`), only join the program's code to these functions; the
results are the lemmas about the functions and the machines. What each instruction admits and moves is
stated in the lemmas ending in `Iff` and `Is`, with every bound written as a number, and mostly over
every run, where the invariants leave fewer conditions than the code checks. `EnergyMint` then runs the device, quorum, token and pool machines
together and shows that each of its runs is a run of every part, so the parts' theorems hold of the
whole protocol.

## Modelling choices

- Integer widths, saturation, checked operations and their fallbacks, and truncating casts are
  written out. Fixed-point results are compared with exact rational series over `real`.
- SHA-256 is a free constructor (no collisions, leaf and node preimages apart, never all-zero).
  Ed25519 verification is a truth value passed in. A program-derived address is a map key.
- Clock readings are non-negative 64-bit times; report timestamps are arbitrary integers.
- Records of the past that the program does not keep (where a key stands in its chain of rotations,
  the accepted reports and where in them a record's month began, how often a counter was left behind)
  are fields of the model's states and ghost fields of its classes. A queue entry's number and its
  tallies of calls and successes, and the server's next number, are ordinary fields. No branch reads
  any of these.
- Where another instruction may change a field between two steps, the machines have a step that
  sets it: supply in `Governance`, any transfer in `Tokens`.

## Where the code and its comments differ

The model follows the code. `LnSeries` starts its alternating series with an addition, so it is not
the series in its comment (`LnBelowArgumentIff` says exactly when the comment's bound survives), and
the device multiplier falls at a share of one half (`MultiplierDropsAtHalf`). The network's "sliding
window" only resets after thirty silent days (`BusyWindowIsTheSum`). `mint_energy` reads the device
window before the report is recorded in it, and the proof hash covers the device's data, not the
oracle's message. The pool's reset loop changes copies (`ContributionsNeverShrink`), so a
later distribution can deprive a member whose kept contribution outgrew the total
(`DistributionFairIff`, `StaleContributionUnfair`). Nothing checks that the groups
of a distribution are of different members, so repeating one leaves another out (`AllServedIff`,
`RepeatedGroupLeavesOut`). An oracle's reward does not depend on its vote's hash
(`ContradictionIsPayable`). The two
JavaScript codecs add a symbol or byte on all-zero input (`QrRoundTripIff`, `SdkRoundTripIff`). The
queue's "already queued" test does not see retries (`NoDuplicateBeforeRetry`, `SameProofQueuedTwice`). An 8-bit position
limits provable leaves (`ProvableIff`). `update_policy` can switch the supply cap off, and then it
does not hold (`UnenforcedMintPassesCap`). The registry's switches, the pause among them, bind a mint
only where its optional account is passed (`RegistryBindsWhereGiven`).

## Model

| member | source | states |
|---|---|---|
| `ExpSeries.ExpFixedPoint` | programs/enrg-mvp/src/math.rs:28-43 | The loop returns the same 64-term sum for every u128 argument, fallbacks included, and stops |
| `ExpSeries.ExpTermBound` | programs/enrg-mvp/src/math.rs:30-41 | Up to ln 10 every term stays at most 3.0 and its product with the argument fits u128, so `fp_mul` never falls back |
| `ExpSeries.ExpTermError` | programs/enrg-mvp/src/math.rs:34-35 | Each floored term lies below the exact term x^k/k! by less than three units of 1e-18 and never above it |
| `ExpSeries.ExpSumError` | programs/enrg-mvp/src/math.rs:28-43 | Every partial sum lies at or below the exact rational Taylor sum with the same terms, by less than three units per term |
| `ExpSeries.ExpIsExponential` | programs/enrg-mvp/src/math.rs:27-43 | For every argument up to ln 10 the result is at most e^x (every exact partial sum from the 27th term on) and less than 82 units below it |
| `ExpSeries.ExpMonotone` | programs/enrg-mvp/src/math.rs:28-43 | Exact monotonicity of the whole loop: a larger argument never gives a smaller result |
| `ExpSeries.ExpAtLn10` | programs/enrg-mvp/src/math.rs:14-43 | The exact value at the fixed-point ln 10: 9_999_999_999_999_999_986 |
| `ExpSeries.ExpAtHalf` | programs/enrg-mvp/src/math.rs:14-43 | The exact value at half of ln 10: 3_162_277_660_168_379_323 |
| `LnSeries.LnFixedPoint` | programs/enrg-mvp/src/math.rs:50-88 | Both loops compute, with their early exits, the 200-term sums of their branch |
| `LnSeries.AlternatingBracket` | programs/enrg-mvp/src/math.rs:51-70 | On the lower branch every partial sum lies between u and u + u*u/2, so neither `saturating_sub` nor the addition's fallback is ever taken |
| `LnSeries.PlainBound` | programs/enrg-mvp/src/math.rs:71-86 | On the upper branch the sums stay below 4v/3 and no addition falls back, so ln 2 minus them never saturates |
| `LnSeries.AlternatingLoop` | programs/enrg-mvp/src/math.rs:51-70 | The first loop adds and subtracts in turn starting with an addition, and equals the signed sum of all its terms |
| `LnSeries.PlainLoop` | programs/enrg-mvp/src/math.rs:72-86 | The second loop equals the plain sum of the floored terms v^k/k |
| `LnSeries.LnRange` | programs/enrg-mvp/src/math.rs:45-88 | Range of the logarithm in both branches, with two-sided bounds against the argument |
| `LnSeries.LnIsItsSeries` | programs/enrg-mvp/src/math.rs:45-88 | The logarithm against exact series over the reals: within 400 units of 1e-18 of the sign-flipped series on the lower branch, and at most 400 units above ln 2 less the exact series on the upper, never below |
| `LnSeries.LnMonotoneAboveHalf` | programs/enrg-mvp/src/math.rs:71-87 | From one half up the logarithm is monotone |
| `LnSeries.LnBelowArgumentIff` | programs/enrg-mvp/src/math.rs:47-55 | ln(1+u) <= u, which the comment's series would always satisfy, holds exactly from one half up or where u*u is below two units; elsewhere the flipped sign makes the result exceed u |
| `LnSeries.LnDropsAtHalf` | programs/enrg-mvp/src/math.rs:51-71 | Witness: the value at one half is more than 0.05 below the value just under it |
| `LnSeries.LnNearlyMonotone` | programs/enrg-mvp/src/math.rs:50-70 | On the lower branch, through all floors, a larger argument never has a value smaller by more than 97 units of 1e-18, nor a smaller one at all once it is 291 units larger; at least a third of a longer step survives |
| `LnSeries.LnDipsByAUnit` | programs/enrg-mvp/src/math.rs:50-70 | Witness that some tolerance is needed: two neighbouring arguments with a value one unit lower at the larger one |
| `LnSeries.LnAcrossHalf` | programs/enrg-mvp/src/math.rs:50-87 | An argument of at most 0.345 on the lower branch never has a larger value than one on the upper branch |
| `Emission.EnergyPerSrcMonotone` | programs/enrg-mvp/src/math.rs:102-124 | For supplies s1 <= s2 within the cap the energy price never falls |
| `Emission.EnergyPerSrcRange` | programs/enrg-mvp/src/math.rs:117-124 | Within the cap the price stays in [1_000_000, 9_999_999] |
| `Emission.CurveIsExponential` | programs/enrg-mvp/src/math.rs:94-124 | For every supply within the cap the price is one megawatt-hour times e to the minted share of ln 10, floored to a watt-hour, against every exact partial sum from the 27th term on |
| `Emission.EnergyPerSrcEndpoints` | programs/enrg-mvp/src/math.rs:299-317 | The price is exactly 1_000_000 at supply 0, 3_162_277 at half the cap and 9_999_999 at the cap |
| `Emission.MultiplierRange` | programs/enrg-mvp/src/math.rs:126-148 | For every u64 device energy and u128 network energy the multiplier lies in [1.0, 1.301029995663981195] |
| `Emission.MultiplierBracket` | programs/enrg-mvp/src/math.rs:88-148 | The multiplier is one plus the decimal logarithm of one plus the device's share of the network, each quotient floored; the share is one for a device that is the whole network |
| `Emission.MultiplierAtTopIff` | programs/enrg-mvp/src/math.rs:137-147 | The upper bound is attained exactly where the network is not empty and the floored share is at most one unit of 1e-18 short of the whole |
| `Emission.MultiplierMonotoneAboveHalf` | programs/enrg-mvp/src/math.rs:136-148 | Among devices with at least half of the network's energy, more energy never lowers the multiplier |
| `Emission.MultiplierNearlyMonotone` | programs/enrg-mvp/src/math.rs:136-148 | Below one half of the network's energy, more device energy lowers the multiplier by at most 43 units of 1e-18, and not at all once the share is 291 units larger |
| `Emission.MultiplierAcrossHalf` | programs/enrg-mvp/src/math.rs:136-148 | A device with at most 0.345 of the network's energy never has a larger multiplier than one with at least half of it |
| `Emission.MultiplierDropsAtHalf` | programs/enrg-mvp/src/math.rs:126-148 | Witness: a device with exactly half of the energy has a lower multiplier than one just below |
| `Emission.NoFallback` | programs/enrg-mvp/src/math.rs:102-161 | With the supply within the cap no `unwrap_or` in the whole chain from supply to effective price is ever taken |
| `Emission.EffectiveBound` | programs/enrg-mvp/src/math.rs:150-161 | The effective price is at least 1_000_000 and its product fits u128 |
| `Emission.EffectiveBracket` | programs/enrg-mvp/src/math.rs:150-161 | The effective price is the supply's price times the device's multiplier, floored |
| `Emission.DynamicRewardBuys` | programs/enrg-mvp/src/math.rs:163-186 | The reward with multiplier is what the energy buys at that floored product, cut to 64 bits and uncut where it fits |
| `Emission.RewardBuys` | programs/enrg-mvp/src/math.rs:163-175 | The plain reward is what the energy buys at the supply's price, cut to 64 bits and uncut where it fits |
| `Emission.GenesisPrices` | programs/enrg-mvp/src/math.rs:126-161 | At genesis a device that is the whole network pays exactly 1_301_029 Wh for a token, and one without a network 1_000_000 |
| `Emission.RewardPerWh` | programs/enrg-mvp/src/math.rs:163-186 | Within the cap a reward is at most 1000 atomics for each watt-hour, whatever the two windows |
| `Emission.GenesisPeg` | programs/enrg-mvp/src/math.rs:163-175 | At supply 0 a reward is exactly 1000 atomics for each watt-hour: one token for a megawatt-hour |
| `Emission.RewardFallsWithSupply` | programs/enrg-mvp/src/math.rs:172-175 | The same energy never earns more at a larger supply |
| `Emission.SplittingUnderRisingPrice` | programs/enrg-mvp/src/math.rs:165-175 | For any price that never falls with supply, splitting energy over proofs with the supply updated between them earns at most the one-shot reward |
| `Emission.SplittingNeverPays` | programs/enrg-mvp/src/math.rs:173-175 | The same for `calculate_reward` itself, over every list of proofs |
| `EnergyWindow.EnergyProfile.RecordProduction` | programs/enrg-profile/src/lib.rs:41-81 | Both entry points' shared update: the new window is the slid old one, stamped with the report's time |
| `EnergyWindow.SlideBracket` | programs/enrg-profile/src/lib.rs:52-81 | What a record does to a window: added where time stands, alone after thirty days, and in between added to the share of the window the gap leaves, rounded up |
| `EnergyWindow.WindowAtMostRecorded` | programs/enrg-profile/src/lib.rs:52-81 | Over any run of records, in any order of times, the window never exceeds the energy recorded |
| `EnergyWindow.SilenceForgets` | programs/enrg-profile/src/lib.rs:69-72 | A gap of thirty days or more forgets everything before it |
| `EnergyWindow.MiddleRecordKeeps` | programs/enrg-profile/src/lib.rs:74-80 | Where the gap's decay product fits u128 (always for gaps of thirty days or more) a zero-energy record inside the gap never lowers the window after it |
| `EnergyWindow.EmptyRecordNeverLowers` | programs/enrg-profile/src/lib.rs:52-81 | The same for a zero-energy record anywhere in an ordered run, about the final window, under that condition on the one gap it falls into |
| `EnergyWindow.WindowMonotone` | programs/enrg-profile/src/lib.rs:52-81 | More energy in the window now is never less after any later records, saturating decays included |
| `EnergyWindow.SaturatedDecayLowers` | programs/enrg-profile/src/lib.rs:75-77 | Witness: where the decay product saturates a mid-gap record can lower the window (a window of U128_MAX, out of reach of realistic runs) |
| `EnergyWindow.BusyWindowIsTheSum` | programs/enrg-mvp/src/math.rs:199-207 | While the network is never silent for thirty days its window forgets nothing: it is the sum of all records |
| `EnergyWindow.AccumulateIs` | programs/enrg-mvp/src/math.rs:199-207 | The network's window restarts exactly at its first update or after thirty days, and otherwise adds up to the width |
| `EnergyWindow.NetworkAtLeastDevice` | programs/enrg-mvp/src/math.rs:199-207 | On the same ordered records the network window is at least the decaying device window |
| `Merkle.BuildMerkleRoot` | oracle/registry/app.js:71-89 | The level loop computes the recursive tree root; the empty list gives the all-zero root |
| `Merkle.NextLevel` | oracle/registry/app.js:78-86 | One pass pairs neighbours and pairs an odd last node with itself |
| `Merkle.ComputeMerkleRoot` | programs/enrg-mvp/src/instructions/merkle_proof_verification.rs:102-114 | The loop folds leaf and path by the position's bits, lowest first |
| `Merkle.VerifyMerkleProof` | programs/enrg-mvp/src/instructions/merkle_proof_verification.rs:157-203 | A proof is verified exactly when ids match, the path has at most 32 nodes, the leaf is the manifest's own, and the fold gives the registry's root; each of the four errors is reported exactly where its check is the first to fail |
| `Merkle.RootCommits` | oracle/registry/app.js:71-127 | Equal roots come from equal ordered entry lists, also of different lengths and despite duplicated odd nodes |
| `Merkle.TreeRootInjective` | oracle/registry/app.js:76-88 | Two levels of distinct nodes of one kind with equal roots are the same level |
| `Merkle.RepeatedLeafCollides` | oracle/registry/app.js:82 | Distinctness is needed: repeating the last leaf of an odd list keeps the root |
| `Merkle.FoldLength` | programs/enrg-mvp/src/instructions/merkle_proof_verification.rs:102-114 | A leaf that folds to a node of level j took exactly j steps |
| `Merkle.FoldIsMember` | programs/enrg-mvp/src/instructions/merkle_proof_verification.rs:102-114 | A leaf that folds to a node of the tree is one of the leaves, at an index no larger than the position |
| `Merkle.AcceptedIsPublished` | programs/enrg-mvp/src/instructions/merkle_proof_verification.rs:157-182 | Any proof accepted against a published root has the tree's height as its length and is about a published (id, content) pair |
| `Merkle.PathIsComplete` | programs/enrg-mvp/src/instructions/merkle_proof_verification.rs:101-114 | For every non-empty leaf list, the sibling path of any index folds that leaf to the built root |
| `Merkle.ProvableIff` | programs/enrg-mvp/src/instructions/merkle_proof_verification.rs:157-203 | An entry can be proved on chain exactly when its index is below 256 and there are at most 2^32 entries |
| `Merkle.ThreeLeaves` | oracle/registry/app.js:71-89 | Orientation: three leaves give ((a b)(c c)), and folding reads positions 0, 1 and 2 back to it |
| `Merkle.ManifestService.Publish` | oracle/registry/app.js:133-156 | A new id is appended, a known one keeps its place with the new content, a bad request changes nothing |
| `Merkle.ManifestService.CreateSnapshot` | oracle/registry/app.js:113-127 | The snapshot's root commits to the published entries in insertion order, whose ids are distinct |
| `Base58.AddByte` | tools/gen-device-qr.js:39-48 | One byte worked into the digit array: the digits become 256 times their value plus the byte; the carry stays at most 255 between digits |
| `Base58.MulAddWeight` | tools/gen-device-qr.js:38-49 | The digit array's value after a byte, digits below 58, top digit nonzero once any byte was |
| `Base58.QrDigits` | tools/gen-device-qr.js:37-49 | After all bytes the array holds the canonical base-58 digits of their big-endian number, or a single zero |
| `Base58.QrEncode` | tools/gen-device-qr.js:36-54 | The in-place encoder equals the big-integer form on every input with a nonzero byte, and writes one extra symbol on all-zero input |
| `Base58.QrDecode` | tools/gen-device-qr.js:56-74 | Decodes the trimmed text, or nothing for an empty text or a foreign symbol |
| `Base58.BlanksAround` | tools/gen-device-qr.js:56-60 | White space around a text changes nothing, and blank text is no text |
| `Base58.QrRoundTripIff` | tools/gen-device-qr.js:36-74 | decode(encode(b)) == b exactly when b has a nonzero byte |
| `Base58.QrAllZeros` | tools/gen-device-qr.js:50-52 | On all-zero input the round trip returns one zero byte too many |
| `Base58.SdkEncode` | sdk/js/enrg-client.js:41-54 | The JavaScript client's encoder computes the change of base with leading zeros kept |
| `Base58.SdkDecode` | sdk/js/enrg-client.js:27-38 | The JavaScript client's decoder, through hexadecimal: the change of base back, but one zero byte too many where the number is zero |
| `Base58.SdkRoundTripIff` | sdk/js/enrg-client.js:27-54 | decode(encode(b)) == b exactly when b has a nonzero byte |
| `Base58.PyEncode` | sdk/python/enrg_client.py:46-53 | The Python client's encoder computes the same change of base |
| `Base58.PyDecode` | sdk/python/enrg_client.py:33-43 | The Python client's decoder is the change of base back, for every text |
| `Base58.DecodeEncode` | sdk/python/enrg_client.py:33-53 | decode(encode(b)) == b for every byte string, all-zero and empty ones too |
| `Base58.EncodeIsTheNumber` | sdk/python/enrg_client.py:46-53 | The text is the number of the bytes in base 58 behind one '1' for each leading zero byte |
| `Base58.EncodeExample` | sdk/python/enrg_client.py:46-53 | One zero byte and 255 are 15Q |
| `Base58.EncodeDecode` | sdk/python/enrg_client.py:33-53 | encode(decode(t)) == t for every text over the alphabet |
| `Base58.ClientsInteroperate` | sdk/js/enrg-client.js:24-54 | On byte strings with a nonzero byte the three encoders write the same text and all decoders read it back |
| `Numerals.RecodeInverse` | sdk/js/enrg-client.js:27-54 | Changing base there and back is the identity, leading zeros included |
| `Devices.DeviceProgram.RegisterDevice` | programs/enrg-mvp/src/instructions/device_lifecycle.rs:56-100 | Commits the fresh record of a signed, unused, non-zero key, or reports the first failed check and changes nothing |
| `Devices.DeviceProgram.ClaimDevice` | programs/enrg-mvp/src/instructions/device_lifecycle.rs:151-217 | Commits the binding of a registered device to its owner, with a larger claim nonce and a counter below 100 |
| `Devices.DeviceProgram.ProvisionDevice` | programs/enrg-mvp/src/instructions/device_lifecycle.rs:307-324 | Commits Claimed to Provisioned for the owner only |
| `Devices.DeviceProgram.ActivateDevice` | programs/enrg-mvp/src/instructions/device_lifecycle.rs:348-377 | Commits the move to Active with the counter raised; `release_from_quarantine` (lines 707-734) checks and does the same |
| `Devices.DeviceProgram.Quarantine` | programs/enrg-mvp/src/instructions/device_lifecycle.rs:401-421 | Commits Active to Quarantine with the counter lowered |
| `Devices.DeviceProgram.MaintenanceDevice` | programs/enrg-mvp/src/instructions/device_lifecycle.rs:445-468 | Commits the move to Maintenance; the counter is lowered only from Active |
| `Devices.DeviceProgram.RevokeDevice` | programs/enrg-mvp/src/instructions/device_lifecycle.rs:501-542 | Commits a revocation by owner or administrator, with or without the owner's counter |
| `Devices.DeviceProgram.RotateDeviceKey` | programs/enrg-mvp/src/instructions/device_lifecycle.rs:606-683 | Commits the successor record with the old one's state, nonce, energy, tier and month, and retires the old one |
| `Devices.LifecycleRespected` | programs/enrg-mvp/src/state/producer.rs:19-36 | A record changes state only along the lifecycle diagram, by a step on that record with the required signer; claimed devices never change hands and revoked records keep everything but their tier |
| `Devices.RegisterIff` | programs/enrg-mvp/src/instructions/device_lifecycle.rs:56-100 | A key is registered exactly when fresh, non-zero, signed and timely, with a blank record |
| `Devices.ClaimIff` | programs/enrg-mvp/src/instructions/device_lifecycle.rs:151-217 | Over every run a device is claimed exactly out of Registered, signed and timely, with a claim nonce above its last and fewer than a hundred claims; the record and counter that follow |
| `Devices.TransitionsIff` | programs/enrg-mvp/src/instructions/device_lifecycle.rs:307-468 | Over every run the owner's transitions go through exactly from the states of the diagram: no account or limit check stands in their way |
| `Devices.TransitionsMove` | programs/enrg-mvp/src/instructions/device_lifecycle.rs:307-468 | And they move the state alone, with the owner's active counter following it |
| `Devices.RevokeIff` | programs/enrg-mvp/src/instructions/device_lifecycle.rs:501-542 | Over every run a device is revoked exactly by its owner, or by the administrator with the vault account; anyone else is Unauthorized, exactly then |
| `Devices.RotateIff` | programs/enrg-mvp/src/instructions/device_lifecycle.rs:606-640 | Over every run a key is rotated exactly to a fresh one by the same signers, signed, timely, with a claim nonce above the last; and exactly who is Unauthorized |
| `Devices.RotationContinues` | programs/enrg-mvp/src/instructions/device_lifecycle.rs:641-683 | The new record continues owner, state, tier, energy, report nonce and month; the old one is retired and points to it |
| `Devices.SetTierIff` | programs/enrg-mvp/src/instructions/tier.rs:31-49 | The administrator alone sets a tier, which restarts the record's month and changes nothing else |
| `Devices.AcceptIff` | programs/enrg-mvp/src/instructions/mint.rs:171-181 | Over every run a report is accepted exactly for an unrevoked record with a larger nonce while the sums fit; and the record that follows, month rolled after 30 days |
| `Devices.ClaimNonceRises` | programs/enrg-mvp/src/instructions/device_lifecycle.rs:606-640 | Along a chain the claim nonce rises with every claim and rotation and never changes otherwise |
| `Devices.RunKeeps` | programs/enrg-mvp/src/instructions/device_lifecycle.rs:56-734 | Every run keeps the links, the nonce log, the energy balance and the owners' counters consistent |
| `Devices.RotationsAcyclic` | programs/enrg-mvp/src/instructions/device_lifecycle.rs:669-672 | Over every run following `rotated_to` never returns to a record |
| `Devices.RotationsDisjoint` | programs/enrg-mvp/src/instructions/device_lifecycle.rs:669-672 | Over every run no two records were rotated to the same key |
| `Devices.OnlyLastUnrevoked` | programs/enrg-mvp/src/instructions/device_lifecycle.rs:669-672 | Only a chain's last record can be unrevoked; the flag and the Revoked state always agree |
| `Devices.ChainIsReachability` | programs/enrg-mvp/src/instructions/device_lifecycle.rs:606-683 | Two keys belong to one device exactly when one is reached from the other by rotations |
| `Devices.NoncesIncrease` | programs/enrg-mvp/src/instructions/mint.rs:89-90 | Accepted nonces strictly increase along a chain of rotations, so none is minted twice for one device |
| `Devices.MonthIsTheChains` | programs/enrg-mvp/src/state/producer.rs:176-184 | Over every run a live record's month energy is the sum of the reports accepted along its whole chain of keys since its month was rolled or its tier set |
| `Devices.MonthIsSinceItsStart` | programs/enrg-mvp/src/state/producer.rs:176-184 | With a forward clock and no tier set on the chain, that is the sum of all reports accepted along the chain at or after month_start_ts, none of them thirty days after it |
| `Devices.EnergyConserved` | programs/enrg-mvp/src/instructions/mint.rs:171-181 | The vault's energy total is the sum over records not rotated away and the sum over all accepted reports |
| `Devices.CountersBound` | programs/enrg-mvp/src/instructions/device_lifecycle.rs:187-202 | Active devices <= active_count <= total_claimed <= 100 for every owner, with the exact gap |
| `Devices.StrandedExactly` | programs/enrg-mvp/src/instructions/device_lifecycle.rs:524-532 | That gap grows by one exactly when an active device is revoked without its owner's counter |
| `Devices.CountersNeverClamp` | programs/enrg-mvp/src/instructions/device_lifecycle.rs:348-458 | The limit checks of activation and release never fail and no decrement saturates |
| `OracleQuorum.QuorumProgram.Add` | programs/enrg-mvp/src/instructions/oracle_registry.rs:172-194 | Commits the appended oracle below 100 members, refusing a duplicate |
| `OracleQuorum.QuorumProgram.Remove` | programs/enrg-mvp/src/instructions/oracle_registry.rs:196-214 | Commits the list without that oracle, the others in order |
| `OracleQuorum.WithoutIs` | programs/enrg-mvp/src/instructions/oracle_registry.rs:203-209 | Removal takes out exactly that oracle and keeps the list distinct |
| `OracleQuorum.QuorumProgram.Deposit` | programs/enrg-mvp/src/instructions/oracle_quorum.rs:186-213 | Commits the raised deposit of a registered oracle |
| `OracleQuorum.QuorumProgram.Slash` | programs/enrg-mvp/src/instructions/oracle_quorum.rs:247-277 | Commits the emptied, slashed deposit, once |
| `OracleQuorum.QuorumProgram.InitOracleQuorum` | programs/enrg-mvp/src/instructions/oracle_quorum.rs:307-329 | Commits the configuration with a threshold in 2..100, once |
| `OracleQuorum.QuorumProgram.SetOracleQuorum` | programs/enrg-mvp/src/instructions/oracle_quorum.rs:345-360 | Commits new settings by the configuration's authority |
| `OracleQuorum.QuorumProgram.CountVote` | programs/enrg-mvp/src/state/oracle_attestation.rs:59-84 | The first vote fixes the hash, an agreeing one counts up to 255, a contradicting one only sets the conflict flag |
| `OracleQuorum.QuorumProgram.SubmitAttestation` | programs/enrg-mvp/src/instructions/oracle_quorum.rs:85-158 | Commits one vote per oracle and report, and the attestation it changes |
| `OracleQuorum.QuorumProgram.Claim` | programs/enrg-mvp/src/instructions/oracle_quorum.rs:475-506 | Commits the paid mark on a vote of a final attestation and says what is paid |
| `OracleQuorum.VotesAreAgreeing` | programs/enrg-mvp/src/state/oracle_attestation.rs:59-90 | The counter is the number of distinct agreeing oracles up to 255, and a final attestation has at least two |
| `OracleQuorum.VoteFinalizesIff` | programs/enrg-mvp/src/instructions/oracle_quorum.rs:117-133 | A vote makes the attestation final exactly when it already was or the agreeing oracles reach the supplied configuration's threshold, or two without one; the first hash stays |
| `OracleQuorum.TooFewNeverFinalize` | programs/enrg-mvp/src/instructions/oracle_quorum.rs:125-133 | Over every run a vote supplied with a configuration of threshold k never finalizes an open attestation with fewer than k agreeing oracles |
| `OracleQuorum.SubmitIff` | programs/enrg-mvp/src/instructions/oracle_quorum.rs:85-116 | A vote goes through exactly once for each report and oracle, signed, by a registered oracle with an unslashed deposit, on a non-zero device and hash |
| `OracleQuorum.ConflictIff` | programs/enrg-mvp/src/state/oracle_attestation.rs:59-90 | Over every run the conflict flag is raised exactly where a recorded vote has another hash than the attestation |
| `OracleQuorum.StakesAreDeposits` | programs/enrg-mvp/src/instructions/oracle_quorum.rs:186-277 | Over every run a deposit account holds exactly what was deposited since the last slash, and is marked exactly if there was one |
| `OracleQuorum.AdministrationIff` | programs/enrg-mvp/src/instructions/oracle_quorum.rs:247-360 | Who may change the registry, the configuration and a deposit, within which bounds |
| `OracleQuorum.VotesWereCast` | programs/enrg-mvp/src/instructions/oracle_quorum.rs:32-65 | Every recorded vote was cast by a successful submission, signed, by an oracle then registered with an unslashed deposit of at least the minimum |
| `OracleQuorum.FinalizedIsBacked` | programs/enrg-mvp/src/instructions/oracle_quorum.rs:85-133 | A final attestation is backed by the successful submissions of two distinct such oracles for its own hash |
| `OracleQuorum.FinalizedStays` | programs/enrg-mvp/src/instructions/oracle_quorum.rs:131-133 | Over every continuation a final attestation stays final and its hash never changes |
| `OracleQuorum.SlashedNeverVotes` | programs/enrg-mvp/src/instructions/oracle_quorum.rs:60-65 | A slashed oracle never votes again, whatever it deposits |
| `OracleQuorum.PaidAtMostOnce` | programs/enrg-mvp/src/instructions/oracle_quorum.rs:475-498 | Over every run each vote is paid at most once |
| `OracleQuorum.PaidIsFinal` | programs/enrg-mvp/src/instructions/oracle_quorum.rs:478 | Only votes of final attestations are paid |
| `OracleQuorum.PayableIff` | programs/enrg-mvp/src/instructions/oracle_quorum.rs:475-498 | Over every run a vote is payable exactly when recorded, its attestation final, no payment made for it so far, and the fund covers a reward above 0; the vote's hash plays no part |
| `OracleQuorum.ContradictionIsPayable` | programs/enrg-mvp/src/instructions/oracle_quorum.rs:475-498 | A vote against a final attestation's hash leaves its counter and hash alone and is payable at once |
| `Pool.Bonus` | programs/enrg-mvp/src/state/reputation.rs:103-109 | The reputation bonus is at most one fifth |
| `Pool.WeightBracket` | programs/enrg-mvp/src/instructions/pool.rs:219-225 | A weight is the floored share of the pool's energy raised by 2e14 parts in 1e18 for each of up to a thousand points; with no share or no bonus where a product overflows |
| `Pool.QuotasFit` | programs/enrg-mvp/src/instructions/pool.rs:260-282 | No prefix of the quotas exceeds the reward, whatever overflows: neither `saturating_sub` nor the running total clamps |
| `Pool.SharesAtMostWhole` | programs/enrg-mvp/src/instructions/pool.rs:226-231 | The members' shares of the weighted sum never exceed the whole, even where the sum saturates |
| `Pool.PayoutsSumToReward` | programs/enrg-mvp/src/instructions/pool.rs:253-296 | The payouts sum exactly to the total reward |
| `Pool.PayoutFairIff` | programs/enrg-mvp/src/instructions/pool.rs:226-277 | A member but the last gets its exact weighted share less under two atomics exactly when its weight can be scaled in u128 or that share is below two atomics; sums that saturate included |
| `Pool.LastNeverShort` | programs/enrg-mvp/src/instructions/pool.rs:278-282 | The last member, taking the remainder, never gets less than its exact share, whatever overflows |
| `Pool.ModestWeight` | programs/enrg-mvp/src/instructions/pool.rs:196-224 | A contribution of at most 283 times the pool's total always has a weight that can be scaled |
| `Pool.PoolProgram.JoinPool` | programs/enrg-mvp/src/instructions/pool.rs:81-118 | Commits a new member, at most 100, keeping an existing contribution account |
| `Pool.PoolProgram.WeightedSum` | programs/enrg-mvp/src/instructions/pool.rs:196-236 | The first pass checks every group in order and computes the saturating sum of weights |
| `Pool.PoolProgram.Rewards` | programs/enrg-mvp/src/instructions/pool.rs:260-296 | The second pass computes the payouts, the last taking the remainder, and they sum to the reward |
| `Pool.PoolProgram.DistributePool` | programs/enrg-mvp/src/instructions/pool.rs:174-328 | Commits the emptied pool, the raised supply and the credits, whose sum is the rise; or the first error and nothing |
| `Pool.DistributionConserves` | programs/enrg-mvp/src/instructions/pool.rs:238-310 | In every reachable state a distribution adds to the supply exactly what it pays, within the cap |
| `Pool.DistributionFairIff` | programs/enrg-mvp/src/instructions/pool.rs:196-282 | In every distribution the account of each group passed but the last is credited that group's share less under two atomics exactly under that condition |
| `Pool.AllServedIff` | programs/enrg-mvp/src/instructions/pool.rs:190-213 | In every reachable state a distribution that goes through has a group for every member of the pool exactly where no two groups name the same member, which the program does not check |
| `Pool.MembersServedFairly` | programs/enrg-mvp/src/instructions/pool.rs:190-282 | Where no two groups name the same member, every member has exactly one group: the last one is credited at least its share, every other its share less under two atomics exactly where its weight can be scaled or the share is below two atomics |
| `Pool.RepeatedGroupLeavesOut` | programs/enrg-mvp/src/instructions/pool.rs:190-213 | Witness, reached by a run: naming one of two equal members twice goes through, pays both credits to that member's account and nothing to the other |
| `Pool.ContributionsNeverShrink` | programs/enrg-mvp/src/instructions/pool.rs:301-307 | The reset loop writes to copies: contributions survive every distribution |
| `Pool.CreateIs` | programs/enrg-mvp/src/instructions/pool.rs:58-78 | A pool opens empty, with a threshold of one megawatt-hour unless it names another |
| `Pool.JoinIff` | programs/enrg-mvp/src/instructions/pool.rs:81-118 | A member joins exactly once, below a hundred members, and keeps what it contributed before |
| `Pool.TotalsAreContributions` | programs/enrg-mvp/src/instructions/mint.rs:385-425 | Over every run the pool's total is what was contributed since its last distribution, and a member's account what it contributed ever |
| `Pool.DistributeIff` | programs/enrg-mvp/src/instructions/pool.rs:174-250 | A distribution goes through exactly for the authority, from the threshold on, with as many well-formed groups as members, some weight, and a non-zero reward within the cap |
| `Pool.StaleContributionUnfair` | programs/enrg-mvp/src/instructions/pool.rs:226-307 | Witness, reached by a run: after one distribution the kept contributions exceed the new total, and a member with more than half of the weight gets nothing |
| `Pool.RunKeeps` | programs/enrg-mvp/src/instructions/pool.rs:81-99 | Members stay distinct, at most 100, each with a contribution account |
| `Tokens.SplitLosesNothing` | programs/enrg-mvp/src/instructions/mint.rs:215-245 | The five parts sum to the reward, each is its percentage rounded down except the emergency fund which takes every remainder; the split fails exactly when 85 times the reward overflows |
| `Tokens.TokenProgram.Distributions` | programs/enrg-mvp/src/instructions/mint.rs:215-245 | The step-by-step computation equals the split; past the first, no checked operation can fail |
| `Tokens.MintPaysParts` | programs/enrg-mvp/src/instructions/mint.rs:255-318 | Every account gets exactly the parts addressed to it, whichever of the five accounts coincide, and no other balance moves |
| `Tokens.MoveIsExact` | programs/enrg-mvp/src/instructions/funds.rs:106-119 | A transfer moves the amount between the two accounts and touches nothing else |
| `Tokens.WithdrawIs` | programs/enrg-mvp/src/instructions/funds.rs:58-136 | A withdrawal goes through exactly for the authority out of a covered fund, and moves the amount from the fund it names to the destination alone |
| `Tokens.PayOracleIs` | programs/enrg-mvp/src/instructions/oracle_quorum.rs:475-498 | An oracle is paid exactly out of a staking fund that covers the reward, and no other account moves |
| `Tokens.BurnIs` | programs/enrg-mvp/src/instructions/buyback.rs:23-85 | A burn takes the amount out of the buyback fund and the supply alone, exactly for the authority while the fund covers it |
| `Tokens.GovernanceMintIs` | programs/enrg-mvp/src/instructions/governance.rs:396-426 | A governance mint credits its destination alone, exactly while the cap leaves room |
| `Tokens.FounderIs` | programs/enrg-mvp/src/instructions/init_founder.rs:66-127 | The founder's 2e17 atomics are credited exactly once, to the locked account alone |
| `Tokens.MintRewardIff` | programs/enrg-mvp/src/instructions/mint.rs:200-321 | A reward is minted exactly if non-zero, with 85 times it in 64 bits, room in the supply and under an enforced cap, and the five accounts present |
| `Tokens.DistributionPays` | programs/enrg-mvp/src/instructions/pool.rs:238-296 | A pool distribution pays every account exactly what the payouts address to it |
| `Tokens.TokenProgram.MintEnergyReward` | programs/enrg-mvp/src/instructions/mint.rs:200-321 | Commits the five credits and the supply, or nothing |
| `Tokens.TokenProgram.AllocateFounderPremine` | programs/enrg-mvp/src/instructions/init_founder.rs:66-127 | Commits the one premine to the locked founder account |
| `Tokens.TokenProgram.MintProposal` | programs/enrg-mvp/src/instructions/governance.rs:397-424 | Commits a governance mint within the cap |
| `Tokens.TokenProgram.Burn` | programs/enrg-mvp/src/instructions/buyback.rs:23-85 | Commits the burn from the buyback fund and the lowered supply |
| `Tokens.TokenProgram.Withdraw` | programs/enrg-mvp/src/instructions/funds.rs:58-136 | Commits the transfer out of the tagged fund |
| `Tokens.TokenProgram.PayVote` | programs/enrg-mvp/src/instructions/oracle_quorum.rs:484-496 | Commits the transfer from the staking fund to the oracle |
| `Tokens.SupplyIsBalances` | programs/enrg-mvp/src/instructions/mint.rs:247-321 | Over every run of mints, distributions, the premine, governance mints, burns, withdrawals, rewards and transfers, total_supply is the sum of all balances |
| `Tokens.SupplyWithinCap` | programs/enrg-mvp/src/instructions/policy_engine.rs:299-315 | While the cap is enforced on every mint the supply never exceeds it |
| `Tokens.UnenforcedMintPassesCap` | programs/enrg-mvp/src/instructions/policy_engine.rs:306-312 | At the cap the switch decides: the same mint is refused with it and passes the cap without it |
| `Tokens.BurnNeverUnderflows` | programs/enrg-mvp/src/instructions/buyback.rs:63-68 | The burn's supply subtraction never fails |
| `Tokens.PremineOnce` | programs/enrg-mvp/src/instructions/init_founder.rs:76-118 | The founder's fifth of the cap is minted at most once over every run |
| `Governance.GovernanceProgram.ValidateMembers` | programs/enrg-mvp/src/state/governance.rs:137-147 | Passes exactly for three to five distinct members; a wrong length is reported before a repetition, each with its own error |
| `Governance.GovernanceProgram.SetMembers` | programs/enrg-mvp/src/instructions/governance.rs:64-75 | Commits a valid member list by the authority |
| `Governance.GovernanceProgram.CreateProposal` | programs/enrg-mvp/src/instructions/governance.rs:164-224 | Commits the next proposal, cancelling the active one |
| `Governance.GovernanceProgram.CastVote` | programs/enrg-mvp/src/instructions/governance.rs:251-310 | Commits one vote and the decision it brings |
| `Governance.GovernanceProgram.MintProposal` | programs/enrg-mvp/src/instructions/governance.rs:376-436 | Commits the execution of an approved proposal after its timelock |
| `Governance.PendingIsActive` | programs/enrg-mvp/src/instructions/governance.rs:187-220 | Over every run the pending proposals are exactly the active one, or none |
| `Governance.VotesWithinSnapshot` | programs/enrg-mvp/src/instructions/governance.rs:259-306 | Over every run recorded votes are distinct and at most the snapshot of three to five; approved or executed only with more votes for than against and more than half of the snapshot voted; rejected only with every vote cast and not carried |
| `Governance.MembersIff` | programs/enrg-mvp/src/instructions/governance.rs:64-75 | The authority alone replaces the members, by three to five distinct ones, and nothing else changes |
| `Governance.VoteIff` | programs/enrg-mvp/src/instructions/governance.rs:251-275 | Over every run a vote goes through exactly for a member that has not voted, on the active proposal |
| `Governance.VoteDecides` | programs/enrg-mvp/src/instructions/governance.rs:276-306 | Over every run a vote counts on its side and decides: approved exactly when the counts carry it, rejected exactly when they do not and none is left, else pending and active; nothing else changes |
| `Governance.CreateIff` | programs/enrg-mvp/src/instructions/governance.rs:164-224 | Over every run a proposal is created exactly by the authority under the next number, within amount and title limits, naming the active one where there is one |
| `Governance.CreateOpens` | programs/enrg-mvp/src/instructions/governance.rs:187-224 | It opens without votes, with as many seats as there are members then, and cancels the active one alone |
| `Governance.TermsWereCreated` | programs/enrg-mvp/src/instructions/governance.rs:187-224 | Over every run a proposal keeps the proposer, amount and snapshot of its creation, whoever is replaced later |
| `Governance.MintIff` | programs/enrg-mvp/src/instructions/governance.rs:376-436 | Over every run an approved proposal mints exactly its amount, to its proposer, seven days after approval, while the supply stays within the cap |
| `Governance.VotersWereMembers` | programs/enrg-mvp/src/instructions/governance.rs:259-263 | Every recorded voter cast a vote that went through, as a member, on the proposal then active |
| `Governance.MintWaitsForTimelock` | programs/enrg-mvp/src/instructions/governance.rs:386-395 | A mint happens only after an earlier vote turned that proposal from pending to approved, and only once 604_800 seconds from that vote have passed |
| `Governance.ApprovalTimeStands` | programs/enrg-mvp/src/instructions/governance.rs:298-300 | Over every continuation a proposal stays approved, at the time of the vote that approved it |
| `Governance.MintsAtMostOnce` | programs/enrg-mvp/src/instructions/governance.rs:386-426 | Each proposal mints at most once over every run |
| `Governance.EmissionBounded` | programs/enrg-mvp/src/instructions/governance.rs:376-426 | Governance emission never exceeds 1e15 atomics for each proposal created |
| `MintQueue.MintServer.EnqueueMint` | server.js:779-788 | Queued exactly when neither marked nor full; otherwise nothing changes |
| `MintQueue.MintServer.RetryDue` | server.js:810 | A due timer puts its entry back whatever the marks and the depth |
| `MintQueue.MintServer.DrainNext` | server.js:794-798 | The loop head: the next entry goes in flight, or the worker stops |
| `MintQueue.MintServer.Immediate` | server.js:786-793 | A wake-up enters the loop only when no worker is running |
| `MintQueue.MintServer.ResumeWorker` | server.js:797-827 | The piece after each `await`, for every phase and outcome |
| `MintQueue.OneWorkerAndNoLostWakeUp` | server.js:790-827 | In every interleaving at most one worker runs, exactly while the flag is set; a non-empty queue has a worker or a scheduled wake-up; a marked key is queued |
| `MintQueue.RefusedOnlyWhenQueuedOrFull` | server.js:780-783 | A new proof is refused only when the same proof is queued or the queue is full |
| `MintQueue.CopiesWithinRetries` | server.js:779-814 | Over every run a marked proof is queued, and a proof has at most one queued copy more than its retries that have fired |
| `MintQueue.NoDuplicateBeforeRetry` | server.js:779-788 | Until a retry of it has fired a proof is queued exactly when marked, never twice, and refused exactly when queued or the queue is full |
| `MintQueue.SameProofQueuedTwice` | server.js:781-784 | Witness: after a retry has fired the same proof can be queued a second time beside it |
| `MintQueue.EachEntryInOnePlace` | server.js:779-828 | Each accepted entry is in exactly one of queue, retry timer, in flight, finished |
| `MintQueue.MintedWithinAttempts` | server.js:797-818 | An entry calls `mintEnergy` at most MINT_MAX_ATTEMPTS times, succeeds at most once, and never waits again after succeeding |
| `MintQueue.GivenUpOnlyAtTheLimit` | server.js:797-818 | Where no awaited call throws, every finished entry succeeded or was tried as often as the limit allows |
| `MintQueue.FirstInFirstOut` | server.js:779-798 | In every interleaving entries reach the worker in the order they entered the queue, retries included |
| `MintQueue.QueueDrains` | server.js:790-828 | Without new proofs the loop falls silent within a bound known from its state, whatever the interleaving and outcomes; and when silent every entry is finished |
| `EnergyMint.MintProgram.CheckGate` | programs/enrg-mvp/src/instructions/mint.rs:92-122 | The quorum gate, step by step in the program's order, is its specification |
| `EnergyMint.MintProgram.CheckMint` | programs/enrg-mvp/src/instructions/mint.rs:31-134 | The verifier's and policy engine's verdict, first failure first |
| `EnergyMint.MintProgram.PrepareMint` | programs/enrg-mvp/src/instructions/mint.rs:171-321 | The moves of record, tokens and pool, with the reward from the old device window and the new network window, or the first error |
| `EnergyMint.MintProgram.ExecuteMint` | programs/enrg-mvp/src/instructions/mint.rs:136-425 | Commits windows, record, tokens, totals and pool contribution together, or nothing |
| `EnergyMint.MintProgram.Mint` | programs/enrg-mvp/src/instructions/mint.rs:31-428 | The whole instruction: checks, then execution, all or nothing |
| `EnergyMint.GateIff` | programs/enrg-mvp/src/instructions/mint.rs:99-122 | The gate opens exactly when no quorum is required or the supplied attestation is final and for the report's own device, nonce, time and energy |
| `EnergyMint.DefaultsAdmitIff` | programs/enrg-mvp/src/instructions/policy_engine.rs:226-296 | Under the default policy the exact conditions on which a report is admitted |
| `EnergyMint.VerifyIff` | programs/enrg-mvp/src/instructions/mint.rs:31-134 | Under any policy the exact conditions on which a report is admitted, every check and bound written out, each only where the policy has it on |
| `EnergyMint.MintIff` | programs/enrg-mvp/src/instructions/mint.rs:136-425 | Over every run a report that passes is minted exactly while the sums it enters fit, its reward can be paid under the cap in force, and its pool takes it |
| `EnergyMint.ClaimMoves` | programs/enrg-mvp/src/instructions/oracle_quorum.rs:475-506 | A claimed reward moves the configuration's reward from the staking fund to the oracle's account and marks the vote, and nothing else |
| `EnergyMint.DistributionCredits` | programs/enrg-mvp/src/instructions/pool.rs:238-310 | A distribution pays into every token account exactly the credits of the pool's split, and empties that pool alone |
| `EnergyMint.PolicyInForce` | programs/enrg-mvp/src/instructions/policy_engine.rs:226-238 | The registry's policy where its account is supplied, else every check on with 10000 basis points and 300 seconds |
| `EnergyMint.SettingsIff` | programs/enrg-profile/src/lib.rs:97-165 | Profiles open once within a megawatt, the rated power is set once within it; a policy is set by its authority within its bounds |
| `EnergyMint.RegistryBindsWhereGiven` | programs/enrg-mvp/src/instructions/policy_engine.rs:226-238 | Without the optional registry account the verdict does not depend on the registry; with it a pause stops every mint |
| `EnergyMint.DevicesRefine` | programs/enrg-mvp/src/instructions/mint.rs:171-181 | A run of the whole protocol is a run of the device machine, each mint one accepted report |
| `EnergyMint.QuorumRefines` | programs/enrg-mvp/src/instructions/mint.rs:92-122 | And a run of the quorum machine |
| `EnergyMint.TokensRefine` | programs/enrg-mvp/src/instructions/mint.rs:200-321 | And a run of the token machine, each mint one reward |
| `EnergyMint.PoolsRefine` | programs/enrg-mvp/src/instructions/mint.rs:385-425 | And, seen from any pool, a run of that pool's machine from its creation on |
| `EnergyMint.RequiredMintIsBacked` | programs/enrg-mvp/src/instructions/mint.rs:92-122 | While the quorum is required every mint is backed by the successful votes of two distinct oracles, registered, staked and unslashed when they voted, for exactly this report's data |
| `EnergyMint.RewardBuys` | programs/enrg-mvp/src/instructions/mint.rs:183-198 | Every mint pays what its energy buys at the supply's price times the multiplier of the owner's old window in the network's new one |
| `EnergyMint.NetworkIsRecorded` | programs/enrg-mvp/src/instructions/mint.rs:183-198 | Over every run the network's window is that of exactly the reports minted, and the proof count their number |
| `EnergyMint.ProfileIsRecorded` | programs/enrg-profile/src/lib.rs:41-50 | Over every run an owner's window is that, since its profile was opened, of exactly its devices' minted reports and what it recorded itself |
| `EnergyMint.ForeignFirstVoteBlocks` | programs/enrg-mvp/src/instructions/mint.rs:92-122 | While the quorum is required, once an attestation's first vote gave a hash other than a report's own, no continuation ever mints that report |
| `EnergyMint.RewardsPerWattHour` | programs/enrg-mvp/src/instructions/mint.rs:183-213 | Over any run whose successful mints all start within the supply cap, however its switch stood, rewards total at most 1000 atomics per watt-hour of total_energy_wh |
| `EnergyMint.SwitchKeepsWithinCap` | programs/enrg-mvp/src/instructions/mint.rs:183-213 | That holds of every run whose mints were judged with the cap switched on |
| `EnergyMint.EnergyIsAccountedFor` | programs/enrg-mvp/src/instructions/mint.rs:320-325 | Over every run of the protocol the energy total is that of the live records and of the accepted reports |
| `EnergyMint.SupplyIsAccountedFor` | programs/enrg-mvp/src/instructions/mint.rs:209-321 | Over every run of the protocol the supply is the sum of all balances |
| `EnergyMint.MonthWithinTier` | programs/enrg-mvp/src/state/producer.rs:64-84 | While tier limits are enforced, the reports accepted along a device's whole chain of keys since its month was rolled or its tier set total at most its tier's limit: rotation opens no new allowance |
| `EnergyMint.SinceStartWithinTier` | programs/enrg-mvp/src/state/producer.rs:64-84 | With a forward clock and no tier set on the chain, so do all reports accepted along it at or after month_start_ts |
| `EnergyMint.RatedPowerBounded` | programs/enrg-profile/src/lib.rs:104-109 | Over every run a rated power is at most one megawatt |
| `EnergyMint.RatedPowerIsFixed` | programs/enrg-profile/src/lib.rs:152-160 | Once set, a rated power never changes |

## Left out

- Emission.MultiplierMonotoneAboveHalf: states monotonicity only from a share of one half up. Against a share of one half or more it holds for a share of at most 0.345 (`MultiplierAcrossHalf`) and can fail for one between 0.345 and one half (the witness is proved); within the lower branch it holds up to 43 units of 1e-18 (`MultiplierNearlyMonotone`), a tolerance the floors of the logarithm do need (`LnDipsByAUnit`).
- Emission.NoFallback: supposes a supply within the cap; above it the exponential's loop can overflow into its fallbacks.
- EnergyWindow.MiddleRecordKeeps: supposes that the decay product of the gap fits, as it does for every window below 2^106 (`SmallWindowFits`). Where it saturates the property can fail, as the witness shows; for which windows and splits it then fails is not stated.
- EnergyMint.MintProgram.ExecuteMint: checks the vault's energy total together with the record's, before the reward; the program checks it after the token credits, so where two of these fail at once the reported error can differ.
- EnergyMint.MintProgram.CheckGate: takes the attestation account, where one is given, to be the one derived for the report's device and nonce; the program refuses any other.
- OracleQuorum.QuorumProgram.Slash: moves the deposit out of the account but not into the vault's lamports; lamport balances are not modelled.
- Devices.MonthIsSinceItsStart: supposes a clock that never runs backwards, no tier set on the chain and a month that has started (a start of 0 says it has not); `MonthIsTheChains` supposes none of these.
- Negative times given to `record_production` or kept in a profile, for which the program's time difference can overflow.
- Ed25519, SHA-256 rounds, account derivation, rent and account sizes: foreign or bit-level.
- Instructions for staking, vesting and reputation scoring, and the reputation update inside `mint_energy`: they do not touch what is stated here; transfers they make are covered by the general transfer step.
- Role setters (oracle admin, registry, quorum, policy and governance authorities, deployer checks): single-branch rules, passed in as whether the signer holds the role.
- Events and log messages.
- The server's routes, storage, start-up drain and policy validation; a restart of the server, which empties the queue.
- JSON canonicalization and the content hash of a manifest: a content hash is a number here.
- Scripts, demonstrations, legacy programs and the remaining client libraries.
