# libLISA enumeration driver — a Dafny model

libLISA enumerates the instruction-encoding space of an x86-64 CPU. Every
byte string it probes is a candidate instruction. Every class of byte strings
that behave the same becomes an *encoding* (an artifact) with one or more
*filters*: patterns that cover the whole class. The space is split into
*workers*. Each worker owns a range `[from, to]` and a cursor (an
`InstructionCounter`) that skips what its loaded filters already cover.

This project models the `enumerate` command-line driver
(`lisacli/src/bin/enumerate.rs`) against small stand-ins for the library types
it uses. It proves what the driver's verbs promise:

- `Create` builds the seed list (`Seed`): all one-byte instructions, or a
  scan list narrowed by an inclusion predicate, with 7 of every 8
  REX-prefixed entries dropped and `[0x00]` put in front.
- `ResetWorker`, `ResumeWorker`, `ResetInstrsSeen` and `RebuildFilters`
  update the worker records in place (`Maintenance`).
- `Status` audits a scan list (`Status`). It builds a filter map and gives
  each scanned instruction to its worker. It counts the instruction as found,
  missed or only total, and merges per-chunk results.
- `Dump` computes statistics over the artifact log (`Dump`).

Library stand-ins:

- `Instructions`: an instruction is a byte sequence. The order is
  lexicographic, and a proper prefix sorts first. Lemmas prove it is a strict
  total order.
- `Filters`: a filter fixes some bits of each byte and leaves the rest as
  don't-care. Its ordering key is its smallest matching instruction, which is
  proved to match and to be least.
- `WorkState`: the counter, the per-worker enumeration state, the worker
  record, the encodings, the worker factory `FreshWorker`, and the loaded
  state as a class `Work` whose fields the verbs reassign.

## Model

| member | source | states |
|---|---|---|
| `Instructions.LessIrreflexive` | lisacli/src/bin/enumerate.rs:168 | no instruction is below itself in the order used to compare instructions with worker bounds |
| `Instructions.LessTransitive` | lisacli/src/bin/enumerate.rs:168 | the instruction order is transitive |
| `Instructions.LessConnected` | lisacli/src/bin/enumerate.rs:179 | any two distinct instructions are ordered one way or the other, so comparing with the cursor position is total |
| `Filters.Filter.SmallestMatchingInstruction` | lisacli/src/bin/enumerate.rs:275 | the sort key of a filter is an instruction the filter matches, and it is at most every instruction the filter matches |
| `Filters.SortByKeyCorrect` | lisacli/src/bin/enumerate.rs:275 | sorting by key gives a list ordered non-decreasingly by smallest matching instruction that is a permutation of its input |
| `Seed.DefaultSeedIsAllSingleBytesAscending` | lisacli/src/bin/enumerate.rs:106 | without a scan file the seed has 256 entries, is strictly ascending, holds every one-byte instruction and only one-byte instructions |
| `Seed.ThinRex` | lisacli/src/bin/enumerate.rs:81-101 | the retain loop with counters `k` and `n` keeps exactly the entries that are not REX-matching or whose 1-based REX ordinal is a multiple of 8, in order; `n` never goes below zero |
| `Seed.RetainedCount` | lisacli/src/bin/enumerate.rs:89-96 | of R REX-matching entries exactly floor(R/8) survive, and the result has the other entries plus those |
| `Seed.RetainedKeepsNonRex` | lisacli/src/bin/enumerate.rs:97-100 | entries that match no REX alternative all survive, in their original order |
| `Seed.RetainedIsSubsequence` | lisacli/src/bin/enumerate.rs:83-101 | thinning only deletes entries and keeps the relative order |
| `Seed.SelectProperties` | lisacli/src/bin/enumerate.rs:75-77 | filtering by the inclusion predicate keeps order and leaves only included entries |
| `Seed.CreateSeed` | lisacli/src/bin/enumerate.rs:72-107 | the seed is the default one-byte list without a scan file, and otherwise `[0x00]` followed by the thinned included scan entries |
| `Seed.SeedFromScan` | lisacli/src/bin/enumerate.rs:73-104 | with a scan file the seed starts with `[0x00]`, and the rest is a subsequence of the scan list whose entries all satisfy the inclusion predicate |
| `WorkState.Work.Load` | lisacli/src/bin/enumerate.rs:124 | the loaded state holds exactly the given workers, artifacts and running time, and every worker id equals its position |
| `WorkState.FreshWorker` | lisacli/src/bin/enumerate.rs:109-118 | a fresh worker has a counter over `[from, to]` positioned at `from` with no filters, no unique sequences, no lookahead, an empty seen-set and failure list, and fast tunnelling off |
| `Maintenance.ResetWorker` | lisacli/src/bin/enumerate.rs:249-258 | worker `num` gets the fresh-worker counter over its own bounds, an empty seen-set and `done` cleared; all its other fields, all other workers and the artifacts are unchanged; an out-of-range `num` fails and changes nothing |
| `Maintenance.ResumeWorker` | lisacli/src/bin/enumerate.rs:310-316 | only the `done` flag of worker `num` is cleared; an out-of-range `num` fails and changes nothing |
| `Maintenance.ResetInstrsSeen` | lisacli/src/bin/enumerate.rs:319-325 | every worker's seen-set is emptied and nothing else changes |
| `Maintenance.GatherFilters` | lisacli/src/bin/enumerate.rs:266-273 | the gathering loop yields every artifact's filters, artifact by artifact in log order |
| `Maintenance.ClearAll` | lisacli/src/bin/enumerate.rs:277-280 | every counter's filter list becomes empty and every other part of every worker record is unchanged |
| `Maintenance.LoadFilters` | lisacli/src/bin/enumerate.rs:285-300 | adding the filters one by one and running the ten rebuild passes leaves the counter holding its previous filters followed by the given list, in order, and nothing else about it changes |
| `Maintenance.LoadAll` | lisacli/src/bin/enumerate.rs:284-304 | every worker's counter gets the whole list appended, and nothing else in any worker record changes |
| `Maintenance.RebuildFilters` | lisacli/src/bin/enumerate.rs:261-300 | every worker's counter then holds the same list, the sorted gathered filters, and previous filters are gone; position, bounds, every other worker field and the artifacts are unchanged |
| `Maintenance.AllFiltersMembers` | lisacli/src/bin/enumerate.rs:266-273 | a filter is gathered exactly when some artifact lists it |
| `Maintenance.RebuiltFiltersCorrect` | lisacli/src/bin/enumerate.rs:266-275 | the rebuilt list is sorted by smallest matching instruction, is a permutation of the concatenation of all artifacts' filters, and holds exactly the artifacts' filters |
| `Status.FilterMap.Lookup` | lisacli/src/bin/enumerate.rs:172 | a lookup answers the index registered with some filter that matches, and answers nothing exactly when no registered filter matches |
| `Status.FilterMapOf` | lisacli/src/bin/enumerate.rs:142-151 | every index registered in the filter map is below the number of encodings, so `encodings_seen[index]` is in bounds |
| `Status.FilterMapOfMembers` | lisacli/src/bin/enumerate.rs:142-151 | the filter map registers exactly the pairs (filter f, index i) with f a filter of artifact i |
| `Status.FilterMapLookup` | lisacli/src/bin/enumerate.rs:172-175 | a lookup answers an artifact one of whose filters matches, and answers nothing exactly when no filter of any artifact matches |
| `Status.BuildFilterMap` | lisacli/src/bin/enumerate.rs:142-152 | the loop fails on the first artifact with no filters, and otherwise returns the filter map of all artifacts |
| `Status.Owner` | lisacli/src/bin/enumerate.rs:167-169 | the owner is the first worker whose range contains the instruction, and there is none exactly when no worker's range contains it |
| `Status.StepEffect` | lisacli/src/bin/enumerate.rs:166-185 | the owner's record becomes found + 1 when a filter matches, otherwise missed + 1 when its cursor is past the instruction, and total + 1 in either case, with nothing else changed; other workers are unchanged; only the matched encoding's seen flag is set |
| `Status.TallyOne` | lisacli/src/bin/enumerate.rs:171-184 | the loop body for one owned instruction computes exactly that step |
| `Status.TallyChunk` | lisacli/src/bin/enumerate.rs:162-190 | a chunk fails exactly when one of its instructions has no owner, and otherwise yields the sequential tally of the chunk |
| `Status.AuditScan` | lisacli/src/bin/enumerate.rs:161-204 | the chunked audit of the whole scan list fails exactly when some scanned instruction has no owner, and otherwise equals the sequential tally of the list |
| `Status.Merge` | lisacli/src/bin/enumerate.rs:192-204 | the reduce closure computes the element-wise sum of found, missed and total and the element-wise OR of the seen flags |
| `Status.CombineIdentity` | lisacli/src/bin/enumerate.rs:191 | the all-zero, all-false tally is a left and right identity of the merge |
| `Status.CombineAssociative` | lisacli/src/bin/enumerate.rs:192-204 | the merge is associative, so any reduction tree gives the same result |
| `Status.CombineCommutative` | lisacli/src/bin/enumerate.rs:192-204 | the merge is commutative, so the order chunks finish in does not matter |
| `Status.TallySplit` | lisacli/src/bin/enumerate.rs:161-204 | tallying two pieces and merging equals tallying their concatenation |
| `Status.ReduceChunksIsSequential` | lisacli/src/bin/enumerate.rs:161-204 | folding per-chunk tallies with the merge gives the single sequential tally of the whole scan list |
| `Status.TallyFromCounts` | lisacli/src/bin/enumerate.rs:177-184 | tallying keeps found + missed <= total for every worker, and when every instruction has an owner the totals grow by the number scanned |
| `Status.SumsConsistent` | lisacli/src/bin/enumerate.rs:239-241 | overall found plus overall missed is at most overall total |
| `Status.CountTrue` | lisacli/src/bin/enumerate.rs:245 | the number of seen encodings is at most the number of flags |
| `Status.TallySeen` | lisacli/src/bin/enumerate.rs:171-174 | after tallying a list, an encoding's seen flag is set exactly when it was set before or some owned instruction of the list has a lookup answering that encoding |
| `Status.ScanSeen` | lisacli/src/bin/enumerate.rs:161-204 | in the audit of a scan list, encoding i is marked seen exactly when some owned scanned instruction's lookup answers i |
| `Status.ScanSeenMatches` | lisacli/src/bin/enumerate.rs:142-174 | an artifact the audit marks seen has a filter that matches some scanned instruction |
| `Status.Status` | lisacli/src/bin/enumerate.rs:127-247 | the verb fails exactly on no workers, an artifact without filters or an unowned scanned instruction; otherwise it reports the per-worker sequential tally, overall sums with found + missed <= total, total equal to the scan length, and seen encodings at most the encoding count; the seen-encodings count is the number of seen flags of that tally |
| `Dump.RepresentativesBound` | lisacli/src/bin/enumerate.rs:331-346 | there are at most as many distinct representatives as encodings, and at least one when there are encodings |
| `Dump.UniqueEncodings` | lisacli/src/bin/enumerate.rs:331-346 | the `seen`-set loop counts the distinct representative byte strings, and that count is at most the number of encodings, so `len - unique` cannot underflow |
| `Dump.MemoryAccesses` | lisacli/src/bin/enumerate.rs:350 | the memory-access count of an encoding is at most its number of outputs, and is zero exactly when no output accesses memory |
| `Dump.MaxInputs` | lisacli/src/bin/enumerate.rs:358 | the input key is at least every output's `num_inputs`, is one of them, and is 0 when there are no outputs |
| `Dump.Histogram` | lisacli/src/bin/enumerate.rs:348-352 | each key present is a key of some encoding, its count is how often it occurs, and the counts sum to the number of encodings |
| `Dump.Dump` | lisacli/src/bin/enumerate.rs:328-362 | unique is the number of distinct representatives and at most the number of encodings; duplicates is the rest; both histograms have exactly the occurring keys and count every encoding once |

## Left out

- `Run` and `Extract`: they call the enumeration engine, the hardware oracle and `preprocess_encodings`. Those are foreign, hardware-backed code outside this model.
- Loading and saving: JSON, `SavePath`, `Work::load` and `save_all`. These are I/O. The loaded state is given to the `Work.Load` constructor, and the scan list is a parameter.
- `Work::create`: it splits the seed list into `num_workers` ranges. That code is not part of this model, so only the seed list and the factory `FreshWorker` are modelled.
- `InstructionCounter` internals: `filter` is modelled as appending to a list of loaded filters. `rebuild_inplace` leaves that list unchanged. The skip structure, advancing and `num_filters` are not modelled.
- Filters are byte patterns with fixed and don't-care bits only. Register-class constraints are not modelled.
- `FilterMap`: modelled as a list of (filter, artifact index) entries whose lookup answers the first match. The bucketing is not modelled.
- `X64Arch::is_instruction_included` is not part of this model. It is a parameter `included` of `Seed.CreateSeed`.
- Parallelism: rayon's `par_iter().chunks(5000)` and `reduce` run sequentially here, with chunks of 5000 merged in order. `CombineAssociative` and `CombineCommutative` cover other reduction orders. The parallel per-worker insertion in `RebuildFilters` and its atomic `remaining` counter are not modelled.
- Printing, colours, padding widths, `f64` percentages and `log2` throughput are not modelled. One part of the padding code is kept: `max().unwrap()` panics when there are no workers, and `Status` fails then.
- Integer widths: the integer counters and the `u128` sum of `unique_sequences` are unbounded here. They cannot overflow in practice.
- `Status.StepEffect`: `Step` is defined for every instruction. For an instruction with no owner it changes nothing. The driver panics instead, and `Status.TallyChunk` and `Status.Status` model that as a failure.
- `Filters.SortByKeyCorrect`: the sort is a stable insertion sort, but stability is not proved. Only order and permutation are proved.
- The jemalloc global allocator.
- Worker ids: every verb takes a loaded state whose worker ids are their positions (`Work.Valid`, established by `Work.Load`). The `counts[*worker.id()]` panic of `Status` on a state with an id at or past the worker count is therefore not modelled.
- The model follows the code in two places:
  - `ResetWorker` keeps the worker's `next` lookahead, `unique_sequences`, `instrs_failed` and `fast_tunnel`.
  - Without a scan file, `Status` builds no filter map, so an artifact without filters fails only when a scan file is given.
