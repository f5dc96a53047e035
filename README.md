# Hackathon producer/consumer pipeline — a verified Dafny model

The program simulates a hackathon. Idea generators and package downloaders
are producer threads that fill three unbounded channels: ideas, packages
and "out of ideas" termination tokens. Student threads drain the channels
and build ideas from packages. The run keeps four checksums:
- the ideas and packages the producers sent;
- the ideas and packages the students consumed.

The run is correct when the matching pairs are equal.

This project models the sequential rules underneath the threading.

- **Partitioning** (`Partition`, `per_thread_amount` and the `start_idx`
  loops of `hackathon`): a total is spread over workers by division with
  remainder. The running sums give each worker a contiguous range of global
  indices; the ranges are disjoint and cover exactly `[0, total)`.
- **Idea generation** (`Ideas`, `IdeaGenerator`):
  - the idea at global index `i` is named cyclically from the product ×
    customer cross product;
  - a generator's package budget is spread over its ideas, so the
    requirements sum to the budget;
  - the ideas and then one token per student are sent in order;
  - the batch checksum of exactly the sent names is merged once.
- **Package generation** (`Packages`, `PackageDownloader`): package `i` is
  named cyclically from a fixed list. Packages are sent in order and their
  batch checksum is merged once.
- **Students** (`Students`, `Student`):
  - arriving packages go to the back of a FIFO buffer;
  - an idea is built once enough packages are buffered, draining exactly
    its requirement from the front, and surplus packages carry over;
  - a student stops when the idea channel is empty and it takes a token.
- **Orchestration** (`Hackathon`): the cross product, both spawning loops,
  the students, and the final checksums. For every configuration on which
  the source does not panic, the model proves:
  - the producer checksums hold the names of global indices
    `0 .. num_ideas - 1` and `0 .. num_pkgs - 1`;
  - whenever the students complete, their checksums equal the producers'.

Channels are a class `Channel<T>` whose `items` sequence is the queue. A
send appends and `TryRecv` pops the head. A checksum is the multiset of the
names fed into it; a shared checksum is a class whose `Update` merges a
batch. A multiset is finer than any order-independent digest combination,
so equal multisets imply equal checksums for any such digest.

One schedule is modelled: every producer runs to completion, then the
students run one after another. This is one of the interleavings the
threads allow. A student polling an empty channel would poll forever when
nothing else runs. Such a student ends with an outcome instead:
- `AwaitingIdea`: no idea and no token;
- `AwaitingPackage`: too few packages for the held idea.

The run is then not `completed`.

Two behaviours of the code shape the top-level contract:
- The code does not validate its configuration. A run panics on the
  `assert_eq!` after a spawning loop, divides by zero in a generator with no
  ideas, and takes a name modulo an empty list. The preconditions of
  `Hackathon.RunHackathon` are exactly the conditions that avoid these
  panics.
- With students but no ideas, no tokens are sent, so the students never
  stop. The model reports this as `completed == false`.

## Model

| member | source | states |
|---|---|---|
| Partition.OffsetClosedForm | src/main.rs:86-96 | the `start_idx` of worker `k` is `k` quotients plus `min(k, total % threads)` remainder units |
| Partition.OffsetCoversTotal | src/main.rs:86-101 | the amounts of all workers add up to exactly `total`, so the `assert_eq!(start_idx, total)` after each spawning loop holds |
| Partition.AmountsBalanced | src/main.rs:41-45 | a lower-indexed worker gets at least as much as a higher-indexed one and at most one unit more |
| Partition.AmountPositive | src/main.rs:41-45 | with at least as many units as workers, every worker gets at least one unit |
| Partition.OffsetMonotone | src/main.rs:86-96 | start offsets never decrease with the worker index |
| Partition.RangesDisjoint | src/main.rs:86-96 | worker `i`'s range ends at or before the start of every later worker's range, so the ranges are pairwise disjoint |
| Partition.RangeWithinTotal | src/main.rs:121-136 | every worker's range lies inside `[0, total)` |
| Partition.OwnerFrom | src/main.rs:86-96 | every index in `[0, total)` lies in the range of some worker |
| Partition.OwnerUnique | src/main.rs:86-96 | every index in `[0, total)` lies in the range of exactly one worker |
| Checksums.CombineCommutes | src/idea.rs:72 | merging checksums is commutative, so the order in which threads merge does not matter |
| Checksums.CombineAssociates | src/idea.rs:72 | merging checksums is associative, so batching before merging does not matter |
| Checksums.DefaultIsIdentity | src/main.rs:54-60 | the default checksum the four accumulators start from is neutral for merging |
| Checksums.SharedChecksum.constructor | src/main.rs:55-60 | a fresh shared checksum holds the default value |
| Checksums.SharedChecksum.Update | src/idea.rs:72 | a locked update merges the batch into the shared value and counts one more merge |
| Channels.Channel.constructor | src/main.rs:49-51 | a fresh channel is empty |
| Channels.Channel.Send | src/idea.rs:70 | a send appends the item at the back |
| Channels.Channel.TryRecv | src/student.rs:66-75 | a receive on an empty channel gets nothing and changes nothing; otherwise it removes and returns the front item |
| Ideas.NextIdeaNameCycles | src/idea.rs:44-47 | idea names repeat with period `|ideas|`, taken modulo the length of the cross product |
| Ideas.IdeaBatchAt | src/idea.rs:58-65 | the `i`-th idea of a batch is named for global index `start + i` and requires `num_pkgs / num_ideas` packages, plus one if `i < num_pkgs % num_ideas` |
| Ideas.IdeaBatchPrefixRequired | src/idea.rs:50-61 | the requirements of the first `k` ideas add up to the partition offset of worker `k` |
| Ideas.IdeaBatchRequiresAllPackages | src/idea.rs:50-61 | over a generator's batch, the requirements add up to exactly its package budget |
| Ideas.IdeaBatchBalanced | src/idea.rs:50-61 | requirements never increase along a batch and differ by at most one |
| Ideas.FourIdeasTenPackages | src/idea.rs:50-61 | 4 ideas sharing 10 packages require `[3, 3, 2, 2]` |
| Ideas.IdeaBatchNames | src/idea.rs:58-59 | a batch is named for its consecutive global indices, in order |
| Ideas.GlobalIdeaNamesConcat | src/main.rs:121-136 | adjacent index ranges together name one contiguous range |
| Ideas.IdeasChecksumIsNames | src/idea.rs:67 | the checksum accumulated over a batch of ideas is the multiset of their names |
| Ideas.IdeasChecksumConcat | src/idea.rs:72 | the checksum of two batches is the merge of their checksums |
| Ideas.IdeaBatchStep | src/idea.rs:58-70 | one more turn of the batch loop sends the next idea of the batch and adds its name to the batch checksum |
| Ideas.IdeaGenerator.constructor | src/idea.rs:23-41 | a generator keeps its start index, counts, channels and cross product |
| Ideas.IdeaGenerator.SendIdeas | src/idea.rs:50-71 | the batch loop appends exactly the generator's `num_ideas` ideas in index order and returns the checksum of exactly the sent names |
| Ideas.IdeaGenerator.Run | src/idea.rs:49-79 | `run` sends the batch, merges its checksum into the shared checksum with exactly one locked update (the batch loop cannot touch the shared checksum, so the merge follows it), then appends exactly `num_students` tokens and nothing else |
| Packages.PackageName | src/package.rs:44 | every package name is one of the lines |
| Packages.PackageBatchAt | src/package.rs:43-46 | package `i` of a batch is named `package_lines[(start + i) % len]` |
| Packages.PackageBatchConcat | src/main.rs:86-96 | downloaders with adjacent ranges together send the packages of one contiguous range, in order |
| Packages.PackageNameCycles | src/package.rs:44 | package names repeat with period `len` |
| Packages.PackageBatchRepeats | src/package.rs:43-44 | in a batch longer than the list, package `i + len` has the name of package `i` |
| Packages.PackagesChecksumIsNames | src/package.rs:45 | the checksum accumulated over packages is the multiset of their names |
| Packages.PackagesChecksumConcat | src/student.rs:54-58 | the checksum of two runs of packages is the merge of their checksums |
| Packages.PackageBatchStep | src/package.rs:43-46 | one more turn of the batch loop sends the next package and adds its name to the batch checksum |
| Packages.PackageDownloader.constructor | src/package.rs:20-33 | a downloader keeps its start index, count, channel and lines |
| Packages.PackageDownloader.SendPackages | src/package.rs:39-47 | the batch loop appends exactly `num_pkgs` packages in index order and returns the checksum of exactly the sent names |
| Packages.PackageDownloader.Run | src/package.rs:35-49 | `run` sends the batch and merges its checksum into the shared checksum with exactly one locked update, after the batch loop (which cannot touch the shared checksum) |
| Students.BufferConservation | src/student.rs:86-88 | packages received equal packages used followed by packages still buffered, across one more receive-and-build round |
| Students.ChecksumsStep | src/student.rs:46-58 | one more build adds the idea's name and the drained packages' names to the running checksums |
| Students.Student.constructor | src/student.rs:18-34 | a new student holds no idea and an empty buffer |
| Students.UsedPackagesChecksum | src/student.rs:54-57 | the batch checksum folded over the drained packages equals the package checksum of that run: one entry per drained package's name, whatever the order |
| Students.Student.BuildIdea | src/student.rs:36-62 | with an idea held: drains exactly its requirement from the front of the buffer (the rest keep their order), adds the idea's name once and exactly the drained names to the checksums with one locked update each, and clears the idea; without one: changes nothing and merges nothing |
| Students.Student.CollectAndBuild | src/student.rs:81-90 | packages are taken in channel order onto the back of the buffer until the idea can be built, then it is built; waiting for a package happens only when the channel is empty and the buffer too short |
| Students.Student.OutOfIdeas | src/student.rs:70 | the termination test holds exactly when the idea channel is empty and a token is available; it takes a token only then |
| Students.Student.Round | src/student.rs:66-90 | one round takes the next idea and builds it, or ends the run with one token taken, or reports where the source would poll forever |
| Students.Student.Run | src/student.rs:64-92 | ideas are built in channel order. Received packages equal used plus buffered packages, and the used ones number the built ideas' total requirement. The checksums gain exactly the built names and the used names. A return takes exactly one token. With enough packages in reach, the run never waits for one |
| Hackathon.CrossProduct | src/main.rs:110-117 | the cross product has `|products| * |customers|` entries and is non-empty when both lists are |
| Hackathon.CrossProductAt | src/main.rs:110-117 | entry `p * |customers| + c` is `(products[p], customers[c])` |
| Hackathon.CrossProductIndex | src/main.rs:110-117 | entry `k` pairs product `k / |customers|` with customer `k % |customers|` |
| Hackathon.IdeaNameFromCrossProduct | src/idea.rs:44-47 | the idea at global index `idx` is named "product for customer" for the cross-product entry at `idx` modulo its length |
| Hackathon.DownloaderStep | src/main.rs:86-100 | a downloader's range sent after the ranges before it makes channel and checksum cover the combined range |
| Hackathon.SpawnDownloaders | src/main.rs:86-101 | the downloaders together append the packages of global indices `0 .. num_pkgs - 1` in order, the checksum gains exactly their names, and the final `start_idx` is `num_pkgs` |
| Hackathon.GeneratedNames | src/main.rs:121-136 | the ideas of generators `0 .. i-1` are named for global indices `0 .. start_idx - 1`, with no index skipped or repeated |
| Hackathon.GeneratedRequired | src/main.rs:123-124 | the ideas of generators `0 .. i-1` require their combined share of `num_pkgs` |
| Hackathon.GeneratorsCoverTotals | src/main.rs:121-141 | all generators together end `start_idx` at `num_ideas` (the `assert_eq!` of src/main.rs:141), name the ideas of indices `0 .. num_ideas - 1`, require exactly `num_pkgs` packages and send exactly `num_students` tokens |
| Hackathon.GeneratorStep | src/main.rs:126-138 | generator `i`'s batch sent after those before it makes channel and checksum hold the batches of generators `0 .. i` |
| Hackathon.SpawnIdeaGenerator | src/main.rs:122-139 | one turn of the generator loop sends generator `i`'s batch and tokens and advances `start_idx` to the next worker's offset |
| Hackathon.SpawnIdeaGenerators | src/main.rs:121-141 | the generators together append the ideas of global indices `0 .. num_ideas - 1` in order, requiring `num_pkgs` packages, the checksum gains exactly their names, and `num_students` tokens are sent |
| Hackathon.UsedPrefix | src/student.rs:81-90 | a student starting with an empty buffer uses a prefix of the package channel |
| Hackathon.RunStudents | src/main.rs:63-74 | the students complete exactly when there are at least as many tokens as students. The first student builds every idea, draining a prefix of the package channel, so the student checksums gain exactly the sent idea names and the used package names |
| Hackathon.RunDownloaders | src/main.rs:86-101 | the downloader checksum ends as the multiset of the names of packages `0 .. num_pkgs - 1` |
| Hackathon.RunGenerators | src/main.rs:121-141 | the generator checksum ends as the multiset of the names of ideas `0 .. num_ideas - 1`, and those ideas require exactly `num_pkgs` packages |
| Hackathon.RunConsumers | src/main.rs:59-74 | starting from default checksums, the students' checksums end as exactly the names they built and used |
| Hackathon.RunHackathon | src/main.rs:47-159 | the producer checksums hold exactly the names of ideas `0 .. num_ideas - 1` and packages `0 .. num_pkgs - 1`; the run completes exactly when there are no students or some ideas; completing students' checksums equal the producers' |

## Left out

- Threads, joining, `Arc`/`Mutex` locking and the crossbeam channel internals are not modelled. One schedule is modelled: producers run to completion first, then the students one at a time.
- The termination race at src/student.rs:70 is not modelled. A student may see the idea channel empty while a later generator has not sent its ideas yet, take a token and leave. It does not arise in the modelled schedule.
- Busy-waiting on an empty channel is not modelled as a loop. It becomes the outcomes `AwaitingIdea` and `AwaitingPackage`, because in a sequential run nothing can fill the channel.
- The `checksum` module (`Checksum`, `with_sha256`, `update`) is not part of this model. SHA-256 is replaced by the multiset of names, an ideal collision-free digest.
- File reading, argument parsing and the final `println!` are not modelled. The three word lists and the counts are parameters, and the checksums are results.
- testing/compare.py is not modelled: it is an output-comparison script outside the program.
- The unused fields `skipped_idea` and `idea_queue` and the unused `Event` imports are not modelled.
- Integer width (`usize` overflow) is not modelled: counts are unbounded naturals.
- Students.Student.Run: requires that the student holds no idea. A new student holds none, and every round ends with the idea cleared.
- Ideas.IdeaGenerator.Run: requires at least one idea, because a generator with no ideas divides by zero at src/idea.rs:50.
- Hackathon.RunStudents: states the checksums only for completed runs. A run that ends stuck on an empty channel corresponds to a source run that polls forever.
