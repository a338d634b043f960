# A verified model of the micro agent's core

This project models the parts of the agent whose correctness spans many calls, and proves
what those parts promise. It has four groups of modules and a few shared values.

**Logs, delivered at least once.** A tailer reads a growing file in chunks and cuts it into
lines (`FileTailer`); a processor may collect lines into multi-line messages and applies the
mask, exclude and include rules (`LineProcessor`); messages pass a bounded channel to one
batcher (`Batcher`), which posts them through the retry ladder (`Intake`) and acknowledges
offsets in a registry that is snapshotted to disk (`Registry`). Each of these is a class proved
against a specification function. `Pipeline` puts the same functions together as a state
machine with 27 kinds of step: appends, opens, reads, line cuts, idle flushes, sends, blocking,
drops at shutdown, receives, ticks, the drain, each post with its verdict, each single
acknowledgement, registry snapshots in stages, crashes and starts. `BatcherSteps` takes the
batcher apart into those steps and proves that, driven to their end, they are the program's
flush and receive; `Refinement` proves that the machine's small tailer steps are the program's
`emit` loop. `Coverage`, `SourceInvariant` and `AtLeastOnce` carry the invariant of one source
through every step; `PipelineLaws` adds conservation, order, batch bounds and the position in
memory. The history of a source records the messages settled and the lines a rule dropped when
the processor reached them, so that a file is accounted for line by line. `Journal` is the same
promise for journald, where the reading process may be restarted at the stored cursor while
earlier entries are still in flight, batches are accepted or refused, and cursors are recorded
one by one; `JournalCursor` says when the recorded cursor is the furthest read. `Sweep` is the
discovery of files by literal paths and globs.

**The wire format of process payloads.** `Wire` is the hand-written protobuf codec, `Bits`
proves the varint loops with the program's shifts, masks and ors equal to its arithmetic,
`Payload` proves that a reader recovers an encoded process, and `Collector` models framing,
chunking and the second, independent reader.

**Metrics.** `DogStatsD`, `ServiceChecks` and `Events` are the three line formats;
`ContextKeys` is the string under which a sample is filed; `Aggregation` and `Aggregator` are
the accumulation and flushing of contexts; `Histogram` is the weighted quantile. `Sums` and
`Strings` are their mathematics.

**Processes over time.** `Reporter` pins create times and turns counters into rates.

`Basics`, `Decimal` and `Messages` hold shared values.

A claim that is false of the code is stated as its exact condition, with an input that shows
the failure: a service-check message loses a single trailing bar
(`ServiceChecks.MessageSurvives`), an event text loses a literal backslash-n
(`Events.EventSurvives`), a literal path listed after a glob that matches it can lose its
tailer for a scan (`Sweep.LiteralExactly`), a journald source can lose an entry for good when
journalctl is restarted before anything of the source was acknowledged
(`Journal.RespawnExactly`, `Journal.RespawnLoses`), and a journald cursor can be overwritten by
an earlier one (`JournalCursor.CursorExactly`, `JournalCursor.CursorCanGoBack`).

Three comments in the sources say more than the code does, and the model follows the code.

- The registry's comment on `AdvanceCursor` (internal/logs/registry.go:119-121) says the last
  write is the furthest read; after a restart of journalctl it need not be.
- The comment on the journald tailer (internal/logs/journald_linux.go:24-25) says that a restart
  resumes exactly where it left off. It resumes after the last cursor recorded: entries still in
  flight are sent again, and while no cursor is recorded entries can be passed over.
- The sweep's comment (internal/logs/agent.go:165-166) says literal paths stay; they do unless a
  glob matched them first.

What the log pipeline does not promise, and the theorems therefore say openly:

- A batch the intake refuses with a permanent status is dropped, and later acknowledgements
  pass over it. `AtLeastOnce.AtLeastOnce` counts refused messages as settled,
  `PipelineLaws.EveryByteHasAFate` tells them from accepted ones, and
  `PipelineLaws.EveryByteIsShipped` assumes that no message of the file was refused.
- A file without a registry entry starts at its end on every start until something of it is
  acknowledged. The theorems begin once the registry file has an entry.
- A journald source without a cursor starts at the end of the journal on every start of
  journalctl, unless its start position is the beginning. The theorem holds for runs in which
  no such start passes over a wanted entry logged after one still in flight; that condition is
  exact.
- The log theorems are about files that grow in place. A crash between a rotation and the
  first acknowledgement of the new file leaves the old file's offset on disk.
- An empty endpoint list counts as delivered, as in the code.

Nor does the aggregator promise a sample accepted after its drain has found the channel empty:
`Aggregator.Aggregator.Run` says that exactly those stay in the channel.

## Model

| member | source | states |
|---|---|---|
| AtLeastOnce.AtLeastOnce | internal/logs/agent.go:246-321 | In any run with appends, reads, transient failures, registry flushes, shutdowns, crashes and restarts: the position on disk never moves back, and the file up to exactly that position is tiled, from the position on disk when the run began, by logical lines, each blank, or recorded as dropped when the processor reached it, or settled as a message of what the rules left of it, ending where it ends |
| AtLeastOnce.StepKeeps | internal/logs/tailer.go:41-195 | Each of the 27 kinds of step, in any state satisfying the source invariant, keeps it: every stored position, message in flight and reading front is the end of such a tiling; and no step moves the position on disk back |
| PipelineLaws.EveryByteHasAFate | internal/logs/tailer.go:138-195 | Every byte between two positions on disk lies in a logical line of the file that was blank, or dropped by the rules, or accepted or refused as a whole in a message ending where the line ends |
| PipelineLaws.EveryByteIsShipped | internal/logs/tailer.go:138-195 | Without filtering rules, and if no message of this file was refused, every such byte is a line terminator, or lies in the text of a piece of a logical line that is, whole and unchanged, the content of an accepted message of that file ending where the line ends |
| PipelineLaws.RunConserves | internal/logs/agent.go:246-293 | In every state of every run, also between a post and the next or among its acknowledgements, settled messages, those the batcher holds and the channel are exactly the messages sent, in order, tags added; and all batches keep their bounds |
| PipelineLaws.OversizedExactly | internal/logs/agent.go:275-288 | In every run a posted batch of several messages exceeds the byte cap exactly when its last message joined it after a post at the cap had failed |
| PipelineLaws.DrainSettlesEverything | internal/logs/agent.go:214-222 | Once the channel is empty and the batcher holds nothing, every message sent in the session is settled, in order |
| PipelineLaws.MemoryIsLastAcknowledged | internal/logs/registry.go:88-97 | Within a session the position in memory is that of the source's last acknowledged message, or its earlier value; the acknowledged messages are the accepted ones in order, up to those of the batch being acknowledged; and the position never decreases although each acknowledgement overwrites it |
| BatcherSteps.StepsAreReceive | internal/logs/agent.go:275-288 | The small steps a received message causes, with the verdicts of its posts, end in the batch, registry and history of the program's receive |
| BatcherSteps.PostIsFlush | internal/logs/agent.go:299-321 | A post followed by its acknowledgements, one at a time, does to batch, registry and history what one flush does |
| Refinement.StepsAreEmit | internal/logs/tailer.go:138-167 | The machine's cut and cap steps, driven until none is enabled, leave the offset, buffer and pending lines of one pass of emit and send the same messages in the same order |
| SourceInvariant.CutKeeps | internal/logs/tailer.go:140-156 | Cutting one line keeps the file before the reading front accounted for line by line: settled, in flight, dropped and recorded, or held by the processor as the beginning of one logical line |
| SourceInvariant.SettleKeeps | internal/logs/agent.go:299-321 | Settling the oldest messages in flight, accepted or refused, keeps every position behind what is settled |
| SourceInvariant.OpenKeeps | internal/logs/tailer.go:56-76 | Reopening at the registry's offset restores the invariant from the disk alone |
| SourceInvariant.RenameKeeps | internal/logs/registry.go:168-175 | Replacing the registry file by an older snapshot keeps the invariant |
| FileTailer.Tailer.Emit | internal/logs/tailer.go:138-167 | One read makes exactly the processor calls of the cutting specification and sends their results in order, or, once the channel is full at shutdown, exactly the messages before the first that did not fit |
| FileTailer.Tailer.CutLines | internal/logs/tailer.go:140-156 | The line loop: the calls, the messages, the offset and the remaining bytes are those of the cutting specification, stopping at the first message that does not fit |
| FileTailer.Tailer.CatchUp | internal/logs/tailer.go:78-90 | Reading to the end of the file; when no line exceeds the cap the outcome is that of one pass over the unread file, whatever the reads |
| FileTailer.Tailer.Rotate | internal/logs/tailer.go:100-121 | A rotation ships the unterminated last line and then the buffered message, and starts over at zero |
| FileTailer.Tailer.Send | internal/logs/tailer.go:174-195 | A message is either the newest on the channel or the send reports a drop and nothing changed |
| FileTailer.ReadBoundariesDoNotMatter | internal/logs/tailer.go:138-167 | If no line exceeds the cap, any split of the stream into reads makes the same calls with the same offsets as one pass |
| FileTailer.EmitTiles | internal/logs/tailer.go:138-167 | With or without runaway lines, the pieces handed on tile the file from the starting offset, the remainder is exactly the unread line, and it never exceeds the cap |
| FileTailer.EmitSkipsOnlyBlanks | internal/logs/tailer.go:148-150 | Outside aggregation the calls are those of the tiling with the empty lines removed, and nothing else |
| LineProcessor.RunPartitions | internal/logs/processor.go:72-125 | Over any sequence of line and flush calls each fed line is in exactly one aggregate or in the buffer, in order; an aggregate carries its last line's offset; each cut is before a start line, at the cap, or at an idle or forced flush; the buffer is within the cap or one line |
| LineProcessor.FinishMeaning | internal/logs/processor.go:134-150 | A line survives exactly when every rule passes what the masks before it left, and then with every mask applied in configured order |
| LineProcessor.LineHasOneFate | internal/logs/processor.go:72-91 | A call either completes no logical line, or completes one that is released or else dropped by the rules, with its whole content |
| LineProcessor.Processor.Line | internal/logs/processor.go:72-91 | What one line releases and leaves buffered is the specification partitioned by RunPartitions |
| LineProcessor.Processor.Flush | internal/logs/processor.go:95-105 | A flush releases the buffer when it is forced or idle long enough, and otherwise changes nothing |
| Batcher.LoopKeeps | internal/logs/agent.go:246-293 | In every run of the batcher's loop, with messages arriving and the channel closing at any time, what was there and what arrived is settled, held or in the channel, in that order, and every batch keeps its bounds |
| Batcher.ReceiveKeepsBounds | internal/logs/agent.go:275-288 | The byte counter is the summed content; a batch not stuck has at most one message or at most the byte cap; every posted batch is within the message count and, without its last message, within the byte cap |
| Batcher.ReceiveConserves | internal/logs/agent.go:275-288 | A received message, tags added, follows everything settled and held before it, whatever the two posts it may cause come back with |
| Batcher.LogBatcher.Send | internal/logs/agent.go:299-321 | A batch is settled exactly when the primary's ladder ends in success or a permanent status, and acknowledged, message by message, only on success |
| Batcher.LogBatcher.Receive | internal/logs/agent.go:275-288 | One received message, with the posts it may cause, does to batch, registry and history what the specification says |
| Batcher.LogBatcher.Run | internal/logs/agent.go:246-293 | The loop under any schedule of ticks, reads, arrivals, closing and cancellation follows the specification proved by LoopKeeps |
| Intake.Client.Send | internal/intake/intake.go:119-150 | The retry ladder: its result is the ladder's verdict, it makes at most the allowed requests, stopping at the first settling reply, and its sleeps double up to thirty seconds |
| Intake.Client.PostAll | internal/intake/intake.go:191-204 | Whatever the other endpoints answer, the result is that of the primary's ladder; every endpoint sees its own ladder |
| Intake.VerdictMeaning | internal/intake/intake.go:139-148 | The verdict is the first settling reply within reach: accepted for 2xx, refused for a permanent status |
| Intake.TransientMeaning | internal/intake/intake.go:149 | The post is to be retried exactly when no reply within reach settles |
| Registry.LoadSnapshot | internal/logs/registry.go:44-69 | Loading what a flush wrote returns every cursor, every offset whose id has no cursor, and nothing else |
| Registry.LoadIsStorable | internal/logs/registry.go:44-69 | What is loaded can be stored, and writing and loading it again changes nothing |
| Registry.CrashLeavesWholeSnapshot | internal/logs/registry.go:146-176 | Wherever any sequence of flushes is cut short, the registry file is the initial one or the complete snapshot of the last flush that was renamed |
| AtLeastOnce.TargetNeverTorn | internal/logs/registry.go:146-176 | In every state of every run the registry file is the initial one or a whole snapshot, where a rename moves whatever the temporary file holds |
| Registry.Store.constructor | internal/logs/registry.go:44-69 | Loading visits the records in any order and arrives at the same registry; a missing or torn file loads as empty |
| Registry.Store.Flush | internal/logs/registry.go:148-176 | The file written is the snapshot of the registry, and the disk is as far along as the flush got |
| Registry.Store.Advance | internal/logs/registry.go:93-97 | The offset of one id is overwritten and nothing else changes |
| Registry.Store.Remove | internal/logs/registry.go:102-107 | Both entries of one id are gone and nothing else changes |
| Journal.JournalAtLeastOnce | internal/logs/journald_linux.go:71-119 | In any run with child exits and restarts, accepted and refused batches, single acknowledgements, flushes and crashes in which no start of the child skips, every wanted entry up to the cursor on disk has been accepted or refused as a message with the whole content the rules made of it: from the cursor the run began with, from the beginning of the journal if the source starts there, else from any earlier cursor on disk |
| Journal.StepsAreStream | internal/logs/journald_linux.go:88-191 | What the tailer sends of the child's output, all of it or the part before the first message that did not fit, is what some number of the machine's steps put in flight |
| Journal.RespawnExactly | internal/logs/journald.go:182-189 | After any such run, some way on from starting the child loses a wanted entry, neither accepted nor refused, between two cursors on disk exactly when that start has no stored cursor, is at the end, and passes over a wanted entry logged after one still in flight |
| Journal.RespawnLoses | internal/logs/journald_linux.go:71-90 | A run from an empty journal and registry that loses one |
| JournalCursor.CursorNeverFalls | internal/logs/registry.go:119-129 | In any run in which no start of the child rereads, the stored cursor never falls within a session |
| JournalCursor.CursorExactly | internal/logs/registry.go:119-129 | After any such run, some way on from starting the child makes the cursor fall exactly when that start reads a wanted entry that comes before one still in flight |
| JournalCursor.CursorCanGoBack | internal/logs/registry.go:119-129 | A run in which the stored cursor is overwritten by an earlier one |
| Journal.JournalTailer.Stream | internal/logs/journald_linux.go:100-107 | What is sent are the messages of all entries, or exactly those before the first entry dropped at shutdown |
| Sweep.GlobExactly | internal/logs/agent.go:138-182 | After any scans a path named by no literal is tailed exactly when it matched in the latest scan or the one before |
| Sweep.LiteralExactly | internal/logs/agent.go:138-182 | A path named by a literal is tailed after every scan exactly when its first scan meets the literal before any glob matching it, or no two scans in a row miss it |
| Sweep.UnmatchedLiteralStays | internal/logs/agent.go:165-173 | A literal path no glob ever matches is tailed after every scan |
| Sweep.LiteralBehindGlobIsDropped | internal/logs/agent.go:169-180 | Three scans after which a path named by a literal in each of them is not tailed |
| Sweep.Scanner.Discover | internal/logs/agent.go:138-182 | One scan changes the handles as specified, reports the stopped paths exactly, and keeps one running tailer for each handle |
| Wire.FieldsOfEncoding | internal/process/proto.go:98-138 | Reading encoded fields gives back exactly those fields in order, for every sequence of writable fields |
| Wire.VarintReads | internal/process/proto.go:82-96 | A varint read inside any byte string gives back the number written and stops right after it, for every 64-bit number |
| Wire.VarintFits | internal/process/proto.go:82-96 | Whatever the bytes, the value of a varint read fits 64 bits |
| Bits.WriteUvarint | internal/process/proto.go:22-28 | The writer's loop on a 64-bit word, with the program's masks and shifts, writes the base-128 form of the number the word stands for |
| Bits.ReadVarint | internal/process/proto.go:82-96 | The reader's loop on a 64-bit word, with the program's masks, shifts and ors, reads what the varint specification reads, on every byte string; and where the base-128 form of a word stands it gives back that word and stops right after it |
| Bits.WrittenInside | internal/process/proto.go:22-28 | The base-128 form of a word stands wherever the writer's bytes end up in a buffer, so the reader gives the word back |
| Bits.NumFits | internal/process/proto.go:82-96 | A 64-bit word stands for a number below 2^64 |
| Bits.TagIsSum | internal/process/proto.go:31 | Field number shifted and wire type or-ed in stand for eight times the one plus the other |
| Bits.TagTakenApart | internal/process/proto.go:106 | The shift and mask that take a tag apart are the quotient and remainder by eight |
| Bits.PutAdds | internal/process/proto.go:87 | At every shift the next seven bits or-ed in never collide with those below them: the word stands for the sum |
| Bits.NumExact | internal/process/proto.go:83-89 | Different words stand for different numbers |
| Wire.PBuf.PutUvarint | internal/process/proto.go:22-28 | The loop appends exactly the base-128 form |
| Wire.PBuf.PutUint | internal/process/proto.go:35-41 | The buffer stays an encoding of fields, with this one added unless it is zero |
| Wire.PBuf.PutMsg | internal/process/proto.go:65-72 | The same for a sub-message, omitted when empty |
| Wire.PRead.GetVarint | internal/process/proto.go:82-96 | The cursor method reads what the varint specification reads, on every byte string |
| Wire.PRead.GetNext | internal/process/proto.go:101-138 | The same for the next field, with every malformed case |
| Wire.PRead.GetAll | internal/process/proto.go:101-138 | Calling it until it fails visits the fields of the specification, each read strictly forward and within the body |
| Wire.Le32RoundTrip | internal/process/proto.go:58-60 | The four little-endian bytes give the 32 bits back |
| Payload.ProcessRoundTrip | internal/process/payload.go:92-157 | A proto3 reader recovers every field of an encoded process: signed numbers through their 64-bit extension, counters, strings and sub-messages, with empty arguments removed, CPU seconds truncated and float zeros unsigned |
| Payload.Int32RoundTrip | internal/process/payload.go:98-146 | A signed 32-bit number survives both the sign extension and the unsigned form it is written in |
| Payload.ReadArgs | internal/process/payload.go:94-96 | Repeated arguments are recovered in order without the empty ones |
| Collector.WriteProcess | internal/process/payload.go:142-157 | The mutating encoder writes exactly the fields of the specification, in order |
| Collector.WriteChunk | internal/process/payload.go:193-203 | The same for one chunk with host, processes, system and group |
| Collector.WriteFrame | internal/process/payload.go:22-30 | The allocated slice is the 16-byte header followed by the body |
| Collector.FrameRoundTrip | internal/process/payload.go:33-38 | Unframing a frame gives back type and body |
| Collector.Walk | e2e/parity/proto.go:13-68 | On every byte string, well formed or not, the second reader visits exactly the fields the first one returns |
| Collector.WalkVarint | e2e/parity/proto.go:15-29 | Its varint agrees with the first reader's, value and stopping place |
| Collector.ReadList | e2e/parity/proto.go:72-82 | Count and names by the second reader |
| Collector.CommOfProcess | e2e/parity/proto.go:86-98 | The second reader finds the command name of every encoded process |
| Collector.SendReassembles | internal/process/process.go:140-165 | A send is one frame for each chunk, 1 to 100 processes in each; every frame carries its own chunk's count and names and, where that fits 32 bits, the number of chunks as its last field; reading all frames gives the non-empty names in order and the count of processes that write anything, all of them when every pid is non-zero |
| Collector.ChunkLoop | internal/process/process.go:269-275 | The chunks of a list: concatenated they are the list, each is non-empty and within the limit |
| Collector.Send | internal/process/process.go:140-154 | The frames of one send |
| Histogram.WeightedQuantile | internal/metrics/aggregator.go:370-379 | On sorted samples with positive weights the walk finds the quantile for every target below the total weight, negative ones included, and falls through to the last sample only otherwise |
| Histogram.QuantileExists | internal/metrics/aggregator.go:370-379 | Samples in any order have a quantile for every target below their total weight |
| Histogram.QuantileUnique | internal/metrics/aggregator.go:370-379 | Only one value has weight(values below it) at most the target and weight(values up to it) above it |
| Histogram.QuantileIsSample | internal/metrics/aggregator.go:370-379 | That value is one of the samples |
| Histogram.NegativeTargetIsMin | internal/metrics/aggregator.go:370-379 | A negative target gives the minimum |
| Histogram.HistogramSeries | internal/metrics/aggregator.go:350-366 | However the sort leaves ties, the five aggregates are those of the samples as they arrived, and the fall-through is never taken |
| Histogram.AggregatesDetermined | internal/metrics/aggregator.go:350-379 | The five aggregates depend only on how much weight each value carries |
| Histogram.ArrivalOrderDoesNotMatter | internal/metrics/aggregator.go:350-379 | Every order of arrival gives the same aggregates |
| Histogram.SamplingEquivalence | internal/metrics/aggregator.go:350-379 | Weights k give the same five aggregates as k samples of weight 1 each, in any order |
| Histogram.AggregatesInOrder | internal/metrics/aggregator.go:359-365 | min <= median <= 95percentile <= max and min <= avg <= max |
| Aggregation.AccumulateRefines | internal/metrics/aggregator.go:180-222 | The incremental contexts stay a summary of the sample history: last value, rate-corrected sum, distinct members, weighted observations |
| Aggregation.ToSeries | internal/metrics/aggregator.go:330-366 | The series of a context say what its samples say |
| Aggregation.IntervalOrderDoesNotMatter | internal/metrics/aggregator.go:180-255 | Reordering an interval's samples fills the same contexts, and all but gauges report the same series up to tag order |
| Aggregation.SamplingIsExact | internal/metrics/aggregator.go:189-222 | Samples submitted at rates 1/k make their context report what k samples at rate 1 for each make it report, in whatever order either arrive, for every type but the gauge |
| Aggregation.OneContext | internal/metrics/aggregator.go:198-203 | Samples filed under one key agree on name and type, and on tags up to order |
| Aggregator.FlushesAddUp | internal/metrics/aggregator.go:330-366 | Rate times interval, summed over all flushes, is the rate-corrected total of every sample accepted for a counter, and the total weight for a histogram's count |
| Aggregator.Aggregator.Add | internal/metrics/aggregator.go:110-116 | A sample is queued when there is room and otherwise dropped and counted, and nothing else changes |
| Aggregator.Aggregator.Flush | internal/metrics/aggregator.go:227-255 | Each context of the interval is reported exactly once, in any order, truthfully and finalized, and the interval starts over |
| Aggregator.Aggregator.Drain | internal/metrics/aggregator.go:165-178 | Under any schedule of offers and looks at the channel, the drain ends at the first look that finds it empty, with everything accepted until then accumulated |
| Aggregator.Aggregator.Run | internal/metrics/aggregator.go:139-160 | Under any schedule, with samples offered before, during and after the drain, the flushed histories put together are exactly the samples accepted before the drain found the channel empty, in order, each in one flush; what is left in the channel are exactly the samples accepted after that |
| ContextKeys.KeyIsExact | internal/metrics/aggregator.go:383-398 | For clean names and tags, keys are equal exactly when name and type are equal and the tags are permutations |
| ContextKeys.KeyNeedsCleanTags | internal/metrics/aggregator.go:390-396 | Two inputs with unclean tags that share a key with different contexts |
| ContextKeys.KeyNeedsCleanName | internal/metrics/aggregator.go:387-390 | The same for a name containing a bar |
| ContextKeys.ContextKey | internal/metrics/aggregator.go:383-398 | The builder loop computes the key |
| Strings.SortCanonical | internal/metrics/aggregator.go:384-385 | Any sorting algorithm gives the same list, and lists sort alike exactly when they are permutations |
| Strings.SplitJoin | internal/dogstatsd/parse.go:89-94 | Splitting joined parts gives the parts back |
| DogStatsD.PackedLine | internal/dogstatsd/parse.go:52-68 | A packed line parses to its single-value lines' samples in order, and fails exactly when one of them fails |
| DogStatsD.ParsedIsClean | internal/dogstatsd/parse.go:20-50 | Every parsed sample has a clean name and clean tags and a positive rate, and samples of one line differ only in value |
| DogStatsD.ParsedKeysAreExact | internal/metrics/aggregator.go:383-398 | Any two parsed samples share a key exactly when they agree on name, type, and tags up to order |
| DogStatsD.SampleRoundTrip | internal/dogstatsd/parse.go:20-69 | A printed metric line parses to its values in order under its name, type, rate and tags |
| DogStatsD.ParseLine | internal/dogstatsd/parse.go:20-69 | The option and value loops compute the specification, errors included |
| ServiceChecks.MessageSurvives | internal/dogstatsd/parse.go:130-135 | A printed service check is recovered exactly when its message is not a text without bars followed by one bar |
| ServiceChecks.CheckReads | internal/dogstatsd/parse.go:102-138 | Everything else of it is always recovered |
| ServiceChecks.TrailingBarIsLost | internal/dogstatsd/parse.go:130-135 | The message "up" followed by a bar comes back as "up" |
| ServiceChecks.ParseServiceCheck | internal/dogstatsd/parse.go:102-138 | The parsing loop computes the specification, errors included |
| Events.EventSurvives | internal/dogstatsd/parse.go:148-201 | A printed event is recovered exactly when neither title nor text contains a backslash followed by an n, whatever bars and frame marks they contain |
| Events.EventReads | internal/dogstatsd/parse.go:148-201 | In every case all of it is recovered up to that one ambiguity |
| Events.ParseEventLine | internal/dogstatsd/parse.go:148-201 | The framed parser computes the specification, errors included |
| Reporter.IdentityPinned | internal/process/process.go:182-204 | Over a whole run every record of a pid carries its first create time exactly when every collected create time is close to it |
| Reporter.CloseMeans | internal/process/process.go:191-193 | Close means within 1999 milliseconds, or a difference that comes round in 64 bits |
| Reporter.ReusedPidIsNew | internal/process/process.go:173-204 | A create time that is not close starts a new identity without rates |
| Reporter.RatesIntegrate | internal/process/process.go:205-216 | Each rate times its interval, summed over a run, is the counter's total growth |
| Reporter.GrowthTelescopes | internal/process/process.go:246-259 | For a counter that never decreases that is its last value less its first |
| Reporter.Reporter.Rate | internal/process/process.go:182-217 | One collection: records and memory are those of the specification |

## Left out

- HTTP, TLS, proxies, gzip and JSON: a post is an arbitrary reply, the registry file an abstract map with decimal offsets, a torn file reads as corrupt.
- Real time and scheduling: a time is a value given to each call, and one pass of the line loop uses one reading of the clock where the program reads it for each line.
- Regular expressions and their compilation: a rule is an arbitrary function; rules that fail to compile are assumed gone.
- Rounding, NaN and infinities: weights, values, rates and seconds are exact reals, so the finiteness guard of accumulate never fires and the fall-through of the quantile is unreachable.
- Payload.ProcessRoundTrip: a float is its 32 bits, both zeros omitted; CPU seconds are assumed to be at least 0 and below 2^64, where the program's conversion is defined; lengths are below 2^64, here and in `Collector`.
- Payload.Normal and the encoders group the flat process record of the program by sub-message.
- Wire: bytes and words are numbers; `Bits` proves the varint loops on 64-bit words and the tag expression equal to that arithmetic, but the four byte shifts of a float are arithmetic only.
- Rotation in the whole-run machine: `FileTailer.Tailer.Rotate` models the transition, but inode identity, truncation, write races and crashes around it are not covered by the theorems.
- The sweep inside the whole-run machine: cancelling a tailer and removing its registry entry are modelled in `Sweep` only.
- A negative stored offset: the machine opens the file at zero and the theorems assume non-negative offsets in the initial registry file.
- Two sources naming the same file share one tailer in the program; two journald sources with the same id share a cursor and are not modelled.
- Message status, timestamps, host names and the fields a journal entry's body is built from.
- The channel's capacity in the whole-run machine of `Journal`: any number of messages may be in flight there; `Journal.JournalTailer` has the capacity.
- Entries without a cursor, and journals whose old entries are deleted: in `Journal` every entry has a cursor and the journal only grows.
- Aggregation contexts are values in a map, not shared records; each is reachable only through the map, so no aliasing is lost. The unused guard for a histogram without samples is not written out.
- Service checks and events waiting for a flush are not aggregated and are not modelled; neither is the dispatch of datagrams to the three parsers.
- Timestamps of series, and the source type of host series beyond its default.
- The realtime stream (encodeProcessStat, encodeCollectorRealTime), its toggle (readResCollector, applyRT, maybeSend) and the additional endpoints of process payloads: the same codec with fewer fields, or one branch each.
- Operating-system collectors, system information, host metadata, configuration loading, profiler and proxies: field copying around libraries.
