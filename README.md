# Gauge-to-CNC tool-offset correction, modelled in Dafny

The system reads a measuring gauge over the MELSEC MC protocol (3E binary
frames on TCP), detects each new measurement cycle from the gauge's "PLC data
on" flag, batches the measurements per machine and, for every full batch,
writes corrected tool offsets to a FANUC CNC through the FOCAS library.

This project models the core of that pipeline:

- `rust_types.dfy` (`RustTypes`): the fixed-width integers, casts, `Option`
  and `Result` the Rust code relies on, written out because Dafny's integers
  are unbounded (`as i16` wraps, a float-to-`i32` cast saturates).
- `gauge.dfy` (`Gauge`, from `src-tauri/src/gauge.rs`): little-endian field
  decoding, `GaugeResponse::from_bytes`, the `McProtocolCodec` decoder and
  encoder over a mutable byte buffer, and the edge-detecting fold of
  `gauge_get_response`, as a method proved against a fold function.
- `fwlib.dfy` (`Fwlib`, from `src-tauri/src/fwlib.rs`): the `FocasClient`
  class (handle, busy flag, dummy offset table), its constructor, the
  retry-and-reconnect write `wrtofs`, the reads `rdtofs`, `read_life`,
  `read_count`, `is_connected` and the handle release of `Drop`. Every
  native FOCAS call is replaced by the result it returns, given as a
  parameter. The write loop takes a finite script of such results and is
  proved against a function (`Retry`) of that script.
- `cnc.dfy` (`Cnc`, from `src-tauri/src/cnc.rs`): the per-machine batching
  of `spawn_cnc_loop` (a class holding the batches and the busy set, proved
  against a step function and a fold over loop events), and `write_offset`:
  per tool the trimmed mean of the batch's values, the rounded correction in
  thousandths, and the writes through the client.
- `io.dfy` (`Io`, from `src-tauri/src/io.rs`): the `IO<T>` wrapper and its
  synchronous combinators, with the wrapper algebra as lemmas.

Measured values (`f64` in the source) are Dafny `real`s.

## Model

| member | source | states |
|---|---|---|
| RustTypes.WrapI16 | src-tauri/src/fwlib.rs:319 | `as i16` gives a value in i16 range congruent to the input mod 2^16, and leaves in-range values alone |
| RustTypes.SaturateI32 | src-tauri/src/cnc.rs:101 | the float-to-`i32` cast keeps in-range values and clamps the rest to the i32 bounds |
| Gauge.LeU16 | src-tauri/src/gauge.rs:157-158 | `u16::from_le_bytes`: the low byte plus 256 times the high byte; `LeU16RoundTrip` and `U16LeRoundTrip` prove it the inverse of `U16Le` |
| Gauge.U16Le | src-tauri/src/gauge.rs:157-158 | the little-endian bytes of a `u16` (low byte first), the partner of `LeU16` in the two round-trip lemmas |
| Gauge.LeI16 | src-tauri/src/gauge.rs:162-163 | a little-endian `i16` is in i16 range and is negative exactly when the high byte's top bit is set |
| Gauge.LeU16RoundTrip | src-tauri/src/gauge.rs:157-158 | reading back the little-endian bytes of a `u16` gives the value |
| Gauge.U16LeRoundTrip | src-tauri/src/gauge.rs:157-158 | the little-endian bytes of a decoded `u16` are the bytes it was read from |
| Gauge.LeI16RoundTrip | src-tauri/src/gauge.rs:162-163 | every i16 value is recovered from its two's-complement little-endian bytes |
| Gauge.SlotValue | src-tauri/src/gauge.rs:160-165 | a slot (integer part * 10000 + fractional part) lies in the range the two i16 fields allow |
| Gauge.SlotSum | src-tauri/src/gauge.rs:159-166 | the sum of n slots lies between n times the smallest and n times the largest slot value |
| Gauge.HalfTowardZero | src-tauri/src/gauge.rs:167 | `/ 2` on i32 truncates toward zero: the result is half the input rounded toward zero |
| Gauge.SlotSumFitsI32 | src-tauri/src/gauge.rs:159-167 | the two-slot sum fits in i32, so the i32 sum cannot overflow |
| Gauge.FromBytes | src-tauri/src/gauge.rs:153-174 | a response exists exactly when the frame has at least 51 bytes; it keeps the frame as raw data and its point fits in i32 |
| Gauge.FrameLen | src-tauri/src/gauge.rs:187-188 | the frame a header announces is its length field plus 9 bytes, so between 9 and 9 + 65535 bytes |
| Gauge.DecodeStep | src-tauri/src/gauge.rs:183-193 | the decoder either leaves the buffer untouched or removes exactly one whole frame (9 + length bytes) from its front |
| Gauge.DecodeWaitsForHeader | src-tauri/src/gauge.rs:184-186 | fewer than 11 buffered bytes: no item and nothing consumed |
| Gauge.DecodeWaitsForWholeFrame | src-tauri/src/gauge.rs:187-190 | a header announcing more bytes than are buffered: no item and nothing consumed |
| Gauge.DecodeSplitsFrame | src-tauri/src/gauge.rs:187-192 | a complete frame followed by anything is split off exactly, and decoded from its own bytes |
| Gauge.DecodeDropsShortFrame | src-tauri/src/gauge.rs:154-156 | a complete frame shorter than 51 bytes is consumed and yields no item |
| Gauge.SlotReadsBack | src-tauri/src/gauge.rs:160-164 | a slot whose four bytes encode an integer and a fractional i16 reads back as integer · 10000 + fractional |
| Gauge.FromBytesReadsFields | src-tauri/src/gauge.rs:153-174 | any frame of 51 bytes or more that carries a machine id at 11, a status at 13 and two slots at 31 and 35, whatever its other bytes and its length, decodes to that machine id, the flag status == 1, and the truncated average of the two slots, keeping the frame as raw data |
| Gauge.DecodeFrameCarryingReading | src-tauri/src/gauge.rs:153-193 | such a frame, complete and followed by any bytes, is split off and decoded to that reading, the following bytes left buffered |
| Gauge.EndCodeIsIgnored | src-tauri/src/gauge.rs:153-174 | changing the end code at bytes 9-10 changes nothing in the decoded response except its raw data |
| Gauge.ResponseFrameCarries | src-tauri/src/gauge.rs:153-193 | the 51-byte response built from a machine id, a status and two slots carries them and announces its own length |
| Gauge.DecodeResponseFrame | src-tauri/src/gauge.rs:153-193 | a well-formed 51-byte response encoding machine id, status and two slots decodes back to that machine id, the flag (status == 1) and the truncated average of the slots, leaving the following bytes buffered |
| Gauge.FlagNeedsExactlyOne | src-tauri/src/gauge.rs:158-171 | for any frame carrying a reading, the PLC flag is on exactly when the status word is 1, not for any other non-zero value |
| Gauge.ByteBuffer.SplitTo | src-tauri/src/gauge.rs:191 | `split_to` returns the front of the buffer and leaves the rest |
| Gauge.ByteBuffer.ExtendFromSlice | src-tauri/src/gauge.rs:200 | `extend_from_slice` appends the bytes |
| Gauge.McProtocolCodec.Decode | src-tauri/src/gauge.rs:183-193 | the decoder method returns the item of `DecodeStep` and leaves its rest in the buffer; it never errors |
| Gauge.McProtocolCodec.Encode | src-tauri/src/gauge.rs:199-202 | encoding appends the command bytes unchanged and succeeds |
| Gauge.EdgeStep | src-tauri/src/gauge.rs:120-138 | one fold step publishes the response iff the flag rises, queues Write1 iff it publishes, Write0 iff the flag falls, and remembers the new flag |
| Gauge.Route | src-tauri/src/gauge.rs:108-141 | the fold of `EdgeStep` from `last_plc_on = false`; what it publishes and queues is stated by the three `Route…` lemmas below |
| Gauge.GaugeGetResponse | src-tauri/src/gauge.rs:103-142 | the loop's published responses and queued commands are those of the fold from `last_plc_on = false` |
| Gauge.RouteRemembersLastFlag | src-tauri/src/gauge.rs:119-137 | the remembered flag is the last response's flag (false before any) |
| Gauge.RoutePublishesRisingEdges | src-tauri/src/gauge.rs:121-131 | exactly the responses whose flag is on after an off flag (or at the start) are published, in order |
| Gauge.RouteCommandsAlternate | src-tauri/src/gauge.rs:121-136 | the queued commands alternate Write1, Write0, ...; an odd count means the flag is currently on |
| Fwlib.StoredOffset | src-tauri/src/fwlib.rs:245 | the dummy table's offset for a number: the value last written, 0 if none; `StoreOffset` and `DummyWriteThenRead` state how writes change it |
| Fwlib.StoreOffset | src-tauri/src/fwlib.rs:153-163 | the dummy write makes the offset read back as the value written and changes no other offset, life or count |
| Fwlib.Retry | src-tauri/src/fwlib.rs:165-236 | the write loop ends having written only on a native result with code 0, and otherwise has used every result it was given |
| Fwlib.RetryStep | src-tauri/src/fwlib.rs:165-236 | one iteration of the write or the reconnect loop, in terms of what has been recorded so far |
| Fwlib.RetryFreesFailedHandles | src-tauri/src/fwlib.rs:186-214 | every handle a failed write used is freed, in order, and the handle kept is the one the successful write used |
| Fwlib.RetryWhileNativeFails | src-tauri/src/fwlib.rs:186-229 | while every native call fails the write never succeeds, only the first write is attempted, and the client ends holding no handle |
| Fwlib.FailedConnects | src-tauri/src/fwlib.rs:222-228 | a run of n failed connection attempts |
| Fwlib.ReconnectSkipsFailures | src-tauri/src/fwlib.rs:216-229 | failed connection attempts are retried, each consuming one result and changing nothing else |
| Fwlib.WriteRecoversAfterReconnect | src-tauri/src/fwlib.rs:165-236 | a failed write, failed reconnects, a successful reconnect and a successful retry: written on the new handle, only the old handle freed |
| Fwlib.FocasClient.Init | src-tauri/src/fwlib.rs:111-145 | a client is built with the given address, handle and dummy state, not busy |
| Fwlib.FocasClient.New | src-tauri/src/fwlib.rs:109-147 | "dummy" gives a client on an empty offset table with life 100 and count 0; otherwise success iff the allocation returned 0, keeping its handle; failures carry the code |
| Fwlib.FocasClient.IsConnected | src-tauri/src/fwlib.rs:367-375 | a dummy client is always connected, a real one exactly when it holds a non-zero handle; every operation refuses when it is not |
| Fwlib.FocasClient.IsBusy | src-tauri/src/fwlib.rs:382-385 | the busy flag; every operation refuses while it is set (`BusyClientRefuses`) |
| Fwlib.FocasClient.SetBusy | src-tauri/src/fwlib.rs:377-380 | sets the busy flag |
| Fwlib.FocasClient.Wrtofs | src-tauri/src/fwlib.rs:149-237 | busy or disconnected: refused, nothing changes; dummy: the offset is stored; otherwise the outcome, final handle, handles written with and handles freed are those of `Retry`; the client ends not busy |
| Fwlib.FocasClient.Rdtofs | src-tauri/src/fwlib.rs:239-291 | busy or disconnected: refused; dummy: the stored offset; otherwise the native record iff the call returned 0, else its code |
| Fwlib.FocasClient.ReadLife | src-tauri/src/fwlib.rs:293-328 | refused when unavailable; dummy: its life; otherwise the native value cast to i16 iff the call returned 0; busy ends as it began |
| Fwlib.FocasClient.ReadCount | src-tauri/src/fwlib.rs:330-365 | as `ReadLife`, for the count |
| Fwlib.FocasClient.Drop | src-tauri/src/fwlib.rs:388-406 | a handle is freed exactly when the client is real and holds a non-zero handle, and it is that handle |
| Fwlib.DummyWriteThenRead | src-tauri/src/fwlib.rs:149-291 | on the dummy client a write then a read of the same offset gives the value written, and the client is free again |
| Fwlib.BusyClientRefuses | src-tauri/src/fwlib.rs:150-152 | a busy client refuses write, read and life queries and stays as it was |
| Cnc.SumAppend | src-tauri/src/cnc.rs:84-88 | the sum of values grows by the value appended |
| Cnc.SumEnds | src-tauri/src/cnc.rs:84 | the sum is the first value plus the middle's sum plus the last value |
| Cnc.SumBounds | src-tauri/src/cnc.rs:84-88 | n values within [lo, hi] sum to between n·lo and n·hi |
| Cnc.Insert | src-tauri/src/cnc.rs:83 | insertion adds one element; that it keeps order and adds exactly that value is stated by `InsertSorted` and `InsertPermutes` |
| Cnc.Sort | src-tauri/src/cnc.rs:83 | the sort keeps the length; that it sorts and permutes is stated by `SortSortsAndPermutes` |
| Cnc.InsertKeepsLowerBound | src-tauri/src/cnc.rs:83 | inserting a value not below a bound keeps every element at or above it |
| Cnc.InsertSorted | src-tauri/src/cnc.rs:83 | insertion into an ascending sequence keeps it ascending |
| Cnc.InsertPermutes | src-tauri/src/cnc.rs:83 | insertion adds exactly the one value, and its sum |
| Cnc.SortSortsAndPermutes | src-tauri/src/cnc.rs:83-84 | the sort is ascending, a permutation of its input, and keeps the sum |
| Cnc.Min | src-tauri/src/cnc.rs:83-84 | the smallest value occurs and is at most every value |
| Cnc.Max | src-tauri/src/cnc.rs:83-84 | the largest value occurs and is at least every value |
| Cnc.SortedEnds | src-tauri/src/cnc.rs:83-84 | after sorting, the first value is the minimum and the last the maximum |
| Cnc.TrimmedMean | src-tauri/src/cnc.rs:82-89 | the mean of the values, dropping one smallest and one largest when there are more than two; its meaning is stated by `TrimmedMeanDropsExtremes` and `TrimmedMeanWithinRange` |
| Cnc.TrimmedMeanDropsExtremes | src-tauri/src/cnc.rs:82-86 | with more than two values the average is (sum − one minimum − one maximum) / (n − 2), whatever the ties |
| Cnc.AverageBetween | src-tauri/src/cnc.rs:84-88 | the average of values within bounds is within the bounds |
| Cnc.TrimmedMeanWithinRange | src-tauri/src/cnc.rs:82-89 | the average lies between the smallest and the largest value |
| Cnc.TrimmedMiddleWithinRange | src-tauri/src/cnc.rs:82-86 | the average of the sorted middle lies between the minimum and the maximum |
| Cnc.MiddleWithinEnds | src-tauri/src/cnc.rs:84 | in an ascending sequence the middle values lie between its first and last |
| Cnc.TrimmedMeanExample | src-tauri/src/cnc.rs:82-86 | values 1, 5, 5, 5, 9 average to 5 |
| Cnc.RoundHalfAwayFromZero | src-tauri/src/cnc.rs:101 | `round` gives the nearest integer, halves away from zero |
| Cnc.RoundingIsSymmetric | src-tauri/src/cnc.rs:101 | rounding is symmetric about zero and k + 0.5 rounds to k + 1 |
| Cnc.CncData | src-tauri/src/cnc.rs:100-101 | the written value is `RoundHalfAwayFromZero` of (master − average) · 1000 when that fits in i32, and i32::MAX or i32::MIN when it lies above or below; unsaturated, it is within half a unit of the scaled difference |
| Cnc.CncDataExample | src-tauri/src/cnc.rs:100-101 | master 48.0 and average 47.995 give +5 |
| Cnc.ToolPoints | src-tauri/src/cnc.rs:70-73 | a tool's values are at most one per sample; when every sample has that position they are exactly the samples' values at it, sample by sample |
| Cnc.ToolPointsAppend | src-tauri/src/cnc.rs:70-73 | a later sample adds its value at the end, and a sample without the position adds nothing |
| Cnc.ToolPointsComeFromSamples | src-tauri/src/cnc.rs:70-73 | every value collected for a position is that position's value in some sample that has it |
| Cnc.ToolCorrection | src-tauri/src/cnc.rs:70-101 | the write for one tool position: none without values or master offset, else the tool and `CncData` of its master offset and trimmed mean; `SkippedToolDoesNotStopOthers` and `WriteTool` use it |
| Cnc.PlannedWrites | src-tauri/src/cnc.rs:69-116 | the planned writes target only the tools considered so far, in strictly increasing tool order, and carry i32 values |
| Cnc.PlannedWritesStep | src-tauri/src/cnc.rs:69-116 | one more tool position adds that position's write, if any, at the end |
| Cnc.PlannedWritesPrefix | src-tauri/src/cnc.rs:69-116 | the writes planned for fewer positions are a prefix of those planned for more |
| Cnc.SkippedToolDoesNotStopOthers | src-tauri/src/cnc.rs:74-98 | a tool skipped for lack of values or of a master offset does not stop the next tool's write |
| Cnc.StoreWrites | src-tauri/src/fwlib.rs:153-163 | the dummy table after a sequence of writes, applied in order; its meaning is stated by `StoreWritesReadsBack` |
| Cnc.StoreWritesAppend | src-tauri/src/fwlib.rs:153-163 | one more write stores its value on top of the earlier ones |
| Cnc.StoreWritesReadsBack | src-tauri/src/fwlib.rs:153-163 | after writes to distinct tools each tool reads back its value, and every other offset keeps its old value |
| Cnc.WriteOffset | src-tauri/src/cnc.rs:52-118 | empty batch, missing master offsets, missing client are errors in that order, with no write and nothing changed; with all three present the call returns Ok or is still inside a reconnecting write; on Ok the writes made are exactly the planned ones in tool order, write failures only recorded in the outcomes; a stuck call made a prefix of them, the last one still reconnecting; the client's busy flag, handle and dummy table and every outcome are those of `ClientWrites` over the writes made; its busy flag is unchanged; a busy client refuses every write and keeps its state; a free dummy client returns Ok, every write succeeds and its table is the old one with the writes stored in order; a real client stays real; no other client changes |
| Cnc.WriteTools | src-tauri/src/cnc.rs:69-116 | the tool loop: the planned writes in order, or a prefix ending in a write still reconnecting; the client's new state and the outcomes are those of `ClientWrites` over the writes made; a free dummy client never gets stuck |
| Cnc.WriteToolStep | src-tauri/src/cnc.rs:69-116 | one turn of the tool loop extends the writes made so far by that position's planned write and keeps the client's state and the outcomes equal to `ClientWrites` over them |
| Cnc.ToolStepAdvances | src-tauri/src/cnc.rs:69-116 | a write at tool position i extends the planned writes to i + 1 and the client run by one `AfterWrite`; only that write can be still reconnecting; a free dummy client stays free and dummy |
| Cnc.WriteTool | src-tauri/src/cnc.rs:70-115 | one tool position: the write is `ToolCorrection`'s, nothing happens without it, and otherwise the client's new busy flag, handle, dummy table and the outcome are those of `AfterWrite` on its old state |
| Cnc.AfterWrite | src-tauri/src/fwlib.rs:149-237 | one `wrtofs` on a client snapshot: refused with Busy exactly when busy or unconnected, the busy flag as it was (a write only starts on a free client and frees it again), a real client stays real; stored by the dummy, otherwise the outcome and handle of `Retry`, as stated by the `ClientWrites…` lemmas |
| Cnc.ClientWrites | src-tauri/src/cnc.rs:69-116 | one outcome per write, each write applied by `AfterWrite` with its own script |
| Cnc.ClientWritesAppend | src-tauri/src/cnc.rs:69-116 | one more write applies `AfterWrite` to the state the earlier ones left, with the next script |
| Cnc.ClientWritesKeepBusyFlag | src-tauri/src/fwlib.rs:149-237 | a run of writes never changes the busy flag, and a real client stays real |
| Cnc.ClientWritesWhileBusy | src-tauri/src/fwlib.rs:149-152 | a busy client refuses every write with Busy and keeps its state |
| Cnc.ClientWritesToDummy | src-tauri/src/fwlib.rs:153-163 | a free dummy client accepts every write and ends free, with its handle and the old table with the writes stored in order |
| Cnc.ClientWritesNeedNativeSuccess | src-tauri/src/fwlib.rs:165-200 | on a real client a write returns Ok only if some native call of its script returned 0 |
| Cnc.ReceiveStep | src-tauri/src/cnc.rs:19-38 | one received sample: appended to its machine's batch, the batch drained when full and dispatched unless its machine is busy; stated by the three lemmas below |
| Cnc.ReceiveTouchesOnlyItsMachine | src-tauri/src/cnc.rs:19-38 | a sample changes neither other machines' batches nor their busy marks |
| Cnc.ReceiveDrainsFullBatch | src-tauri/src/cnc.rs:21-38 | batches stay below the batch size at rest; a full batch is emptied, a smaller one grows by the sample; a dispatched batch is the machine's samples in arrival order, and its machine becomes busy |
| Cnc.BusyMachineBatchIsDropped | src-tauri/src/cnc.rs:23-36 | a full batch for a busy machine is drained and discarded |
| Cnc.EventStep | src-tauri/src/cnc.rs:19-46 | one loop event: a sample is `ReceiveStep`, a finished write removes its machine from the busy set |
| Cnc.RunEvents | src-tauri/src/cnc.rs:19-48 | the loop over a sequence of events, collecting the dispatched batches in order; stated by the lemmas below |
| Cnc.RunKeepsBatchesBelowThreshold | src-tauri/src/cnc.rs:19-48 | no sequence of events leaves a batch at or above the batch size |
| Cnc.NoDispatchBelowThreshold | src-tauri/src/cnc.rs:21-23 | fewer samples than the batch size are only buffered, in arrival order, and nothing is dispatched |
| Cnc.FinishedWriteUnblocksMachine | src-tauri/src/cnc.rs:39-45 | after a write task finishes, the machine's next full batch is dispatched |
| Cnc.CncLoop.constructor | src-tauri/src/cnc.rs:16-17 | the loop starts with no batches and no busy machine |
| Cnc.CncLoop.Receive | src-tauri/src/cnc.rs:19-47 | one turn of the loop updates the batches and the busy set and dispatches exactly as `ReceiveStep` |
| Cnc.CncLoop.FinishWrite | src-tauri/src/cnc.rs:43-44 | the machine leaves the busy set |
| Cnc.CncLoop.Run | src-tauri/src/cnc.rs:19-48 | the loop over events ends in the state and dispatch list of `RunEvents` |
| Cnc.WriteTask | src-tauri/src/cnc.rs:39-46 | a write task that returns, Ok or Err, clears its machine's busy mark; one stuck reconnecting leaves it busy |
| Io.New | src-tauri/src/io.rs:6-8 | wraps a value; `RawNew` shows `raw` recovers it |
| Io.Raw | src-tauri/src/io.rs:17-19 | the inner value; `RawNew` shows it undoes `new` |
| Io.Init | src-tauri/src/io.rs:10-15 | wraps what the producer returns (`InitIsNew`) |
| Io.Map | src-tauri/src/io.rs:28-30 | applies the function inside the wrapper (`MapRaw`, `MapIdentity`, `MapCompose`) |
| Io.FlatMap | src-tauri/src/io.rs:39-41 | the function's own wrapper on the inner value (`FlatMapRaw`, `FlatMapNew`, `FlatMapOfNewIsMap`) |
| Io.ConsumeAndThen | src-tauri/src/io.rs:47-52 | the function's result on the inner value (`ConsumeAndThenRaw`) |
| Io.AsRef | src-tauri/src/io.rs:54-56 | the same inner value (`AsRefAndCloneKeepInner`) |
| Io.Clone | src-tauri/src/io.rs:63-67 | the same inner value (`AsRefAndCloneKeepInner`) |
| Io.Unzip2 | src-tauri/src/io.rs:141-166 | a wrapped pair as a pair of wrappers (`Unzip2Components`, `JoinUnzip2`, `UnzipJoin2`) |
| Io.Join2 | src-tauri/src/io.rs:169-196 | a pair of wrappers as a wrapped pair, the inverse of `Unzip2` (`JoinUnzip2`, `UnzipJoin2`) |
| Io.Unzip3 | src-tauri/src/io.rs:141-166 | a wrapped triple as three wrappers (`JoinUnzip3`, `UnzipJoin3`) |
| Io.Join3 | src-tauri/src/io.rs:169-196 | three wrappers as a wrapped triple, the inverse of `Unzip3` (`JoinUnzip3`, `UnzipJoin3`) |
| Io.InitAndThen | src-tauri/src/io.rs:21-26 | wraps the producer's Ok value and passes its Err on |
| Io.AndThen | src-tauri/src/io.rs:32-37 | wraps the function's Ok value on the inner value and passes its Err on |
| Io.RawNew | src-tauri/src/io.rs:6-19 | `raw` undoes `new` |
| Io.InitIsNew | src-tauri/src/io.rs:10-15 | `init(f)` wraps `f()` |
| Io.MapRaw | src-tauri/src/io.rs:28-30 | `map` applies the function to the inner value |
| Io.MapIdentity | src-tauri/src/io.rs:28-30 | mapping the identity changes nothing |
| Io.MapCompose | src-tauri/src/io.rs:28-30 | two maps are one map of the composition |
| Io.FlatMapRaw | src-tauri/src/io.rs:39-41 | `flat_map` is the function applied to the inner value |
| Io.FlatMapNew | src-tauri/src/io.rs:39-41 | `flat_map(new)` changes nothing |
| Io.FlatMapOfNewIsMap | src-tauri/src/io.rs:39-41 | `flat_map` of a wrapped function is `map` |
| Io.ConsumeAndThenRaw | src-tauri/src/io.rs:47-52 | `consume_and_then` returns the function's result on the inner value |
| Io.AsRefAndCloneKeepInner | src-tauri/src/io.rs:54-67 | `as_ref` and `clone` keep the inner value |
| Io.Unzip2Components | src-tauri/src/io.rs:141-166 | unzipping a wrapped pair wraps each component |
| Io.JoinUnzip2 | src-tauri/src/io.rs:141-196 | join after unzip gives the pair back |
| Io.UnzipJoin2 | src-tauri/src/io.rs:141-196 | unzip after join gives the wrappers back |
| Io.JoinUnzip3 | src-tauri/src/io.rs:141-196 | the same for triples, componentwise |
| Io.UnzipJoin3 | src-tauri/src/io.rs:141-196 | unzip after join gives the three wrappers back |

## Left out

- Networking, timing and tasks: the TCP connection and reconnection of `spawn_gauge_stream`, the 200 ms read poll, the 5 s sleeps, the sink task that writes commands to the gauge, `tokio::spawn` and the channels are not modelled; the gauge fold takes its responses as a sequence, and the write tasks are events of the loop.
- Concurrency: write tasks for different machines run in parallel in the source; the model runs one at a time. The busy flag of `FocasClient` and the busy set of the loop are plain fields; races between tasks and mutex poisoning are not modelled.
- The dummy gauge server (`spawn_dummy_gauge_server`) and the FOCAS library are not part of this model; each native FOCAS call is a parameter holding the value it returns.
- Fwlib.FocasClient.Wrtofs: the source retries without bound; the model is driven by a finite script of native results and reports `StillRetrying` when the script runs out.
- Cnc.WriteOffset: for a real client each outcome and the final handle are stated through `ClientWrites`, but not, per write, the handles `Wrtofs` used and freed (`Wrtofs` states them for one write). What a real CNC stores is outside the model.
- End code: the decoder never reads the end code at bytes 9-10. A frame with a non-zero end code is decoded like any other, and nothing drops it (`EndCodeIsIgnored`).
- Gauge.FromBytes: the raw data is kept as the frame's bytes, not as their hex string (`hex::encode` is not modelled).
- Decoder errors: the source decoder never returns an error; the stream's error branch in `gauge_get_response` is therefore not modelled.
- Floating point: values are reals, so rounding error in the sum and the division, NaN and infinity are not modelled; `partial_cmp` falling back to `Equal` only matters for NaN.
- Cnc.GaugeSample: the correction loop reads `points` from each sample, which the `GaugeResponse` of the gauge module does not have; the model takes a sample as a machine id plus a sequence of per-tool values.
- Reconnect: the reconnect loop stops on a native return code of 0, not on a non-zero handle, and the model does the same.
- The scale: the written value is the difference times 1000, as in the code.
- `IO::consume`, `as_mut`, the `Debug` and `Copy` impls, the async combinators (`consume_and_spawn`, `consume_and_wait`, `async_init`, `async_init_and_then`, `async_map`, `async_and_then`), the `From<&IO<T>>` conversion, and unzip/join for four to six components are not modelled: they are side effects, formatting, futures or repetitions of the two- and three-component cases.
- Logging (`println!`, `eprintln!`) is not modelled.
