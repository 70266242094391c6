# Verified model of the arc storage service

This project models the logic of the arc storage service (a Go program that receives sensor data over gRPC,
groups it into files and answers history queries) and proves what that logic guarantees. To check it, run
`dafny verify dfyconfig.toml`.

Five parts are modelled.

1. **Connection pool** (`ConnPool`, `ConnPoolSafety`, `ConnPoolRuns`, `ConnPoolShrink`, `ConnPoolWitness`,
   `ConnPoolLeaks`, `ConnPoolReuse`, `ConnPoolNeed`, `ConnPoolProgress`, `RoundRobin`). Every atomic operation of
   `Get`, of a handle's `Close` and of `pool.Close` is one step of a state machine; any number of sessions run
   at once. An inductive invariant is kept by every step, and the theorems hold in every state of every run.
2. **Read/write task queue** (`TaskQueue`, `TaskQueueSafety`, `TaskQueueRuns`, `TaskQueueDrain`,
   `TaskQueueProgress`). `DoTask` callers, the queue's consumer, one goroutine per started task, contexts that may
   end at any moment, and `Close`.
3. **Ingest** (`BigEndian`, `Routing`, `FrameDecoder`, `SensorBuffer`, `SensorLife`, `IngestWorkers`, `IngestSafety`,
   `IngestProgress`, `VolumeCache`). The frame decoder; dispatch to workers by id; the per-sensor buffer as a
   sequential machine; the proof that every interleaving of the workers is, for each sensor, a run of that machine;
   and the cache, its volumes and their buffers as objects changed in place, each method tied to the same machine.
4. **Time index** (`Decimal`, `Calendar`, `DayRange`, `Timestamp`, `FileNames`, `StringOrder`, `SensorItems`, `QueryTimes`,
   `Folders`, `FileIndex`, `FileQuery`). A
   Gregorian calendar, day enumeration, the 20-digit timestamps, the parser of file names and the history query
   that relies on the byte order of those timestamps.
5. **Bounded accumulators** (`KafkaBuffer`, `Throttler`, `LinkedQueue`).

`Arithmetic`, `Sequences` and `Wrappers` hold shared facts.

## Assumptions

- Pool: a handle is closed at most once, `pool.Close` does not run beside other calls (the interface comment
  demands it), and `2 * MaxActive` and `MaxActive * MaxConcurrentStreams` fit an int32. The answers of dialing
  and of closing a connection are arbitrary.
- Frames: the protocol library is not part of this model. The head marker and the predicate that says which
  payloads its parser accepts are parameters; its two constants are 17 (what the decoder's offsets require) and 9
  (what `pkg/handles.go:294` skips).
- Dispatch: every frame of a gRPC message carries the id that is the message's key. Channels have no capacity
  limit, which only adds runs.
- Time: an instant is a number of nanoseconds since 0000-01-01 UTC, for the years 0 to 9999. Go's own
  `time.Parse` is a parameter where it reads an RFC 3339 text, and so is every reading of the clock. A query's time
  of digits is read as `cast.ToInt64` does, by `strconv.ParseInt` with base 0. The sensor of a query is given in
  upper case.
- Throttler: ratios are exact rationals, and a sleep lasts at least as long as it was asked to.

## What turned out different from what the code or its comments suggest

- The end byte of every reported frame is the last byte of the whole message (`pkg/decode.go:125`):
  `FrameDecoder.OwnEndByte` says exactly when that is the frame's own.
- One to three stray bytes behind the frames make the decoder's first slice panic, and the message is lost
  (`FrameDecoder.DecodeFrames` has the exact condition). So does a last frame that is cut off inside a field;
  cut between two fields it is dropped in silence (`FrameDecoder.DecodeTruncated`). The length check at
  `pkg/decode.go:98` never fires: the slice at line 94 has panicked by then (`FrameDecoder.DecodeBody`).
- A session of one frame is lost, be it a sensor's first frame or the first after a flush: the sensor enters the
  timeout map with the second frame of a session, so neither the timeout walk nor the shutdown walk queues it. With
  walks, a frame is lost exactly when it is the only one since the last successful flush
  (`SensorLife.LostExactlyWhenAlone`, with an input in `SensorLife.FrameAfterFlushIsLost`).
- A `Get` that ends in an error without a handle keeps its reference, so the pool never shrinks again
  (`ConnPoolRuns.FailedGetStopsShrinking`, with a run in `ConnPoolWitness.FailedGetKeepsPoolLarge`). Without such a
  `Get` an idle pool is always back at its smallest size (`ConnPoolShrink.IdlePoolIsBackAtMaxIdle`).
- Closing a pooled handle after `pool.Close` panics, although `pkg/arc_grpc/pool.go:18-20` says it counts as an
  error, and it panics only then (`ConnPoolRuns.LateCloseCrashes`).
- With the default of 15 workers every odd-numbered worker idles (`Routing.OddCountIdlesOddWorkers`). All workers
  get work exactly when their number is a power of two (`Routing.NoWorkerIdles`), and exactly then the mask is the
  remainder (`Routing.MaskIsRemainder`).
- A query looks in a folder named after the type `Arc`, while volumes are written to one named `TypeArc`, so no
  query ever looks where volumes are written (`Folders.QueriesMissWrites`).
- A file name with a time before 1970 is not refused: two clock readings come back without an error. When the first
  time is before 1970, the second is not even looked at (`FileNames.NamesReadAsNow` has the exact condition).
- A query time of digits with a leading zero, such as seconds before 2001-09-09, is read as octal or as 0
  (`QueryTimes.ReadAsSpelled`).
- `BytesToUint16` reads the first two bytes, while the wider forms end in the last ones
  (`BigEndian.SixteenBitsDiffer`).
- A failed send to Kafka loses the rows of its batch (`KafkaBuffer.LostExactlyByFailedSends`).
- A task sent to a closed queue panics; this is the only panic of the queue, also while a closed queue drains
  (`TaskQueueRuns.OnlyLateSendsPanic`).

## Model

| member | source | states |
|---|---|---|
| ConnPool.New | pkg/arc_grpc/pool.go:57-91 | A pool comes back exactly when the address, the dial function and the limits are valid and every one of the first MaxIdle dials succeeds; it then starts with exactly these slots filled. Each error comes back exactly for the first check that fails. |
| ConnPoolSafety.NextKeeps | pkg/arc_grpc/pool.go:93-205 | The pool's invariant (slots, lock, owners, references, growth) survives every atomic step of every session and pool.Close. |
| ConnPoolSafety.UnusedIsQuiet | pkg/arc_grpc/pool.go:107-115 | When a shrinking Close sees ref == 0 under the write lock, no other session has an open handle or has read a size that it could still use. |
| ConnPoolRuns.OpenHandleIsAlive | pkg/arc_grpc/pool.go:137-195 | In every run, a Get that succeeded gave no nil slot, and until its handle is closed the connection is alive and still in the slot it was picked from. |
| ConnPoolRuns.HandleIsStable | pkg/arc_grpc/conn.go:30-47 | An open handle is the same object until its Close begins. |
| ConnPoolRuns.RefConservation | pkg/arc_grpc/pool.go:93-116 | ref is the number of Gets in flight, open handles and Gets that ended in an error without a handle; a one-time Get whose dial failed returned a handle beside its error and is counted with the open handles. |
| ConnPoolRuns.OnlyOverflowCrashes | pkg/arc_grpc/pool.go:93-106 | Before pool.Close the only panic is the overflow check: ref never gets negative, no modulus is zero, no slot is out of range, no nil conn is closed. |
| ConnPoolNeed.PanicsExactlyOnOverflow | pkg/arc_grpc/pool.go:93-106 | Before pool.Close a step panics if and only if it takes the reference that reaches 2^31 - 1. |
| ConnPoolRuns.SizeAndSlots | pkg/arc_grpc/pool.go:164-191 | MaxIdle <= current <= MaxActive, and all slots below current hold distinct live connections, even after a dial failed in the middle of a grow. |
| ConnPoolReuse.OneTimeExactlyWhenExhausted | pkg/arc_grpc/pool.go:146-161 | In every run and interleaving, a Get that returns a handle returns a one-time one if and only if reuse is off, the size it read was MaxActive and its reference was beyond all streams of a full pool. |
| ConnPoolReuse.ReuseNeverDialsOneTime | pkg/arc_grpc/pool.go:152-161 | With reuse on, no session of any run ever dials a one-time connection or holds a one-time handle. |
| ConnPoolNeed.GrowthFollowsDemand | pkg/arc_grpc/pool.go:164-191 | A pool above MaxIdle has fewer streams than twice the most references ever out at once, also when many Gets want to grow at the same time. |
| ConnPoolNeed.ResetDetaches | pkg/arc_grpc/pool.go:118-128 | Resetting a slot detaches its conn in any case and empties the slot unless closing the connection failed; other slots stay. |
| ConnPoolNeed.CloseDetachesAll | pkg/arc_grpc/pool.go:198-205 | pool.Close detaches and closes every conn in a slot, and empties every slot but those whose connection reported an error. |
| ConnPoolRuns.NoStrayConnections | pkg/arc_grpc/pool.go:130-134 | While nobody grows or shrinks, slots from current on hold no live connection. |
| ConnPoolLeaks.NoConnectionLeaks | pkg/arc_grpc/pool.go:118-134 | In every run, also after failed dials, failed closes and pool.Close, a pooled connection that is open sits in a slot. |
| ConnPoolLeaks.LiveConnectionsAreTheSlots | pkg/arc_grpc/pool.go:118-191 | While nobody grows or shrinks, the open pooled connections are exactly those in the slots below current. |
| ConnPoolLeaks.NoOneTimeLeaks | pkg/arc_grpc/conn.go:30-47 | In every run a one-time connection is open only while its handle is held: it is closed once the handle has been. So every open connection is in a slot or in a held handle. |
| ConnPoolLeaks.NobodyWaitsForNobody | pkg/arc_grpc/pool.go:101-195 | No deadlock: a session that has not failed and cannot take its next step waits for another one that can. |
| ConnPoolProgress.CallsFinish | pkg/arc_grpc/pool.go:101-195 | In every interleaving a Get and the Close of its handle take at most 2 * MaxActive + 16 operations of their own behind the first; the grow and the shrink loop end, also when dials and closes fail. |
| ConnPoolRuns.ShrinkOnlyWhenUnused | pkg/arc_grpc/pool.go:106-115 | A step lowers the size only when no handle is open, no Get has read the size and no Get has failed. |
| ConnPoolRuns.FailedGetStopsShrinking | pkg/arc_grpc/pool.go:139-190 | Once a Get has ended in an error without a handle, the size never goes down again before pool.Close. |
| ConnPoolShrink.IdlePoolIsBackAtMaxIdle | pkg/arc_grpc/pool.go:101-134 | In every run before pool.Close, once every session is idle the size is MaxIdle again, however the sessions interleaved. |
| ConnPoolShrink.UnusedPoolIsBackAtMaxIdle | pkg/arc_grpc/pool.go:106-115 | With ref 0 and no Close on its way to a shrink, the size is MaxIdle. |
| ConnPoolWitness.FailedGetKeepsPoolLarge | pkg/arc_grpc/pool.go:174-190 | Some run with a failed dial ends with every handle closed and no call under way, yet the size is above MaxIdle. |
| ConnPoolRuns.GrowthLaw | pkg/arc_grpc/pool.go:166-186 | After g full grows since New or the last shrink, current is min(MaxIdle * 2^g, MaxActive), and MaxIdle * 2^(g-1) was still below MaxActive. |
| ConnPoolRuns.ClosedPoolGivesNothing | pkg/arc_grpc/pool.go:141-145 | After pool.Close every Get that has read the size ends in ErrClosed and no new handle appears. |
| ConnPoolRuns.LateCloseCrashes | pkg/arc_grpc/conn.go:30-36 | Closing an open pooled handle panics if and only if the pool was closed before. |
| RoundRobin.Balance | pkg/arc_grpc/pool.go:146-149 | With a fixed size and no uint32 wrap, n consecutive picks select every slot floor(n/size) or ceil(n/size) times. |
| RoundRobin.NewPoolStartsFast | pkg/arc_grpc/pool.go:71-90 | A pool fresh from New is a start to which the balance result applies. |
| RoundRobin.FastPathBalance | pkg/arc_grpc/pool.go:138-149 | In every interleaving of fast-path Gets from an unused pool, without closes, no connection gets more than MaxConcurrentStreams handles. |
| TaskQueueSafety.NextKeeps | pkg/arc_volume/queue.go:54-143 | Every step of callers, consumer, handlers, contexts and Close keeps the queue's invariant. |
| TaskQueueRuns.MutualExclusion | pkg/arc_volume/queue.go:106-134 | Of two handlers under way at once one has an ended context and belongs to a read; two writes never overlap. |
| TaskQueueRuns.HandledAtMostOnce | pkg/arc_volume/queue.go:57-75 | Each task is handled at most once and its start and complete channels are closed at most once. |
| TaskQueueRuns.OnlyLateSendsPanic | pkg/arc_volume/queue.go:60-68 | A step of a run panics if and only if it is a caller's send on the closed queue; no channel of a task is ever closed twice, not even while a closed queue drains. |
| TaskQueueRuns.GivenUpMeansUnhandled | pkg/arc_volume/queue.go:108-113 | A task that timed out before insertion or was skipped as expired is never handled, and its caller got a timeout. |
| TaskQueueRuns.FinishedMeansHandled | pkg/arc_volume/queue.go:234-247 | A caller on the completion path saw exactly one finished handle. |
| TaskQueueRuns.WriteIsSynchronous | pkg/arc_volume/arc_volume_cache.go:287-294 | A write task is never timed out or skipped, and its DoTask returns only after its handler has finished. |
| TaskQueueRuns.Conservation | pkg/arc_volume/queue.go:106-134 | Inserted tasks are, in order and once each, those decided on, the one at hand and those buffered. A task decided to start has its start channel closed and its handler spawned once the consumer has done so; a skipped one is never started and its caller timed out waiting for the start. |
| TaskQueueRuns.Drained | pkg/arc_volume/queue.go:139-143 | The consumer ends only after Close and with nothing buffered. |
| TaskQueueRuns.WritesBeginInOrder | pkg/arc_volume/queue.go:117-132 | Write handlers begin in the order in which the tasks were inserted. |
| TaskQueueRuns.ConsumerCanMove | pkg/arc_volume/queue.go:108-134 | With something buffered or at hand, or after Close, the consumer or the handler it waits for can always take a step. |
| TaskQueueDrain.ClosedQueueDrains | pkg/arc_volume/queue.go:106-143 | From Close on, consumer and handlers take at most eight steps per buffered task, eight for the one at hand and three per handler, in every interleaving. |
| TaskQueueDrain.OnlyDrainedStops | pkg/arc_volume/queue.go:108-137 | In a closed queue they stop only when the consumer has ended, nothing is buffered and everything inserted has been decided. |
| TaskQueueProgress.SubmitterCanInsert | pkg/arc_volume/queue.go:206-218 | A caller that submits to an open queue with room can get its task in, and then waits for its start. |
| TaskQueueProgress.StartedCallerGoesOn | pkg/arc_volume/queue.go:220-232 | A caller whose task has been started can go on to wait for its completion. |
| TaskQueueProgress.CompletedCallerReturns | pkg/arc_volume/queue.go:234-247 | In every run, a caller whose task's handler has completed can return. |
| TaskQueueProgress.EndedContextGivesUp | pkg/arc_volume/queue.go:206-247 | In each of the three phases a caller whose context has ended can give up; the task is marked expired exactly when it waited for its start. |
| TaskQueueProgress.ConsumerGoesOn | pkg/arc_volume/queue.go:127-132 | In every run the consumer goes on to the next task exactly when the handler it waits for has completed or that task's context has ended. |
| TaskQueueProgress.ExpiredIsSkipped | pkg/arc_volume/queue.go:108-115 | A task is skipped if and only if its caller gave up waiting for the start before the consumer decided; every other one is started. |
| TaskQueueProgress.StuckMeansServed | pkg/arc_volume/queue.go:106-247 | Nobody is left behind: when no caller, no handler and not the consumer can take a step, every DoTask of a write has returned with its handler finished, and one of a read has so or has timed out. |
| BigEndian.BytesToUint | pkg/util/bytes.go:28-47 | The shift-and-add loop of the 64- and 32-bit forms computes the big-endian value of any non-empty bytes modulo the width. |
| BigEndian.BytesToUint16 | pkg/util/bytes.go:49-55 | The 16-bit form is the value of the first two bytes, and panics exactly when there are fewer. |
| BigEndian.SixteenBitsDiffer | pkg/util/bytes.go:49-55 | It agrees with the value modulo 2^16 exactly when the first two bytes equal the last two. |
| BigEndian.UintToBytes | pkg/util/bytes.go:58-80 | The loop writes the w low-order digits of v, most significant first, and leaves the rest of the array alone. |
| BigEndian.RoundTrip | pkg/util/bytes.go:28-69 | Reading back what was written gives the number, writing back what was read gives the bytes. |
| BigEndian.OnlyTheTailCounts | pkg/util/bytes.go:28-36 | For keys longer than the width only the last bytes count. |
| Routing.IdIsBigEndian | pkg/decode.go:169-176 | The shift-and-or of six id bytes is their big-endian value, so it agrees with BytesToUint64. |
| Routing.MaskInRange | pkg/handles.go:392-392 | id & (n-1) names an existing worker for every n >= 1. |
| Routing.MaskIsRemainder | pkg/arc_volume/queue.go:172-177 | Masking by n-1 is the remainder by n for all ids if and only if n is a power of two. |
| Routing.NoWorkerIdles | pkg/handles.go:392-392 | Every worker is the target of some id if and only if the number of workers is a power of two. |
| Routing.OddCountIdlesOddWorkers | pkg/config/work.go:29-29 | An odd number of workers leaves every odd-numbered one without work. |
| Routing.GetQueue | pkg/arc_volume/queue.go:172-177 | The chosen queue exists and depends on the key's last eight bytes only. |
| FrameDecoder.DecodeRound | pkg/decode.go:46-127 | The loop body with its slices and end checks reads exactly the frame that starts at the position, stops, or panics. |
| FrameDecoder.DecodeBody | pkg/decode.go:94-126 | The part of the loop body behind the id reads exactly the rest of the frame; its length check is never reached with a length that fails it. |
| FrameDecoder.Decode | pkg/decode.go:37-138 | On every input the loop ends, and collects the frames read from position to position. |
| FrameDecoder.FramesFirst | pkg/decode.go:46-135 | Well-formed frames in front of anything are read exactly and in order, even if payloads contain the head marker; decoding goes on behind them. |
| FrameDecoder.DecodeFrames | pkg/decode.go:37-166 | A concatenation of well-formed frames, followed by a tail that does not start with the marker, decodes to exactly those frames with their id, time and payload if the tail is empty or has at least four bytes, and panics otherwise. |
| FrameDecoder.DecodedFields | pkg/decode.go:141-166 | Each decoded frame carries, in its place, the sent frame's id as bytes, as big-endian number and in upper-case hexadecimal that reads back as the bytes, its file name suffix, its checksum, its head's end and payload, and 1000 times its signed time where that fits an int64. |
| FrameDecoder.HexReadsBack | pkg/decode.go:145-145 | The hexadecimal name of any bytes reads back as the bytes. |
| FrameDecoder.SizeCountsTheRest | pkg/decode.go:61-66 | A frame's size field is the number of bytes behind it. |
| FrameDecoder.RejectedPayloadStops | pkg/decode.go:103-107 | A frame whose payload the parser rejects ends the decoding: exactly the frames in front of it are reported, whatever comes behind. |
| FrameDecoder.DecodeTruncated | pkg/decode.go:47-124 | Frames followed by the first k bytes of another decode to exactly the whole frames if k is the end of a field in front of the last, and panic for every other k. |
| FrameDecoder.NothingInvented | pkg/decode.go:47-130 | On any input, a frame reported by a round is a well-formed frame that stands at its position in full. |
| FrameDecoder.DecodesOnlyFrames | pkg/decode.go:37-138 | On any input, decoding panics or reports exactly some well-formed frames that the message starts with. |
| FrameDecoder.OwnEndByte | pkg/decode.go:125-125 | Decoding frames (and a tail) gives every frame its own end byte exactly when all end in the message's last byte; without a tail, exactly when all end in the same byte. |
| FrameDecoder.EndByteOfAnotherFrame | pkg/decode.go:125-125 | With two frames of different end bytes the first is reported with the second's. |
| FrameDecoder.NanosExact | pkg/decode.go:149-149 | The nanosecond time is the frame's microseconds exactly when the product fits an int64. |
| FrameDecoder.StoreBufferIsPayload | pkg/handles.go:293-294 | The buffer decoded a second time is the payload followed by nine zero bytes. |
| SensorBuffer.Session | pkg/handles.go:325-367 | Frames f1 to fn of a new sensor queue exactly f1++f2, f2++f3, up to f(n-1)++fn; the buffer holds just fn. |
| SensorBuffer.SessionTimeout | pkg/handles.go:400-421 | A timeout with a successful write queues the last frame once more and forgets the sensor; an empty last frame changes nothing. |
| SensorBuffer.FailedFlushKeepsVolume | pkg/handles.go:414-417 | A failed write on a timeout keeps the buffer, and the next timeout queues the same bytes again. |
| SensorBuffer.LoneSessionIsLost | pkg/handles.go:424-438 | From any state without a cached volume and a map entry, a session and a walk queue nothing if and only if the session has one frame. |
| SensorLife.WholeLife | pkg/handles.go:321-438 | After any list of frames and timeouts the cache holds the last frame of the current session, the map knows the sensor from the session's second frame on, and the chunks are, session by session, each two consecutive frames, and the last frame once more for each timeout that reached it. |
| SensorLife.LostExactlyWhenAlone | pkg/handles.go:325-438 | A frame is in no chunk if and only if it is the only one since the last successful flush and no timeout handed it over; with walks, if and only if it is the only one since the last successful flush. |
| SensorLife.FrameAfterFlushIsLost | pkg/handles.go:418-438 | Two frames, a walk that flushes, a third frame and the shutdown walk: the third frame is lost. |
| SensorLife.SessionIsContiguous | pkg/handles.go:325-367 | The frames of a session are all frames from its first one on, in order. |
| SensorLife.ForgottenIsUnwatched | pkg/handles.go:418-420 | At any time a sensor without a cached volume is in no timeout map. |
| SensorLife.WalksAreRuns | pkg/handles.go:424-438 | A life of frames and walks is a run of the events that reach the sensor. |
| IngestSafety.NextKeeps | pkg/handles.go:276-438 | Every step of dispatch, decode, item, timeout (sent at any time, also for a sensor no longer in the map) and shared access keeps each sensor's correspondence with its sequential machine. |
| IngestSafety.SensorRunsAlone | pkg/handles.go:276-421 | In every interleaving, a sensor's cache entry, watch flag and queued chunks are those of a sequential run of its own events. |
| IngestSafety.SensorQueuesPairs | pkg/handles.go:344-365 | So in every interleaving the chunks of a sensor that only had frames are its consecutive pairs. |
| IngestSafety.DispatchedPairsAreQueued | pkg/handles.go:276-394 | End to end: when everything dispatched for a sensor has been handled and it has not timed out, its chunks are exactly the consecutive pairs of the dispatched frames, in order, and the cache holds the last frame. |
| IngestSafety.SensorLivesItsLife | pkg/handles.go:276-421 | In every interleaving, however often it timed out, a sensor's cache entry, map entry and chunks have the closed form of its whole life. |
| IngestSafety.DispatchedFramesAreLived | pkg/handles.go:276-394 | Once everything dispatched for a sensor has been taken, the frames of that life are the dispatched ones, in order. |
| IngestSafety.FramesKeepTheirOrder | pkg/handles.go:387-394 | The dispatched frames of a sensor are, in order, those its worker has taken and those still in its channels. |
| IngestSafety.WorkerNeverLosesItsVolume | pkg/handles.go:400-421 | A volume a worker is working on is never removed under it by another worker. |
| IngestSafety.WorkersShareSensors | pkg/handles.go:392-392 | A sensor's worker exists and depends on its id alone; with a power of two of workers it is the remainder. |
| IngestProgress.WorkersFinish | pkg/handles.go:276-421 | In every interleaving all workers together take at most seven steps for each frame, three for each message and five for each timeout that was sent. |
| IngestProgress.OnlyIdleWorkersStop | pkg/handles.go:276-421 | A worker can take a step as long as anything is in its channels or in its hands, whatever the others do. |
| IngestProgress.StoppedWorkerHasHandledAll | pkg/handles.go:276-421 | When a sensor's worker has stopped, the frames of the sensor's life are all frames dispatched for it, in order, and its cache entry, map entry and chunks are those of this life. |
| VolumeCache.ArcVolume.Update | pkg/arc_volume/arc_volume_cache.go:237-248 | The volume gets a fresh empty buffer and the new minute; all else stays. |
| VolumeCache.Store.PreWriteToFileCache | pkg/arc_volume/arc_volume_cache.go:251-284 | A deep copy of the buffer, without its last secondHalfSize bytes if it is longer, is queued in an object of its own, with the volume's type and the directory of its sensor, day and type; cached volumes and queued chunks stay as they are. |
| VolumeCache.Store.HandleFrame | pkg/handles.go:321-367 | One item does exactly the sequential machine's step to its sensor, nothing to others, and every chunk queued before keeps its bytes. Every object it queues names the directory data path, sensor, day of the first frame, TypeArc. |
| VolumeCache.Store.LoadAndStoreTimeOutData | pkg/handles.go:400-421 | One timeout does exactly the sequential machine's step to its sensor and nothing to others; what it queues names the same directory. |
| Folders.QueriesMissWrites | pkg/arc_volume/arc_volume_cache.go:267-268 | The folder a volume is written to is never one that a query looks in, whatever the sensor and the day. |
| Folders.SensorTextOfId | pkg/decode.go:143-145 | The hexadecimal name of a sensor is that of the six id bytes of its frames. |
| Folders.FolderComponents | pkg/arc_volume/arc_volume_cache.go:267-268 | Behind the data path, the folders of a query and of a write are the sensor, the day and the type, in this order. |
| Decimal.FixedOrder | pkg/util/time_util.go:63-63 | On numerals of one width, Go's string order is the order of numbers and equal strings are equal numbers. |
| Calendar.DayNumberOfDate | pkg/util/time_util.go:37-37 | Counting days one by one from 0000-01-01 agrees with a closed form, across months, years and leap years. |
| Calendar.DateOfDayNumber | pkg/util/time_util.go:37-37 | Every valid date is the date of its day number. |
| Calendar.OrderOfDates | pkg/util/time_util.go:37-37 | Calendar order is the order of day numbers. |
| Calendar.DaysBeforeMonthClosed | pkg/util/time_util.go:37-37 | The days of a year in front of a month agree with the usual closed form, which fixes the length of every month. |
| DayRange.DateTextOrder | pkg/util/time_util.go:23-40 | The layout 20060102 orders dates as the calendar does and tells different dates apart. |
| DayRange.EveryDayOnceInOrder | pkg/util/time_util.go:34-45 | A date's text is in the list of days if and only if the date lies between the first and the last; the list is strictly increasing. |
| DayRange.GetBetweenDates | pkg/util/time_util.go:10-46 | The loop ends with every day from the first to the last, or nothing when a date does not parse or the last day is earlier. |
| DayRange.GetDaysDiffer | pkg/util/time_util.go:49-69 | The loop ends with the same list and its length; a last day before the first gives the first day alone. |
| Timestamp.TimeStringReplace | pkg/util/time_util.go:118-128 | Formatting, removing the dot and padding always give the full 20-digit stamp of the instant. |
| Timestamp.FractionIsShort | pkg/util/time_util.go:119-119 | The printed fraction is missing, or a dot and digits of which the last is not zero. |
| Timestamp.StampOrder | pkg/util/time_util.go:118-128 | The byte order of stamps is the order of time in microseconds; equal stamps are the same microsecond. |
| Timestamp.ParseOfStamp | pkg/util/file_util.go:225-226 | Parsing the 14+"."+6 split of a stamp gives the instant back, truncated to microseconds. |
| Timestamp.StampOfParse | pkg/util/file_util.go:225-226 | A field parses only to an instant that prints as that field. |
| Timestamp.ParsesExactlyStamps | pkg/util/file_util.go:225-226 | A 20-character field parses if and only if it is some instant's stamp. |
| FileNames.EpochDay | pkg/util/file_util.go:227-227 | The instant below which Unix() is negative is the start of 1970-01-01. |
| FileNames.BaseOfFile | pkg/util/file_util.go:220-220 | The base of a file in a directory is the file's own name. |
| FileNames.BaseCases | pkg/util/file_util.go:220-220 | Trailing slashes do not count, an empty path is a dot, a path of slashes is one slash. |
| FileNames.NameRoundTrip | pkg/util/file_util.go:219-269 | In all three shapes and any directory, the range printed into a name is read back, each end truncated to microseconds, with the sensor id of the longest shape; with an end before 1970 two clock readings come back without an error. |
| FileNames.NamesWithARange | pkg/util/file_util.go:219-269 | A range is read only from a name of one of the three shapes into which exactly that range is printed, in whole microseconds from 1970 on. |
| FileNames.NamesReadAsNow | pkg/util/file_util.go:219-269 | Over all names: the clock is read exactly when a name has one of the three shapes with two 20-character fields, and the first is a stamp before 1970 or the first is a stamp and the second one before 1970; a range is read exactly when both are stamps from 1970 on. |
| StringOrder.SortOfDistinct | pkg/storage.go:178-178 | Sorting distinct strings puts the same strings in strictly increasing order. |
| FileIndex.IndexHoldsLatest | pkg/util/file_util.go:117-124 | The map holds exactly one file for each start met: the last one met. |
| FileIndex.ContainsIsSubstring | pkg/util/file_util.go:117-117 | The test for an archive finds the text at any position of the name. |
| FileIndex.ArcNames | pkg/util/file_util.go:117-117 | Every name that ends in .arc, or has it anywhere, is an archive. |
| FileIndex.UnreadableHidesTheRest | pkg/util/file_util.go:117-121 | Behind the first archive whose name does not parse nothing of its folder is filed. |
| FileIndex.GetBigFileLists | pkg/util/file_util.go:111-127 | A folder's archives are filed up to the first name that does not parse; no error exactly when the folder exists and all parse. |
| FileIndex.Collect | pkg/storage.go:159-169 | The map after all folders is the index of all files taken, in order, skipping missing folders and keeping the part of a failing one. |
| FileIndex.ScanIsEveryArchive | pkg/storage.go:161-169 | When every archive's name parses, the files taken are exactly the archives of the existing folders. |
| FileQuery.MeetsIsOverlap | pkg/storage.go:189-198 | For a file that does not end before it starts, passing both tests is sharing an instant with the query. |
| FileQuery.SortedKeys | pkg/storage.go:171-178 | The list is the map's keys in strictly increasing order. |
| FileQuery.Select | pkg/storage.go:171-210 | Exactly the keys whose file passes both tests, strictly increasing; an error if and only if some name does not parse. |
| FileQuery.List | pkg/storage.go:211-246 | One item for each start, in order, with its times, duration and link, or not found exactly when some file's own name does not parse. |
| SensorItems.UnixMicroIsExact | pkg/storage.go:229-230 | A time from 1970 on is rendered exactly in microseconds if and only if its nanoseconds fit an int64. |
| SensorItems.ItemIsExact | pkg/storage.go:224-244 | Where they fit, an item's times, and those of its link, are its file's, and its duration is their difference. |
| SensorItems.NumberOfText | pkg/storage.go:233-237 | The decimal text of a time in a link reads back as the number, without a leading zero. |
| SensorItems.ItemNamesSensor | pkg/storage.go:226-244 | An item and its link name the sensor and the type asked for; the link's address is the host, the path and the parameters. |
| SensorItems.LinkReadsBack | pkg/storage.go:233-237 | Split at &, a link's parameters are the sensor, the type and the two times, in this order. |
| SensorItems.SubSaturates | pkg/storage.go:224-224 | A duration is exact where it fits an int64 of nanoseconds, and else the nearest number that does. |
| FileQuery.NameReaderIsSound | pkg/storage.go:214-215 | A file reads the same by its full path and by its own name, and a range starts at a whole microsecond. |
| QueryTimes.ReadAsSpelled | pkg/storage.go:89-101 | A time of digits is read as the number it spells exactly when it has no leading zero and fits an int64, or spells less than eight. |
| QueryTimes.DigitsAreRead | pkg/storage.go:89-101 | Ten, thirteen, sixteen and nineteen digits are seconds, milliseconds, microseconds and nanoseconds, exact where they fit. |
| QueryTimes.UnitsAgree | pkg/storage.go:89-101 | Three more zeros spell the same instant in the next smaller unit. |
| QueryTimes.ZoneIsAdded | pkg/storage.go:110-119 | A space between date and time reads as a T; a text shorter than 20 characters is read in UTC+8, a longer one as it is. |
| QueryTimes.WhichTimesAreRead | pkg/storage.go:89-135 | Texts are read exactly when both parse to times from 1970 on, digits exactly when both have the same one of the four lengths; a text beside digits is read as text. |
| QueryTimes.LinkAsksForItsFile | pkg/storage.go:89-101 | The link of an answer asks for exactly its file's range if and only if both its times have sixteen digits. |
| FileQuery.GetSensorLists | pkg/storage.go:59-252 | Bad request exactly for an empty sensor, an unknown type, times that cannot be read or a range that is not positive; not found for times beyond the year 9999; otherwise the items are exactly those of the files, the last one for each start, that overlap the query, not found when there is none; with names from 1970 on they stand strictly in time order. |
| FileQuery.ItemsInTimeOrder | pkg/storage.go:209-246 | Items whose starts lie between 1970 and 2262 are strictly increasing in their rendered start time. |
| KafkaBuffer.KeptRowByRow | pkg/kafka/arc.go:54-69 | A row is dropped exactly when it leads the call and repeats the last kept time, or the buffer is full by then. |
| KafkaBuffer.ArcBuffer.append | pkg/kafka/arc.go:50-71 | The loop keeps exactly those rows, behind the held ones, and remembers the last kept time. |
| KafkaBuffer.ArcBuffer.BatchRows | pkg/kafka/kafka.go:43-54 | A batch is a copy of rows[0..count) in order, in an array of its own. |
| KafkaBuffer.ArcBuffer.insert | pkg/kafka/arc.go:25-36 | The held rows become one batch and are gone afterwards, also when sending failed. |
| KafkaBuffer.ArcBuffer.flush | pkg/kafka/arc.go:39-47 | A batch is sent exactly when something is held; the "more than max" error is unreachable. |
| KafkaBuffer.RunConserves | pkg/kafka/arc.go:25-71 | Over any run, with an insert possible at any moment because flush tests the count without the lock, count stays within max and the batches followed by the held rows are the rows kept, each once and in order. |
| KafkaBuffer.LastTimeIsOfLastRow | pkg/kafka/arc.go:54-67 | Over any run the remembered time is that of the last row kept. |
| KafkaBuffer.RepeatIsDropped | pkg/kafka/arc.go:54-67 | Of two calls with one row each and the same time only the first row is kept, also when the buffer was sent in between. |
| KafkaBuffer.LostExactlyByFailedSends | pkg/kafka/arc.go:28-33 | What was delivered followed by what is held is all that was kept if and only if no batch with rows failed. |
| Throttler.SleepIsExact | pkg/util/throttler.go:29-33 | The sleep is the most whole milliseconds that the bytes beyond a tenth of the rate are worth. |
| Throttler.WindowsCloseOnTime | pkg/util/throttler.go:23-38 | A call more than 100 ms after the last check closes its window and opens the next one behind its sleep; any other call only counts. |
| Throttler.OpenBytes | pkg/util/throttler.go:23-38 | The bytes in the counter are those of the calls since the last check, all of which came within 100 ms of it. |
| Throttler.WindowBound | pkg/util/throttler.go:23-38 | A finished window of w milliseconds held at most rate * (w + 1) / 1000 bytes. |
| Throttler.RunBound | pkg/util/throttler.go:23-38 | Over any run, the bytes of k finished windows are at most rate * (elapsed ms + k) / 1000; the rest is in the counter. |
| Throttler.WriteThrottler.MaybeSlowdown | pkg/util/throttler.go:23-38 | The fields change as the meter's step says and the sleep is that step's; nothing happens without a rate. |
| LinkedQueue.Queue.Len | pkg/util/queue.go:25-29 | The count is the number of items. |
| LinkedQueue.Queue.Enqueue | pkg/util/queue.go:32-46 | The item is appended behind the others, the links from head to tail spell the new list, and the history of given items grows by it. |
| LinkedQueue.Queue.Dequeue | pkg/util/queue.go:49-66 | The first item is taken, the rest stays, and the history of taken items grows by it; an empty queue gives nothing and stays empty. |
| LinkedQueue.FirstInFirstOut | pkg/util/queue.go:32-66 | Whatever calls a queue has seen, the items it gave out are the first of those it was given, in order, the others are still in it, and count is the difference. |

## Left out

- Disk paths: `writeDataLogic` and `readDataLogic` depend on `isFirst` and `filepathlist`, which nothing sets; only the success or failure of a write is modelled.
- Name of a written file: the writer produces four parts while the reader takes 6, 9 or 10, so only the timestamp fields make a round trip.
- Exactly-once flushing: the frame is written again after the flush; the two-frame window is stated as the code does it.
- Query completeness across days: only folders for the days from t1 to t2 are scanned, so a file that starts on an earlier day is not found.
- FileQuery.GetSensorLists: time order is stated for scans in which every name carries a range from 1970 on; a name before 1970 is filed, tested and answered with three different readings of the clock, which need not agree.
- RoundRobin.FastPathBalance: the pick counter must not wrap within the run, as the wrap of a uint32 breaks the round robin when the size does not divide 2^32.
- Result of a read that timed out: `timeout()` and the running handler both write it, so its final value is not determined.
- `GetHourDiffer`: it counts integers such as day 32 across the end of a month, so no exact count of hours holds.
- Message data of the second payload decode: which arc segment a payload holds is up to the protocol library; the model starts from the extracted data.
- `Kafka` write of each frame in `parseFrame`, the gossip channel and the real-time cache: side outputs that change nothing modelled.
- LinkedQueue.Queue.Dequeue: the source answers nil both for an empty queue and for a nil item; the model tells them apart.
- Rounding in the throttler's floating point, and overflow of its int64 byte counter.
- Go's text form of years beyond 9999, and digits of other scripts than ASCII in a query's times.
- HTTP handlers, the gRPC server, configuration, metrics, logging and the remaining string helpers.
