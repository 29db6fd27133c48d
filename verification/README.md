# hCraft 2: a Dafny model

This project models the algorithmic core of the hCraft 2 Minecraft server and proves what that
core is relied on for.

- **Sky light** (`SkyLight.dfy`, `Lighting.dfy`, `LightingOutcome.dfy`,
  `LightingExamples.dfy`). The worklist of
  `lighting_manager` over a finite set of loaded chunks. One potential, a sum of powers of 13 over
  the cells whose light differs from what their neighbours dictate, falls at every fix, although
  light can go up and down; so draining ends from every light field, every queue and every order.
  The consistent field is the brightest source minus distance and is unique, so the order does not
  matter. Where a drained queue does not leave that field, the exact condition is proved.
- **Chunks and the chunk map** (`Chunk.dfy`, `World.dfy`). Packed id/metadata words, light
  nibbles and lazily allocated sub-chunks behave as independent maps over the cells; the
  heightmap agrees with a scan of each column; neighbour links agree with the map.
- **Wire framing** (`Varint.dfy`, `Framing.dfy`, `Connection.dfy`, `Packet.dfy`, `Zlib.dfy`).
  Varints, the packet delimiter, the reassembly loop of `connection::on_read`, the growing packet
  buffer with its reserved front, and the compression transformer.
- **The outgoing queue** (`SendQueue.dfy`) and the **thread pool with its sequence classes**
  (`ThreadPool.dfy`). State machines whose steps are the locked sections; the guarantees hold in
  every interleaving, and each section is a method proved to take exactly its step.
- **NBT** (`ByteBuffer.dfy`, `NbtFormat.dfy`, `NbtWriter.dfy`, `NbtReader.dfy`,
  `NbtRoundTrip.dfy`, `NbtErrors.dfy`). A writer that
  patches list lengths afterwards, a pure encoder that knows them in advance, and a
  recursive-descent reader over a cursor.
- **JSON** (`JsonFormat.dfy`, `JsonWriter.dfy`, `JsonReader.dfy`, `JsonRoundTrip.dfy`,
  `JsonGrammar.dfy`, `JsonLayout.dfy`). The printer with every formatting option, the parser with
  its line and column counts, the round trip between them, and exactly which texts the parser takes.

Code that updates state is a class whose methods are proved against a specification function or
a step of a state machine; the lemmas are about those functions and machines. `Bytes.dfy` and
`Options.dfy` hold shared helpers.

Where the code and its own intent differ, the model follows the code:

- A queued position whose block has since become opaque is given a level by its neighbours
  instead of by its block (`src/world/lighting.cpp:85-135` has no opacity test). When every wrong
  cell is queued, a drained queue leaves every cell right except, possibly, those queued although
  opaque (`LightingOutcome.Relight`). With one such cell in an otherwise consistent field, the
  field comes out consistent if and only if the level the cell gets is the one it has, or a
  transparent neighbour is then due another level and so enqueues it again
  (`LightingOutcome.DrainOpaque`). `LightingExamples.StoneExample` is an input on which it does not.
- `world::set_id` queues the changed cell only. From a consistent field this accounts for every
  wrong cell if and only if no other transparent cell of the column changes side of the height
  (`LightingOutcome.SetBlockOwes`). In the end only such cells can be wrong
  (`LightingOutcome.SetBlock`). If the changed cell already holds the light it is due, nothing is
  done and all of them are: a piston placed above open ground (`LightingExamples.PistonExample`).
  If it does not, those that hang from it, with none but such cells in between, come out right: a
  stone placed there (`LightingExamples.StoneAboveExample`). Those that lie below an opaque cell
  which does not count toward the height, as water does not, need not: a stone placed over water
  that has air below it (`LightingExamples.WaterExample`).
- `light_chunk` takes opacity away on the way down from the top of the world, while `calc_sl`
  gives 15 to everything above the height; `Lighting.OpenSkyIsRight` says exactly when they agree,
  and a chest, which is not opaque but has opacity 15, is where they do not
  (`LightingExamples.ChestExample`).
- The loop of `varint_size` ends if and only if its number is not negative (`Varint.ShiftEnds`).
- The JSON parser takes a comma before a closing bracket, any character after a backslash, and in a
  number any digits, dots and minus signs after a first digit (`JsonGrammar.ParsesExactly`).
- `transform_in` leaves its loop when no whole length prefix follows, leaving what there is of one
  alone, and otherwise expects a whole frame.
- `disable_seq` sets `free` while a wrapper may be running; the class then accepts nothing more.
- The size check of `on_read` adds two ints. A packet whose announced length, its prefix included,
  is over 512 and below 2^31 is refused; from 2^31 on the sum is negative, the check passes, and
  the loop goes on collecting past its buffer as soon as there are bytes enough. The partial packet
  stays within its 512 bytes if and only if the stream has no such packet with that many bytes
  behind it (`Framing.BufferBound`); `Framing.OverlongExample` is one. A frame of more than 512
  bytes is refused if and only if it has less than 2^31 (`Framing.DriveOversized`).
- `in_enough` adds two ints as well and does not look at the sign: it finds exactly the whole
  frames if and only if the length is not negative and its sum with the prefix fits an int
  (`Zlib.Transformer.InEnough`, `Zlib.Transformer.InEnoughExample`).

## Model

| member | source | states |
|---|---|---|
| SkyLight.FixDrops | src/world/lighting.cpp:85-135 | giving any wrong cell the level dictated to it lowers the potential, whichever way the light moves |
| SkyLight.SumChange | src/world/lighting.cpp:262-273 | how a sum over cells changes when one cell gains and only its six neighbours can lose |
| SkyLight.AdjacentIsNext | src/world/lighting.cpp:262-273 | the cells that give light to each other and are enqueued for each other are those one step apart along one axis |
| SkyLight.IncomingIsBrightest | src/world/lighting.cpp:104-124 | the incoming light is the brightest of the adjacent cells inside the world, full light coming from above its top |
| SkyLight.IncomingAfter | src/world/lighting.cpp:104-126 | setting one cell changes the brightest incoming light of its neighbours only, and only between levels not above the old and new one |
| SkyLight.BeamArrives | src/world/lighting.cpp:101-126 | in a consistent field, light sent along any path of carriers arrives, one level less per step |
| SkyLight.LightHasBeam | src/world/lighting.cpp:101-126 | in a consistent field, every cell's light comes along some path from a source |
| SkyLight.ConsistentIsBrightest | src/world/lighting.cpp:101-126 | a consistent field has at least k in a cell exactly when some source level minus distance reaches k |
| SkyLight.ConsistentIsUnique | src/world/lighting.cpp:101-135 | there is at most one consistent field, so processing order cannot matter |
| LightingOutcome.ChangeOwes | src/world/lighting.cpp:129-134 | changing a cell can make only its six neighbours newly wrong, and itself when it does not get its due |
| LightingOutcome.EnqueuedOwes | src/world/lighting.cpp:233-273 | enqueueing cells leaves no wrong cell unaccounted for that was not so before |
| LightingOutcome.PoppedKeeps | src/world/lighting.cpp:66-70 | every pop, of any item, keeps every wrong cell queued, excused or among the cells queued although opaque |
| LightingOutcome.Relight | src/world/lighting.cpp:46-75 | from any light and any queue holding every wrong cell, by the worker or in any order: all cells end right but possibly those queued although opaque, and without such cells the field is consistent |
| LightingOutcome.DrainOpaque | src/world/lighting.cpp:85-135 | from a consistent field with one opaque cell queued among transparent ones, drained in any order: consistent again if and only if the level that cell gets from its neighbours is its own, or a transparent neighbour is then due another level; otherwise exactly that cell is wrong |
| LightingOutcome.CourseStays | src/world/lighting.cpp:66-70 | what every pop keeps on the way there: the cell not yet taken, or wrong and unanswered, or all accounted for |
| LightingExamples.StoneExample | src/world/lighting.cpp:46-75 | one stone on the ground of an empty chunk, queued before it was placed: the worker, run to the end, leaves it at 14 |
| LightingExamples.OrderExample | src/world/lighting.cpp:85-135 | one consistent field and one queue of two opaque cells: one order of taking them leaves the field inconsistent, the other consistent |
| LightingOutcome.SetBlockOwes | src/world/world.cpp:289-302 | after a block change in a consistent field, queueing its cell accounts for every wrong cell if and only if no other transparent cell of the column changes side of the height |
| LightingOutcome.SetBlock | src/world/world.cpp:289-302 | enqueueing the cell and draining in any order: only cells that cross the height can be wrong; all of them are, and nothing changed, if the changed cell had its due; else those that hang from it come out right; so when all that cross hang from it, consistent if and only if none crosses or the changed cell did not have its due |
| LightingOutcome.HeightsMoveCleanly | src/world/chunk.cpp:85-93 | the height moves cleanly in every column whose opaque blocks all count toward it |
| LightingOutcome.CleanMoveIsChained | src/world/chunk.cpp:85-93 | after a clean move all cells that cross hang from the changed one |
| LightingOutcome.NoExcuse | src/world/world.cpp:289-302 | with the queue empty, no cell of the column is left that the change did not reach |
| LightingExamples.PistonExample | src/world/blocks.cpp:62 | a piston placed nine above open ground, opaque but letting all light through: after the drain exactly the nine cells below it are wrong |
| LightingExamples.StoneAboveExample | src/world/blocks.cpp:30 | a stone placed there instead: after the drain all cells are right |
| LightingExamples.WaterExample | src/world/blocks.cpp:37 | a stone placed over water with air below it: the stone does not have its due, yet after the drain the cell under the water holds 15 where 14 is due |
| Lighting.LightingManager.EnqueueSl | src/world/lighting.cpp:233-259 | a transparent cell is queued and nothing else changes; a right opaque cell is left alone; a wrong one gets its block's level, only opaque cells change, each to its own level, and the neighbours of every cell that changed are enqueued, at a cost of one |
| Lighting.LightingManager.SettleOpaque | src/world/lighting.cpp:241-250 | the recursion through opaque cells ends and leaves the cell at 15 minus its opacity; a right cell is left alone |
| Lighting.LightingManager.EnqueueSlNeighbours | src/world/lighting.cpp:262-273 | all six neighbours inside the world are enqueued, at a cost of at most six; when the opaque ones are right, no light changes and nothing but neighbours is queued |
| Lighting.LightingManager.CalcSl | src/world/lighting.cpp:85-135 | does nothing to a cell that holds what its neighbours dictate; otherwise sets it to that and enqueues its neighbours, after which only opaque cells, the cell itself among them if it is one, may have been set to their own level |
| Lighting.LightingManager.Process | src/world/lighting.cpp:66-70 | taking any item off the queue recomputes its cell, and lowers the number of queued opaque cells or the cost |
| Lighting.LightingManager.WorkerCycle | src/world/lighting.cpp:51-73 | one locked batch takes at most 1000 items, stops early only when the queue is empty, and makes progress |
| Lighting.LightingManager.Drain | src/world/lighting.cpp:46-75 | the worker empties every queue from every field, within as many pops as the cost when no queued cell is opaque; whatever every pop keeps holds at the end |
| Lighting.LightingManager.DrainInAnyOrder | src/world/lighting.cpp:46-75 | the same, whatever order the items are taken in |
| Lighting.FullLight | src/world/lighting.cpp:199-212 | light falling through a column keeps level 15 exactly when no block on the way takes any away |
| Lighting.OpenSkyIsRight | src/world/lighting.cpp:199-215 | light_chunk gives a transparent cell open to the sky what calc_sl would exactly when nothing above shades it |
| Lighting.FallingIsShaded | src/world/lighting.cpp:199-212 | the light in a row is 15 less the sum of the opacities from there to the row below the top, floored at 0 |
| LightingExamples.ChestExample | src/world/blocks.cpp:83 | light_chunk leaves the cells under a chest dark where calc_sl would give full light |
| Lighting.LightingManager.LightColumn | src/world/lighting.cpp:195-215 | at or above its height a column gets 15 less all opacity from there to row 254, floored at 0, and below it none; no other column changes |
| Lighting.LightingManager.LightChunk | src/world/lighting.cpp:187-217 | all 256 columns of the chunk are lit so and no other chunk changes |
| Chunk.PackingIsIndependent | src/world/chunk.cpp:73-84 | writing the id half of a word or its metadata half reads back and leaves the other half alone |
| Chunk.NibblesAreIndependent | src/world/chunk.cpp:136-153 | writing one nibble of a light byte reads back and leaves the other alone |
| Chunk.HalvesInOrder | src/world/chunk.cpp:81-84 | a word is the id above four bits of metadata, and the cell with the even index has the low half of a light byte |
| Chunk.IndexParts | src/world/chunk.cpp:80-81 | the place of a cell is its row in the sub-chunk, its z and its x, in that order |
| Chunk.IndexInjective | src/world/chunk.cpp:80-81 | two cells share a place in a sub-chunk only if they are the same cell, and the place is in range |
| Chunk.ColumnInjective | src/world/chunk.cpp:85-86 | two columns share a heightmap entry only if they are the same column |
| Chunk.Chunk.constructor | src/world/chunk.cpp:36-46 | a new chunk reads as air without light everywhere, all heights right |
| Chunk.Chunk.Touch | src/world/chunk.cpp:76-78 | allocating a missing sub-chunk changes nothing that can be observed |
| Chunk.Chunk.RecalcHeightAt | src/world/chunk.cpp:56-69 | scanning down from a row above which the column is clear makes its height right and keeps the others |
| Chunk.Chunk.UpdateHeight | src/world/chunk.cpp:85-93 | after a block change the height is right again, although a rescan is made only when the top block goes |
| Chunk.Chunk.SetId | src/world/chunk.cpp:72-94 | changes the id of one cell and nothing else, and keeps every height right |
| Chunk.Chunk.SetIdAndMeta | src/world/chunk.cpp:209-232 | changes id and metadata of one cell and nothing else, and keeps every height right |
| Chunk.Chunk.SetMeta | src/world/chunk.cpp:109-120 | changes the metadata of one cell and nothing else; heights stay right |
| Chunk.Chunk.SetSkyLight | src/world/chunk.cpp:135-154 | changes the sky light of one cell and nothing else |
| Chunk.Chunk.SetBlockLight | src/world/chunk.cpp:172-191 | changes the block light of one cell and nothing else |
| Chunk.Chunk.GetId | src/world/chunk.cpp:96-106 | reads the id, air when the sub-chunk is missing |
| Chunk.Chunk.GetMeta | src/world/chunk.cpp:122-132 | reads the metadata; the allocation it may make is not observable |
| Chunk.Chunk.GetSkyLight | src/world/chunk.cpp:157-169 | reads the sky light; the allocation it may make is not observable |
| Chunk.Chunk.GetBlockLight | src/world/chunk.cpp:194-206 | reads the block light; the allocation it may make is not observable |
| World.KeyInjective | src/world/world.cpp:217-220 | the 64-bit key determines both 32-bit coordinates |
| World.World.BoundsInBlocks | src/world/world.cpp:209-214 | a chunk is in bounds if and only if all its block columns are in a world of width by depth blocks |
| World.World.LookupAfter | src/world/world.cpp:206-228 | filing a chunk changes the lookup at its own position only |
| World.World.LinksAreSymmetric | src/world/world.cpp:146-175 | of two stored chunks, one has the other to its east exactly when the other has it to its west, and so north and south |
| World.World.GetChunk | src/world/world.cpp:206-228 | the edge chunk out of bounds, else the chunk filed there, else null |
| World.World.SetChunkNeighbours | src/world/world.cpp:146-175 | after linking a newly filed chunk every stored chunk's four links are what lookups at the adjacent positions give |
| World.World.PutChunk | src/world/world.cpp:178-194 | files the chunk under its key, replacing what was there, and keeps all links right |
| World.World.LoadChunk | src/world/world.cpp:233-283 | returns what a lookup then finds; an existing chunk or the edge chunk changes nothing, otherwise the loaded or a new chunk is filed; keeps all links right |
| Varint.DecodeEncode | src/util/binary.cpp:152-173 | the base-128 digits of a number carry that number and end where they end, whatever follows |
| Varint.EncodeDigits | src/util/binary.cpp:152-173 | the bytes are the digits in base 128, least significant first, all but the last with the top bit set |
| Varint.EncodeFits | src/util/binary.cpp:152-198 | 32-bit patterns take at most 5 bytes and 64-bit patterns at most 10 |
| Varint.ReadDigits | src/util/binary.cpp:67-103 | the reading loop computes the number carried by the bytes up to its limit, modulo the word size, and its length |
| Varint.ReadVarint | src/util/binary.cpp:67-83 | the same for at most 5 bytes, as a signed 32-bit number |
| Varint.ReadVarlong | src/util/binary.cpp:86-103 | the same for at most 10 bytes |
| Varint.VarintRoundTrip | src/util/binary.cpp:67-83 | reading inverts writing for every 32-bit value, negative ones included, whatever follows |
| Varint.VarlongRoundTrip | src/util/binary.cpp:86-103 | reading inverts writing for every 64-bit pattern |
| Varint.WriteVarint | src/util/binary.cpp:152-198 | the writing loop stores exactly the digits, at the given place, and touches no other byte |
| Varint.ShiftEnds | src/util/binary.cpp:49-62 | the loop of varint_size ends if and only if its number is not negative |
| Varint.VarintSize | src/util/binary.cpp:49-62 | for numbers that are not negative the size is the length written |
| Varint.GotVarint | src/util/binary.cpp:27-46 | 0 when no last byte is there yet, -1 when it comes after the sixth, 1 otherwise |
| Framing.RemainingBytes | src/network/packet_delimiter.cpp:43-66 | the delimiter's scan computes how many bytes the packet still needs, in int arithmetic |
| Framing.RemainingOfFrame | src/network/packet_delimiter.cpp:43-66 | positive on every proper prefix of a frame, never more than is missing, and 0 on the whole frame |
| Framing.DriveConserves | src/network/connection.cpp:281-330 | emitted packets, partial buffer and unread bytes together always are the input; the buffer exceeds 512 exactly when the loop has run past it; all input is used unless a packet is rejected |
| Framing.DriveAppend | src/network/connection.cpp:281-330 | reading a then b ends as reading a ++ b does |
| Framing.FailedStays | src/network/connection.cpp:308-319 | a rejected packet stays rejected: nothing more is emitted |
| Framing.FragmentationIndependent | src/network/connection.cpp:270-331 | however the stream is cut into reads, the reader ends as after one read of all of it: same packets, same partial buffer, same packet rejected, and past the end of the buffer in the same streams |
| Framing.AnyReads | src/network/connection.cpp:276-278 | over any reads, empty ones included, the reader ends as after one read of the whole stream, with disconnection asked for besides if one of them was empty |
| Framing.DriveIsSplit | src/network/connection.cpp:270-331 | the loop that fills its buffer step by step does what splitting the whole stream packet by packet does |
| Framing.BufferBound | src/network/connection.cpp:314-327 | over every cut of a stream, the partial packet stays within the buffer if and only if the stream has no packet announcing 2^31 bytes or more, prefix included, with more bytes from there on than the buffer has |
| Framing.OverlongExample | src/network/connection.cpp:314-320 | the prefix FF FF FF FF 07 passes the size check |
| Framing.DriveFrame | src/network/connection.cpp:270-331 | a frame of at most 512 bytes at the front is passed on whole, from any point inside it |
| Framing.DriveOversized | src/network/connection.cpp:314-320 | of a larger frame nothing is emitted; it is rejected if and only if it has less than 2^31 bytes, and runs past the buffer otherwise |
| Framing.FramesUntilOversized | src/network/connection.cpp:270-331 | a concatenation of any frames yields exactly those in front of the first that does not fit the buffer, and ends there, rejected or past the buffer, as the length of that one says |
| Framing.FramesAreDecoded | src/network/connection.cpp:270-331 | a concatenation of frames is split back into exactly those frames, nothing being left over or rejected, if and only if each of them has at most 512 bytes |
| Connections.Input.OnRead | src/network/connection.cpp:270-331 | the loop over rbuf, rbuf_len and the input buffer does exactly what the reassembly function says, its int sums included, and ends |
| Connections.Input.ReadMore | src/network/connection.cpp:312-328 | the size check and the reading of what a packet still needs, or of what there is |
| Connections.Input.Collect | src/network/connection.cpp:321-327 | moves bytes from the input to the end of the partial packet, in order |
| Packets.Packet.constructor | src/network/packet.cpp:144-153 | an empty packet with room reserved in front |
| Packets.Packet.Expand | src/network/packet.cpp:165-180 | growing keeps the contents and the reserved room |
| Packets.Packet.PutBytes | src/network/packet.cpp:315-326 | one growth step makes enough room; the bytes are written over the contents at the position |
| Packets.Packet.PutVarint | src/network/packet.cpp:273-282 | writes the digits of the 32-bit pattern at the position |
| Packets.Packet.UseReserved | src/network/packet.cpp:185-192 | reserved bytes become the front of the contents, which are kept behind them |
| Packets.Packet.PutLen | src/network/builders/mc18.cpp:33-41 | turns the contents into a frame: their length as a varint, then the contents |
| SendQueue.StepKeepsInv | src/network/connection.cpp:333-407 | every call keeps the queue's invariant |
| SendQueue.SendGuarantees | src/network/connection.cpp:333-476 | in every interleaving: packets written are a prefix of those accepted, none twice, none freed before it is written, init_pack is null or the front, nothing accepted after one flagged to disconnect |
| SendQueue.AcceptedAreGiven | src/network/connection.cpp:454-476 | over any calls the packets accepted are exactly those given to send, contents and flag, up to the first flagged to disconnect and before any disconnection |
| SendQueue.ClosedByTimer | src/network/connection.cpp:349-384 | the connection is torn down by a timer call made after a call or a written packet asked for disconnection, and by nothing else |
| SendQueue.LastCloses | src/network/connection.cpp:349-384 | once a packet flagged to disconnect was accepted, writing what is queued and one more timer call tear the connection down |
| SendQueue.EveryPacketIsSent | src/network/connection.cpp:333-396 | no packet is stuck: the timer and one completed write per queued packet send and free them all |
| SendQueue.Output.SendPacket | src/network/connection.cpp:454-478 | send does exactly its step, which `SendQueue.AcceptedAreGiven` ties to what it was given |
| SendQueue.Output.OnTimer | src/network/connection.cpp:372-407 | on_time does exactly its step |
| SendQueue.Output.OnWritten | src/network/connection.cpp:333-363 | on_write does exactly its step |
| ThreadPool.StepKeepsClass | src/util/thread_pool.cpp:202-360 | every locked section keeps each class's invariant: not free exactly when one wrapper is queued, running or about to finish, until disabled; free implies no waiting jobs |
| ThreadPool.EpilogueKeeps | src/util/thread_pool.cpp:259-287 | the hand-off from one wrapper to the next keeps it |
| ThreadPool.EnqueueSeqKeeps | src/util/thread_pool.cpp:292-360 | enqueueing in a class keeps it |
| ThreadPool.StepKeepsRefs | src/util/thread_pool.cpp:144-169 | every step keeps each counter equal to the number of queued or unfinished pool jobs that carry it |
| ThreadPool.ReachableInv | src/util/thread_pool.cpp:39-64 | the invariants hold after every run from the start with any number of workers |
| ThreadPool.SequenceGuarantees | src/util/thread_pool.cpp:202-360 | in every interleaving jobs of a class never overlap, run in the order accepted, and each accepted job is in exactly one place |
| ThreadPool.AcceptedAreOffered | src/util/thread_pool.cpp:292-360 | over any calls a class has accepted exactly the jobs enqueued in it, in order, from its creation until it was disabled, and takes more if and only if it has not been |
| ThreadPool.NothingAfterDisable | src/util/thread_pool.cpp:202-207 | nothing enqueued in a class after it was disabled is accepted |
| ThreadPool.PlainJobsInOrder | src/util/thread_pool.cpp:126-169 | the jobs outside any class are exactly those enqueued so, each started once and in order |
| ThreadPool.CountersAreConserved | src/util/thread_pool.cpp:144-169 | counters are never negative; once nothing runs they are zero and every accepted job was run or handed to the callback |
| ThreadPool.EveryJobIsRun | src/util/thread_pool.cpp:39-64 | nothing is stuck: from every reachable state of a pool with a worker, steps of the workers alone bring everything to an end, cancelling nothing, and then every job accepted so far was run but for those handed to the callback before |
| ThreadPool.Pools.EnqueueJob | src/util/thread_pool.cpp:144-169 | enqueue does exactly its step, taking a reference when there is a counter |
| ThreadPool.Pools.EnqueueInSequence | src/util/thread_pool.cpp:327-360 | enqueue_seq does exactly its step, which `ThreadPool.AcceptedAreOffered` ties to the calls, and reports whether the class was accepting |
| ThreadPool.Pools.DisableSequence | src/util/thread_pool.cpp:202-217 | the loop hands every waiting job to the callback once, in order |
| ThreadPool.Pools.TakeJob | src/util/thread_pool.cpp:50-64 | a worker takes the oldest pool job |
| ThreadPool.Pools.FinishWrapper | src/util/thread_pool.cpp:264-287 | the wrapper frees the class or queues the next job, whose reference is taken before its own is released |
| Zlib.Transformer.UnwrapPayload | src/network/transformers/zlib_mc18.cpp:50-74 | unwrapping one wrapped packet gives its frame back, on either side of the threshold |
| Zlib.Transformer.PayloadCarries | src/network/transformers/zlib_mc18.cpp:160-206 | below the threshold the payload reads as data length 0 and the packet itself, from it on as the packet's length and the deflated packet; with a threshold of at least 1 the data length is 0 if and only if the packet is below it |
| Zlib.Transformer.TransformRoundTrip | src/network/transformers/zlib_mc18.cpp:38-213 | unwrapping any list of wrapped packets gives the concatenation of the originals, whichever side of the threshold each is on |
| Zlib.Transformer.TransformOut | src/network/transformers/zlib_mc18.cpp:153-213 | what it sends starts with the length of what follows, and that reads as such a payload, stored below the threshold and deflated from it on |
| Zlib.Transformer.TransformIn | src/network/transformers/zlib_mc18.cpp:38-150 | on whole frames, perhaps followed by part of a length prefix: succeeds exactly when all of them inflate, returns all of them unwrapped and consumes exactly them, never writing past its buffer |
| Zlib.Transformer.Exchange | src/network/transformers/zlib_mc18.cpp:38-213 | any list of packets put through transform_out and then, joined, through transform_in comes out as it was |
| Zlib.Transformer.InEnough | src/network/transformers/zlib_mc18.cpp:227-247 | -1 exactly when the length prefix is too long; 1 exactly when the input is as long as the int sum of that prefix and its length; so 1 exactly on whole frames if and only if the length is neither negative nor overflows |
| Zlib.Transformer.InEnoughExample | src/network/transformers/zlib_mc18.cpp:236-241 | five bytes announcing 2^31 + 4 are taken for a whole frame |
| Zlib.MakeRoom | src/network/transformers/zlib_mc18.cpp:60-70 | doubling once makes enough room and keeps what was written |
| Zlib.InflateInto | src/network/transformers/zlib_mc18.cpp:94-127 | the inflate loop appends all of the data, doubling the buffer whenever it fills |
| ByteBuffers.BigEndianRoundTrip | include/util/binary.hpp:38-70 | reading n big-endian bytes inverts writing them for every number that fits |
| ByteBuffers.FromBigEndianBound | include/util/binary.hpp:38-70 | n bytes read as a number below 256 to the n |
| NbtErrors.BigEndianOf | include/util/binary.hpp:126-156 | the bytes of a 2- and of a 4-byte number, most significant first |
| ByteBuffers.ByteBuffer.Extend | src/util/byte_buffer.cpp:44-57 | growing keeps the contents |
| ByteBuffers.ByteBuffer.EnsureCap | src/util/byte_buffer.cpp:59-61 | one growth step makes room for a put at any position, also after seeking back |
| ByteBuffers.ByteBuffer.PutBytes | src/util/byte_buffer.cpp:63-72 | writes over the contents at the position, extending them at the end, and changes no other byte |
| ByteBuffers.ByteBuffer.PutBigEndian | src/util/byte_buffer.cpp:98-177 | the same for a 2-, 4- or 8-byte big-endian number |
| NbtFormat.PayloadRoundTrip | src/util/nbt.cpp:393-596 | reading the payload of any well-formed tree followed by anything gives the tree and exactly what follows |
| NbtFormat.ListRoundTrip | src/util/nbt.cpp:504-527 | the same for the elements of a list |
| NbtFormat.EntriesRoundTrip | src/util/nbt.cpp:529-553 | the same for the entries of a compound, added to those already read |
| NbtFormat.RawRoundTrip | src/util/nbt.cpp:601-646 | the same for a named compound |
| NbtFormat.ReadPayload | src/util/nbt.cpp:578-596 | every successful payload consumes at least one byte, so the reader ends on every input |
| NbtErrors.CutOffPayload | src/util/nbt.cpp:393-630 | the payload of any well-formed tree cut off anywhere is reported as ending too early |
| NbtErrors.CutOffCompound | src/util/nbt.cpp:601-646 | so is a named compound cut off anywhere behind its first byte |
| NbtErrors.IdsOfTheFormat | src/util/nbt.cpp:578-596 | ids other than 1 to 11 are refused on every input, and what is read under an id has that id |
| NbtErrors.RootIsCompound | src/util/nbt.cpp:634-646 | a well-formed root is taken if and only if it is a compound |
| NbtErrors.NegativeCount | src/util/nbt.cpp:504-527 | a list whose count is negative is empty |
| NbtErrors.LaterCounts | src/util/nbt.cpp:529-553 | of two entries with one name the later one counts |
| NbtErrors.CutAtNul | src/util/nbt.cpp:483-501 | a string is read up to its first NUL |
| NbtErrors.IdsAndSizes | src/util/nbt.cpp:164-257 | the eleven ids and the sizes of the fields |
| NbtErrors.FormatExample | src/util/nbt.cpp:152-313 | a compound of a string, a list and an int array, byte by byte |
| NbtReader.Cursor.Word | src/util/nbt.cpp:393-462 | a fixed-size number, or end of input; data and avail move in step |
| NbtReader.Cursor.Block | src/util/nbt.cpp:465-501 | a block whose length was read before, refused when it is longer than what is left |
| NbtReader.Cursor.IntArrayPayload | src/util/nbt.cpp:555-575 | the array loop agrees with the parser function and reads no byte past the input |
| NbtReader.Cursor.ListElements | src/util/nbt.cpp:504-527 | the list loop agrees with the parser function |
| NbtReader.Cursor.CompoundEntries | src/util/nbt.cpp:529-553 | the compound loop agrees with the parser function and ends |
| NbtReader.Cursor.NamedTagOf | src/util/nbt.cpp:601-630 | a named tag, agreeing with the parser function |
| NbtReader.Cursor.PayloadOf | src/util/nbt.cpp:578-596 | a payload of any kind, agreeing with the parser function; avail never goes negative and never grows |
| NbtReader.Cursor.Raw | src/util/nbt.cpp:634-646 | a named compound, or an error |
| NbtWriter.RunCounts | src/util/nbt.cpp:164-313 | at every point of every sequence of calls, balanced or not: each open list's length slot lies in the buffer, disjoint from the others, and each frame's len is the number of elements started in it since it was opened |
| NbtWriter.EndListWritesCount | src/util/nbt.cpp:280-291 | so end_list writes into its slot the number of elements started in the list |
| NbtWriter.ApplyKeepsSlots | src/util/nbt.cpp:164-313 | one call keeps the slots sound and never shortens the buffer |
| NbtWriter.EndListChangesOnlyItsSlot | src/util/nbt.cpp:280-291 | end_list writes the element count in its own four bytes and changes nothing else |
| NbtWriter.WriteTree | src/util/nbt.cpp:164-313 | the calls for a tree leave the frames as they were but for one more element counted in the innermost |
| NbtWriter.TreeIsEncoded | src/util/nbt.cpp:164-313 | the writer that patches lengths afterwards appends what the encoder that knows them in advance gives |
| NbtWriter.WriterReaderRoundTrip | src/util/nbt.cpp:152-646 | reading what the writer calls for a tree wrote gives the tree back and leaves exactly what follows |
| NbtWriter.Writer.PutNumber | src/util/nbt.cpp:164-222 | the six numeric puts append header and payload, the header left out inside a list |
| NbtWriter.Writer.PutByteArray | src/util/nbt.cpp:224-234 | the same for a byte array |
| NbtWriter.Writer.PutIntArray | src/util/nbt.cpp:236-246 | the same for an int array, element by element |
| NbtWriter.Writer.PutString | src/util/nbt.cpp:248-257 | the same for a string |
| NbtWriter.Writer.BeginList | src/util/nbt.cpp:261-278 | opens a list frame over a zero length slot |
| NbtWriter.Writer.FinishList | src/util/nbt.cpp:280-291 | seeks back, patches the slot and returns to the end |
| NbtWriter.Writer.BeginCompound | src/util/nbt.cpp:293-305 | opens a compound frame |
| NbtWriter.Writer.FinishCompound | src/util/nbt.cpp:307-313 | closes it with an end tag |
| NbtRoundTrip.PutTree | src/util/nbt.cpp:164-313 | the balanced calls for a whole tree leave the writer as the pure model of them says |
| NbtRoundTrip.WriteThenRead | src/util/nbt.cpp:152-646 | a well-formed compound written by a new writer and read by a new reader comes back |
| JsonRoundTrip.CharsRoundTrip | src/util/json.cpp:193-234 | the escapes the printer emits are undone by the parser, for every string |
| JsonRoundTrip.DigitsRoundTrip | src/util/json.cpp:585-590 | the decimal digits of a number read back as that number |
| JsonRoundTrip.NumberCharsStop | src/util/json.cpp:330-346 | a number ends where its digits end, whatever separator follows |
| JsonRoundTrip.ReadValueSkips | src/util/json.cpp:398-402 | blanks in front of a value change nothing |
| JsonRoundTrip.ValueRoundTrip | src/util/json.cpp:398-421 | parsing any printed value under any format setting and depth gives it back and leaves exactly what follows |
| JsonRoundTrip.ElementsRoundTrip | src/util/json.cpp:286-320 | the same for the elements of an array from any index on |
| JsonRoundTrip.MembersRoundTrip | src/util/json.cpp:241-284 | the same for the members of an object, added to those already read |
| JsonRoundTrip.ObjectRoundTrip | src/util/json.cpp:427-432 | what json_writer prints, json_reader reads back, under every format setting |
| JsonRoundTrip.WriteThenParse | src/util/json.cpp:645-652 | the whole printer followed by the whole parser gives the object back |
| JsonGrammar.GapIsBlank | src/util/json.cpp:185-191 | white space is characters 9 to 13 and 32 and no others |
| JsonGrammar.ParsesExactly | src/util/json.cpp:185-432 | the parser takes a text if and only if an object is laid out at its front, with any of the six blanks before and between its tokens, any escapes and perhaps commas before closing brackets, and then gives what that object means and leaves what follows |
| JsonGrammar.ValueLaid | src/util/json.cpp:398-421 | every value so laid out is read as what it means |
| JsonGrammar.ValueSound | src/util/json.cpp:398-421 | every value that is read was so laid out |
| JsonGrammar.GapsDoNotMatter | src/util/json.cpp:241-320 | whatever of the six blanks stands before and between the tokens of a printed object, it parses as it was printed |
| JsonGrammar.PrintIsLaid | src/util/json.cpp:486-574 | every printed object is such a layout |
| JsonGrammar.EscapesMean | src/util/json.cpp:212-230 | what each escape stands for; an unknown one for nothing |
| JsonLayout.PackedIsCompact | src/util/json.cpp:486-574 | the packed format prints the tokens and nothing else |
| JsonLayout.NiceExample | src/util/json.cpp:46-58 | an object in the nice format, line by line |
| JsonLayout.WideExample | src/util/json.cpp:486-574 | an object with brackets on their own lines and every kind of space, line by line |
| JsonLayout.EscapesAre | src/util/json.cpp:454-481 | the seven characters that are escaped, and how |
| JsonLayout.DigitsAre | src/util/json.cpp:585-590 | the characters of a number are its decimal digits |
| JsonLayout.LaterCounts | src/util/json.cpp:271-272 | of two members with one key the later one counts |
| JsonLayout.LineMeans | src/util/json.cpp:118-136 | the line is one more than the newlines passed |
| JsonLayout.ErrorExamples | src/util/json.cpp:193-421 | one text for each error, and what is left of it there |
| JsonReader.ColumnMeans | src/util/json.cpp:118-136 | the column counts the characters back to the last newline or the start of the text |
| JsonReader.Lexer.GetChar | src/util/json.cpp:118-136 | one character forward, line and column staying those of the text consumed; nothing at the end |
| JsonReader.Lexer.SkipBlanks | src/util/json.cpp:185-191 | stops at the first character that is no white space, which `JsonGrammar.GapIsBlank` lists |
| JsonReader.Lexer.StrOf | src/util/json.cpp:193-234 | a string literal, agreeing with the parser function also in its errors |
| JsonReader.Lexer.NumberOf | src/util/json.cpp:330-352 | the number token at hand, and no more |
| JsonReader.Lexer.Members | src/util/json.cpp:251-281 | the member loop agrees with the parser function; a repeated key keeps the last value |
| JsonReader.Lexer.Elements | src/util/json.cpp:296-317 | the element loop agrees with the parser function |
| JsonReader.Lexer.Read | src/util/json.cpp:398-421 | a value of any kind, agreeing with the parser function; ends on every text |
| JsonReader.Parse | src/util/json.cpp:427-432 | the whole parser: its value, or its error with the line and column of the text consumed up to there |
| JsonWriter.Writer.Encode | src/util/json.cpp:454-481 | appends the quoted, escaped string |
| JsonWriter.Writer.WriteObject | src/util/json.cpp:486-532 | appends the printed object and restores the depth |
| JsonWriter.Writer.WriteArray | src/util/json.cpp:535-574 | appends the printed array and restores the depth |
| JsonWriter.Writer.WriteValue | src/util/json.cpp:609-641 | appends the printed value of any kind and restores the depth |
| JsonWriter.Write | src/util/json.cpp:645-652 | the text written is the printed object at depth 0 |

## Left out

- Lighting.LightingManager.DrainInAnyOrder: and the other lighting methods keep the light as one map over the cells of loaded chunks instead of inside the chunk arrays; blocks, heights and loaded chunks are fixed while the queue is drained.
- Lighting.LightingManager.EnqueueSl: a cell outside the loaded chunks is ignored, where the source dereferences a null chunk or aliases the shared edge chunk; every id is taken to be in the block table, since the source reads the entry it found missing.
- LightingOutcome.DrainOpaque: one opaque cell queued; with several the final light can depend on the order (`LightingExamples.OrderExample`), and `LightingOutcome.Relight` bounds what can be wrong.
- LightingOutcome.SetBlock: which of the crossing cells that do not hang from the changed one stay wrong, when that one was not right; other light that changes may still reach them.
- Several worlds sharing one queue, worker start and stop.
- Chunk.Chunk.SetId: ids below 4096, metadata and light below 16, as the packing needs; masks and shifts are written as division and remainder. Biomes and entities are not part of this model.
- World.World.PutChunk: coordinates whose neighbours overflow an int, and filing a chunk that is filed already, which the source frees first; freeing the replaced chunk and what the edge chunk's own links are is left out.
- World.World.LoadChunk: what the provider or generator loads is a parameter; provider errors count as nothing loaded.
- Varint.VarintSize: negative numbers, on which the source's loop does not end.
- Varint.ReadVarint: a length of 0 stands for the out-parameter the source leaves unset when no last byte is met; in `Zlib.Transformer.InEnough` its value is a parameter.
- Connections.Input.OnRead: models a connection with no transformer switched on and less than 2^31 bytes waiting; `apply_in_transformations`, protocol inference and libevent's buffers are left out, and nothing is modelled after a write past the buffer.
- SendQueue.SendGuarantees: nothing is modelled after the timer has torn the connection down; transformations of outgoing data and destruction are left out.
- ThreadPool.SequenceGuarantees: the pool keeps accepting; `stop_jobs`, `join`, `release_seq` and `async_generator` are left out, since `stop_jobs` marks a class free while a wrapper may be running and `join` waits for the queue only. Taking the class lock and the pool lock inside enqueue_seq is one step.
- Zlib.Transformer.TransformRoundTrip: deflate and inflate are functions with inflate undoing deflate; the compressed format is not modelled.
- Zlib.Transformer.TransformIn: input that stops inside a frame after its length prefix, where the source reads past the end; sizes that do not fit in int.
- Packets.Packet.PutBytes: sizes are unbounded, so wrap-around of 32-bit capacities is not modelled; the same holds for `ByteBuffers.ByteBuffer.EnsureCap`.
- NbtFormat.PayloadRoundTrip: floats are their 32- or 64-bit words, the reader's loss of a list's element type is explicit, compounds are association lists instead of hash maps.
- NbtReader.Cursor.Block: a negative or overflowing length field is an error of its own here; in the source its effect is not defined.
- `_zlib_compress` and the gzip and zlib wrappers of NBT files.
- JsonRoundTrip.ObjectRoundTrip: numbers from 0 to 999999, as the default stream precision prints no others in full and the parser takes no leading sign; other number tokens keep their characters. Members are an association list in the order the map iterates.
- JsonWriter.Writer.WriteArray: `elems_per_line` of zero with `indent` or `elem_per_line` set, where the source divides by zero.
- `lexer_stream::unget`, which nothing calls.
- Packet ids, line and column numbers and reference counts are unbounded numbers.
- Windows, players, commands, keep-alive, UUIDs, configuration, entity movement, packet contents, AES, RSA, HTTP and file formats.
