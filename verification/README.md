# A model of the echo server's core

The server accepts TCP clients on a main reactor, hands each to one of several IO loops (one-shot,
edge-triggered epoll) and echoes what it receives. Beside that it has a worker pool, a fixed-size
block allocator, a double-buffered logger and a heartbeat that drops silent clients. The project
models those parts in Dafny and proves what they are for, for every input and every interleaving of
their atomic steps.

Two kinds of file work together. A *protocol* module is a state machine on values, with its invariant
and the theorems about all its runs. A *class* module has the source's fields, arrays, branches and
loops; its methods are proved to take the protocol's steps, so the theorems speak about them. A
handler takes one step of `Echo` and, on the index, a run of steps of `PoolProtocol` (`Handled`,
`HandledIsRun`).

| file | models | main results |
|---|---|---|
| `arithmetic.dfy`, `bytes.dfy`, `memory_pool.dfy` | the allocator: links stored as eight bytes inside blocks that clients overwrite | the links always spell out exactly the blocks nobody holds |
| `thread_pool.dfy` | workers, condition variable, shutdown | no lost wake-up, exactly-once execution, bounded shutdown |
| `kernel.dfy` | what the operating system may do to a socket | the assumptions, as contracts |
| `connection.dfy` | the two growing buffers of a connection | receive, shift down, append, growth bounds |
| `echo.dfy` | one connection as a machine: peer, network, one-shot registration, handlers | echo safety, no stranded connection, bounded work |
| `event_loop.dfy` | the handlers and the batch loop of a sub-reactor | each handler is one step of `Echo`; a batch is one step per connection |
| `pool_protocol.dfy`, `connection_pool.dfy` | the connection index and the heartbeat | limit and keys in every interleaving; what a sweep removes |
| `log.dfy` | the two log buffers and the log thread | order and exact loss accounting |
| `loop_stop.dfy` | stopping the loops | the wake-up is never lost; stop and join return exactly when no loop was stopped early |
| `io_thread_pool.dfy`, `server.dfy` | round robin and `HandleAccept` | each loop's exact share; each new connection on the loop whose turn it is |
| `system.dfy` | accept rounds, batches and sweeps together | in any order they keep every mapped connection in the echo protocol |

## What is assumed

* Steps are atomic: a locked section, a handler, a swap, a write are each one step. Memory is
  sequentially consistent and sizes are unbounded integers.
* Sockets (`Sockets.Kernel`): before any system call takes effect more of what the peer has in flight
  may arrive, the send window may open, an end of stream or a failure may come in. During one
  handler the peer writes nothing new, which is why the read loop ends; between handlers it may do
  anything. The send window shrinks only by sending.
* After a failure has arrived, `recv` may still hand over bytes that were queued, or report the failure
  first; it reports it before it ever blocks.
* A failing accept other than EAGAIN is the exception that `Socket::Accept` throws (`ok` false); while
  one accept loop runs no further client joins the backlog.
* `send` of a non-empty buffer never answers 0 (`zeroSends` is false), as on Linux stream sockets.
  Connection.Send itself is also described for a kernel that does answer 0.
* An armed one-shot registration delivers an event as long as the descriptor is ready, since
  registering and re-registering both look at readiness. That a write event finds room in the send
  window is then not assumed but part of the proved invariant (`Echo.Registered`).
* An event of a mapped descriptor comes from the epoll instance it is registered with, as epoll_wait
  returned it (`Systems.Returned`). That every mapped descriptor is open and registered with one of the
  loops is proved (`Systems.Sound`).
* Addresses are integers and null is 0; the memory `new` returns lies below 256^8; a link is a
  little-endian word of eight bytes.
* The clock is the parameter `now`; the order in which a loop visits the hash map is the parameter
  `order`; the number of processors is `hardware`.

## What the code does not do

These are proved, each with the exact condition under which the better behaviour holds.

* A client that writes and then shuts down its sending side can lose the echo: `HandleRead` drops the
  connection before it echoes what arrived with the end of the stream, or sends what was still queued.
  A read event that finds the end of the stream loses something exactly when bytes wait in the write
  buffer or in the receive queue (`Echo.EchoCompleteIff`), and what is lost then stays lost
  (`Echo.LostForGood`); `Echo.HalfCloseLosesEcho` is a run. The documentation promises that data is
  returned as received.
* A connection ended by `Recv` or `Send` is already marked closed, so `Close` skips the descriptor and
  it stays open; only a connection dropped by an error event or the heartbeat has its descriptor
  closed (`Echo.ClosedIffDropped`).
* `HandleWrite` re-arms only if nothing was pending or the send window was open (`Echo.WriteRearmsIff`).
* `Deallocate` of a block that is already free corrupts the list, always; of anything else, never
  (`FreeList.DeallocateSafeIff`).
* The log thread swaps again after a writer's swap or a flush, so a whole buffer can be lost
  (`LogProtocol.LossIff`, `LogProtocol.TwoSwapsLoseAll`). At shutdown this contradicts the comment
  "Write any remaining data before exiting" (`LogProtocol.ShutdownCanLoseLine`), and what is written
  then is in order only if one of the buffers is empty (`LogProtocol.FinalWriteOrderedIff`).
* The heartbeat removes by descriptor number after releasing the lock and can hit a new connection
  (`PoolProtocol.ReapHitsTimedOutIff`, `PoolProtocol.ReapCanHitNewConnection`).
* A loop whose flag `Stop` clears before the loop's thread has set it sets it again and runs on, and
  `IOThreadPool::Stop` never returns (`StopProtocol.MissedForever`, `StopProtocol.StopBeforeLoop`). From
  its joins on, Stop returns under any scheduler exactly when that happened to no loop
  (`StopProtocol.JoinsReturnIff`, `StopProtocol.StopAndJoin`).
* `Init` with a limit below the number of mapped connections leaves the index over its limit
  (`PoolProtocol.InitKeepsInvIff`).

## Model

| member | source | states |
|---|---|---|
| Echo.EchoSafety | src/net/event_loop.cpp:96-176 | In every run, what was received is what was sent, then the write buffer, then the read buffer; what was sent is a prefix of what the peer wrote; a connection still served has an empty read buffer |
| Echo.NotStuck | src/net/event_loop.cpp:142-175 | If no event is pending or deliverable for a served connection, its receive queue is empty without end or failure, and it has nothing to send or no send window |
| Echo.QuiescentEcho | src/net/event_loop.cpp:96-176 | With nothing in flight, no event left and an open window, everything the peer wrote has been sent back |
| Echo.WorkBounded | src/net/event_loop.cpp:96-176 | Over any run the server takes at most six steps per byte the peer wrote, and five more: it never spins on a connection |
| Echo.EchoesAtOnce | src/net/event_loop.cpp:108-146 | In every run a read event that keeps the connection empties the queue, sends at least a byte of what arrived when the window is open, and arms the descriptor for writing exactly when something is left to send |
| Echo.StepPotential | src/net/event_loop.cpp:96-189 | Each event delivery, handler and removal uses up the measure of remaining work; only newly written bytes add to it |
| Echo.ReadUsesPotential | src/net/event_loop.cpp:96-147 | A read event always makes progress: it moves bytes towards the peer or ends the connection |
| Echo.WriteUsesPotential | src/net/event_loop.cpp:149-176 | A write event always makes progress, also when nothing was pending |
| Echo.EchoCompleteIff | src/net/event_loop.cpp:113-137 | Barring failures, a read event that ends the connection leaves nothing unsent exactly when nothing waited in write buffer, queue or network; with the end of the stream there from the start, something is lost exactly when it finds bytes in the write buffer or the queue |
| Echo.LostForGood | src/net/event_loop.cpp:113-118 | In every run, once a connection has been dropped nothing more is sent on it |
| Echo.ReadSurvivesIff | src/net/event_loop.cpp:113-124 | A read event keeps the connection (not: echoes everything, which is EchoCompleteIff) exactly when neither the end of the stream nor a failure has arrived |
| Echo.HalfCloseLosesEcho | src/net/event_loop.cpp:113-118 | A run from an accepted connection: the peer writes a byte and shuts down its side, the read event takes the byte and drops the connection, and it is never sent back although the window is open |
| Echo.WriteRearmsIff | src/net/event_loop.cpp:158-175 | A write event re-arms the descriptor exactly when nothing was pending or the window was open, and then for writing exactly when data is left |
| Echo.ClosedIffDropped | src/conn/connection.cpp:179-190 | A handler that ends the connection leaves the descriptor open exactly when Recv or Send had marked it closed |
| Echo.StepKeepsInv | src/net/event_loop.cpp:78-189 | Every step of peer, kernel, handlers and removal keeps the invariant: byte order, connection state and a registration that will report what is waiting |
| Echo.ReadKeepsInv | src/net/event_loop.cpp:96-147 | So does a read event |
| Echo.WriteKeepsInv | src/net/event_loop.cpp:149-176 | So does a write event |
| Echo.RunInv | src/net/server.cpp:274-275 | The invariant holds at every state of every run that starts as HandleAccept leaves the connection |
| EventLoops.Drain | src/net/event_loop.cpp:108-111 | The read loop ends, appends exactly the bytes taken from the kernel, and stops only on an empty queue, the end of the stream or a failure |
| EventLoops.DrainAndEcho | src/net/event_loop.cpp:108-137 | HandleRead up to its last step: nothing lost or reordered, the queue emptied and offered to send, or the connection closed for a reason that has arrived |
| EventLoops.DrainedMore | src/net/event_loop.cpp:108-111 | One more Recv extends what the read loop has done so far, and takes at least a byte or is the last |
| EventLoops.DrainDrops | src/net/event_loop.cpp:113-124 | A read loop that saw the end or a failure leaves a connection to be dropped, everything written received in the first case |
| EventLoops.DrainKeeps | src/net/event_loop.cpp:126-127 | With nothing read and nothing left over there is nothing to echo |
| EventLoops.DrainEchoes | src/net/event_loop.cpp:126-137 | Append, consume and send keep the byte order and send something whenever there is room |
| EventLoops.EventLoop.HandleRead | src/net/event_loop.cpp:96-147 | A read event on a mapped descriptor is the protocol's read event; on any other it changes nothing; on the index it is a handler's run of steps |
| EventLoops.EventLoop.ServeRead | src/net/event_loop.cpp:108-147 | The same for a connection found in the index |
| EventLoops.EventLoop.ReArm | src/net/event_loop.cpp:142-146 | The descriptor is re-armed for reading, and for writing exactly when data is pending |
| EventLoops.EventLoop.HandleWrite | src/net/event_loop.cpp:149-176 | A write event on a mapped descriptor is the protocol's write event; on any other it changes nothing; on the index it is a handler's run of steps |
| EventLoops.EventLoop.ServeWrite | src/net/event_loop.cpp:158-176 | The same for a connection found in the index |
| EventLoops.EventLoop.FinishWrite | src/net/event_loop.cpp:166-175 | After a send that did not fail: heartbeat refreshed, re-armed, for writing exactly when data is pending |
| EventLoops.WriteBlocked | src/net/event_loop.cpp:159-164 | A send that would block changes nothing and does not re-arm |
| EventLoops.WriteReArmed | src/net/event_loop.cpp:166-175 | A send that moved bytes, then the re-registration, make a write event |
| EventLoops.WriteGaveUp | src/net/event_loop.cpp:159-163 | A send that failed, then the removal, make a write event that ends the connection |
| EventLoops.EventLoop.GiveUp | src/net/event_loop.cpp:178-189 | Dropping a connection Recv or Send has marked closed: unmapped and deregistered, descriptor left open |
| EventLoops.EventLoop.GiveUpReading | src/net/event_loop.cpp:114-124 | A read event that ends the connection |
| EventLoops.EventLoop.GiveUpWriting | src/net/event_loop.cpp:159-163 | A write event that ends the connection |
| EventLoops.EventLoop.HandleError | src/net/event_loop.cpp:178-189 | It fails exactly when the descriptor is not registered with this loop, changing nothing; else the descriptor is deregistered and its connection, if any, closed and unmapped |
| EventLoops.EventLoop.ServeError | src/net/event_loop.cpp:178-189 | An error event closes the descriptor of a connection nobody has marked closed |
| EventLoops.EventLoop.DropOnError | src/net/event_loop.cpp:178-189 | An error event is the protocol's drop, and on the index a handler's run of steps |
| EventLoops.ReadTouches | src/net/event_loop.cpp:96-147 | A read event that keeps the connection keeps its state and descriptor; the heartbeat becomes now exactly when bytes were received or sent |
| EventLoops.WriteTouches | src/net/event_loop.cpp:149-176 | So does a write event; the heartbeat becomes now exactly when it re-armed the descriptor |
| EventLoops.EventLoop.HandleEvent | src/net/event_loop.cpp:78-92 | On the flags: an error drops the mapped connection, else input is the protocol's read event, else output its write event, else nothing changes; it fails exactly for an error on a descriptor this epoll instance does not hold |
| EventLoops.ReportedIsDeliverable | src/net/event_loop.cpp:78-92 | For the flags epoll_wait reports of an armed socket, the handler chosen is the one the echo protocol expects; readable and writable means read |
| EventLoops.FlagsServe | src/net/event_loop.cpp:78-92 | What each flag leads to is a handler step of the protocol |
| EventLoops.EventLoop.HandleEvents | src/net/event_loop.cpp:73-94 | After a batch each connection with an event has taken its one protocol step from the state it had when the batch began, and no other connection has changed; a batch is cut short only by an error event for an unmapped descriptor that this epoll instance does not hold |
| EventLoops.EventLoop.HandleBeside | src/net/event_loop.cpp:74-92 | Serving one connection leaves every other connection, its buffers and its socket as they were |
| EventLoops.EventLoop.HandleUnmapped | src/net/event_loop.cpp:100-103 | An event of a descriptor that is not mapped changes no connection |
| EventLoops.StillToServe | src/net/event_loop.cpp:73-94 | An event not yet served finds its connection as it was when the batch began |
| EventLoops.OneMoreServed | src/net/event_loop.cpp:73-94 | Serving the next event extends what the batch has done by that connection's step |
| Connections.Connection.constructor | src/conn/connection.cpp:12-27 | A new connection is connecting, its buffers empty, its heartbeat now |
| Connections.Connection.CheckAndResizeReadBuffer | src/conn/connection.cpp:192-197 | At least 1024 bytes of room afterwards, content kept; the size stays 0 or 4096 doubled some times, at most max(4096, 2 * (peak + 1024)), and all copying so far at most the size (ReadGrowth, in Valid) |
| Connections.DoubledTwice | src/conn/connection.cpp:192-197 | Doubling a read buffer that is not empty stays among the sizes 4096 * 2^k |
| Connections.Connection.Recv | src/conn/connection.cpp:80-107 | The bytes the kernel gave are appended; closed exactly on an answer of 0, which means end of stream, or on a failure; a closed connection answers -1 untouched |
| Connections.Connection.TakeIn | src/conn/connection.cpp:90-92 | The bytes recv stored are now the end of the read buffer |
| Connections.Connection.Send | src/conn/connection.cpp:109-139 | The bytes the kernel accepted are gone from the front of the write buffer, in order, and no others; the cases of empty buffer, block and failure |
| Connections.Connection.ShiftOut | src/conn/connection.cpp:121-123 | The overlapping move down keeps exactly the unsent bytes, in order |
| Connections.Connection.ConsumeReadBuffer | src/conn/connection.cpp:157-164 | Removes that many bytes from the front, or all |
| Connections.Connection.MakeWriteRoom | src/conn/connection.cpp:167-170 | Room for the new bytes, content kept; the size stays at most twice the fullest point and all copying at most the size (WriteGrowth, in Valid) |
| Connections.Connection.AppendWriteBuffer | src/conn/connection.cpp:166-177 | The given bytes become the end of the write buffer |
| Connections.Connection.Close | src/conn/connection.cpp:179-190 | Closed afterwards; the descriptor is closed unless the connection was marked closed before |
| Sockets.LaterTransitive | src/conn/connection.cpp:87-88 | What may happen on a socket between system calls composes: nothing lost, reordered or taken back over any number of them |
| Sockets.Kernel.Recv | src/conn/connection.cpp:88 | The contract assumed of recv: the next bytes of the stream; 0 only without room or at the end of the stream; EAGAIN only when nothing is there |
| Sockets.Kernel.Send | src/conn/connection.cpp:119 | The contract assumed of send: a prefix is accepted; EAGAIN only when the window is closed |
| Sockets.Kernel.Modify | src/net/event_loop.cpp:65-67 | The contract assumed of re-registration: armed with the new mask, or failure when the descriptor is not in this epoll instance |
| Sockets.Kernel.Accept | src/net/server.cpp:234-241 | The contract assumed of accept: a descriptor that was not open, or a failure, EAGAIN exactly when nobody waits |
| TaskPool.NoLostWakeup | src/util/thread_pool.cpp:61-82 | In every interleaving, while some worker sleeps each queued item has its own worker about to look or its own notification on the way; so never items queued, nobody notified and a worker asleep without all others busy |
| TaskPool.ExactlyOnce | src/util/thread_pool.cpp:66-80 | Items are popped in the order accepted; each accepted item is exactly one of queued, running, finished; once every worker has returned exactly the accepted ones have run |
| TaskPool.AcceptedBeforeShutdown | src/util/thread_pool.h:58-66 | In every run the accepted items are exactly those handed to Enqueue before the first shutdown request, in the order of the calls |
| TaskPool.SubmittedAllRun | src/util/thread_pool.h:58-68 | Once every worker has returned, exactly the items handed over before shutdown have run, each as often as handed over |
| TaskPool.AfterBroadcast | src/util/thread_pool.cpp:68-74 | After notify_all no worker waits again, and every worker step uses up the measure |
| TaskPool.ShutdownBounded | src/util/thread_pool.cpp:36-45 | However the threads interleave after notify_all, workers take a bounded number of steps |
| TaskPool.ShutdownNotStuck | src/util/thread_pool.cpp:68-74 | After notify_all, while a worker lives some worker can move |
| TaskPool.WorkNotStuck | src/util/thread_pool.cpp:61-82 | While something is queued, a worker or a notification can move |
| TaskPool.JoinAll | src/util/thread_pool.cpp:41-45 | The joins return under any scheduler, with the queue empty and exactly the accepted items executed |
| TaskPool.StepKeepsInv | src/util/thread_pool.cpp:61-82 | Every atomic step keeps the wake-up bound, the queue order and the accounts |
| TaskPool.PopKeepsInv | src/util/thread_pool.cpp:72-74 | A worker taking an item keeps them: one item less, one looking worker less |
| TaskPool.WakeKeepsInv | src/util/thread_pool.h:68 | So does a notification or a spurious wake-up: one notification less, one looking worker more |
| TaskPool.RunInv | src/util/thread_pool.cpp:61-82 | They hold at every state of every run |
| ThreadPools.NumThreads | src/util/thread_pool.cpp:9-19 | Never zero workers: as many as asked for, else twice the processors, or eight when their number is unknown |
| ThreadPools.ThreadPool.constructor | src/util/thread_pool.cpp:9-24 | The machine's start with that many workers, nothing queued, not shut down |
| ThreadPools.ThreadPool.Enqueue | src/util/thread_pool.h:58-66 | The locked section is the machine's step; refused exactly after shutdown |
| ThreadPools.ThreadPool.TakeTurn | src/util/thread_pool.cpp:64-78 | One evaluation of the locked section by a worker is the machine's step: wait, return, or run the oldest item |
| ThreadPools.ThreadPool.RequestShutdown | src/util/thread_pool.cpp:30-37 | Only the first request goes on to notify |
| FreeList.WalkVisitsUnheld | src/util/memory_pool.cpp:26-93 | In every run of allocations, frees of held blocks and arbitrary writes into held blocks, following the links from the head visits exactly the unheld blocks once each and ends at null; the counter is the number held; held plus available is num_blocks |
| FreeList.HeldBlocksDisjoint | src/util/memory_pool.cpp:26-56 | Blocks held at the same time never overlap and lie inside the pool |
| FreeList.AllocateResult | src/util/memory_pool.cpp:26-38 | Null exactly when all blocks are held, otherwise a block nobody held |
| FreeList.ValidPointerIff | src/util/memory_pool.cpp:95-104 | The range and remainder test accepts exactly the addresses base + i * block_size with i < num_blocks |
| FreeList.ValidIffAllocatable | src/util/memory_pool.cpp:78-104 | A pointer passes the test exactly when a sequence of allocations returns it |
| FreeList.FreshPoolOrder | src/util/memory_pool.cpp:78-93 | A fresh pool hands out base, base + block_size, base + 2 * block_size and so on, then null |
| FreeList.LinksInOrder | src/util/memory_pool.cpp:86-92 | The links Initialize writes make a fresh pool |
| FreeList.DeallocateSafeIff | src/util/memory_pool.cpp:40-56 | Freeing keeps the list intact exactly when the argument is null, foreign or held |
| FreeList.ListRepeats | src/util/memory_pool.cpp:52-54 | After freeing a block that was already free, the links repeat the old list behind it |
| FreeList.BlocksDisjoint | src/util/memory_pool.cpp:78-93 | Distinct blocks are disjoint intervals inside the memory |
| FreeList.OffsetIsProduct | src/util/memory_pool.cpp:87 | Walking block by block reaches i * block_size |
| FreeList.FreeAndHeld | src/util/memory_pool.cpp:66-72 | Free and held blocks add up to num_blocks |
| FreeList.StepKeepsInv | src/util/memory_pool.cpp:26-56 | Every legal operation keeps list and counter right |
| FreeList.AllocateKeeps | src/util/memory_pool.cpp:29-35 | Allocation takes the first block off the list |
| FreeList.FreeKeeps | src/util/memory_pool.cpp:52-55 | Freeing a held block puts it in front of the list |
| FreeList.WriteKeeps | src/util/memory_pool.h:28-30 | A client's write into a held block touches no link of the list |
| Bytes.DecodeEncode | src/util/memory_pool.h:28-30 | A stored link reads back as the same pointer |
| Bytes.LoadStored | src/util/memory_pool.cpp:53 | Reading the word just stored gives it back |
| Bytes.LoadElsewhere | src/util/memory_pool.cpp:53 | A stored word changes no word it does not overlap |
| MemoryPools.MemoryPool.constructor | src/util/memory_pool.cpp:9-20 | The block size is the one asked for, or 8 if that is less than a link; the pool is fresh |
| MemoryPools.Create | src/util/memory_pool.cpp:15-17 | An empty pool is refused; any other has the block size asked for, at least 8 |
| MemoryPools.MemoryPool.Initialize | src/util/memory_pool.cpp:78-93 | The loop leaves a fresh pool, whatever the memory held |
| MemoryPools.MemoryPool.Allocate | src/util/memory_pool.cpp:26-38 | The protocol's allocation on the real bytes; null exactly when all blocks are held |
| MemoryPools.MemoryPool.Deallocate | src/util/memory_pool.cpp:40-56 | For any argument, the protocol's free on the real bytes; the pool stays valid exactly when the argument is null, foreign or held |
| MemoryPools.MemoryPool.GetAllocatedCount | src/util/memory_pool.cpp:66-68 | The number of blocks clients hold |
| MemoryPools.MemoryPool.GetAvailableCount | src/util/memory_pool.cpp:70-72 | The number of blocks nobody holds |
| MemoryPools.MemoryPool.ClientWrite | src/util/memory_pool.cpp:33-37 | A client may store any byte in a block it holds |
| LogProtocol.LogOrder | src/util/log.cpp:93-173 | In every interleaving, file text, then unwritten backup, then active buffer is a concatenation of whole lines, an ordered duplicate-free selection of the accepted lines |
| LogProtocol.LogAccounting | src/util/log.cpp:113-163 | Every accepted line is exactly one of kept and dropped; both buffers stay within capacity |
| LogProtocol.LossIff | src/util/log.cpp:113-163 | A step loses lines exactly when it swaps (a flush, the log thread, or a line longer than the bytes left in the active buffer) or resets while the backup holds something unwritten, and loses exactly that |
| LogProtocol.NothingLostWithRoom | src/util/log.cpp:114-135 | Over runs without flush and thread swap, lines that fit the active buffer together are all taken, in order, none refused, none dropped |
| LogProtocol.RoomStep | src/util/log.cpp:114-135 | A step whose line fits appends it at the end of the active buffer and drops nothing that was not about to be lost |
| LogProtocol.TwoSwapsLoseAll | src/util/log.cpp:143-157 | Two swaps without a write lose everything buffered |
| LogProtocol.ShutdownCanLoseLine | src/util/log.cpp:150-173 | The one line logged before shutdown need not reach the file |
| LogProtocol.FinalWriteOrderedIff | src/util/log.cpp:166-172 | The write after the loop writes every line still kept, and keeps the order exactly when one of the buffers is empty |
| LogProtocol.RefusedIff | src/util/log.cpp:116-130 | With nobody in between, a line is refused exactly when it is longer than a buffer |
| LogProtocol.StepKeepsInv | src/util/log.cpp:113-163 | Every step of writers and log thread keeps order, accounts and capacity |
| LogProtocol.AppendKeepsInv | src/util/log.cpp:132-135 | So does an append |
| LogProtocol.SwapKeepsInv | src/util/log.cpp:143-148 | So does a swap |
| LogProtocol.LosingKeepsInv | src/util/log.cpp:143-163 | Losing the unwritten part of the backup, and only it, keeps the rest in order |
| LogProtocol.TextConcat | src/util/log.cpp:193-195 | The text of two runs of lines, one after the other, is the text of both |
| Loggers.Logger.constructor | src/util/log.h:75-77 | Two empty buffers of the given capacity, an empty file |
| Loggers.Logger.SwapBuffers | src/util/log.cpp:143-148 | The exchange of the two buffers is the protocol's swap on the real bytes |
| Loggers.Logger.CopyIn | src/util/log.cpp:133-135 | The line's bytes follow those in the active buffer: the protocol's append |
| Loggers.Logger.FirstLook | src/util/log.cpp:114-123 | From any state: the line is copied in exactly when the bytes left in the active buffer suffice, else the buffers are swapped |
| Loggers.Logger.SecondLook | src/util/log.cpp:125-134 | Whatever other threads have done since: the line is copied in exactly when the bytes left now suffice, else given up |
| Loggers.Logger.WriteLog | src/util/log.cpp:113-136 | With nobody between the looks: a line that fits the bytes left is appended and nothing else changes; otherwise it is taken exactly when it fits an empty buffer, and refused if not |
| Loggers.Logger.WriteToFile | src/util/log.cpp:175-195 | The buffer's first bytes go to the end of the file |
| Loggers.Logger.CheckBackup | src/util/log.cpp:160 | There is something to write exactly when the backup holds a line |
| Loggers.Logger.WriteBackup | src/util/log.cpp:161 | The protocol's write on the real bytes |
| Loggers.Logger.ResetBackup | src/util/log.cpp:162 | The protocol's reset |
| Loggers.Logger.LogThreadTurn | src/util/log.cpp:152-164 | One undisturbed turn moves the active buffer's lines to the file and loses exactly what an earlier swap had left in the backup |
| Loggers.Logger.FinalWrite | src/util/log.cpp:166-172 | The file ends with the active buffer's lines, then the backup's, and holds every line still kept |
| PoolProtocol.PoolStaysSound | src/conn/connection_pool.cpp:48-96 | In every interleaving of acceptor, handlers, heartbeat and shutdown, also inside handlers: the limit holds, every entry is filed under its own descriptor, and an entry is closed only while the handler that marked it is on its way to remove it; between handlers none is |
| PoolProtocol.HandledIsRun | src/net/event_loop.cpp:113-137 | What a handler does to the index (keep, refresh or remove its connection) is a run of the machine's steps, marking included |
| PoolProtocol.HandledByEntry | src/net/event_loop.cpp:178-189 | An index whose other entries are untouched, and whose entry for the descriptor is untouched, refreshed or gone, is what a handler leaves |
| PoolProtocol.TakenIff | src/conn/connection_pool.cpp:48-74 | In every run a connection with a new descriptor is taken exactly when the index is running and holds fewer than max_connections, and no other entry changes |
| PoolProtocol.FillsToLimit | src/conn/connection_pool.cpp:56-67 | Of new descriptors offered one after the other exactly the first are taken, until the index holds max_connections |
| PoolProtocol.EmptyAfterShutdown | src/conn/connection_pool.cpp:28-54 | After Shutdown the index stays empty until the next Init |
| PoolProtocol.InitKeepsInvIff | src/conn/connection_pool.cpp:15-20 | Init keeps the limit exactly when it is not below what is mapped |
| PoolProtocol.LeftWereTimedOut | src/conn/connection_pool.cpp:169-183 | Whatever a sweep still has to remove was mapped to a timed-out connection at its snapshot |
| PoolProtocol.ReapHitsTimedOutIff | src/conn/connection_pool.cpp:169-183 | What a sweep removes is timed out exactly when it has the heartbeat the snapshot saw, or was accepted or heard from after the snapshot yet longer ago than the timeout; in a sweep no longer than the timeout only the first |
| PoolProtocol.ReapCanHitNewConnection | src/conn/connection_pool.cpp:180-183 | A run in which the sweep removes a connection accepted a moment ago |
| PoolProtocol.UninterruptedSweep | src/conn/connection_pool.cpp:169-183 | Without interruption a sweep leaves exactly the connections that have not timed out |
| PoolProtocol.RemovedAllKeys | src/conn/connection_pool.cpp:180-183 | Removing descriptors one by one leaves exactly the others, unchanged |
| PoolProtocol.StepKeepsInv | src/conn/connection_pool.cpp:48-96 | Every step of every actor keeps the index sound |
| ConnectionPools.ConnectionPool.Init | src/conn/connection_pool.cpp:15-26 | The protocol's Init; the invariant holds afterwards exactly when the new limit fits |
| ConnectionPools.ConnectionPool.Shutdown | src/conn/connection_pool.cpp:28-46 | The protocol's shutdown: every connection closed, exactly the mapped descriptors shut, the index empty; a second call does nothing |
| ConnectionPools.ConnectionPool.AddConnection | src/conn/connection_pool.cpp:48-74 | Taken exactly when running, the number of connections is below max_connections and the descriptor is free; nothing else changes |
| ConnectionPools.ConnectionPool.RemoveConnection | src/conn/connection_pool.cpp:76-96 | False exactly when not mapped, changing nothing; else the connection is closed and forgotten, nothing else changes, and the index is sound again even if that connection had been marked closed |
| ConnectionPools.ConnectionPool.RemoveEntry | src/conn/connection_pool.cpp:76-96 | RemoveConnection is the protocol's removal, also of a connection Recv or Send have marked closed |
| ConnectionPools.ConnectionPool.GetConnection | src/conn/connection_pool.cpp:98-107 | Null exactly when not mapped |
| ConnectionPools.ConnectionPool.CollectTimedOut | src/conn/connection_pool.cpp:169-178 | Exactly the descriptors of timed-out connections, in whatever order the map is visited |
| ConnectionPools.ConnectionPool.HeartbeatSweep | src/conn/connection_pool.cpp:169-183 | One undisturbed sweep leaves exactly the connections that have not timed out, no field and no socket of theirs touched |
| StopProtocol.WakeupNotLost | src/net/event_loop.cpp:26-55 | A started loop with its flag cleared has its wake-up ready, or the stopper is about to write it |
| StopProtocol.WokenFindsStop | src/net/event_loop.cpp:49-55 | The wake-up is written only after the flag is cleared: a loop it wakes ends, unless it was stopped early |
| StopProtocol.BlockedUntilWoken | src/net/event_loop.cpp:33-34 | A loop in epoll_wait stays there until its wake-up is written or another event comes |
| StopProtocol.EndsIffStarted | src/net/event_loop.cpp:30-33 | In every run, once Stop has cleared a loop's flag the loop ends, within three moves of its own, exactly when its thread had set the flag before; otherwise it sets it again, never ends, and Stop never returns |
| StopProtocol.MissedForever | src/net/event_loop.cpp:30-33 | Whatever follows, a loop stopped early never ends and Stop never returns |
| StopProtocol.StopBeforeLoop | src/net/event_loop.cpp:30-33 | A run in which Stop clears the flag first, the loop runs, and no continuation lets Stop return |
| StopProtocol.MissedIffEarly | src/net/io_thread_pool.cpp:46-49 | The recorded flag means that, in the run, the loop's thread had not set running_ when Stop cleared it |
| StopProtocol.JoinsReturnIff | src/net/io_thread_pool.cpp:46-58 | When Stop has reached its joins: no loop was stopped early, if and only if some continuation lets it return, if and only if every continuation is bounded and can only end in its return |
| StopProtocol.JoinsBounded | src/net/io_thread_pool.cpp:51-55 | With no loop stopped early, the joins take a bounded number of steps under any scheduler |
| StopProtocol.JoinableGoesOn | src/net/io_thread_pool.cpp:51-55 | Until Stop returns some thread can move, without any event but the wake-ups |
| StopProtocol.MovesUseRank | src/net/event_loop.cpp:33-44 | From the clearing of its flag a started loop makes at most three more moves |
| StopProtocol.AtMostOneMoreBatch | src/net/event_loop.cpp:33-44 | From the clearing of its flag a started loop begins at most one more batch, and none unless it was about to block |
| StopProtocol.MoveNearsEnd | src/net/event_loop.cpp:33-44 | Every move of a loop with its flag cleared brings it nearer its end |
| StopProtocol.ReturnMeansExited | src/net/io_thread_pool.cpp:46-58 | Stop returns only when every loop has ended |
| StopProtocol.StopAll | src/net/io_thread_pool.cpp:46-49 | Clearing the flags and writing the wake-ups reaches the joins, whatever the loops do in between |
| StopProtocol.StopAndJoin | src/net/io_thread_pool.cpp:46-58 | Called at any moment: it returns, with every loop ended, exactly when no loop was stopped early in the run it records; else it waits in a state from where no continuation lets it return |
| StopProtocol.Await | src/net/io_thread_pool.cpp:51-55 | Each join returns |
| StopProtocol.StepKeepsInv | src/net/event_loop.cpp:26-55 | Every step of loops and stopper keeps the relation of flag, wake-up and stopper |
| Dispatching.LoopShare | src/net/io_thread_pool.cpp:60-69 | After k dispatches over n loops, loop i has been given exactly (k + n - 1 - i) / n |
| Dispatching.Balanced | src/net/io_thread_pool.cpp:60-69 | No loop is ever more than one connection ahead of another |
| Dispatching.TurnOf | src/net/io_thread_pool.cpp:66-67 | The k-th dispatch, counted from 0, goes to loop k % n |
| Dispatching.RoundsOf | src/net/io_thread_pool.cpp:66-67 | The rotation's index and counts are those of k split into full rounds and a rest |
| IOThreadPools.IOThreadPool.constructor | src/net/io_thread_pool.cpp:7-21 | At least one loop, each with its own epoll instance |
| IOThreadPools.IOThreadPool.GetNextEventLoop | src/net/io_thread_pool.cpp:60-69 | The rotation's next loop; index and counts follow Dispatching |
| Servers.Server.HandleAccept | src/net/server.cpp:232-280 | Ends with the first failing accept, by an exception unless nobody waits; as many clients are taken as left the backlog and as the index has room for, every descriptor opened is mapped, and mapped connections stay as they are; each new one is connected, empty and armed for both directions and, in the order of acceptance, on the loop whose turn it is; a refused one takes no turn |
| Servers.Server.GrownOn | src/net/server.cpp:233-279 | Two stretches of accepting make one: the new connections in order, each on the loop of its turn |
| Servers.Server.AcceptBeside | src/net/server.cpp:233-279 | A turn leaves every mapped connection, its buffers and its socket as they were, and the new one shares no object with them |
| Servers.Server.AcceptLinked | src/net/server.cpp:233-279 | A turn adds the next client's connection, as the echo protocol starts it and on the loop of its turn, exactly when there is room |
| Servers.Server.Admit | src/net/server.cpp:253-278 | Taken exactly when the index is running and below its limit; else closed without advancing the rotation; if taken, mapped and registered for both directions with the rotation's next loop |
| Servers.Server.AcceptTurn | src/net/server.cpp:233-279 | One turn takes the next client exactly when the index has room, closes it otherwise, and changes no other connection |
| Servers.Server.Index | src/net/server.cpp:255-259 | A new connected connection, offered to the index |
| Servers.Server.Refuse | src/net/server.cpp:259-263 | The refused descriptor ends closed |
| Servers.Server.Assign | src/net/server.cpp:265-278 | The connection is registered with the rotation's next loop, armed for both directions |
| Systems.SoundMeans | src/net/event_loop.cpp:96-176 | For every mapped connection of a sound server: open, connected, nothing lost or reordered, and with no event left nothing received unread or sendable |
| Systems.AcceptRound | src/net/server.cpp:232-280 | A sound server stays sound: the clients that left the backlog join, unless the index is full or stopped, and the others stay as they are |
| Systems.BatchRound | src/net/event_loop.cpp:73-94 | A sound server stays sound: each connection whose event was served has taken its handler step, every other is as it was, and the batch is cut short only by a refused error event |
| Systems.BatchSteps | src/net/event_loop.cpp:73-94 | How far a batch got, connection by connection, from the state each had when the batch began |
| Systems.SweepRound | src/conn/connection_pool.cpp:169-183 | A sound server stays sound: exactly the connections not timed out remain, as they were |
| Systems.WireKeepsSound | src/net/event_loop.cpp:34 | Peer, network and epoll_wait keep a server sound |
| Systems.QuietlyIsEnvironment | src/conn/connection.cpp:88 | What the kernel contract lets happen between system calls is a step of peer and network |
| Systems.ServedFits | src/net/event_loop.cpp:78-92 | Serving the event epoll_wait returned keeps a connection in the echo protocol, and where it is registered |

## Left out

- Socket and epoll wrappers: foreign calls, replaced by the contracts of `Sockets.Kernel`.
- Server Init, Start, Stop, the signal handler and the eventfd: wiring; the eventfd path clears the running flag before it calls Stop.
- EventLoop Loop and Stop, IOThreadPool Stop: modelled on values as the machine `StopProtocol`, with `StopAndJoin` as the stopper; epoll_wait failing other than by interruption, and the second Stop from the destructors, are not modelled.
- Condition variable and thread joins of ThreadPool: steps of the machine `TaskPool`; the class has the locked sections. Futures, the callables themselves, tasks that throw or never end, and the never-set `stop_` becoming true are left out.
- EventLoops.EventLoop.HandleEvents: sub-reactors only; on the main reactor it serves error events alone, and the server's main loop never calls it.
- EventLoops.EventLoop.HandleError: when epoll_ctl fails the exception is the answer false; what the thread does with the exception is not modelled.
- Handlers interleaved inside one call with the heartbeat or another loop: a handler and a batch are each one step for the connection (on the index, marking and removing are two); a descriptor number reused between epoll_wait and its handler is not modelled.
- Servers.Server.HandleAccept: clients that keep arriving while it loops are not modelled (the loop then need not end).
- EventLoops.Drain: a peer that writes without end during one read loop is not modelled (the loop then need not end).
- ConnectionPools.ConnectionPool.HeartbeatSweep: undisturbed; the interleaved sweep is `PoolProtocol`. Starting, stopping and the timing of the heartbeat thread are left out.
- PoolProtocol.ReapHitsTimedOutIff: for sweeps during which no Init changes the timeout.
- Closing every descriptor exactly once: not a property of the code (see above; the refusal path closes twice).
- Servers.Server.Admit: the branch for a missing IO loop cannot be taken, since the IO pool always has a loop; peer address, non-blocking mode and TCP_NODELAY are left out.
- Loggers.Logger.WriteLog: levels, formatting and the FATAL flush are left out; a line is any non-empty byte string.
- Loggers.Logger.WriteToFile: rotation by date or size, the console copy and a file that cannot be opened are left out.
- Log thread timing: any step may come at any time. An append or a swap is one step; writers' buffer mutexes, and two writers swapping against each other while holding them, are not modelled.
- Connection memory pool, address and port fields; line and fixed-length framing and the echo service: no code uses the first, and the source of the others is not part of this model.
- CheckAndResizeWriteBuffer: never called.
- Copy bounds count buffer sizes at each growth; the capacity a vector reserves beyond its size is not modelled.
- Weak memory order, data races, errno changed by logging, overflow of size_t, block alignment.
