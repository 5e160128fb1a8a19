# Verification model of tiny_inference_engine

A Dafny 4.11 model of the two parts of the repository whose correctness is not visible from one
function: the asynchronous life cycle of the server's RPC objects, and the conversion of client
tensors to and from the wire. `dafny verify dfyconfig.toml` checks the whole project.

## The RPC life cycle

N inference threads and one common thread consume one completion queue each and share a pool of rpc
objects. Every rpc is a three-state machine; in PROCESS it creates and arms its own replacement,
answers, and then waits for the event that removes it.

- `RpcModel` is a transition system over all interleavings. Each access to shared state is a step of
  its own: the id fetch, the map insert, the start of an operation, the write of the state field,
  the erase. Actions of the environment (calls arriving, events being returned, the server refusing
  calls, `stop` releasing the pool, shutting down and draining queues, the main loop starting a new
  server) are interleaved freely. The use of a dead rpc object is an explicit `Fault` state.
- `RpcInvariant` proves the inductive invariant; `RpcSafety`, `RpcLife`, `RpcConservation`,
  `RpcDrain`, `RpcAnswer` and `RpcOnce` derive the results about states and about whole runs.
- `RpcRelease` decides when the release of the pool in `stop` is safe.
- `CallDataExample`, `ExampleRenaming`, `RpcRefinement` and `RpcEquivalence` relate the server to the
  stand-alone example server: seen on one queue and for one kind that `start` sets up there, both
  allow the same observations.
- `RpcRuntime` and `ExampleRuntime` hold the sequential code as classes, specified by
  `RpcSequential` and by the machine of the example; `RpcSchedule` proves that this sequential code
  is one schedule of the transition system.

Modelling decisions:

- A completion-queue tag is the address of an rpc object. It is modelled by the id of the object,
  which is alive while the pool has an entry for it (`create_rpc` also returns an owner, which lives
  until the CREATE branch of `execute` has returned).
- The completion-queue contract is taken from gRPC: each started operation yields exactly one event,
  on the queue it was started on, in any order; a listener fails only once the server refuses calls;
  a finish event may be returned with or without `ok`; `Next` returns false only for a queue that is
  shut down and empty.
- The pool's locks are commented out in the code
  (`tiny_inference_server/tie_server/src/rpc/rpc_pool.hpp:35`). Map insert and erase are taken as
  atomic steps, as if the locks were there; the id fetch and the insert stay separate steps.
- Ids are unbounded naturals, so wrap-around after 2^64 creations is excluded.
- `stop` releases the pool before it shuts the queues down. Results that need live tags hold from
  the start of a server up to that release. A finding, stated exactly: after a release some schedule
  makes a handler use a dead rpc if and only if the pool held an rpc of this server
  (`RpcRelease.ReleaseExact`). So `stop` allows it as soon as one thread has finished its start-up,
  whatever the threads are doing (`StopUnsafe`, with the run `ReleaseFault`). Results about ids and
  `RpcOnce.NeverAnsweredTwice` hold over releases and restarts.
- The code never refuses calls before the release: `stop` releases the pool first, and nothing else
  shuts the server down (`tiny_inference_server/tie_server/src/grpc_server.cpp:114-116`). The results
  about a refusing server that still has its pool (`RpcDrain`, `RpcAnswer.AllAnsweredAtRest`,
  `RpcRelease.DrainedReleaseSafe`) describe the corrected order, first refuse and drain, then
  release, and show that it is safe.
- After a restart the pool may still hold entries of an earlier server. `base` is the first id of the
  current server; it leaves the entries below it alone until it is released itself
  (`RpcRelease.LeftoversKept`).
- The example's allocator may reuse the address of a deleted object; rpc ids are never reused. What
  the example lets see is therefore compared with objects called by their number
  (`ExampleRenaming`). On the common queue the first number belongs to the position of the kind in
  the start-up code, and the later ones follow the ids of all eight kinds (`RpcEquivalence.IdsFor`).
- The example serves one kind on one queue. Seen for one kind of the common queue, the example waits
  in `Next` while the thread works for the other seven.

## The tensor converter

`LittleEndian` (memory images), `Shapes` (the two element counts and the 32-bit loop index),
`Tensors` (datatypes, their names, client tensors, wire messages), `TensorCodec` (what the converter
computes, and the round trip), `WireFormat` (the format with every name, field, width and value written
out), `WireCodec` (the codec keeps to that format) and `TensorConverter` (the loops and the buffer,
proved against `TensorCodec` and `WireFormat`).

Modelling decisions:

- Memory is little-endian two's complement, and conversion to `int` reduces modulo 2^32.
- Floating-point elements are opaque 4- and 8-byte values.
- The reader works on the array of elements, as the `const` branches of `getTensorContents` give it.
  As called, the `const_cast` at `tiny_inference_client/tie_client/src/tensor_converter.cpp:55`
  selects the other branch, which yields the container object; the model follows the intended branch
  (`TensorCodec.CopiedElements`). As called, a result is determined only when nothing is copied
  (`TensorCodec.CopyDetermined`).
  `TensorCodec.EndToEnd`, `TensorConverter.RoundTrip` and the members they rest on speak of the
  intended branch.
- `output->data` is taken from a local vector; the model speaks of the bytes at that moment, not of
  the lifetime of the pointer. For a count of zero the vector is empty and its `data()` may be null;
  the model gives a buffer of no bytes, `Data([])`, in this case and does not tell the two apart.
- A `bool` buffer byte other than 0 and 1 is read as true.
- Two findings are stated exactly rather than assumed away: the two sides agree on the element count
  for some shapes only (`Shapes.CountsAgree`; 2^31 elements are a failing input, `Shapes.LargeShape`,
  and 2^64 - 2^31 elements one where the counts agree and the writer still never ends,
  `Shapes.AgreedButEndless`), and a tensor arrives intact if and only if the product
  of its shape, reduced modulo 2^64, is below 2^31, its buffer has the matching length, and `bool`
  bytes are 0 or 1 (`TensorCodec.EndToEnd`; `TensorCodec.BoolNotDelivered` is a failing input that no
  operation rejects).

## Model

| member | source | states |
|---|---|---|
| RpcInvariant.StartInv | tiny_inference_server/tie_server/src/grpc_server.cpp:58-94 | a server as `start` sets it up satisfies the invariant, whatever earlier servers left in the pool |
| RpcInvariant.InvStep | tiny_inference_server/tie_server/src/rpc/rpc_unary_async.cpp:29-47 | every action of every thread and of the environment keeps the invariant |
| RpcInvariant.ReachableInv | tiny_inference_server/tie_server/src/main.cpp:25-31 | every state the process can reach, over any number of servers, satisfies the invariant |
| RpcInvariant.Frame | tiny_inference_server/tie_server/src/grpc_server.cpp:69-94 | what holds for a thread and its queue survives any step that leaves that queue and its rpcs alone |
| RpcInvariant.TickOthers | tiny_inference_server/tie_server/src/grpc_server.cpp:69-94 | a statement of one thread changes nothing that another thread's queue and rpcs depend on |
| RpcSafety.ExactlyOneListener | tiny_inference_server/tie_server/src/grpc_server.cpp:69-94 | before shutdown every kind set up on a queue has exactly one armed listener, none exactly while its owner has yet to arm it, and no other kind ever has one |
| RpcSafety.AtMostOneListener | tiny_inference_server/tie_server/src/rpc/rpc_unary_async.cpp:37-43 | no interleaving, also while refusing calls, arms two listeners of a kind on a queue |
| RpcSafety.KindsSeparated | tiny_inference_server/tie_server/src/rpc/rpc_model_infer.cpp:23-26 | inference rpcs are exactly those on inference queues |
| RpcSafety.TagsAlwaysLive | tiny_inference_server/tie_server/src/grpc_server.cpp:153-166 | up to the release every tag in a queue or in a handler names a pool entry, and no thread ever uses a dead rpc |
| RpcSafety.StateMatchesEvent | tiny_inference_server/tie_server/src/rpc/rpc_unary_async.cpp:33-42 | a handler that calls `execute` finds PROCESS for a listener event and FINISH for a finish event, although the state is written after the operation is started |
| RpcSafety.ReleaseDangles | tiny_inference_server/tie_server/src/grpc_server.cpp:114-116 | an event that could be returned at the moment of the release, returned after it instead, makes its handler use a dead rpc |
| RpcRelease.ReleaseExact | tiny_inference_server/tie_server/src/grpc_server.cpp:108-136 | for a release at any moment of a running server, some thread can go on to use a dead rpc if and only if the pool held an rpc of this server |
| RpcRelease.ReleaseListening | tiny_inference_server/tie_server/src/grpc_server.cpp:114-116 | a release while a listener is armed can always end in the use of a dead rpc |
| RpcRelease.StopUnsafe | tiny_inference_server/tie_server/src/grpc_server.cpp:108-116 | `stop` on a server of which at least one thread has finished its start-up can always end in the use of a dead rpc, also while threads are inside `execute` |
| RpcRelease.DrainedReleaseSafe | tiny_inference_server/tie_server/src/grpc_server.cpp:114-136 | a release after the server has refused calls and run dry never leads to the use of a dead rpc in the rest of the life of that server; this is the corrected order |
| RpcRelease.StopFaults | tiny_inference_server/tie_server/src/grpc_server.cpp:114-166 | on an idle server with an armed listener, the release, the shutdown and the failing listener lead its handler to a dead rpc |
| RpcRelease.ReleaseFault | tiny_inference_server/tie_server/src/grpc_server.cpp:114-166 | a run of the process that starts one inference thread, stops, and ends in the use of a dead rpc |
| RpcRelease.DeadRpcFaults | tiny_inference_server/tie_server/src/grpc_server.cpp:155-165 | every statement of a handler about a dead rpc is a fault and has no other effect |
| RpcRelease.StopCanComplete | tiny_inference_server/tie_server/src/grpc_server.cpp:108-146 | on an idle server `stop` can also shut down and drain all queues and end all threads, after which the next server starts with an empty pool and ids that go on |
| RpcRelease.LeftoversKept | tiny_inference_server/tie_server/src/rpc/rpc_pool.hpp:25-38 | until its own release a server changes no entry that an earlier server left in the pool |
| RpcSafety.ConcurrencyBound | tiny_inference_server/tie_server/src/grpc_server.cpp:69-94 | at most N inference requests and at most one common request are processed at once |
| RpcSafety.LoadExcludesUnload | tiny_inference_server/tie_server/src/rpc/rpc_model_load.cpp:27-32 | the bodies of model load and model unload never overlap |
| RpcSafety.ReplacementArmed | tiny_inference_server/tie_server/src/rpc/rpc_unary_async.cpp:39-40 | while a request is processed, exactly one other rpc of its kind listens on its queue, also while refusing calls |
| RpcLife.IdsNeverReused | tiny_inference_server/tie_server/src/rpc/rpc_pool.hpp:32-36 | over all runs, releases and restarts, no id is issued twice and none is inserted twice |
| RpcLife.InsertNeverOverwrites | tiny_inference_server/tie_server/src/rpc/rpc_pool.hpp:36 | an insert never overwrites an entry and no two threads hold the same fetched id |
| RpcLife.LifeIsPrefix | tiny_inference_server/tie_server/src/rpc/rpc_unary_async.cpp:25-51 | the history of every rpc is a prefix of one of two lives; in particular an accepted request is processed before it is answered, and removed only after the event of its answer |
| RpcLife.AnsweredExactlyOnce | tiny_inference_server/tie_server/src/rpc/rpc_unary_async.cpp:37-47 | an accepted request is answered exactly once, on its own id, unless a thread is on its way to do so; nothing else is answered |
| RpcLife.AnswerProgress | tiny_inference_server/tie_server/src/rpc/rpc_unary_async.cpp:37-43 | a thread that took a request is never blocked before the answer, is moved by nobody else, and comes closer to the answer with each statement |
| RpcOnce.NeverAnsweredTwice | tiny_inference_server/tie_server/src/rpc/rpc_unary_async.cpp:37-47 | over all runs, releases and restarts, no rpc is answered twice |
| RpcOnce.AlwaysStep | tiny_inference_server/tie_server/src/grpc_server.cpp:108-166 | every action, also after a release, keeps tags on their queue, and keeps one token and the promised state for each rpc that is still alive |
| RpcAnswer.AnswerRun | tiny_inference_server/tie_server/src/rpc/rpc_unary_async.cpp:37-43 | over any run without a release, the request is answered or the thread is still on its way, closer by one for each of its statements |
| RpcAnswer.AnsweredWithinSeven | tiny_inference_server/tie_server/src/rpc/rpc_unary_async.cpp:37-43 | once a thread has taken a request, every run in which it executes seven statements contains the answer |
| RpcAnswer.DrainedLives | tiny_inference_server/tie_server/src/rpc/rpc_unary_async.cpp:25-51 | in a drained state every rpc of the server has lived the served or the turned-away life entirely |
| RpcAnswer.AllAnsweredAtRest | tiny_inference_server/tie_server/src/grpc_server.cpp:148-169 | wherever a server that refuses calls comes to rest, each request it accepted since its start was answered exactly once and every other rpc of that server never; this is the corrected order |
| RpcConservation.Accounts | tiny_inference_server/tie_server/src/rpc/rpc_pool.hpp:32-37 | ids issued and pool size equal N + 8 plus requests accepted, less events consumed, up to what each thread has under way |
| RpcConservation.Conservation | tiny_inference_server/tie_server/src/rpc/rpc_pool.cpp:19-23 | with all threads in `Next`, pool size is N + 8 + accepted - finished - refused, and ids issued are N + 8 + accepted |
| RpcDrain.DrainStep | tiny_inference_server/tie_server/src/grpc_server.cpp:148-169 | once calls are refused, every action but a release decreases the weight of what is outstanding |
| RpcDrain.DrainBound | tiny_inference_server/tie_server/src/grpc_server.cpp:148-169 | no schedule is longer than the weight it starts with |
| RpcDrain.StuckIsDrained | tiny_inference_server/tie_server/src/grpc_server.cpp:153-166 | where no thread can move, all queues are empty and the pool holds nothing of this server |
| RpcDrain.DrainTerminates | tiny_inference_server/tie_server/src/grpc_server.cpp:148-169 | a refusing server drains under every schedule, and ends with empty queues and an empty pool |
| RpcRefinement.RefinesExample | grpc_example/src/server.cpp:56-115 | every run of any server the process starts, watched on any queue for any kind that `start` sets up there, `ServerLive` among them, with all events of that kind `ok`, is a run of the example with the same requests, answers and deletions and matching objects and states |
| RpcRefinement.RestartStarts | tiny_inference_server/tie_server/src/main.cpp:25-31 | every later server of the process begins in a state to which the refinement applies, with the pool and the id counter the process has |
| ExampleRenaming.RenamingKeepsMeaning | grpc_example/src/server.cpp:56-80 | a run of the example whose allocator reuses addresses lets the same be seen as the run with numbered objects |
| RpcEquivalence.ExampleIsMatched | grpc_example/src/server.cpp:56-115 | conversely, for every queue and kind that `start` sets up, every observation of the example, with reused addresses too, is one of the pooled server, each object called by its number |
| ExampleRenaming.NumbersGrow | grpc_example/src/server.cpp:69 | the numbers are a renaming: no two allocations get the same one |
| RpcSchedule.BootRuns | tiny_inference_server/tie_server/src/grpc_server.cpp:74-91 | the start-up code of a thread, uninterrupted, is a run of the transition system with the effect of `BootAll` |
| RpcSchedule.HandlerRuns | tiny_inference_server/tie_server/src/grpc_server.cpp:153-166 | an uninterrupted iteration of the handler loop is a run of the transition system with the effect of `Handle` |
| RpcSchedule.LoopRuns | tiny_inference_server/tie_server/src/grpc_server.cpp:148-169 | the whole loop, over any calls and events that fit and undisturbed, is a run of the transition system with the effect of `HandleAll` |
| RpcRuntime.RpcPool.CreateRpc | tiny_inference_server/tie_server/src/rpc/rpc_pool.hpp:25-38 | a fresh rpc in state CREATE is inserted under an id that was not in the pool, and nothing else changes |
| RpcRuntime.RpcPool.RemoveRpc | tiny_inference_server/tie_server/src/rpc/rpc_pool.cpp:19-23 | exactly the given id is erased, and erasing an absent id changes nothing |
| RpcRuntime.RpcPool.Release | tiny_inference_server/tie_server/src/rpc/rpc_pool.cpp:25-28 | the pool is empty and the id counter is kept |
| RpcRuntime.Rpc.SetupRequest | tiny_inference_server/tie_server/src/rpc/rpc_model_infer.cpp:18-21 | one listener with this rpc's tag is started on its own queue |
| RpcRuntime.Rpc.WriteResponse | tiny_inference_server/tie_server/src/rpc/rpc_model_load.cpp:34-37 | one finish operation with this rpc's tag is started on its own queue |
| RpcRuntime.Rpc.CreateReplacement | tiny_inference_server/tie_server/src/rpc/rpc_model_unload.cpp:22-25 | a new rpc of the same kind listens on the same queue; no other entry changes |
| RpcRuntime.Rpc.Execute | tiny_inference_server/tie_server/src/rpc/rpc_unary_async.cpp:25-51 | false is returned exactly in FINISH; CREATE starts a listener and leads to PROCESS, PROCESS arms a new rpc, finishes and leads to FINISH; pool, id counter and queue change as in `ExecuteOn` and not otherwise |
| RpcRuntime.HandleEvent | tiny_inference_server/tie_server/src/grpc_server.cpp:155-165 | one iteration has the effect of `Handle`: a failed event removes the rpc, otherwise it is executed and removed if it is finished |
| RpcRuntime.RpcHandler | tiny_inference_server/tie_server/src/grpc_server.cpp:148-169 | the loop has the effect of `HandleAll` over any sequence of arrivals and events |
| RpcRuntime.BootInference | tiny_inference_server/tie_server/src/grpc_server.cpp:72-76 | the start-up code of an inference thread has the effect of `BootAll` and leaves one listening ModelInfer rpc |
| RpcRuntime.BootCommon | tiny_inference_server/tie_server/src/grpc_server.cpp:82-93 | the start-up code of the common thread has the effect of `BootAll` and leaves eight listening rpcs, one of each common kind, with ids in source order |
| RpcRuntime.GrpcServer.Start | tiny_inference_server/tie_server/src/grpc_server.cpp:36-106 | a running server is left alone; a new one reaches the start state of the transition system, and reports whether the build succeeded |
| ExampleRuntime.ServerImpl.Proceed | grpc_example/src/server.cpp:56-80 | the three cases have the effect of `Proceeded` on heap and queue |
| ExampleRuntime.ProceedPlays | grpc_example/src/server.cpp:56-80 | that effect is the one of the statements of `Proceed`, one move each |
| ExampleRuntime.ServerImpl.HandleRPCs | grpc_example/src/server.cpp:98-115 | the event loop makes only moves of the example machine and aborts exactly on a failed event |
| LittleEndian.LoadThenStore | tiny_inference_client/tie_client/src/tensor_converter.hpp:176-181 | the low bytes of a sign- or zero-extended value are the bytes it was loaded from |
| LittleEndian.ImageOfUnsigned | tiny_inference_client/tie_client/src/tensor_converter.hpp:176-181 | every value congruent to the unsigned reading of some bytes has these bytes as its image |
| Shapes.AccumulateInt | tiny_inference_client/tie_client/src/tensor_converter.cpp:26 | the `int` accumulation over a request shape |
| Shapes.AccumulateSize | tiny_inference_client/tie_client/src/tensor_converter.cpp:54 | the `size_t` accumulation over a response shape |
| Shapes.IntProductCongruent | tiny_inference_client/tie_client/src/tensor_converter.cpp:26 | the accumulated `int` equals the true product modulo 2^32 for every shape, whatever overflows on the way |
| Shapes.IntProductExact | tiny_inference_client/tie_client/src/tensor_converter.cpp:26 | it is the 32-bit reading of the true product, and the product itself when that is below 2^31 |
| Shapes.CountsAgree | tiny_inference_client/tie_client/src/tensor_converter.cpp:26-54 | exactly which shapes give both sides the same element count |
| Shapes.CountsAgreeBelow63 | tiny_inference_client/tie_client/src/tensor_converter.cpp:26-54 | below 2^63 the two counts agree exactly for products below 2^31 |
| Shapes.TransferDefined | tiny_inference_client/tie_client/src/tensor_converter.cpp:26-55 | writer and reader both stay within their buffers exactly when the reduced product is below 2^31 |
| Shapes.ZeroDimension | tiny_inference_client/tie_client/src/tensor_converter.cpp:26 | a zero dimension gives count zero on both sides, even after an overflow |
| Shapes.LoopEnds | tiny_inference_client/tie_client/src/tensor_converter.hpp:150-153 | a loop with a 32-bit index ends exactly for sizes below 2^32, after visiting the indices in order |
| Shapes.WriterEnds | tiny_inference_client/tie_client/src/tensor_converter.hpp:150-153 | the writer loop ends exactly when the accumulated `int` is not negative |
| Shapes.LargeShape | tiny_inference_client/tie_client/src/tensor_converter.cpp:26-54 | 2^31 elements: the two counts differ, and the writer loop never ends |
| Shapes.AgreedButEndless | tiny_inference_client/tie_client/src/tensor_converter.cpp:26-54 | 2^64 - 2^31 elements: the two counts agree, and the writer loop never ends |
| Tensors.NameRoundTrip | tiny_inference_client/tie_client/src/data_type.cpp:6-54 | the two name tables are inverse to each other; `WireFormat.Names` fixes the names themselves |
| Tensors.LoadFits | tiny_inference_client/tie_client/src/tensor_converter.hpp:152 | a loaded element fits the field that its datatype selects; `WireCodec.EncodedAsFormat` fixes its value |
| TensorCodec.AddAllAppends | tiny_inference_client/tie_client/src/tensor_converter.hpp:150-153 | writing appends the elements in order to the selected field and touches no other |
| TensorCodec.BlockCopyIsLoop | tiny_inference_client/tie_client/src/tensor_converter.hpp:176-187 | for equal widths the block copy yields the same bytes as the element loop |
| TensorCodec.NarrowNeedsLoop | tiny_inference_client/tie_client/src/tensor_converter.hpp:176-182 | for each narrow integer type the elements 0 and 1 make the block copy differ from the element loop |
| TensorCodec.NarrowBlockExact | tiny_inference_client/tie_client/src/tensor_converter.hpp:176-188 | for widened narrow integers the two agree exactly when every element after the first is the sign extension of the first |
| TensorCodec.BufferRoundTrip | tiny_inference_client/tie_client/src/tensor_converter.hpp:150-187 | for any length, widening each element and reading back its low bytes restores the buffer |
| TensorCodec.TensorRoundTrip | tiny_inference_client/tie_client/src/tensor_converter.cpp:17-55 | when a sent tensor can be received, and with which bytes |
| TensorCodec.SkippedRoundTrip | tiny_inference_client/tie_client/src/tensor_converter.hpp:209-213 | datatypes skipped by the dispatch keep name, datatype and shape and lose their data |
| TensorCodec.IntactRoundTrip | tiny_inference_client/tie_client/src/tensor_converter.cpp:17-56 | a single tensor comes back unchanged exactly if it is intact |
| TensorCodec.EndToEnd | tiny_inference_client/tie_client/src/tensor_converter.cpp:7-60 | request, echo and response give back the same list of tensors exactly if every tensor is intact, for the intended `const` reader |
| WireCodec.EncodedAsFormat | tiny_inference_client/tie_client/src/tensor_converter.cpp:17-27 | the message of a tensor carries its name, the literal name of its datatype, its dimensions in order and, in the one field of that datatype, each element with its two's complement value; all other fields are empty |
| WireCodec.DecodedAsFormat | tiny_inference_client/tie_client/src/tensor_converter.cpp:39-56 | a received tensor has the datatype of the literal name, the dimensions in order, and the 1, 2, 4 or 8 low bytes of each element of the field of that datatype |
| WireFormat.ReceivedOnce | tiny_inference_client/tie_client/src/tensor_converter.hpp:161-190 | the format determines the received tensor |
| WireCodec.SendableExactly | tiny_inference_client/tie_client/src/tensor_converter.hpp:132-155 | a tensor can be sent exactly if its count is below 2^32 and its buffer holds count times 1, 2, 4 or 8 bytes |
| WireCodec.ReceivableExactly | tiny_inference_client/tie_client/src/tensor_converter.hpp:161-190 | a message can be received exactly if the field of its datatype holds enough elements, their bytes can be counted, and the 32-bit loop of the narrow types ends |
| TensorCodec.CopiedElements | tiny_inference_client/tie_client/src/tensor_converter.hpp:176-187 | from a pointer to the elements, the `const` branch, the copies of the reader are the low bytes of the elements |
| TensorCodec.CopyDetermined | tiny_inference_client/tie_client/src/tensor_converter.hpp:176-187 | from the pointer that the call selects, the result is the same for every object behind it exactly if the size is zero |
| TensorCodec.NothingCopied | tiny_inference_client/tie_client/src/tensor_converter.cpp:54-55 | a tensor whose reduced product is zero is received the same by either branch |
| TensorCodec.BoolNotDelivered | tiny_inference_client/tie_client/src/tensor_converter.hpp:150-187 | a `bool` stored as 2 is sent and received without an error and comes back as 1 |
| TensorConverter.WriteElements | tiny_inference_client/tie_client/src/tensor_converter.hpp:132-155 | the writer leaves the message as `Written` says, and an empty message with each element of the buffer in the field of the datatype, by value (`WireFormat.Carries`) |
| TensorConverter.CallWriter | tiny_inference_client/tie_client/src/tensor_converter.hpp:194-213 | the dispatch writes elements by value, the string up to its first zero byte, or nothing (`WireFormat.Carries`) |
| TensorConverter.FillTensor | tiny_inference_client/tie_client/src/tensor_converter.cpp:17-27 | one tensor message is filled with the name, the literal datatype name, the dimensions in order and the contents that `WireFormat.SentAs` writes out |
| TensorConverter.GetInferRequest | tiny_inference_client/tie_client/src/tensor_converter.cpp:7-31 | the request has the model name, version and id of the client request and one message per tensor, in order, as `WireFormat.SentAs` writes out |
| TensorConverter.ReadNarrow | tiny_inference_client/tie_client/src/tensor_converter.hpp:176-182 | the element loop fills the buffer in place with the one or two low bytes of each element (`WireFormat.LowBytes`) |
| TensorConverter.ReadBlock | tiny_inference_client/tie_client/src/tensor_converter.hpp:187-188 | the block copy fills the buffer with the same bytes as the element loop would (`WireFormat.LowBytes`) |
| TensorConverter.ReadElements | tiny_inference_client/tie_client/src/tensor_converter.hpp:161-190 | the intended `const` reader yields the 1, 2, 4 or 8 low bytes of every element, by loop or by block (`WireFormat.LowBytes`) |
| TensorConverter.GetInferResponse | tiny_inference_client/tie_client/src/tensor_converter.cpp:33-60 | the client response has the model name, version and id of the message and one tensor per message, in order, as `WireFormat.ReceivedAs` writes out, with the intended `const` reader |
| TensorConverter.RoundTrip | tiny_inference_client/tie_client/src/grpc_client.cpp:256-261 | for intact tensors both conversions together return the same tensors, for the intended `const` reader |

## Left out

- gRPC transport, protobuf serialisation, sockets and credentials: library code; only the completion-queue contract and the repeated fields of the tensor messages are modelled.
- What handlers that are still running when `stop` releases the pool compute in the runs that do not use a dead rpc, and starting the same `grpc_server` object again.
- A failed `BuildAndStart`: `start` spawns its threads all the same; the model reports the failure but says nothing about those threads.
- Bodies of `process_request`, the engine and the backends: constant results without shared state.
- Blocking in `Next`: a thread that waits on an empty queue has no action; fairness of the scheduler is not assumed.
- RpcRuntime.RpcHandler: takes the arrivals and events as a sequence that fits the states it meets, in place of a queue that other threads fill; `RpcSchedule.LoopRuns` makes it one schedule, the others are the subject of the transition system.
- RpcSafety.ReleaseDangles: covers the events that could be returned at the moment of the release; `RpcRelease.ReleaseExact` covers every release.
- TensorConverter.GetInferResponse: does not cover String tensors, whose reader copies the bytes of container objects; the writer covers them. For the other tensors it follows the intended `const` reader.
- TensorCodec.EndToEnd: holds for the intended `const` reader; as called, `getTensorContents` yields the container object, whose bytes depend on the protobuf library, and only tensors of size zero are determined (`TensorCodec.CopyDetermined`, `TensorCodec.NothingCopied`).
- TensorConverter.RoundTrip: holds for the intended `const` reader, for the same reason.
- TensorConverter.WriteElements: requires a buffer with the promised number of elements and a size below 2^32; beyond these the code reads outside the buffer or does not end (`Shapes.LoopEnds`).
- TensorConverter.ReadElements: follows the intended `const` reader; requires as many elements as it copies and a byte count below 2^64, and for the narrow integers a size below 2^32, for the same reason.
- Parameters and requested outputs of a request: the converter does not transfer them.
- Allocation failure for large buffers.
- The client's unused asynchronous call classes, the HTTP server stub, command line, logging, signals, build scripts and the ONNX backend: plumbing or not part of the build.
