# Image-classification server core, modelled in Dafny

This project models the core of `img-cls-server`, an HTTP image-classification service. The modelled core is the dispatch and correlation pipeline that sits between the HTTP handlers and the inference engine:

- **`PopBlockQueue<T>`** (`BlockingQueue` module). An unbounded FIFO. It is used as the admission queue of `(token, image)` jobs and as the pool of idle inference requests. `push` appends at the tail. `pop` takes the head; the C++ waits while the queue is empty, and the model turns that wait into the precondition "non-empty". A ghost history of every pushed item, plus a count of pops, shows that items leave in push order.
- **`PushPopMap<K,V>`** (`TakeOnceMap` module). The take-once result map. `push` inserts or replaces. `pop(k, v)` reads and removes the entry in one step, reports whether it found one, and leaves `v` alone when it did not.
- **`topN`** (`TopIndices` module). For each batch of an integer output tensor, it picks the indices of the largest elements, largest first. As in the C++, an index vector is filled by iota and partially sorted in place with the comparator `batchData[l] > batchData[r]`; then the first indices of each batch are copied into the output in nested loops.
- **`readLabels`' filter** (`Labels` module). The label list is the label file's lines with the empty ones removed.
- **The constructor's output-shape check** (`Shape` module). The product of the output dims must equal the label count, and every dim must be 1 or that product.
- **The server** (`Server` module, class `InferenceServer`). It covers the constructor (its checks and the pre-fill of the request pool) and the dispatcher loop `queue_processing_loop`. The C++ loop pops a request, then pops a job, and may block on the job queue while it holds the request, so the model splits each dispatch into two steps, `Lease` and `Admit`. `Complete` is one run of the callback that a started request fires.
- **The slot-conservation invariant** (`InferenceServer.Valid`). Every request is in exactly one of four places: the pool, the dispatcher's hand, in flight, or lost to a callback that threw. `SlotConservation` derives the count: the four places hold `num_requests` requests in all.

A failed inference does not give its request back. In the callback, `std::rethrow_exception` runs (src/inference_server.cpp:182-184) before the result is written (:198) and before the request is pushed back to the pool (:200). Two other paths inside the callback throw before the same two writes. One is `topN`'s shape assertion (:48). The other is `indexes.at(j)` (:65), which throws when the count `topN` keeps exceeds one batch (see Findings). On all three paths the model moves the request to the ghost set `leaked`: no result appears for the token, and the pool does not get the request back.

## Model

| member | source | states |
|---|---|---|
| `BlockingQueue.PopBlockQueue.constructor` | include/pop_blocking_queue.h:15 | a new queue is empty and has no push or pop history |
| `BlockingQueue.PopBlockQueue.Size` | include/pop_blocking_queue.h:21-24 | the size is the queue's length, which equals the number of pushes minus the number of pops; the queue is not changed |
| `BlockingQueue.PopBlockQueue.Pop` | include/pop_blocking_queue.h:26-35 | only callable on a non-empty queue; returns the old front, leaves exactly the old tail, and the item returned is the oldest pushed item not yet popped (FIFO) |
| `BlockingQueue.PopBlockQueue.Push` | include/pop_blocking_queue.h:37-41 | the contents become the old contents followed by the item, with no capacity or failure condition |
| `BlockingQueue.PushAllThenPopAll` | include/pop_blocking_queue.h:26-41 | pushing x1..xk onto a new queue and then popping k times yields x1..xk in order and leaves the queue empty |
| `BlockingQueue.PushThenPopOnEmpty` | include/pop_blocking_queue.h:26-41 | a push onto an empty queue followed by a pop returns the pushed item and leaves size 0 |
| `TakeOnceMap.PushPopMap.constructor` | include/push_pop_map.h:13 | a new map has no entries |
| `TakeOnceMap.PushPopMap.Pop` | include/push_pop_map.h:17-27 | returns true exactly when the key was present; then the out-value is the stored value and the map is the old map minus that key; otherwise neither the map nor the out-value changes; pop never adds a key |
| `TakeOnceMap.PushPopMap.Push` | include/push_pop_map.h:29-33 | insert-or-assign: the key maps to the new value, the domain becomes the old domain plus the key, and every other key keeps its value |
| `TakeOnceMap.PushThenPopTwice` | include/push_pop_map.h:17-33 | after push(k, v), pop(k) returns true with v, and an immediately following pop(k) returns false and leaves its out-value alone |
| `TakeOnceMap.KeyIsolation` | include/push_pop_map.h:17-33 | pushing and popping key k does not disturb the entry of another key |
| `TopIndices.PerBatchIsTail` | src/inference_server.cpp:49-50 | a batch (`get_size() / batchSize`) holds the product of the dims after the first, batch count times batch size is the element count, and a batch is no larger than the tensor |
| `TopIndices.TopCount` | src/inference_server.cpp:52 | the number of indices kept per batch is at most n and at most the batch size, and it is one of the two (corrected form; see Findings) |
| `TopIndices.TopCountAsWritten` | src/inference_server.cpp:52 | the count as written, `min(n, input.get_size())`: at most n and at most the whole tensor's element count, and equal to one of the two |
| `TopIndices.TopCountAsWrittenWithinBatch` | src/inference_server.cpp:50-52 | whenever the count as written fits in one batch, it equals the corrected count |
| `TopIndices.TopCountAsWrittenOverrunsBatch` | src/inference_server.cpp:52-62 | for the output shape [3] with 3 labels, which the constructor accepts, the count as written (3) exceeds the batch size (1), while the corrected count is 1 |
| `TopIndices.FillIota` | src/inference_server.cpp:60 | the index vector becomes 0, 1, ..., m - 1 |
| `TopIndices.LargestFrom` | src/inference_server.cpp:61-63 | returns a place from j on whose index has the largest value among all places from j on |
| `TopIndices.PlaceLargest` | src/inference_server.cpp:61-63 | one selection step: the index vector is rearranged (same multiset), and the sorted prefix grows from j to j + 1 places |
| `TopIndices.PartialSort` | src/inference_server.cpp:61-63 | the index vector is rearranged (same multiset); its first k places are non-increasing in value, and no later place has a larger value than any of them |
| `TopIndices.SelectionFromSortedPermutation` | src/inference_server.cpp:60-63 | the first k places of a partially sorted rearrangement of 0..m-1 are distinct indices in range, non-increasing in value, and every unselected index has a value no larger than each selected one |
| `TopIndices.TopValuesDetermined` | src/inference_server.cpp:61-63 | any two such selections of the same length pick the same values in the same order, so only the order among ties is left open |
| `TopIndices.CopyBlock` | src/inference_server.cpp:64-66 | the first k indices are copied to output places i*k .. i*k+k-1, and no other place changes |
| `TopIndices.SelectBatch` | src/inference_server.cpp:56-66 | one outer iteration: output block i is a top selection of batch i, every output entry stays below the batch size, and the blocks before it are unchanged |
| `TopIndices.SelectAllBatches` | src/inference_server.cpp:55-67 | after the outer loop, every block i of the output is a top selection of batch i, and every entry is below the batch size |
| `TopIndices.TopN` | src/inference_server.cpp:44-68 | fails exactly when the rank is 0 or the first dim is 0; otherwise the output has TopCount times batchSize indices, block i is a top selection of batch i, and every index is below the batch size |
| `Labels.NonEmpty` | src/inference_server.cpp:105-109 | the kept lines are no more numerous than the input lines, and none of them is empty |
| `Labels.NonEmptyKeepsOrder` | src/inference_server.cpp:105-109 | the labels are exactly the lines at the non-empty positions, taken in increasing position order |
| `Labels.NonEmptyMembers` | src/inference_server.cpp:105-109 | a string is a label exactly when it is a non-empty line of the file |
| `Labels.NonEmptyConcat` | src/inference_server.cpp:105-109 | filtering two runs of lines one after the other gives the two filtered runs concatenated |
| `Labels.NonEmptyIdempotent` | src/inference_server.cpp:105-109 | filtering the labels again changes nothing |
| `Labels.ReadLabels` | src/inference_server.cpp:98-113 | the while loop that appends each non-empty line returns exactly the filtered line sequence |
| `Shape.ProductAppend` | src/inference_server.cpp:132 | folding the product from the left (`std::accumulate`) gives the element count |
| `Shape.ProductZero` | src/inference_server.cpp:132 | the element count is zero exactly when some dim is zero |
| `Shape.AtMostOneNonOneDim` | src/inference_server.cpp:134-136 | an accepted shape for a non-empty label list has at most one dim other than 1, as the constructor's error message says |
| `Shape.CheckOutputShape` | src/inference_server.cpp:131-136 | accepts exactly when the product of the dims equals the label count and every dim is 1 or that product; a count mismatch is reported first, then a bad dim |
| `Server.InferenceServer.Init` | src/inference_server.cpp:158-161 | the pool is pre-filled with the requests 0..num_requests-1 in order; nothing is held, in flight or lost, so the invariant holds |
| `Server.InferenceServer.Create` | src/inference_server.cpp:120-162 | succeeds exactly when the model has one input and one output and the output shape fits the non-empty label lines; each failure reports the first check that failed, in the order the constructor runs them |
| `Server.InferenceServer.Lease` | src/inference_server.cpp:169 | only callable when the pool is non-empty; takes the pool's head, which then is neither in flight nor lost, and keeps the invariant |
| `Server.InferenceServer.Admit` | src/inference_server.cpp:170-203 | only callable when a job is queued; takes the head job and puts the held request in flight with that job's token; a request is never in flight twice |
| `Server.InferenceServer.Lose` | src/inference_server.cpp:182-184 | a callback that throws takes its request out of flight and into the lost set, and leaves the pool and the result map alone; the invariant holds |
| `Server.InferenceServer.Answer` | src/inference_server.cpp:198-200 | a callback that does not throw stores its predictions under the request's token (insert-or-assign) and pushes the request to the pool's tail; the invariant holds |
| `Server.LabelsAt` | src/inference_server.cpp:190-196 | the predictions are the labels at the top indices, one for each, in the same order |
| `Server.InferenceServer.Complete` | src/inference_server.cpp:181-201 | it succeeds exactly when the inference finished, the tensor passes `topN`'s shape assertion, and the count as written fits in one batch; then it stores, under the token, the labels at the top-5 indices of each batch (as-written count times batch count of them, every index below the label count) and pushes the request to the pool's tail; on a rethrown failure, a rejected tensor or an `indexes.at` overrun it writes nothing and the request is lost; the invariant holds either way |
| `Server.Dispatch` | src/inference_server.cpp:169-203 | one whole dispatcher iteration: the pool's head goes in flight with the token of the job at the admission queue's head, both queues lose their head, and the other in-flight requests keep their tokens |
| `Server.Deliver` | src/inference_server.cpp:186-200 | for a tensor shape on which `topN` neither asserts nor overruns a batch, a successful callback removes the request from flight, adds its token to the result map's keys, and returns the request to the pool's tail |
| `Server.TwoRequestScenario` | src/inference_server.cpp:167-205 | with two requests and jobs J1, J2, J3, where J2 finishes before J1: polls for J1, J2, J1, J3 answer no, yes, yes, yes; J3 runs on the request J2 returned; two jobs are in flight at the peak |
| `Server.FailureScenario` | src/inference_server.cpp:181-184 | with one request, a job whose inference fails is never answered, and the pool stays empty afterwards |
| `Server.OverrunScenario` | src/inference_server.cpp:52-65 | with labels a, b, c and output shape [3], which the constructor accepts, a finished inference overruns `indexes` in `topN`: the job is never answered, and the pool stays empty afterwards |
| `Server.SlotConservation` | src/inference_server.cpp:158-200 | pooled, held, in-flight and lost requests number num_requests; while no callback has thrown, pooled, held and in-flight requests alone do; at most num_requests are in flight |

## Findings

| source | as written | input that shows it | evidently intended | confidence | as-written member | corrected member |
|---|---|---|---|---|---|---|
| src/inference_server.cpp:52 | `n` is cut down to the whole tensor's element count, `min(n, input.get_size())`, but is then used as the middle of `partial_sort` over one batch's index vector and as the bound of `indexes.at(j)` | output shape [3] with a 3-line label file (accepted by the constructor) and n = 5: a batch holds 1 element, yet 3 indices are requested, so `partial_sort`'s middle is past the end and `indexes.at(1)` throws | cut `n` down to the batch size, `input.get_size() / batchSize` | medium; not executed | `TopIndices.TopCountAsWritten`, `TopIndices.TopCountAsWrittenOverrunsBatch`, `Server.OverrunScenario` (the server loses the request and never answers the job) | `TopIndices.TopCount` (used by `TopIndices.TopN`) |

## Left out

- Mutexes, condition variables and threads (`std::thread` in `run`, the callback running on an engine thread) are not modelled. Each operation is one atomic step, and every blocking `pop` becomes a precondition.
- The strict interleaving is not modelled: `queue_processing_loop`'s endless `while (true)` is the sequence of `Lease` and `Admit` steps a caller performs, with `Complete` steps in between.
- OpenVINO is not modelled: `read_model`, the pre-/post-processing set-up, `compile_model`, `create_infer_request`, `set_input_tensor`, `start_async` and `get_output_tensor` are foreign library calls. The model's input and output counts and `optimal_number_of_infer_requests` are parameters of `Create`. The output tensor a finished request delivers is the `Finished` payload, and it has the model's output shape.
- `printInputAndOutputsInfo` is not modelled: it is console output only.
- Floating-point element types are not modelled, nor is the switch that dispatches on the element type (src/inference_server.cpp:70-96). `topN` works on `int` elements with the same comparator, and an unsupported type's assert is out of scope.
- File reading in `readLabels` (`ifstream`, `good()`, `getline`) is not modelled. `ReadLabels` receives the lines `getline` would deliver; a file that cannot be opened is the empty line sequence. `num_hint` only reserves capacity.
- Building the input tensor from the image's rows, columns and channels is not modelled: the image is an opaque byte sequence.
- What happens to an exception rethrown inside the callback (process termination or being swallowed by the engine) is not modelled. The model records only that the callback stops before its two writes.
- `set_processing_queue` and `set_ready_hashtable` are folded into the parameters of `Create`. The model does not cover replacing the queue or the map while requests are in flight.
- src/main.cpp is not part of this model: HTTP handling, multipart reading, image decoding, UUID tokens and the sleep-based polling loop. All it does with the core is push to the admission queue and pop from the result map.
- include/inference_server.h is not part of this model: it holds type aliases and a pimpl declaration only.
- Shape.CheckOutputShape: the product of the dims is taken over unbounded integers. The C++ accumulates into an `int`, because the initial value 1 is an `int`, so the two differ only for products of 2^31 or more.
- Server.InferenceServer.Complete: when the count as written exceeds a batch, `partial_sort` is called with its middle past the end of `indexes`, which is undefined behaviour. The model does not capture that call's effects and takes the `indexes.at` throw that follows it as the outcome.
- TopIndices.PartialSort: it is a selection sort, not the library's heap selection, so indices of equal value may come out in a different order. `TopValuesDetermined` shows that only the order among ties can differ.
