/**
 * `InferenceServer::InferenceServerImpl` of src/inference_server.cpp: the
 * constructor's checks and request-pool pre-fill, and the dispatcher
 * `queue_processing_loop` with the completion callback it registers, as a
 * sequential state machine.
 *
 * One iteration of the dispatcher loop is two steps, because the C++ pops
 * the request pool first and may then wait on the job queue while holding
 * the request: `Lease` (pop a request) and `Admit` (pop a job, register the
 * callback, start the job). `Complete` is one run of the callback.
 */
module Server {
  import opened Wrappers
  import opened Shape
  import opened BlockingQueue
  import opened TakeOnceMap
  import opened TopIndices
  import opened Labels

  /** An `ov::InferRequest` handle; the pool is filled with requests 0 .. N - 1. */
  type Request = nat
  /** The caller-generated token that correlates a job with its result. */
  type Token = string
  /** The decoded image a job carries; the dispatcher never looks inside it. */
  type Image = seq<bv8>
  /** The labels of the top classes, best first (`ics::Predictions`). */
  type Predictions = seq<string>

  /** An element of the processing queue: `std::pair<std::string, cv::Mat>`. */
  datatype Job = Job(token: Token, image: Image)

  /** How the inference of a started request ended, as its callback sees it. */
  datatype Completion =
    | Failed                       // the callback receives a non-null exception
    | Finished(output: seq<int>)   // the elements of the output tensor

  /** Why the constructor throws. */
  datatype InitError =
    | InputCountNotOne
    | OutputCountNotOne
    | BadOutputShape(reason: ShapeError)

  /** The callback asks `topN` for this many classes. */
  const TopK: nat := 5

  /** The request ids 0 .. n - 1. */
  function Slots(n: nat): set<Request>
  {
    Elems(Range(n))
  }

  /** The request the dispatcher holds between its two pops, as a set. */
  function HeldSet(held: Option<Request>): set<Request>
  {
    if held.Some? then {held.value} else {}
  }

  lemma SlotsCard(n: nat)
    ensures |Slots(n)| == n
  {
    DistinctCard(Range(n));
  }

  /**
   * Four disjoint places that between them hold the requests 0 .. n - 1
   * hold n requests in all.
   */
  lemma PartitionCount(pool: seq<Request>, held: set<Request>, running: set<Request>, lost: set<Request>, n: nat)
    requires Distinct(pool)
    requires Elems(pool) !! held && Elems(pool) !! running && Elems(pool) !! lost
    requires held !! running && held !! lost && running !! lost
    requires Elems(pool) + held + running + lost == Slots(n)
    ensures |pool| + |held| + |running| + |lost| == n
  {
    DistinctCard(pool);
    SlotsCard(n);
  }

  /** The callback's lookup loop: the label of each top index, in order. */
  method LabelsAt(labels: seq<string>, top: seq<nat>) returns (preds: Predictions)
    requires forall j :: 0 <= j < |top| ==> top[j] < |labels|
    ensures |preds| == |top|
    ensures forall j :: 0 <= j < |top| ==> preds[j] == labels[top[j]]
  {
    preds := [];
    for j := 0 to |top|
      invariant |preds| == j
      invariant forall j' :: 0 <= j' < j ==> preds[j'] == labels[top[j']]
    {
      preds := preds + [labels[top[j]]];
    }
  }

  class InferenceServer {
    /** `labels_ptr_`: the non-empty lines of the label file. */
    const labels: seq<string>
    /** The shape of the model's single output. */
    const outputShape: seq<nat>
    /** `available_requests_queue_`: the idle requests. */
    const pool: PopBlockQueue<Request>
    /** `processing_queue_`: the admission queue shared with the HTTP handlers. */
    const processing: PopBlockQueue<Job>
    /** `ready_hashtable_`: the result map shared with the HTTP handlers. */
    const ready: PushPopMap<Token, Predictions>
    /** The number of requests created at start-up (`num_requests`). */
    ghost const numRequests: nat

    /** The request the dispatcher has popped and not yet started. */
    var held: Option<Request>
    /** Started requests, each with the token its callback captured. */
    var inFlight: map<Request, Token>
    /** Requests whose callback ended by throwing: they never return to the pool. */
    ghost var leaked: set<Request>

    /**
     * Every request is in exactly one place: the pool (once), the
     * dispatcher's hand, in flight, or lost to a failed callback.
     */
    ghost predicate Valid()
      reads this, pool, processing
    {
      && pool.Valid()
      && processing.Valid()
      && Distinct(pool.queue)
      && Elems(pool.queue) !! HeldSet(held)
      && Elems(pool.queue) !! inFlight.Keys
      && Elems(pool.queue) !! leaked
      && HeldSet(held) !! inFlight.Keys
      && HeldSet(held) !! leaked
      && inFlight.Keys !! leaked
      && Elems(pool.queue) + HeldSet(held) + inFlight.Keys + leaked == Slots(numRequests)
      && Product(outputShape) == |labels|
    }

    /** The request pool and the dispatcher state right after start-up. */
    constructor Init(labels: seq<string>, outputShape: seq<nat>, numRequests: nat,
                     processing: PopBlockQueue<Job>, ready: PushPopMap<Token, Predictions>)
      requires processing.Valid()
      requires Product(outputShape) == |labels|
      ensures Valid()
      ensures fresh(pool)
      ensures this.labels == labels && this.outputShape == outputShape
      ensures this.processing == processing && this.ready == ready
      ensures this.numRequests == numRequests
      ensures pool.queue == Range(numRequests)
      ensures held == None && inFlight == map[] && leaked == {}
    {
      this.labels := labels;
      this.outputShape := outputShape;
      this.processing := processing;
      this.ready := ready;
      this.numRequests := numRequests;
      pool := new PopBlockQueue<Request>();
      held := None;
      inFlight := map[];
      leaked := {};
      new;
      for i := 0 to numRequests
        invariant pool.Valid() && pool.queue == Range(i)
        invariant held == None && inFlight == map[] && leaked == {}
      {
        pool.Push(i);
        assert Range(i) + [i] == Range(i + 1);
      }
    }

    /**
     * The constructor: reads the labels, demands one model input and one
     * output whose shape fits the label count, then fills the pool with
     * `numRequests` requests. The processing queue and the result map are
     * the ones the caller installs with `set_processing_queue` and
     * `set_ready_hashtable`.
     */
    static method Create(labelLines: seq<string>, inputCount: nat, outputCount: nat,
                         outputShape: seq<nat>, numRequests: nat,
                         processing: PopBlockQueue<Job>, ready: PushPopMap<Token, Predictions>)
      returns (r: Result<InferenceServer, InitError>)
      requires processing.Valid()
      ensures r.Success? <==>
        inputCount == 1 && outputCount == 1 && ShapeAccepted(outputShape, |NonEmpty(labelLines)|)
      ensures inputCount != 1 ==> r == Failure(InputCountNotOne)
      ensures inputCount == 1 && outputCount != 1 ==> r == Failure(OutputCountNotOne)
      ensures inputCount == 1 && outputCount == 1 && Product(outputShape) != |NonEmpty(labelLines)| ==>
        r == Failure(BadOutputShape(LabelCountMismatch))
      ensures inputCount == 1 && outputCount == 1 && Product(outputShape) == |NonEmpty(labelLines)| ==>
        (r.Failure? <==> r == Failure(BadOutputShape(SeveralNonOneDims)))
      ensures r.Success? ==>
        && fresh(r.value) && fresh(r.value.pool) && r.value.Valid()
        && r.value.labels == NonEmpty(labelLines) && r.value.outputShape == outputShape
        && r.value.processing == processing && r.value.ready == ready
        && r.value.numRequests == numRequests && r.value.pool.queue == Range(numRequests)
        && r.value.held == None && r.value.inFlight == map[] && r.value.leaked == {}
    {
      var labels := ReadLabels(labelLines);
      if inputCount != 1 {
        return Failure(InputCountNotOne);
      }
      if outputCount != 1 {
        return Failure(OutputCountNotOne);
      }
      var check := CheckOutputShape(outputShape, |labels|);
      if check.Fail? {
        return Failure(BadOutputShape(check.error));
      }
      var s := new InferenceServer.Init(labels, outputShape, numRequests, processing, ready);
      return Success(s);
    }

    /** The dispatcher's first pop: it takes the request at the head of the pool. */
    method Lease() returns (request: Request)
      requires Valid()
      requires held == None
      requires |pool.queue| > 0
      modifies this`held, pool
      ensures Valid()
      ensures request == old(pool.queue)[0]
      ensures pool.queue == old(pool.queue)[1..]
      ensures held == Some(request)
      ensures request !in inFlight && request !in leaked
    {
      request := pool.Pop();
      held := Some(request);
      assert Elems(old(pool.queue)) == {request} + Elems(pool.queue);
    }

    /**
     * The dispatcher's second pop: it takes the job at the head of the
     * processing queue and starts it on the held request, with a callback
     * that captured the job's token.
     */
    method Admit() returns (request: Request, job: Job)
      requires Valid()
      requires held.Some?
      requires |processing.queue| > 0
      modifies this`held, this`inFlight, processing
      ensures Valid()
      ensures request == old(held).value
      ensures job == old(processing.queue)[0]
      ensures processing.queue == old(processing.queue)[1..]
      ensures request !in old(inFlight)
      ensures inFlight == old(inFlight)[request := job.token]
      ensures held == None
    {
      request := held.value;
      job := processing.Pop();
      inFlight := inFlight[request := job.token];
      held := None;
    }

    /**
     * Whether the callback gets past its throwing points: the rethrow of
     * a failed inference, `topN`'s shape assert, and `indexes.at(j)` once
     * the count `topN` computes runs past the end of one batch.
     */
    ghost predicate Succeeds(c: Completion)
      reads this
    {
      && c.Finished? && |outputShape| > 0 && outputShape[0] != 0
      && TopCountAsWritten(TopK, outputShape) <= PerBatch(outputShape)
    }

    /**
     * One run of the callback of `request`. A failed inference is rethrown,
     * a tensor `topN` rejects throws, and so does `indexes.at(j)` when the
     * count `topN` keeps runs past one batch; each way the callback ends
     * before it writes a result or returns the request. Otherwise it looks
     * up the labels of the top-5 indices of each batch, stores them under
     * the token, and returns the request to the tail of the pool.
     */
    method Complete(request: Request, c: Completion) returns (ghost top: seq<nat>, ghost predictions: Predictions)
      requires Valid()
      requires request in inFlight
      requires c.Finished? ==> |c.output| == Product(outputShape)
      modifies this`inFlight, this`leaked, pool, ready
      ensures Valid()
      ensures inFlight == old(inFlight) - {request}
      ensures Succeeds(c) ==>
        && IsTopN(TopK, outputShape, c.output, top)
        && |top| == TopCountAsWritten(TopK, outputShape) * outputShape[0]
        && (forall j :: 0 <= j < |top| ==> top[j] < |labels|)
        && |predictions| == |top|
        && (forall j :: 0 <= j < |top| ==> predictions[j] == labels[top[j]])
        && ready.hashMap == old(ready.hashMap)[old(inFlight)[request] := predictions]
        && pool.queue == old(pool.queue) + [request]
        && leaked == old(leaked)
      ensures !Succeeds(c) ==>
        && ready.hashMap == old(ready.hashMap)
        && pool.queue == old(pool.queue)
        && leaked == old(leaked) + {request}
    {
      top, predictions := [], [];
      if c.Failed? {
        Lose(request);
        return;
      }
      var indices := TopN(TopK, c.output, outputShape);
      if indices.Failure? {
        Lose(request);
        return;
      }
      if TopCountAsWritten(TopK, outputShape) > PerBatch(outputShape) {
        // the copy loop asks `indexes.at(j)` for a place past the batch
        Lose(request);
        return;
      }
      TopCountAsWrittenWithinBatch(TopK, outputShape);
      PerBatchIsTail(outputShape);
      forall j | 0 <= j < |indices.value|
        ensures indices.value[j] < |labels|
      {
        assert indices.value[j] in indices.value;
      }
      var preds := LabelsAt(labels, indices.value);
      Answer(request, preds);
      top, predictions := indices.value, preds;
    }

    /** A callback that throws: `request` leaves flight and is lost. */
    method Lose(request: Request)
      requires Valid()
      requires request in inFlight
      modifies this`inFlight, this`leaked
      ensures Valid()
      ensures inFlight == old(inFlight) - {request}
      ensures leaked == old(leaked) + {request}
    {
      inFlight := inFlight - {request};
      assert inFlight.Keys == old(inFlight).Keys - {request};
      leaked := leaked + {request};
    }

    /**
     * The end of a callback that does not throw: the predictions are stored
     * under the token of `request`, and `request` goes back to the pool.
     */
    method Answer(request: Request, predictions: Predictions)
      requires Valid()
      requires request in inFlight
      modifies this`inFlight, pool, ready
      ensures Valid()
      ensures inFlight == old(inFlight) - {request}
      ensures ready.hashMap == old(ready.hashMap)[old(inFlight)[request] := predictions]
      ensures pool.queue == old(pool.queue) + [request]
    {
      var token := inFlight[request];
      inFlight := inFlight - {request};
      assert inFlight.Keys == old(inFlight).Keys - {request};
      ready.Push(token, predictions);
      pool.Push(request);
      assert Elems(pool.queue) == Elems(old(pool.queue)) + {request};
    }
  }

  /**
   * Requests are conserved: pool, dispatcher, in-flight requests and lost
   * requests together always number `num_requests`; while no callback has
   * thrown, the pool and the requests in use account for all of them.
   */
  lemma SlotConservation(s: InferenceServer)
    requires s.Valid()
    ensures |s.pool.queue| + |HeldSet(s.held)| + |s.inFlight| + |s.leaked| == s.numRequests
    ensures s.leaked == {} ==> |s.pool.queue| + |HeldSet(s.held)| + |s.inFlight| == s.numRequests
    ensures |s.inFlight| <= s.numRequests
  {
    PartitionCount(s.pool.queue, HeldSet(s.held), s.inFlight.Keys, s.leaked, s.numRequests);
  }

  /** One whole iteration of the dispatcher loop: `Lease` followed by `Admit`. */
  method Dispatch(s: InferenceServer) returns (request: Request, token: Token)
    requires s.Valid()
    requires s.held == None
    requires |s.pool.queue| > 0 && |s.processing.queue| > 0
    modifies s`held, s`inFlight, s.pool, s.processing
    ensures s.Valid()
    ensures request == old(s.pool.queue)[0] && token == old(s.processing.queue)[0].token
    ensures s.pool.queue == old(s.pool.queue)[1..]
    ensures s.processing.queue == old(s.processing.queue)[1..]
    ensures s.held == None
    ensures s.inFlight.Keys == old(s.inFlight.Keys) + {request}
    ensures request !in old(s.inFlight) && s.inFlight[request] == token
    ensures forall r :: r in old(s.inFlight) ==> s.inFlight[r] == old(s.inFlight)[r]
  {
    request := s.Lease();
    var job;
    request, job := s.Admit();
    token := job.token;
  }

  /**
   * A callback that gets a tensor of the right size on a server whose
   * output has a non-zero first dim: the token gets a result and the
   * request goes back to the pool.
   */
  method Deliver(s: InferenceServer, request: Request, output: seq<int>)
    requires s.Valid()
    requires request in s.inFlight
    requires |s.outputShape| > 0 && s.outputShape[0] != 0
    requires TopCountAsWritten(TopK, s.outputShape) <= PerBatch(s.outputShape)
    requires |output| == Product(s.outputShape)
    modifies s`inFlight, s`leaked, s.pool, s.ready
    ensures s.Valid()
    ensures s.inFlight.Keys == old(s.inFlight.Keys) - {request}
    ensures forall r :: r in s.inFlight ==> s.inFlight[r] == old(s.inFlight)[r]
    ensures s.ready.hashMap.Keys == old(s.ready.hashMap.Keys) + {old(s.inFlight)[request]}
    ensures s.pool.queue == old(s.pool.queue) + [request]
    ensures s.leaked == old(s.leaked)
  {
    var _, _ := s.Complete(request, Finished(output));
  }

  /**
   * A server with two requests and labels `cat`, `dog` (one output of
   * shape [1, 2]) right after start-up, with three jobs queued.
   */
  method SetUpTwo(image: Image) returns (s: InferenceServer)
    ensures fresh(s) && fresh(s.pool) && fresh(s.processing) && fresh(s.ready)
    ensures s.Valid()
    ensures s.outputShape == [1, 2]
    ensures s.held == None && s.inFlight == map[] && s.leaked == {}
    ensures s.pool.queue == [0, 1]
    ensures s.processing.queue == [Job("j1", image), Job("j2", image), Job("j3", image)]
    ensures s.ready.hashMap == map[]
  {
    var jobs := new PopBlockQueue<Job>();
    var results := new PushPopMap<Token, Predictions>();
    assert NonEmpty(["cat", "dog"]) == ["cat", "dog"];
    assert Product([1, 2]) == 2;
    var r := InferenceServer.Create(["cat", "dog"], 1, 1, [1, 2], 2, jobs, results);
    s := r.value;
    assert Range(2) == [0, 1];
    jobs.Push(Job("j1", image));
    jobs.Push(Job("j2", image));
    jobs.Push(Job("j3", image));
  }

  /**
   * The first two dispatcher iterations of that server: both requests go
   * in flight and the pool is empty, so the third job waits.
   */
  method StartTwo(image: Image) returns (s: InferenceServer, peak: nat)
    ensures fresh(s) && fresh(s.pool) && fresh(s.processing) && fresh(s.ready)
    ensures s.Valid()
    ensures s.outputShape == [1, 2]
    ensures s.held == None && s.leaked == {}
    ensures s.inFlight.Keys == {0, 1} && s.inFlight[0] == "j1" && s.inFlight[1] == "j2"
    ensures s.pool.queue == []
    ensures s.processing.queue == [Job("j3", image)]
    ensures s.ready.hashMap == map[]
    ensures peak == |s.inFlight| == 2
  {
    s := SetUpTwo(image);
    var first, firstToken := Dispatch(s);
    var second, secondToken := Dispatch(s);
    assert first == 0 && firstToken == "j1";
    assert second == 1 && secondToken == "j2";
    assert s.inFlight.Keys == {0, 1};
    peak := |s.inFlight|;
  }

  /** A client polls `first` and then `second` once each, when only `second` has a result. */
  method PollBoth(results: PushPopMap<Token, Predictions>, first: Token, second: Token)
    returns (found1: bool, found2: bool)
    requires first != second && results.hashMap.Keys == {second}
    modifies results
    ensures !found1 && found2
    ensures results.hashMap == map[]
  {
    var v1, v2;
    found1, v1 := results.Pop(first, []);
    found2, v2 := results.Pop(second, []);
  }

  /**
   * The second job finishes first: its token is answered and the first
   * one's is not, and the third job starts on the request it returned.
   */
  method FinishSecond(s: InferenceServer, image: Image) returns (polls: seq<bool>, thirdOn: Request)
    requires s.Valid()
    requires s.outputShape == [1, 2]
    requires s.held == None
    requires s.inFlight.Keys == {0, 1} && s.inFlight[0] == "j1" && s.inFlight[1] == "j2"
    requires s.pool.queue == []
    requires s.processing.queue == [Job("j3", image)]
    requires s.ready.hashMap == map[]
    modifies s, s.pool, s.processing, s.ready
    ensures s.Valid()
    ensures s.held == None
    ensures s.inFlight.Keys == {0, 1} && s.inFlight[0] == "j1" && s.inFlight[1] == "j3"
    ensures s.ready.hashMap == map[]
    ensures polls == [false, true] && thirdOn == 1
  {
    var results := s.ready;
    assert Product([1, 2]) == 2 && PerBatch([1, 2]) == 2;
    Deliver(s, 1, [3, 7]);
    assert s.inFlight.Keys == {0} && s.pool.queue == [1];
    var found1, found2 := PollBoth(results, "j1", "j2");
    var thirdToken;
    thirdOn, thirdToken := Dispatch(s);
    assert thirdOn == 1 && thirdToken == "j3";
    polls := [found1, found2];
  }

  /** Then the first job finishes and is answered, and then the third. */
  method FinishRest(s: InferenceServer) returns (polls: seq<bool>)
    requires s.Valid()
    requires s.outputShape == [1, 2]
    requires s.inFlight.Keys == {0, 1} && s.inFlight[0] == "j1" && s.inFlight[1] == "j3"
    requires s.ready.hashMap == map[]
    modifies s, s.pool, s.ready
    ensures polls == [true, true]
  {
    var results := s.ready;
    assert Product([1, 2]) == 2 && PerBatch([1, 2]) == 2;
    Deliver(s, 0, [7, 3]);
    assert results.hashMap.Keys == {"j1"};
    var found3, _ := results.Pop("j1", []);
    assert s.inFlight.Keys == {1} && s.inFlight[1] == "j3";
    Deliver(s, 1, [0, 0]);
    assert "j3" in results.hashMap;
    var found4, _ := results.Pop("j3", []);
    polls := [found3, found4];
  }

  /**
   * Two requests, three jobs. The first two jobs start at once and the
   * third waits for a free request; the second job finishes first, so its
   * token can be polled before the first job's, and the third job starts
   * on the request the second one gave back. Results become available in
   * the order J2, J1, J3, and at most two jobs are ever in flight.
   */
  method TwoRequestScenario(image: Image)
    returns (polls: seq<bool>, thirdOn: Request, peak: nat)
    ensures polls == [false, true, true, true]
    ensures thirdOn == 1
    ensures peak == 2
  {
    var s;
    s, peak := StartTwo(image);
    var early, late;
    early, thirdOn := FinishSecond(s, image);
    late := FinishRest(s);
    polls := early + late;
  }

  /**
   * A server whose output shape [3] fits its three labels, so the
   * constructor accepts it. The callback's count, 3, overruns the
   * one-element batch, the copy loop throws, and the job is never
   * answered: the only request does not come back to the pool.
   */
  method OverrunScenario(image: Image) returns (found: bool, idle: nat)
    ensures !found
    ensures idle == 0
  {
    assert NonEmpty(["a", "b", "c"]) == ["a", "b", "c"];
    TopCountAsWrittenOverrunsBatch();
    var s, request := StartOne(["a", "b", "c"], [3], image);
    var _, _ := s.Complete(request, Finished([1, 2, 3]));
    var got;
    found, got := s.ready.Pop("j", []);
    idle := |s.pool.queue|;
  }

  /**
   * A job whose inference fails: its token is never answered, and because
   * the callback rethrows before it returns the request, the only request
   * does not come back to the pool.
   */
  method FailureScenario(image: Image) returns (found: bool, idle: nat)
    ensures !found
    ensures idle == 0
  {
    assert NonEmpty(["cat"]) == ["cat"];
    assert Product([1]) == 1;
    var s, request := StartOne(["cat"], [1], image);
    var _, _ := s.Complete(request, Failed);
    var got;
    found, got := s.ready.Pop("j", []);
    idle := |s.pool.queue|;
  }

  /**
   * A server with one request, started on the given labels and output
   * shape, after its dispatcher has put the one job `j` in flight.
   */
  method StartOne(labelLines: seq<string>, shape: seq<nat>, image: Image)
    returns (s: InferenceServer, request: Request)
    requires ShapeAccepted(shape, |NonEmpty(labelLines)|)
    ensures fresh(s) && fresh(s.pool) && fresh(s.ready)
    ensures s.Valid()
    ensures s.outputShape == shape
    ensures s.held == None && s.leaked == {}
    ensures s.inFlight == map[request := "j"]
    ensures s.pool.queue == []
    ensures s.ready.hashMap == map[]
  {
    var jobs := new PopBlockQueue<Job>();
    var results := new PushPopMap<Token, Predictions>();
    var r := InferenceServer.Create(labelLines, 1, 1, shape, 1, jobs, results);
    s := r.value;
    assert Range(1) == [0];
    jobs.Push(Job("j", image));
    request := s.Lease();
    var _, _ := s.Admit();
  }
}
