/** The persistent worker's sequence state machine: loaded shards, their open
    sequences, and the guarded execution of prefill and decode requests. */
module Worker {
  import opened WideArithmetic
  import opened MapSums

  const INT_MAX: int := 0x7FFF_FFFF_FFFF_FFFF

  // ---------------------------------------------------------------------------
  // Tensors and the model-family adapter

  datatype ElementType = ElementType(name: string, byteWidth: nat)

  datatype Tensor = Tensor(shape: seq<int>, dtype: ElementType, elements: seq<int>) {
    function ByteCount(): nat { |elements| * dtype.byteWidth }
  }

  const EMPTY_TENSOR := Tensor([0], ElementType("uint8", 1), [])
  const SAMPLED_TOKEN_BYTES := 4

  /** The number of elements a shape calls for, unless it is malformed. */
  function ElementCount(shape: seq<int>): Option<int> {
    if shape == [] then Some(1) else
    var rest := ElementCount(shape[..|shape| - 1]);
    var dimension := shape[|shape| - 1];
    if rest.None? || dimension < 0 || rest.value * dimension > INT_MAX then None else Some(rest.value * dimension)
  }

  predicate TensorValid(tensor: Tensor) {
    var count := ElementCount(tensor.shape);
    && count.Some? && count.value * tensor.dtype.byteWidth <= INT_MAX
    && |tensor.elements| == count.value
  }

  datatype Metadata = Metadata(
    tokenDType: ElementType, tokenRank: int, vocabularySize: int,
    hiddenDTypes: set<ElementType>, hiddenRank: int, hiddenSize: int, maximumSequenceLength: int)

  datatype Cache = Cache(position: int, memoryBytes: nat, content: seq<int>)

  datatype Operation = Forward | Prefill | Decode

  /** The last row of logits, as far as greedy sampling looks at it. */
  datatype Logits = NotANumber | Argmax(token: int)

  /** A stage call either returns or throws, and in both cases leaves some cache. */
  datatype StageOutcome = Computed(cache: Cache, output: Tensor, logits: Logits) | Threw(cache: Cache, reason: string)

  datatype Adapter = Adapter(
    metadata: Metadata, emptyCache: Cache,
    run: (Operation, Cache, Tensor) -> StageOutcome,
    estimateCache: (Cache, int) -> Option<int>,
    estimateOutput: int -> Option<int>)

  // ---------------------------------------------------------------------------
  // State

  datatype ForwardRequest = ForwardRequest(
    shardID: string, sequenceID: string, position: uint64, inputKind: string, input: Tensor, returnSampledToken: bool)

  datatype ForwardResult = ForwardResult(
    operation: Operation, position: uint64, nextPosition: int, output: Tensor, sampledToken: Option<int>, kvCacheBytes: nat)

  datatype MutationOutcome = Succeeded(result: ForwardResult) | FailedWith(reason: string)

  /** The latest completed mutation of a sequence, kept for replay. */
  datatype Completed = Completed(
    operation: Operation, position: uint64, inputKind: string, input: Tensor, returnSampledToken: bool,
    outcome: MutationOutcome)
  {
    predicate Matches(op: Operation, request: ForwardRequest) {
      && operation == op && position == request.position && inputKind == request.inputKind
      && input == request.input && returnSampledToken == request.returnSampledToken
    }
  }

  datatype Sequence = Sequence(
    cache: Cache, ownerID: Option<string>, nextPosition: int, prefilled: bool, completed: Option<Completed>)

  datatype Shard = Shard(
    modelID: string, ownsInput: bool, ownsOutput: bool, adapter: Adapter,
    sequences: map<string, Sequence>, forwardCount: nat)

  datatype Service = Service(shards: map<string, Shard>, forwardCount: nat)

  datatype Config = Config(maxOpenSequencesPerShard: int, workerBudgetBytes: int)

  datatype WorkerError =
    | InvalidRequest(reason: string) | ShardAlreadyLoaded | ShardNotFound | ShardHasOpenSequences
    | SequenceAlreadyOpen | OpenSequenceLimit | SequenceNotFound | SequenceOwnerMismatch
    | SequenceAlreadyPrefilled | SequenceNotPrefilled | InvalidPosition | CachePositionMismatch
    | SequenceLengthLimit | RetainedByteBudget | EstimateFailed | StageFailed(why: string)
    | InferenceDeadline | UnsupportedInputKind | InputKindMismatch

  type Reply = Result<ForwardResult, WorkerError>

  // ---------------------------------------------------------------------------
  // Retained bytes

  function Saturated(n: int): int { if n > INT_MAX then INT_MAX else n }

  function SaturatedAdd(left: int, right: int): int { Saturated(left + right) }

  function ReplayBytes(sequence: Sequence): nat {
    match sequence.completed
    case Some(Completed(_, _, _, _, _, Succeeded(result))) =>
      if result.sampledToken.None? then result.output.ByteCount() else SAMPLED_TOKEN_BYTES
    case _ => 0
  }

  /** Exact bytes a sequence keeps: its cache and its replay record. */
  function SequenceBytes(sequence: Sequence): nat {
    sequence.cache.memoryBytes + ReplayBytes(sequence)
  }

  ghost function BytesBySequence(sequences: map<string, Sequence>): map<string, nat> {
    map id | id in sequences :: SequenceBytes(sequences[id])
  }

  ghost function ShardBytes(shard: Shard): nat { SumOf(BytesBySequence(shard.sequences)) }

  ghost function BytesByShard(shards: map<string, Shard>): map<string, nat> {
    map id | id in shards :: ShardBytes(shards[id])
  }

  ghost function WorkerBytes(shards: map<string, Shard>): nat { SumOf(BytesByShard(shards)) }

  // ---------------------------------------------------------------------------
  // Open and close

  predicate MayOpen(config: Config, shard: Shard) {
    |shard.sequences| < config.maxOpenSequencesPerShard
  }

  function OpenSequence(config: Config, s: Service, shardID: string, sequenceID: string, ownerID: Option<string>)
    : (Service, Option<WorkerError>)
  {
    if sequenceID == "" then (s, Some(InvalidRequest("sequenceID is empty")))
    else if shardID !in s.shards then (s, Some(ShardNotFound))
    else
      var shard := s.shards[shardID];
      if sequenceID in shard.sequences then
        if ownerID.Some? && shard.sequences[sequenceID].ownerID == ownerID then (s, None)
        else (s, Some(SequenceAlreadyOpen))
      else if !MayOpen(config, shard) then (s, Some(OpenSequenceLimit))
      else (s.(shards := s.shards[shardID := shard.(sequences :=
              shard.sequences[sequenceID := Sequence(shard.adapter.emptyCache, ownerID, 0, false, None)])]), None)
  }

  function CloseSequence(s: Service, shardID: string, sequenceID: string, ownerID: Option<string>)
    : (Service, Option<WorkerError>)
  {
    if shardID !in s.shards then (s, Some(ShardNotFound))
    else
      var shard := s.shards[shardID];
      if sequenceID !in shard.sequences then (s, Some(SequenceNotFound))
      else if ownerID.Some? && shard.sequences[sequenceID].ownerID != ownerID then (s, Some(SequenceOwnerMismatch))
      else (s.(shards := s.shards[shardID := shard.(sequences := shard.sequences - {sequenceID})]), None)
  }

  function LoadShard(s: Service, shardID: string, shard: Shard): (Service, Option<WorkerError>) {
    if shardID == "" then (s, Some(InvalidRequest("shardID is empty")))
    else if shardID in s.shards then (s, Some(ShardAlreadyLoaded))
    else (s.(shards := s.shards[shardID := shard.(sequences := map[], forwardCount := 0)]), None)
  }

  function UnloadShard(s: Service, shardID: string): (Service, Option<WorkerError>) {
    if shardID !in s.shards then (s, Some(ShardNotFound))
    else if s.shards[shardID].sequences != map[] then (s, Some(ShardHasOpenSequences))
    else (s.(shards := s.shards - {shardID}), None)
  }

  // ---------------------------------------------------------------------------
  // Inference

  predicate ShapeValid(shape: seq<int>, rank: int) {
    |shape| == rank && (forall i :: 0 <= i < |shape| ==> shape[i] > 0) && |shape| > 0 && shape[0] == 1
  }

  predicate TokensValid(input: Tensor, metadata: Metadata) {
    && TensorValid(input) && input.dtype == metadata.tokenDType && ShapeValid(input.shape, metadata.tokenRank)
    && forall i :: 0 <= i < |input.elements| ==> 0 <= input.elements[i] < metadata.vocabularySize
  }

  predicate HiddenValid(input: Tensor, metadata: Metadata) {
    && TensorValid(input) && input.dtype in metadata.hiddenDTypes && ShapeValid(input.shape, metadata.hiddenRank)
    && input.shape[|input.shape| - 1] == metadata.hiddenSize
  }

  function InputError(shard: Shard, request: ForwardRequest): Option<WorkerError> {
    if request.inputKind == "tokens" then
      if !shard.ownsInput then Some(InputKindMismatch)
      else if !TokensValid(request.input, shard.adapter.metadata) then Some(InvalidRequest("token tensor"))
      else None
    else if request.inputKind == "hidden" then
      if shard.ownsInput then Some(InputKindMismatch)
      else if !HiddenValid(request.input, shard.adapter.metadata) then Some(InvalidRequest("hidden tensor"))
      else None
    else Some(UnsupportedInputKind)
  }

  /** The number of positions an input covers; both input kinds have this dimension. */
  function InputLength(input: Tensor): int {
    if |input.shape| > 1 then input.shape[1] else 0
  }

  function PositionError(request: ForwardRequest, sequence: Sequence, expected: int): Option<WorkerError> {
    if request.position != expected then Some(InvalidPosition)
    else if sequence.cache.position != expected then Some(CachePositionMismatch)
    else None
  }

  /** Room for the sequence after the mutation, given what the whole worker retains now. */
  function BudgetError(config: Config, retained: int, adapter: Adapter, sequence: Sequence, inputLength: int)
    : Option<WorkerError>
  {
    var next := sequence.nextPosition + inputLength;
    if next > INT_MAX then Some(InvalidRequest("sequence position overflow"))
    else if next > adapter.metadata.maximumSequenceLength then Some(SequenceLengthLimit)
    else
      var cacheBytes := adapter.estimateCache(sequence.cache, next);
      var outputBytes := adapter.estimateOutput(inputLength);
      if cacheBytes.None? || outputBytes.None? then Some(EstimateFailed)
      else
        var estimated := cacheBytes.value + outputBytes.value;
        var others := retained - Saturated(SequenceBytes(sequence));
        var others' := if others < 0 then 0 else others;
        if estimated > INT_MAX || others' + estimated > INT_MAX || others' + estimated > config.workerBudgetBytes
        then Some(RetainedByteBudget)
        else None
  }

  /** The guards of a mutation, in the worker's order. */
  function MutationError(config: Config, retained: int, shard: Shard, sequence: Sequence, op: Operation,
                         request: ForwardRequest): Option<WorkerError>
  {
    var length := InputLength(request.input);
    if op == Prefill && sequence.prefilled then Some(SequenceAlreadyPrefilled)
    else if op == Decode && !sequence.prefilled then Some(SequenceNotPrefilled)
    else if op == Decode && length != 1 then Some(InvalidRequest("decode input must contain exactly one position"))
    else
      var position := PositionError(request, sequence, if op == Prefill then 0 else sequence.nextPosition);
      if position.Some? then position
      else BudgetError(config, retained, shard.adapter, sequence, length)
  }

  /** What sampling makes of a computed output. */
  function Sampled(outcome: StageOutcome, request: ForwardRequest): Result<(Tensor, Option<int>), string>
    requires outcome.Computed?
  {
    if !request.returnSampledToken then Ok((outcome.output, None))
    else
      match outcome.logits
      case NotANumber => Err("cannot sample logits containing NaN")
      case Argmax(token) =>
        if token < 0 then Err("sampled token ID must be non-negative") else Ok((EMPTY_TENSOR, Some(token)))
  }

  function Record(op: Operation, request: ForwardRequest, outcome: MutationOutcome): Completed {
    Completed(op, request.position, request.inputKind, request.input, request.returnSampledToken, outcome)
  }

  /** The sequence and the reply after the guards passed and the stage ran. */
  function AfterStage(sequence: Sequence, op: Operation, request: ForwardRequest, outcome: StageOutcome): (Sequence, Reply)
    requires op != Forward
  {
    var next := sequence.nextPosition + InputLength(request.input);
    var touched := sequence.(cache := outcome.cache);
    if outcome.Threw? then (touched, Err(StageFailed(outcome.reason)))
    else if outcome.cache.position != next then (touched, Err(CachePositionMismatch))
    else
      var advanced := touched.(nextPosition := next, prefilled := true);
      match Sampled(outcome, request)
      case Err(reason) => (advanced.(completed := Some(Record(op, request, FailedWith(reason)))), Err(InvalidRequest(reason)))
      case Ok((output, token)) =>
        var result := ForwardResult(op, request.position, next, output, token, outcome.cache.memoryBytes);
        (advanced.(completed := Some(Record(op, request, Succeeded(result)))), Ok(result))
  }

  /** The stateless operation runs the stage without touching the sequence. */
  function StatelessReply(sequence: Sequence, request: ForwardRequest, outcome: StageOutcome): Reply {
    if outcome.Threw? then Err(StageFailed(outcome.reason)) else
    match Sampled(outcome, request)
    case Err(reason) => Err(InvalidRequest(reason))
    case Ok((output, token)) =>
      Ok(ForwardResult(Forward, request.position, sequence.nextPosition, output, token, sequence.cache.memoryBytes))
  }

  /** What an earlier completed mutation already decides about a new request. */
  function Replayed(sequence: Sequence, op: Operation, request: ForwardRequest): Option<Reply> {
    if op == Forward || sequence.completed.None? then None
    else
      var completed := sequence.completed.value;
      if completed.Matches(op, request) then
        match completed.outcome
        case Succeeded(result) => Some(Ok(result))
        case FailedWith(reason) => Some(Err(InvalidRequest(reason)))
      else if completed.outcome.FailedWith? then Some(Err(InvalidRequest("close it before retrying")))
      else None
  }

  function WithSequence(s: Service, request: ForwardRequest, sequence: Sequence, counted: bool): Service
    requires request.shardID in s.shards
  {
    var shard := s.shards[request.shardID];
    var counts := if counted then 1 else 0;
    Service(s.shards[request.shardID := shard.(sequences := shard.sequences[request.sequenceID := sequence],
                                               forwardCount := shard.forwardCount + counts)],
            s.forwardCount + counts)
  }

  /** A decision before the stage runs: a reply, or the go-ahead. */
  function Refusal(config: Config, retained: int, s: Service, op: Operation, request: ForwardRequest): Option<Reply> {
    if request.shardID !in s.shards then Some(Err(ShardNotFound)) else
    var shard := s.shards[request.shardID];
    if request.sequenceID !in shard.sequences then Some(Err(SequenceNotFound)) else
    var sequence := shard.sequences[request.sequenceID];
    if request.returnSampledToken && !shard.ownsOutput
    then Some(Err(InvalidRequest("returnSampledToken requires an output-owning shard"))) else
    var replayed := Replayed(sequence, op, request);
    if replayed.Some? then replayed else
    var input := InputError(shard, request);
    if input.Some? then Some(Err(input.value))
    else if op == Forward then None
    else
      var mutation := MutationError(config, retained, shard, sequence, op, request);
      if mutation.Some? then Some(Err(mutation.value)) else None
  }

  lemma GoAheadFinds(config: Config, retained: int, s: Service, op: Operation, request: ForwardRequest)
    requires Refusal(config, retained, s, op, request).None?
    ensures request.shardID in s.shards && request.sequenceID in s.shards[request.shardID].sequences
  {
  }

  function Execute(s: Service, op: Operation, request: ForwardRequest): (Service, Reply)
    requires request.shardID in s.shards && request.sequenceID in s.shards[request.shardID].sequences
  {
    var shard := s.shards[request.shardID];
    var sequence := shard.sequences[request.sequenceID];
    var outcome := shard.adapter.run(op, sequence.cache, request.input);
    if op == Forward then
      var reply := StatelessReply(sequence, request, outcome);
      (WithSequence(s, request, sequence, reply.Ok?), reply)
    else
      var (after, reply) := AfterStage(sequence, op, request, outcome);
      (WithSequence(s, request, after, reply.Ok?), reply)
  }

  ghost function Infer(config: Config, s: Service, op: Operation, request: ForwardRequest): (Service, Reply) {
    var refusal := Refusal(config, Saturated(WorkerBytes(s.shards)), s, op, request);
    if refusal.Some? then (s, refusal.value)
    else
      GoAheadFinds(config, Saturated(WorkerBytes(s.shards)), s, op, request);
      Execute(s, op, request)
  }
}
