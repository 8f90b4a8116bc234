/** The worker's service object: one in-memory table of loaded shards that every
    request updates in place. */
module WorkerService {
  import opened WideArithmetic
  import opened MapSums
  import opened Worker

  lemma SaturatedAccumulates(total: int, part: int, m: map<string, nat>, done: set<string>, key: string)
    requires key in m && key !in done && done <= m.Keys
    requires total == Saturated(SumOf(m - (m.Keys - done))) && part == Saturated(m[key])
    ensures SaturatedAdd(total, part) == Saturated(SumOf(m - (m.Keys - (done + {key}))))
  {
    var next := m - (m.Keys - (done + {key}));
    SumRemove(next, key);
    assert next - {key} == m - (m.Keys - done);
  }

  /** Adds the retained bytes of every sequence of a shard, saturating. */
  method RetainedShardBytes(shard: Shard) returns (total: int)
    ensures total == Saturated(ShardBytes(shard))
  {
    ghost var bytes := BytesBySequence(shard.sequences);
    total := 0;
    var todo := shard.sequences.Keys;
    ghost var done: set<string> := {};
    assert bytes - (bytes.Keys - {}) == map[];
    while todo != {}
      invariant todo + done == shard.sequences.Keys && todo !! done
      invariant total == Saturated(SumOf(bytes - (bytes.Keys - done)))
      decreases todo
    {
      var id :| id in todo;
      var sequence := shard.sequences[id];
      SaturatedAccumulates(total, Saturated(SequenceBytes(sequence)), bytes, done, id);
      total := SaturatedAdd(total, SaturatedAdd(sequence.cache.memoryBytes, ReplayBytes(sequence)));
      todo, done := todo - {id}, done + {id};
    }
    assert bytes - (bytes.Keys - done) == bytes;
  }

  /** Adds the retained bytes of every shard, saturating. */
  method RetainedWorkerBytes(shards: map<string, Shard>) returns (total: int)
    ensures total == Saturated(WorkerBytes(shards))
  {
    ghost var bytes := BytesByShard(shards);
    total := 0;
    var todo := shards.Keys;
    ghost var done: set<string> := {};
    assert bytes - (bytes.Keys - {}) == map[];
    while todo != {}
      invariant todo + done == shards.Keys && todo !! done
      invariant total == Saturated(SumOf(bytes - (bytes.Keys - done)))
      decreases todo
    {
      var id :| id in todo;
      var part := RetainedShardBytes(shards[id]);
      SaturatedAccumulates(total, part, bytes, done, id);
      total := SaturatedAdd(total, part);
      todo, done := todo - {id}, done + {id};
    }
    assert bytes - (bytes.Keys - done) == bytes;
  }

  class PersistentShardService {
    const config: Config
    var shards: map<string, Shard>
    var forwardCount: nat

    ghost function Value(): Service
      reads this
    {
      Service(shards, forwardCount)
    }

    constructor (config: Config)
      ensures this.config == config && Value() == Service(map[], 0)
    {
      this.config, shards, forwardCount := config, map[], 0;
    }

    method OpenSequence(shardID: string, sequenceID: string, ownerID: Option<string>) returns (error: Option<WorkerError>)
      modifies this
      ensures (Value(), error) == Worker.OpenSequence(config, old(Value()), shardID, sequenceID, ownerID)
    {
      if sequenceID == "" { return Some(InvalidRequest("sequenceID is empty")); }
      if shardID !in shards { return Some(ShardNotFound); }
      var shard := shards[shardID];
      if sequenceID in shard.sequences {
        if ownerID.Some? && shard.sequences[sequenceID].ownerID == ownerID { return None; }
        return Some(SequenceAlreadyOpen);
      }
      if !MayOpen(config, shard) { return Some(OpenSequenceLimit); }
      var sequence := Sequence(shard.adapter.emptyCache, ownerID, 0, false, None);
      shards := shards[shardID := shard.(sequences := shard.sequences[sequenceID := sequence])];
      return None;
    }

    method CloseSequence(shardID: string, sequenceID: string, ownerID: Option<string>) returns (error: Option<WorkerError>)
      modifies this
      ensures (Value(), error) == Worker.CloseSequence(old(Value()), shardID, sequenceID, ownerID)
    {
      if shardID !in shards { return Some(ShardNotFound); }
      var shard := shards[shardID];
      if sequenceID !in shard.sequences { return Some(SequenceNotFound); }
      if ownerID.Some? && shard.sequences[sequenceID].ownerID != ownerID { return Some(SequenceOwnerMismatch); }
      shards := shards[shardID := shard.(sequences := shard.sequences - {sequenceID})];
      return None;
    }

    /** Guards, stage call, position advance, sampling, and the replay record, in
        the order in which each is written to the sequence. */
    method ForwardRequest(request: Worker.ForwardRequest, op: Operation) returns (reply: Reply)
      modifies this
      ensures (Value(), reply) == Infer(config, old(Value()), op, request)
    {
      hide Refusal, Sampled, WorkerBytes, StatelessReply;
      var retained := RetainedWorkerBytes(shards);
      var refusal := Refusal(config, retained, Service(shards, forwardCount), op, request);
      if refusal.Some? { return refusal.value; }
      GoAheadFinds(config, retained, Value(), op, request);
      var shard := shards[request.shardID];
      var sequence := shard.sequences[request.sequenceID];
      var outcome := shard.adapter.run(op, sequence.cache, request.input);
      if op == Forward {
        reply := StatelessReply(sequence, request, outcome);
      } else {
        var next := sequence.nextPosition + InputLength(request.input);
        sequence := sequence.(cache := outcome.cache);
        if outcome.Threw? {
          reply := Err(StageFailed(outcome.reason));
        } else if outcome.cache.position != next {
          reply := Err(CachePositionMismatch);
        } else {
          sequence := sequence.(nextPosition := next, prefilled := true);
          var sampled := Sampled(outcome, request);
          if sampled.Err? {
            sequence := sequence.(completed := Some(Record(op, request, FailedWith(sampled.error))));
            reply := Err(InvalidRequest(sampled.error));
          } else {
            var result := ForwardResult(op, request.position, next, sampled.value.0, sampled.value.1, outcome.cache.memoryBytes);
            sequence := sequence.(completed := Some(Record(op, request, Succeeded(result))));
            reply := Ok(result);
          }
        }
      }
      var after := WithSequence(Service(shards, forwardCount), request, sequence, reply.Ok?);
      shards, forwardCount := after.shards, after.forwardCount;
    }
  }
}
