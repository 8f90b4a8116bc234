/** Opening one sequence on many workers, rolling back, and cleaning up, when a
    worker may restart, other clients may interfere, and a reply may be lost after
    the request was applied. */
module SequenceSets {
  import opened WideArithmetic
  import opened Worker

  /** The worker processes by the caller that reaches them. */
  type Fleet = map<string, Service>

  datatype Target = Target(hasCaller: bool, workerID: string, shardID: string)

  datatype Opened = Opened(target: Target, sequenceID: string, ownerID: string)

  datatype Spot = Spot(workerID: string, shardID: string, sequenceID: string)

  function SpotOf(entry: Opened): Spot {
    Spot(entry.target.workerID, entry.target.shardID, entry.sequenceID)
  }

  predicate Present(fleet: Fleet, spot: Spot) {
    && spot.workerID in fleet && spot.shardID in fleet[spot.workerID].shards
    && spot.sequenceID in fleet[spot.workerID].shards[spot.shardID].sequences
  }

  function SequenceAt(fleet: Fleet, spot: Spot): Sequence
    requires Present(fleet, spot)
  {
    fleet[spot.workerID].shards[spot.shardID].sequences[spot.sequenceID]
  }

  /** The worker holds the sequence for this owner. */
  predicate Holds(fleet: Fleet, spot: Spot, ownerID: string) {
    Present(fleet, spot) && SequenceAt(fleet, spot).ownerID == Some(ownerID)
  }

  ghost predicate HeldNowhere(fleet: Fleet, ownerID: string) {
    forall spot :: !Holds(fleet, spot, ownerID)
  }

  /** What restarts and other clients can do: anything but open for a private owner. */
  predicate NoNewHolding(ownerID: string, before: Fleet, after: Fleet) {
    forall w, shard, q :: w in after && shard in after[w].shards && q in after[w].shards[shard].sequences ==>
      (Holds(after, Spot(w, shard, q), ownerID) ==> Holds(before, Spot(w, shard, q), ownerID))
  }

  lemma NoNewHoldingAt(ownerID: string, before: Fleet, after: Fleet, spot: Spot)
    requires NoNewHolding(ownerID, before, after) && Holds(after, spot, ownerID)
    ensures Holds(before, spot, ownerID)
  {
    assert Spot(spot.workerID, spot.shardID, spot.sequenceID) == spot;
  }

  // ---------------------------------------------------------------------------
  // One command on one worker

  datatype SequenceCommand = OpenCommand | CloseCommand

  datatype Delivery = Answered | LostAfterApply | LostBeforeApply

  datatype CallResult = Acknowledged | Rejected(message: string) | TransportFailed

  /** The worker's error texts, as far as these two commands can produce them. */
  function Message(error: WorkerError, shardID: string, sequenceID: string): string {
    match error
    case InvalidRequest(reason) => "invalid persistent worker request: " + reason
    case ShardNotFound => "shard " + shardID + " is not loaded"
    case SequenceAlreadyOpen => "sequence " + sequenceID + " is already open on shard " + shardID
    case OpenSequenceLimit => "shard " + shardID + " reached its open sequence limit"
    case SequenceNotFound => "sequence " + sequenceID + " is not open on shard " + shardID
    case SequenceOwnerMismatch => "sequence " + sequenceID + " on shard " + shardID + " is owned by another request"
    case _ => "worker error"
  }

  function Effect(config: Config, fleet: Fleet, command: SequenceCommand, entry: Opened): (Fleet, Option<WorkerError>)
    requires entry.target.workerID in fleet
  {
    var worker := entry.target.workerID;
    var (service, error) :=
      if command.OpenCommand?
      then Worker.OpenSequence(config, fleet[worker], entry.target.shardID, entry.sequenceID, Some(entry.ownerID))
      else Worker.CloseSequence(fleet[worker], entry.target.shardID, entry.sequenceID, Some(entry.ownerID));
    (fleet[worker := service], error)
  }

  /** An open adds at most its own spot; a rejected one adds nothing. */
  lemma OpenEffect(config: Config, fleet: Fleet, entry: Opened, spot: Spot)
    requires entry.target.workerID in fleet
    ensures var (after, error) := Effect(config, fleet, OpenCommand, entry);
            && (Holds(after, spot, entry.ownerID) ==> Holds(fleet, spot, entry.ownerID) || spot == SpotOf(entry))
            && (error.Some? && Holds(after, spot, entry.ownerID) ==> Holds(fleet, spot, entry.ownerID))
            && (error.None? ==> Holds(after, SpotOf(entry), entry.ownerID))
  {
  }

  /** A close frees its spot for this owner, and an error means that the worker did
      not hold it for this owner. */
  lemma CloseEffect(config: Config, fleet: Fleet, entry: Opened, spot: Spot)
    requires entry.target.workerID in fleet
    ensures var (after, error) := Effect(config, fleet, CloseCommand, entry);
            && (Holds(after, spot, entry.ownerID) ==> Holds(fleet, spot, entry.ownerID))
            && !Holds(after, SpotOf(entry), entry.ownerID)
  {
  }

  /** Neither command ever closes or changes a sequence of another owner. */
  lemma OthersUntouched(config: Config, fleet: Fleet, command: SequenceCommand, entry: Opened, spot: Spot)
    requires entry.target.workerID in fleet && Present(fleet, spot)
    requires SequenceAt(fleet, spot).ownerID != Some(entry.ownerID)
    ensures var after := Effect(config, fleet, command, entry).0;
            Present(after, spot) && SequenceAt(after, spot) == SequenceAt(fleet, spot)
  {
  }

  predicate Contains(text: string, part: string) {
    exists i :: 0 <= i <= |text| && part <= text[i..]
  }

  /** A close counts as done when it succeeded or the worker no longer knows the
      sequence or its shard. */
  predicate CloseDone(result: CallResult) {
    match result
    case Acknowledged => true
    case Rejected(message) => Contains(message, "is not open on shard") || Contains(message, "is not loaded")
    case TransportFailed => false
  }

  /** A worker that forgot the sequence says so in words the close recognizes. */
  lemma ForgottenIsDone(error: WorkerError, shardID: string, sequenceID: string)
    requires error == ShardNotFound || error == SequenceNotFound
    ensures CloseDone(Rejected(Message(error, shardID, sequenceID)))
  {
    if error == ShardNotFound {
      var front, part := "shard " + shardID + " ", "is not loaded";
      var text := Message(error, shardID, sequenceID);
      assert text == front + part;
      assert part <= text[|front|..];
    } else {
      var front, part := "sequence " + sequenceID + " ", "is not open on shard";
      var text := Message(error, shardID, sequenceID);
      assert text == front + (part + (" " + shardID));
      assert part <= text[|front|..];
    }
  }

  lemma DoneIsAnswered(result: CallResult)
    ensures CloseDone(result) ==> !result.TransportFailed?
  {
  }

  /** What one delivery does to the fleet, and what the caller sees of it. */
  function Delivered(config: Config, sent: Fleet, command: SequenceCommand, entry: Opened, delivery: Delivery): (Fleet, CallResult) {
    if entry.target.workerID !in sent || delivery.LostBeforeApply? then (sent, TransportFailed) else
    var (after, error) := Effect(config, sent, command, entry);
    (after,
    if delivery.LostAfterApply? then TransportFailed
    else if error.None? then Acknowledged
    else Rejected(Message(error.value, entry.target.shardID, entry.sequenceID)))
  }

  /** One command as its caller saw it, with the fleet when it left and when the call
      returned. */
  datatype Exchange = Exchange(command: SequenceCommand, entry: Opened, result: CallResult, sent: Fleet, after: Fleet)

  class Network {
    const config: Config
    var workers: Fleet
    ghost var log: seq<Exchange>

    constructor (config: Config, workers: Fleet)
      ensures this.config == config && this.workers == workers && log == []
    {
      this.config, this.workers, log := config, workers, [];
    }

    /** Restarts and other clients, at any moment. */
    method Interfere(ownerID: string)
      modifies this`workers
      ensures NoNewHolding(ownerID, old(workers), workers)
    {
      var next: Fleet := *;
      if NoNewHolding(ownerID, workers, next) { workers := next; }
    }

    /** One command to one worker; `sent` is the fleet when the request left. */
    method Call(command: SequenceCommand, entry: Opened, delivery: Delivery) returns (result: CallResult, ghost sent: Fleet)
      modifies this
      ensures NoNewHolding(entry.ownerID, old(workers), sent)
      ensures (workers, result) == Delivered(config, sent, command, entry, delivery)
      ensures log == old(log) + [Exchange(command, entry, result, sent, workers)]
    {
      Interfere(entry.ownerID);
      sent := workers;
      result := TransportFailed;
      if entry.target.workerID in workers && !delivery.LostBeforeApply? {
        var (after, error) := Effect(config, workers, command, entry);
        workers := after;
        if !delivery.LostAfterApply? {
          result :=
            if error.None? then Acknowledged else Rejected(Message(error.value, entry.target.shardID, entry.sequenceID));
        }
      }
      log := log + [Exchange(command, entry, result, sent, workers)];
    }
  }

  // ---------------------------------------------------------------------------
  // Tracking

  ghost function Spots(entries: seq<Opened>): set<Spot> {
    set o | o in entries :: SpotOf(o)
  }

  /** Every sequence held for this owner is in the list. */
  ghost predicate Tracked(ownerID: string, fleet: Fleet, entries: seq<Opened>) {
    forall spot :: Holds(fleet, spot, ownerID) ==> spot in Spots(entries)
  }

  ghost predicate OwnedBy(entries: seq<Opened>, ownerID: string) {
    forall o :: o in entries ==> o.ownerID == ownerID && o.target.hasCaller
  }

  function Reversed(s: seq<Opened>): seq<Opened> {
    if s == [] then [] else Reversed(s[1..]) + [s[0]]
  }

  lemma {:induction false} ReversedAt(s: seq<Opened>, k: nat)
    requires k < |s|
    ensures |Reversed(s)| == |s| && Reversed(s)[k] == s[|s| - 1 - k]
  {
    if |s| > 1 { ReversedAt(s[1..], if k < |s| - 1 then k else 0); }
  }

  lemma {:induction false} ReversedLength(s: seq<Opened>)
    ensures |Reversed(s)| == |s|
  {
    if s != [] { ReversedLength(s[1..]); }
  }

  /** What stays after one close attempt for each chosen entry, from the last entry to
      the first: the entries that were not chosen, and those whose close is not known
      to be done.  None when the calls are not exactly those attempts. */
  ghost function Closing(entries: seq<Opened>, choose: Opened -> bool, calls: seq<Exchange>): Option<seq<Opened>> {
    if entries == [] then (if calls == [] then Some([]) else None)
    else if !choose(entries[0]) then Put(true, entries[0], Closing(entries[1..], choose, calls))
    else if calls == [] || !Closes(calls[|calls| - 1], entries[0]) then None
    else Put(!CloseDone(calls[|calls| - 1].result), entries[0], Closing(entries[1..], choose, calls[..|calls| - 1]))
  }

  ghost predicate Closes(call: Exchange, entry: Opened) {
    call.command == CloseCommand && call.entry == entry
  }

  ghost function Put(stays: bool, entry: Opened, rest: Option<seq<Opened>>): Option<seq<Opened>> {
    match rest
    case None => None
    case Some(s) => Some((if stays then [entry] else []) + s)
  }

  /** Only chosen entries leave, and nothing enters. */
  lemma {:induction false} ClosingKeeps(entries: seq<Opened>, choose: Opened -> bool, calls: seq<Exchange>)
    requires Closing(entries, choose, calls).Some?
    ensures forall o :: o in Closing(entries, choose, calls).value ==> o in entries
    ensures forall o :: o in entries && !choose(o) ==> o in Closing(entries, choose, calls).value
    decreases |entries|
  {
    if entries != [] {
      ClosingKeeps(entries[1..], choose, if choose(entries[0]) then calls[..|calls| - 1] else calls);
      assert entries == [entries[0]] + entries[1..];
    }
  }

  /** Swaps from both ends toward the middle. */
  method ReverseInPlace(a: array<Opened>)
    modifies a
    ensures a[..] == Reversed(old(a[..]))
  {
    hide Reversed;
    var left, right := 0, a.Length - 1;
    while left < right
      invariant 0 <= left <= a.Length && right == a.Length - 1 - left
      invariant forall k :: 0 <= k < left ==> a[k] == old(a[a.Length - 1 - k]) && a[a.Length - 1 - k] == old(a[k])
      invariant forall k :: left <= k <= right ==> a[k] == old(a[k])
    {
      a[left], a[right] := a[right], a[left];
      left, right := left + 1, right - 1;
    }
    ghost var was := old(a[..]);
    ReversedLength(was);
    forall k | 0 <= k < a.Length ensures a[k] == Reversed(was)[k] { ReversedAt(was, k); }
    assert a[..] == Reversed(was);
  }

  // ---------------------------------------------------------------------------
  // The set

  lemma TrackedStays(ownerID: string, before: Fleet, after: Fleet, entries: seq<Opened>)
    requires Tracked(ownerID, before, entries) && NoNewHolding(ownerID, before, after)
    ensures Tracked(ownerID, after, entries)
  {
    forall spot | Holds(after, spot, ownerID) ensures spot in Spots(entries) { NoNewHoldingAt(ownerID, before, after, spot); }
  }

  /** After an open attempt the new spot is all that tracking can be missing. */
  lemma TrackedAfterOpen(network: Network, entry: Opened, before: Fleet, sent: Fleet, delivery: Delivery, result: CallResult,
                         entries: seq<Opened>)
    requires Tracked(entry.ownerID, before, entries) && NoNewHolding(entry.ownerID, before, sent)
    requires (network.workers, result) == Delivered(network.config, sent, OpenCommand, entry, delivery)
    ensures Tracked(entry.ownerID, network.workers, if result.Rejected? then entries else entries + [entry])
  {
    TrackedStays(entry.ownerID, before, sent, entries);
    var after := if result.Rejected? then entries else entries + [entry];
    assert Spots(entries + [entry]) == Spots(entries) + {SpotOf(entry)} by {
      assert forall o :: o in entries + [entry] <==> o in entries || o == entry;
    }
    forall spot | Holds(network.workers, spot, entry.ownerID) ensures spot in Spots(after) {
      if entry.target.workerID in sent { OpenEffect(network.config, sent, entry, spot); }
    }
  }

  /** A close attempt leaves its spot free when it counts as done. */
  lemma TrackedAfterClose(network: Network, entry: Opened, before: Fleet, sent: Fleet, delivery: Delivery, result: CallResult,
                          others: seq<Opened>, entries: seq<Opened>)
    requires Spots(entries) == Spots(others) + {SpotOf(entry)}
    requires Tracked(entry.ownerID, before, entries) && NoNewHolding(entry.ownerID, before, sent)
    requires (network.workers, result) == Delivered(network.config, sent, CloseCommand, entry, delivery)
    ensures Tracked(entry.ownerID, network.workers, entries)
    ensures !result.TransportFailed? ==> Tracked(entry.ownerID, network.workers, others)
  {
    TrackedStays(entry.ownerID, before, sent, entries);
    forall spot | Holds(network.workers, spot, entry.ownerID)
      ensures spot in Spots(entries) && (!result.TransportFailed? ==> spot in Spots(others))
    {
      if entry.target.workerID in sent { CloseEffect(network.config, sent, entry, spot); }
    }
  }

  class SequenceSet {
    var entries: seq<Opened>

    constructor ()
      ensures entries == []
    {
      entries := [];
    }

    /** Closes the chosen sequences from the last opened to the first, one attempt each.
        What could not be closed stays tracked, in its original order. */
    method CloseUsing(network: Network, shouldClose: Opened -> bool, ghost ownerID: string) returns (ok: bool)
      requires OwnedBy(entries, ownerID) && Tracked(ownerID, network.workers, entries)
      modifies this, network
      ensures OwnedBy(entries, ownerID) && Tracked(ownerID, network.workers, entries)
      ensures old(network.log) <= network.log
      ensures Closing(old(entries), shouldClose, network.log[|old(network.log)|..]) == Some(entries)
      ensures ok <==> forall o :: o in entries ==> !shouldClose(o)
    {
      hide Tracked, NoNewHolding, Effect, CloseDone, Message, Spots, Reversed, Delivered, Closing;
      ok := true;
      EmptyLists(shouldClose);
      var retained: seq<Opened> := [];
      ghost var calls: seq<Exchange> := [];
      ghost var start := network.log;
      var index := |entries|;
      assert entries[index..] == [] && entries[..index] + retained == entries;
      while index > 0
        invariant 0 <= index <= |entries| && entries == old(entries)
        invariant network.log == start + calls
        invariant Closing(entries[index..], shouldClose, calls) == Some(Reversed(retained))
        invariant Tracked(ownerID, network.workers, entries[..index] + retained)
        invariant OwnedBy(retained, ownerID)
        invariant ok <==> forall o :: o in retained ==> !shouldClose(o)
      {
        index := index - 1;
        var entry := entries[index];
        var stays := true;
        ghost var tracked := entries[..index + 1] + retained;
        ghost var others := entries[..index] + retained;
        ghost var rest := entries[index + 1..];
        assert entries[..index + 1] == entries[..index] + [entry];
        assert entries[index..] == [entry] + rest;
        SpotsSplit(entries[..index], entry, retained);
        if shouldClose(entry) {
          ghost var before := network.workers;
          var delivery: Delivery := *;
          var result, sent := network.Call(CloseCommand, entry, delivery);
          TrackedAfterClose(network, entry, before, sent, delivery, result, others, tracked);
          stays := !CloseDone(result);
          DoneIsAnswered(result);
          ghost var call := Exchange(CloseCommand, entry, result, sent, network.workers);
          ClosingCalls(entry, rest, shouldClose, calls, call, retained);
          calls := calls + [call];
          if stays { ok := false; }
        } else {
          ClosingPasses(entry, rest, shouldClose, calls, retained);
        }
        if stays {
          assert forall o :: o in retained + [entry] <==> o in retained || o == entry;
          retained := retained + [entry];
          SameTracked(ownerID, network.workers, tracked, entries[..index] + retained);
        }
      }
      var slice := new Opened[|retained|](i requires 0 <= i < |retained| => retained[i]);
      assert slice[..] == retained;
      ReverseInPlace(slice);
      entries := slice[..];
      assert old(entries)[0..] == old(entries);
      assert network.log[|start|..] == calls;
      SameAfterReversal(retained, entries);
      SpotsOfSame(retained, entries);
      SameTracked(ownerID, network.workers, old(entries)[..0] + retained, entries);
    }

    /** Closes one ID on every target where the set opened it. */
    method CloseSequence(network: Network, sequenceID: string, ghost ownerID: string) returns (ok: bool)
      requires OwnedBy(entries, ownerID) && Tracked(ownerID, network.workers, entries)
      modifies this, network
      ensures OwnedBy(entries, ownerID) && Tracked(ownerID, network.workers, entries)
      ensures old(network.log) <= network.log
      ensures Closing(old(entries), Named(sequenceID), network.log[|old(network.log)|..]) == Some(entries)
      ensures forall o :: o in old(entries) && o.sequenceID != sequenceID ==> o in entries
      ensures ok <==> forall o :: o in entries ==> o.sequenceID != sequenceID
      ensures ok ==> forall spot: Spot :: spot.sequenceID == sequenceID ==> !Holds(network.workers, spot, ownerID)
    {
      ok := CloseUsing(network, Named(sequenceID), ownerID);
      ClosingKeeps(old(entries), Named(sequenceID), network.log[|old(network.log)|..]);
    }

    /** Every tracked sequence is closed, or stays tracked for a later attempt. */
    method Cleanup(network: Network, ghost ownerID: string) returns (ok: bool)
      requires OwnedBy(entries, ownerID) && Tracked(ownerID, network.workers, entries)
      modifies this, network
      ensures OwnedBy(entries, ownerID) && Tracked(ownerID, network.workers, entries)
      ensures old(network.log) <= network.log
      ensures Closing(old(entries), All(), network.log[|old(network.log)|..]) == Some(entries)
      ensures ok <==> entries == []
      ensures ok ==> HeldNowhere(network.workers, ownerID)
    {
      ok := CloseUsing(network, All(), ownerID);
      HeadIsElement(entries);
      if ok { assert Spots([]) == {}; }
    }
  }

  function Named(sequenceID: string): Opened -> bool {
    (o: Opened) => o.sequenceID == sequenceID
  }

  function All(): Opened -> bool {
    (o: Opened) => true
  }

  lemma EmptyLists(choose: Opened -> bool)
    ensures Closing([], choose, []) == Some(Reversed([])) && Reversed([]) == []
  {
  }

  lemma {:induction false} ReversedSnoc(s: seq<Opened>, entry: Opened)
    ensures Reversed(s + [entry]) == [entry] + Reversed(s)
  {
    if s == [] {
      assert s + [entry] == [entry];
      assert [entry][1..] == [] && Reversed([entry]) == Reversed([]) + [entry];
      assert Reversed([]) == [] && [] + [entry] == [entry] + [];
    } else {
      assert (s + [entry])[1..] == s[1..] + [entry];
      ReversedSnoc(s[1..], entry);
    }
  }

  lemma ClosingPasses(entry: Opened, rest: seq<Opened>, choose: Opened -> bool, calls: seq<Exchange>, retained: seq<Opened>)
    requires Closing(rest, choose, calls) == Some(Reversed(retained)) && !choose(entry)
    ensures Closing([entry] + rest, choose, calls) == Some(Reversed(retained + [entry]))
  {
    assert ([entry] + rest)[1..] == rest;
    ReversedSnoc(retained, entry);
  }

  lemma ClosingCalls(entry: Opened, rest: seq<Opened>, choose: Opened -> bool, calls: seq<Exchange>, call: Exchange,
                     retained: seq<Opened>)
    requires Closing(rest, choose, calls) == Some(Reversed(retained)) && choose(entry) && Closes(call, entry)
    ensures Closing([entry] + rest, choose, calls + [call])
            == Some(Reversed(if CloseDone(call.result) then retained else retained + [entry]))
  {
    hide CloseDone;
    assert ([entry] + rest)[1..] == rest;
    var more := calls + [call];
    assert more[..|more| - 1] == calls;
    ReversedSnoc(retained, entry);
    assert [] + Reversed(retained) == Reversed(retained);
  }

  lemma SpotsOfSame(s: seq<Opened>, t: seq<Opened>)
    requires forall o :: o in t <==> o in s
    ensures Spots(t) == Spots([] + s) == Spots(s)
  {
    assert [] + s == s;
  }

  lemma SpotsSplit(front: seq<Opened>, entry: Opened, retained: seq<Opened>)
    ensures Spots((front + [entry]) + retained) == Spots(front + retained) + {SpotOf(entry)}
    ensures Spots(front + (retained + [entry])) == Spots((front + [entry]) + retained)
  {
    assert forall o :: o in (front + [entry]) + retained <==> o in front + retained || o == entry;
    assert forall o :: o in front + (retained + [entry]) <==> o in (front + [entry]) + retained;
  }

  lemma SameTracked(ownerID: string, fleet: Fleet, s: seq<Opened>, t: seq<Opened>)
    requires Tracked(ownerID, fleet, s) && Spots(s) == Spots(t)
    ensures Tracked(ownerID, fleet, t)
  {
    hide Spots, Holds;
  }

  lemma HeadIsElement(s: seq<Opened>)
    ensures s != [] ==> s[0] in s
  {
  }

  lemma SameAfterReversal(s: seq<Opened>, t: seq<Opened>)
    requires t == Reversed(s)
    ensures forall o :: o in t <==> o in s
  {
    forall o ensures o in t <==> o in s { ReversedElements(s, o); }
  }

  lemma {:induction false} ReversedElements(s: seq<Opened>, o: Opened)
    ensures o in Reversed(s) <==> o in s
  {
    if s != [] { ReversedElements(s[1..], o); }
  }

  // ---------------------------------------------------------------------------
  // Opening a matrix of sequences

  datatype OpenError = TargetsEmpty | NoCaller | NoShardID | IDsEmpty | IDEmpty | DuplicateID | OpenFailed | RollbackFailed

  function Row(targets: seq<Target>, sequenceID: string, ownerID: string, n: nat): (r: seq<Opened>)
    requires n <= |targets|
    ensures |r| == n && forall i :: 0 <= i < n ==> r[i] == Opened(targets[i], sequenceID, ownerID)
  {
    seq(n, i requires 0 <= i < n => Opened(targets[i], sequenceID, ownerID))
  }

  /** Every target for the first ID, then every target for the next, and so on. */
  function Matrix(targets: seq<Target>, ids: seq<string>, ownerID: string): seq<Opened> {
    if ids == [] then []
    else Matrix(targets, ids[..|ids| - 1], ownerID) + Row(targets, ids[|ids| - 1], ownerID, |targets|)
  }

  ghost predicate ArgumentsValid(targets: seq<Target>, ids: seq<string>) {
    && targets != [] && (forall i :: 0 <= i < |targets| ==> targets[i].hasCaller && targets[i].shardID != "")
    && ids != [] && (forall i :: 0 <= i < |ids| ==> ids[i] != "")
    && (forall i, j :: 0 <= i < j < |ids| ==> ids[i] != ids[j])
  }

  method ValidateArguments(targets: seq<Target>, ids: seq<string>) returns (error: Option<OpenError>)
    ensures error.None? <==> ArgumentsValid(targets, ids)
    ensures error.Some? ==> !error.value.OpenFailed? && !error.value.RollbackFailed?
  {
    if targets == [] { return Some(TargetsEmpty); }
    for i := 0 to |targets|
      invariant forall k :: 0 <= k < i ==> targets[k].hasCaller && targets[k].shardID != ""
    {
      if !targets[i].hasCaller { return Some(NoCaller); }
      if targets[i].shardID == "" { return Some(NoShardID); }
    }
    if ids == [] { return Some(IDsEmpty); }
    var seen: set<string> := {};
    for i := 0 to |ids|
      invariant seen == set k | 0 <= k < i :: ids[k]
      invariant forall k :: 0 <= k < i ==> ids[k] != ""
      invariant forall k, m :: 0 <= k < m < i ==> ids[k] != ids[m]
    {
      if ids[i] == "" { return Some(IDEmpty); }
      if ids[i] in seen { return Some(DuplicateID); }
      seen := seen + {ids[i]};
    }
    return None;
  }

  /** An acknowledged open: the worker opened the sequence and nothing else changed. */
  ghost predicate OpenedBy(config: Config, call: Exchange, entry: Opened) {
    && call.command == OpenCommand && call.entry == entry && call.result.Acknowledged?
    && entry.target.workerID in call.sent
    && (call.after, None) == Effect(config, call.sent, OpenCommand, entry)
  }

  /** The calls are acknowledged opens of these entries, in order. */
  ghost predicate Opens(config: Config, wanted: seq<Opened>, calls: seq<Exchange>) {
    |calls| == |wanted| && forall k :: 0 <= k < |wanted| ==> OpenedBy(config, calls[k], wanted[k])
  }

  /** The n-th open was not acknowledged, and cleaning up what may be open, that one
      included unless it was rejected, left `rest`. */
  ghost predicate RolledBack(config: Config, wanted: seq<Opened>, calls: seq<Exchange>, n: nat, rest: seq<Opened>) {
    && n < |wanted| && n < |calls| && Opens(config, wanted[..n], calls[..n])
    && calls[n].command == OpenCommand && calls[n].entry == wanted[n] && !calls[n].result.Acknowledged?
    && Closing(wanted[..n] + (if calls[n].result.Rejected? then [] else [wanted[n]]), All(), calls[n + 1..]) == Some(rest)
  }

  ghost predicate OpeningOutcome(config: Config, wanted: seq<Opened>, calls: seq<Exchange>, error: Option<OpenError>, rest: seq<Opened>) {
    match error
    case None => Opens(config, wanted, calls) && rest == wanted
    case Some(e) =>
      (e.OpenFailed? || e.RollbackFailed?) && (e.OpenFailed? <==> rest == []) && exists n :: RolledBack(config, wanted, calls, n, rest)
  }

  /** Opens each ID on every target for one fresh private owner.  Without a set nothing
      is left open for that owner; a set returned beside an error still tracks what
      its rollback could not close. */
  method OpenSequences(network: Network, targets: seq<Target>, ids: seq<string>, ownerID: string)
    returns (opens: SequenceSet?, error: Option<OpenError>)
    requires HeldNowhere(network.workers, ownerID)
    modifies network
    ensures opens != null ==> fresh(opens) && OwnedBy(opens.entries, ownerID) && Tracked(ownerID, network.workers, opens.entries)
    ensures opens == null ==> error.Some? && HeldNowhere(network.workers, ownerID)
    ensures opens == null <==> error.Some? && error != Some(RollbackFailed)
    ensures old(network.log) <= network.log
    ensures error.None? ==> network.log != old(network.log) && network.log[|network.log| - 1].after == network.workers
    ensures ArgumentsValid(targets, ids) ==>
              OpeningOutcome(network.config, Matrix(targets, ids, ownerID), network.log[|old(network.log)|..], error,
                             if opens == null then [] else opens.entries)
    ensures !ArgumentsValid(targets, ids) ==>
              network.log == old(network.log) && error.Some? && !error.value.OpenFailed? && !error.value.RollbackFailed?
  {
    hide Delivered, Tracked, Closing, Holds, Matrix, RolledBack, Opens, Opening, OpenedBy, Effect, NoNewHolding, Message, HeldNowhere,
      CloseDone, Spots;
    error := ValidateArguments(targets, ids);
    if error.Some? { return null, error; }
    assert targets != [] && ids != [] && forall j :: 0 <= j < |targets| ==> targets[j].hasCaller;
    hide ArgumentsValid;
    var tracked := new SequenceSet();
    ghost var wanted, start := Matrix(targets, ids, ownerID), network.log;
    NothingTracked(ownerID, network.workers);
    NothingOpened(network.config, targets, ids, ownerID, network.workers);
    assert network.log[|start|..] == [];
    for i := 0 to |ids|
      invariant error.None? && fresh(tracked) && tracked.entries == Matrix(targets, ids[..i], ownerID)
      invariant OwnedBy(tracked.entries, ownerID) && Tracked(ownerID, network.workers, tracked.entries)
      invariant start <= network.log && Opening(network.config, tracked.entries, network.log[|start|..], network.workers)
    {
      assert ids[..i + 1][..i] == ids[..i];
      for j := 0 to |targets|
        invariant error.None? && fresh(tracked)
        invariant tracked.entries == Matrix(targets, ids[..i], ownerID) + Row(targets, ids[i], ownerID, j)
        invariant OwnedBy(tracked.entries, ownerID) && Tracked(ownerID, network.workers, tracked.entries)
        invariant start <= network.log && Opening(network.config, tracked.entries, network.log[|start|..], network.workers)
      {
        ghost var before, entries, log := network.workers, tracked.entries, network.log;
        var entry := Opened(targets[j], ids[i], ownerID);
        var delivery: Delivery := *;
        var result, sent := network.Call(OpenCommand, entry, delivery);
        TrackedAfterOpen(network, entry, before, sent, delivery, result, entries);
        ghost var call := Exchange(OpenCommand, entry, result, sent, network.workers);
        assert Row(targets, ids[i], ownerID, j + 1) == Row(targets, ids[i], ownerID, j) + [entry];
        RowIsNext(targets, ids, ownerID, i, j);
        if !result.Rejected? { tracked.entries := tracked.entries + [entry]; }
        if !result.Acknowledged? {
          var rolledBack := tracked.Cleanup(network, ownerID);
          RollbackLogged(network.config, wanted, entries, before, start, log, call, network.log, tracked.entries);
          if !rolledBack { return tracked, Some(RollbackFailed); }
          return null, Some(OpenFailed);
        }
        AcknowledgedOpens(network.config, call, delivery);
        OpensMore(network.config, entries, before, start, log, call);
      }
      MatrixGrows(targets, ids, ownerID, i);
    }
    assert ids[..|ids|] == ids;
    SomethingOpened(network.config, targets, ids, ownerID, start, network.log, network.workers);
    return tracked, None;
  }

  /** Everything tracked was opened in order, and the fleet is what the last call left. */
  ghost predicate Opening(config: Config, entries: seq<Opened>, calls: seq<Exchange>, workers: Fleet) {
    Opens(config, entries, calls) && (calls != [] ==> calls[|calls| - 1].after == workers)
  }

  lemma SomethingOpened(config: Config, targets: seq<Target>, ids: seq<string>, ownerID: string, start: seq<Exchange>,
                        log: seq<Exchange>, workers: Fleet)
    requires targets != [] && ids != [] && start <= log
    requires Opening(config, Matrix(targets, ids, ownerID), log[|start|..], workers)
    ensures Opens(config, Matrix(targets, ids, ownerID), log[|start|..])
    ensures log != start && log[|log| - 1].after == workers
  {
    hide OpenedBy;
    assert |Matrix(targets, ids, ownerID)| > 0;
  }

  lemma NothingTracked(ownerID: string, fleet: Fleet)
    requires HeldNowhere(fleet, ownerID)
    ensures Tracked(ownerID, fleet, [])
  {
  }

  lemma NothingOpened(config: Config, targets: seq<Target>, ids: seq<string>, ownerID: string, workers: Fleet)
    ensures Matrix(targets, ids[..0], ownerID) == [] && Opening(config, [], [], workers)
  {
  }

  lemma AcknowledgedOpens(config: Config, call: Exchange, delivery: Delivery)
    requires call.command == OpenCommand && call.result.Acknowledged?
    requires (call.after, call.result) == Delivered(config, call.sent, OpenCommand, call.entry, delivery)
    ensures OpenedBy(config, call, call.entry)
  {
    hide Effect;
  }

  lemma OpensMore(config: Config, entries: seq<Opened>, workers: Fleet, start: seq<Exchange>, log: seq<Exchange>, call: Exchange)
    requires start <= log && Opening(config, entries, log[|start|..], workers) && OpenedBy(config, call, call.entry)
    ensures start <= log + [call] && Opening(config, entries + [call.entry], (log + [call])[|start|..], call.after)
  {
    hide OpenedBy;
    assert (log + [call])[|start|..] == log[|start|..] + [call];
  }

  lemma MatrixGrows(targets: seq<Target>, ids: seq<string>, ownerID: string, i: nat)
    requires i < |ids|
    ensures Matrix(targets, ids[..i + 1], ownerID) == Matrix(targets, ids[..i], ownerID) + Row(targets, ids[i], ownerID, |targets|)
  {
    assert ids[..i + 1][..i] == ids[..i];
  }

  lemma LogSplits(start: seq<Exchange>, log: seq<Exchange>, call: Exchange, after: seq<Exchange>)
    requires start <= log && log + [call] <= after
    ensures var n, all := |log| - |start|, after[|start|..];
            && start <= after && n < |all| && all[..n] == log[|start|..] && all[n] == call
            && all[n + 1..] == after[|log + [call]|..]
  {
    assert after[|log|] == (log + [call])[|log|];
    assert after[..|log|] == log;
  }

  lemma OpensSize(config: Config, wanted: seq<Opened>, calls: seq<Exchange>)
    requires Opens(config, wanted, calls)
    ensures |calls| == |wanted|
  {
  }

  lemma RollbackLogged(config: Config, wanted: seq<Opened>, entries: seq<Opened>, workers: Fleet, start: seq<Exchange>,
                       log: seq<Exchange>, call: Exchange, after: seq<Exchange>, rest: seq<Opened>)
    requires entries + [call.entry] <= wanted && start <= log && log + [call] <= after
    requires Opening(config, entries, log[|start|..], workers)
    requires call.command == OpenCommand && !call.result.Acknowledged?
    requires Closing(if call.result.Rejected? then entries else entries + [call.entry], All(), after[|log + [call]|..])
             == Some(rest)
    ensures start <= after && RolledBack(config, wanted, after[|start|..], |entries|, rest)
  {
    hide Closing, OpenedBy;
    assert Opens(config, entries, log[|start|..]);
    OpensSize(config, entries, log[|start|..]);
    LogSplits(start, log, call, after);
    assert wanted[|entries|] == (entries + [call.entry])[|entries|] && wanted[..|entries|] == entries;
    assert entries + [] == entries;
    hide Opens, Opening, CloseDone, All;
  }

  /** The next entry to open follows the rows before it and the columns before it. */
  lemma {:induction false} RowIsNext(targets: seq<Target>, ids: seq<string>, ownerID: string, i: nat, j: nat)
    requires i < |ids| && j < |targets|
    ensures var front := Matrix(targets, ids[..i], ownerID) + Row(targets, ids[i], ownerID, j);
            front + [Opened(targets[j], ids[i], ownerID)] <= Matrix(targets, ids, ownerID)
    decreases |ids|
  {
    var n := |ids| - 1;
    var row := Row(targets, ids[i], ownerID, |targets|);
    assert Row(targets, ids[i], ownerID, j) + [Opened(targets[j], ids[i], ownerID)] == row[..j + 1];
    if i == n {
      var before := Matrix(targets, ids[..n], ownerID);
      assert Matrix(targets, ids, ownerID) == before + row;
      assert before + row[..j + 1] <= before + row;
      assert before + Row(targets, ids[i], ownerID, j) + [Opened(targets[j], ids[i], ownerID)] == before + row[..j + 1];
    } else {
      RowIsNext(targets, ids[..n], ownerID, i, j);
      assert ids[..n][..i] == ids[..i];
      assert Matrix(targets, ids[..n], ownerID) <= Matrix(targets, ids, ownerID);
    }
  }

  /** Cleanup of what opening left is confirmed exactly when nothing stays. */
  ghost predicate Lifecycle(config: Config, wanted: seq<Opened>, calls: seq<Exchange>, k: nat, confirmed: bool, error: Option<OpenError>,
                            opened': seq<Opened>, rest: seq<Opened>)
  {
    && k <= |calls| && OpeningOutcome(config, wanted, calls[..k], error, opened')
    && Closing(opened', All(), calls[k..]) == Some(rest)
    && (confirmed <==> rest == [])
  }

  /** The lifecycle around one generation: open, run, and the deferred cleanup that
      decides whether cleanup is reported as confirmed. */
  method WithSequences(network: Network, targets: seq<Target>, sequenceID: string, ownerID: string)
    returns (cleanupConfirmed: bool)
    requires HeldNowhere(network.workers, ownerID)
    modifies network
    ensures old(network.log) <= network.log
    ensures cleanupConfirmed ==> HeldNowhere(network.workers, ownerID)
    ensures ArgumentsValid(targets, [sequenceID]) ==>
              exists k, error, opened', rest ::
                Lifecycle(network.config, Matrix(targets, [sequenceID], ownerID), network.log[|old(network.log)|..], k, cleanupConfirmed,
                          error, opened', rest)
    ensures !ArgumentsValid(targets, [sequenceID]) ==> cleanupConfirmed && network.log == old(network.log)
  {
    hide OpeningOutcome, ArgumentsValid, Matrix, Tracked, Holds;
    cleanupConfirmed := false;
    ghost var start := network.log;
    var opens, error := OpenSequences(network, targets, [sequenceID], ownerID);
    ghost var calls := network.log[|start|..];
    ghost var entries := if opens == null then [] else opens.entries;
    ghost var rest := entries;
    if error.Some? && opens == null {
      cleanupConfirmed := true;
    }
    if opens != null {
      if error.None? {
        ghost var before := network.workers;
        network.Interfere(ownerID);
        TrackedStays(ownerID, before, network.workers, opens.entries);
      }
      var cleaned := opens.Cleanup(network, ownerID);
      if cleaned { cleanupConfirmed := true; }
      rest := opens.entries;
    }
    ghost var all := network.log[|start|..];
    if ArgumentsValid(targets, [sequenceID]) {
      assert all[..|calls|] == calls;
      assert opens != null ==> all[|calls|..] == network.log[|start| + |calls|..];
      assert opens == null ==> all[|calls|..] == [];
      assert Lifecycle(network.config, Matrix(targets, [sequenceID], ownerID), all, |calls|, cleanupConfirmed, error, entries, rest);
    }
  }
}
