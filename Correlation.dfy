/**
  The state both correlators keep, and the steps they share: parking a REQUEST until its
  RESPONSE arrives, parking an orphaned RESPONSE, emitting a record to the index, the
  timeout handler and the periodic cleanup. Timers are explicit: arming one adds its key
  to `scheduledTimeouts`, and a timeout event consumes one armed occurrence of its key.
 */
module Correlation {
  import opened Wrappers
  import opened JavaLang
  import opened AuditModel

  /** The suffix that marks the timeout key of an orphaned RESPONSE. */
  const OrphanMarker: string := "_orphaned"

  datatype CorrelatorState = CorrelatorState(
    pendingRequests: map<string, AuditRecord>,
    completedTransactions: map<string, AuditRecord>,
    indexed: seq<AuditRecord>,
    scheduledTimeouts: multiset<string>)

  /** A processor that has just started. */
  const Initial: CorrelatorState := CorrelatorState(map[], map[], [], multiset{})

  /** processRequest's bookkeeping: store under the id (overwriting) and arm a timer for it. */
  function Park(s: CorrelatorState, id: string, r: AuditRecord): CorrelatorState {
    s.(pendingRequests := s.pendingRequests[id := r],
       scheduledTimeouts := s.scheduledTimeouts + multiset{id})
  }

  /** handleOrphanedResponse's bookkeeping: store under the id and arm the marked timer. */
  function ParkOrphan(s: CorrelatorState, id: string, r: AuditRecord): CorrelatorState {
    s.(completedTransactions := s.completedTransactions[id := r],
       scheduledTimeouts := s.scheduledTimeouts + multiset{id + OrphanMarker})
  }

  /** sendToElasticsearch: the record, as it is at that moment, goes to the index. */
  function Emit(s: CorrelatorState, r: AuditRecord): CorrelatorState {
    s.(indexed := s.indexed + [r])
  }

  /** A matched transaction: the merged record is emitted and the id leaves the pending map. */
  function Settle(s: CorrelatorState, id: string, r: AuditRecord): CorrelatorState {
    Emit(s, r).(pendingRequests := s.pendingRequests - {id})
  }

  /**
    processTimeout. A pending key is emitted as incomplete and removed; otherwise a key
    ending in the marker names, once every occurrence of the marker is removed from it,
    an orphan that is emitted and removed; anything else is a no-op.
   */
  function Expire(s: CorrelatorState, key: string): CorrelatorState {
    if key in s.pendingRequests then
      Settle(s, key, s.pendingRequests[key].(isComplete := false))
    else if EndsWith(key, OrphanMarker) && RemoveAll(key, OrphanMarker) in s.completedTransactions then
      var id := RemoveAll(key, OrphanMarker);
      Emit(s, s.completedTransactions[id]).(completedTransactions := s.completedTransactions - {id})
    else
      s
  }

  /** A timeout event: one armed occurrence of the key is consumed, then processTimeout runs. */
  function OnTimeout(s: CorrelatorState, key: string): CorrelatorState
    requires key in s.scheduledTimeouts
  {
    Expire(s.(scheduledTimeouts := s.scheduledTimeouts - multiset{key}), key)
  }

  /** The instant before which cleanup discards parked orphans. */
  function Cutoff(now: DateTime, intervalMinutes: int): DateTime {
    now - intervalMinutes * NanosPerMinute
  }

  /**
    cleanupOldTransactions: exactly the orphans stamped strictly before the cutoff are
    dropped, without being emitted; nothing else changes.
   */
  function OnCleanup(s: CorrelatorState, now: DateTime, intervalMinutes: int): (s': CorrelatorState)
    ensures forall id :: id in s'.completedTransactions <==>
      id in s.completedTransactions && !(s.completedTransactions[id].indexedAt < Cutoff(now, intervalMinutes))
    ensures forall id :: id in s'.completedTransactions ==>
      s'.completedTransactions[id] == s.completedTransactions[id]
    ensures s'.pendingRequests == s.pendingRequests && s'.indexed == s.indexed
    ensures s'.scheduledTimeouts == s.scheduledTimeouts
  {
    var cutoff := Cutoff(now, intervalMinutes);
    s.(completedTransactions := map id | id in s.completedTransactions
                                         && !(s.completedTransactions[id].indexedAt < cutoff)
                                       :: s.completedTransactions[id])
  }

  /** A timeout on a key that is neither pending nor a marked orphan key only disarms itself. */
  lemma TimeoutAfterMatchIsNoop(s: CorrelatorState, key: string)
    requires key in s.scheduledTimeouts && key !in s.pendingRequests
    requires !EndsWith(key, OrphanMarker)
    ensures OnTimeout(s, key) == s.(scheduledTimeouts := s.scheduledTimeouts - multiset{key})
  {
  }

  /** A pending REQUEST whose timer fires is emitted as incomplete and forgotten. */
  lemma PendingTimeoutEmitsIncomplete(s: CorrelatorState, id: string)
    requires id in s.scheduledTimeouts && id in s.pendingRequests
    ensures var s' := OnTimeout(s, id);
      s'.indexed == s.indexed + [s.pendingRequests[id].(isComplete := false)]
      && !s'.indexed[|s.indexed|].isComplete
      && s'.pendingRequests == s.pendingRequests - {id}
      && s'.completedTransactions == s.completedTransactions
  {
  }

  /**
    The marked timer of an orphan whose id does not itself contain the marker emits that
    orphan and removes it (unless a REQUEST is pending under the marked key itself).
   */
  lemma OrphanTimeoutEmitsOrphan(s: CorrelatorState, id: string)
    requires !Occurs(id, OrphanMarker)
    requires id + OrphanMarker in s.scheduledTimeouts && id + OrphanMarker !in s.pendingRequests
    requires id in s.completedTransactions
    ensures var s' := OnTimeout(s, id + OrphanMarker);
      s'.indexed == s.indexed + [s.completedTransactions[id]]
      && s'.completedTransactions == s.completedTransactions - {id}
      && s'.pendingRequests == s.pendingRequests
  {
    RemoveAllOfAppended(id, OrphanMarker);
    assert (id + OrphanMarker)[|id + OrphanMarker| - |OrphanMarker|..] == OrphanMarker;
  }

  /**
    Removing every occurrence of the marker mangles ids that contain it: the orphan stored
    under "a_orphaned" is armed as "a_orphaned_orphaned", and that timer looks for "a".
   */
  lemma MarkedOrphanIdIsStranded(s: CorrelatorState, r: AuditRecord)
    requires s == CorrelatorState(map[], map["a_orphaned" := r], [], multiset{})
    ensures var s1 := ParkOrphan(s, "a_orphaned", r);
      OnTimeout(s1, "a_orphaned" + OrphanMarker).completedTransactions == s1.completedTransactions
      && OnTimeout(s1, "a_orphaned" + OrphanMarker).indexed == []
  {
    var key := "a_orphaned" + OrphanMarker;
    assert key == "a_orphaned_orphaned";
    assert RemoveAll(key[10..], OrphanMarker) == RemoveAll(key[19..], OrphanMarker) == [];
    assert RemoveAll(key[1..], OrphanMarker) == [];
    assert RemoveAll(key, OrphanMarker) == "a";
  }

  // ---------------------------------------------------------------------------
  // Every parked record has an armed timer
  // ---------------------------------------------------------------------------

  /** The orphan a marked key stands for: the key with one trailing marker stripped. */
  function OrphanOf(key: string): Option<string> {
    if EndsWith(key, OrphanMarker) then Some(key[..|key| - |OrphanMarker|]) else None
  }

  /** How many armed occurrences of `key` the parked records rely on. */
  function Needed(s: CorrelatorState, key: string): nat {
    (if key in s.pendingRequests then 1 else 0)
    + (if OrphanOf(key).Some? && OrphanOf(key).value in s.completedTransactions then 1 else 0)
  }

  /** No parked orphan's id contains the marker. */
  ghost predicate CleanIds(s: CorrelatorState) {
    forall id :: id in s.completedTransactions ==> !Occurs(id, OrphanMarker)
  }

  /** Every key has at least as many armed occurrences as parked records rely on it. */
  ghost predicate Covered(s: CorrelatorState) {
    forall key :: Needed(s, key) <= s.scheduledTimeouts[key]
  }

  lemma OrphanOfMarked(id: string)
    ensures OrphanOf(id + OrphanMarker) == Some(id)
  {
    assert (id + OrphanMarker)[|id + OrphanMarker| - |OrphanMarker|..] == OrphanMarker;
    assert (id + OrphanMarker)[..|id|] == id;
  }

  /** Under the invariant, each pending REQUEST and each parked orphan has its timer armed. */
  lemma CoveredArmsEveryRecord(s: CorrelatorState)
    requires Covered(s)
    ensures forall id :: id in s.pendingRequests ==> id in s.scheduledTimeouts
    ensures forall id :: id in s.completedTransactions ==> id + OrphanMarker in s.scheduledTimeouts
  {
    forall id | id in s.pendingRequests ensures id in s.scheduledTimeouts {
      assert Needed(s, id) >= 1;
    }
    forall id | id in s.completedTransactions ensures id + OrphanMarker in s.scheduledTimeouts {
      OrphanOfMarked(id);
      assert Needed(s, id + OrphanMarker) >= 1;
    }
  }

  lemma InitialCovered()
    ensures Covered(Initial) && CleanIds(Initial)
  {
  }

  lemma ParkKeepsCover(s: CorrelatorState, id: string, r: AuditRecord)
    requires Covered(s) && CleanIds(s)
    ensures Covered(Park(s, id, r)) && CleanIds(Park(s, id, r))
  {
    var s' := Park(s, id, r);
    forall key ensures Needed(s', key) <= s'.scheduledTimeouts[key] {
      assert Needed(s', key) <= Needed(s, key) + (if key == id then 1 else 0);
    }
  }

  lemma ParkOrphanKeepsCover(s: CorrelatorState, id: string, r: AuditRecord)
    requires Covered(s) && CleanIds(s) && !Occurs(id, OrphanMarker)
    ensures Covered(ParkOrphan(s, id, r)) && CleanIds(ParkOrphan(s, id, r))
  {
    var s' := ParkOrphan(s, id, r);
    OrphanOfMarked(id);
    forall key ensures Needed(s', key) <= s'.scheduledTimeouts[key] {
      assert Needed(s', key) <= Needed(s, key) + (if key == id + OrphanMarker then 1 else 0);
    }
  }

  lemma SettleKeepsCover(s: CorrelatorState, id: string, r: AuditRecord)
    requires Covered(s) && CleanIds(s)
    ensures Covered(Settle(s, id, r)) && CleanIds(Settle(s, id, r))
  {
    var s' := Settle(s, id, r);
    forall key ensures Needed(s', key) <= s'.scheduledTimeouts[key] {
      assert Needed(s', key) <= Needed(s, key);
    }
  }

  lemma EmitKeepsCover(s: CorrelatorState, r: AuditRecord)
    requires Covered(s) && CleanIds(s)
    ensures Covered(Emit(s, r)) && CleanIds(Emit(s, r))
  {
    var s' := Emit(s, r);
    forall key ensures Needed(s', key) <= s'.scheduledTimeouts[key] {
      assert Needed(s', key) == Needed(s, key);
    }
  }

  /** Replacing a pending record in place keeps the invariant. */
  lemma RepairPendingKeepsCover(s: CorrelatorState, id: string, r: AuditRecord)
    requires Covered(s) && CleanIds(s) && id in s.pendingRequests
    ensures Covered(s.(pendingRequests := s.pendingRequests[id := r]))
    ensures CleanIds(s.(pendingRequests := s.pendingRequests[id := r]))
  {
    var s' := s.(pendingRequests := s.pendingRequests[id := r]);
    forall key ensures Needed(s', key) <= s'.scheduledTimeouts[key] {
      assert Needed(s', key) == Needed(s, key);
    }
  }

  /**
    A timeout disarms one occurrence of its key and releases every record that relied on
    it, so the invariant survives every timeout event.
   */
  lemma TimeoutKeepsCover(s: CorrelatorState, key: string)
    requires Covered(s) && CleanIds(s) && key in s.scheduledTimeouts
    ensures Covered(OnTimeout(s, key)) && CleanIds(OnTimeout(s, key))
  {
    var s' := OnTimeout(s, key);
    if key !in s.pendingRequests && OrphanOf(key).Some? && OrphanOf(key).value in s.completedTransactions {
      var id := OrphanOf(key).value;
      assert key == id + OrphanMarker;
      RemoveAllOfAppended(id, OrphanMarker);
    }
    forall k ensures Needed(s', k) <= s'.scheduledTimeouts[k] {
      if k == key {
        assert Needed(s', k) + 1 <= Needed(s, k) || Needed(s', k) == 0;
      } else {
        assert Needed(s', k) <= Needed(s, k);
      }
    }
  }

  lemma CleanupKeepsCover(s: CorrelatorState, now: DateTime, intervalMinutes: int)
    requires Covered(s) && CleanIds(s)
    ensures Covered(OnCleanup(s, now, intervalMinutes)) && CleanIds(OnCleanup(s, now, intervalMinutes))
  {
    var s' := OnCleanup(s, now, intervalMinutes);
    forall key ensures Needed(s', key) <= s'.scheduledTimeouts[key] {
      assert Needed(s', key) <= Needed(s, key);
    }
  }
}
