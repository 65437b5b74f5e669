/** What a restart's restore leaves of every record, account and session, and when it rewrites the
    file: in terms of the memory it starts from, whatever order the records are visited in. */
module Restores {
  import opened Clocks
  import opened Records
  import opened Operations
  import opened Terms
  import opened FailClosed

  /** A record keeps its endpoint if it is recent and its peer came back, or its owner is stopped
      by a block or by its usage, or only unreadable revocations stand in the way. */
  predicate KeepsEndpoint(m: Memory, k: Key, i: RestoreInput)
    requires k in m.peers
  {
    && SeenLately(m.peers[k], i.clock.now)
    && (|| !WithinQuota(m.quotas, OwnerOf(k, m.peers[k]), i.limit, i.clock)
        || (i.mode.SecretMode? && i.revoked.None? && OfMode(i.mode, m.peers[k]))
        || (MayReturn(m, k, i) && AddOutcomeOf(i, k).AddOk?))
  }

  /** An owner of a recent record is over a positive limit and not blocked yet. */
  predicate MustBlock(m: Memory, k: Key, i: RestoreInput)
    requires k in m.peers
  {
    var o := OwnerOf(k, m.peers[k]);
    && SeenLately(m.peers[k], i.clock.now)
    && i.limit > 0 && UsedToday(m.quotas, o, i.clock) > i.limit && i.clock.now >= BlockEnd(m.quotas, o, i.clock)
  }

  /** A block is set, or an endpoint is forgotten that was there, or only its time. */
  predicate RestoreMatters(m: Memory, i: RestoreInput) {
    exists k :: k in m.peers &&
      (MustBlock(m, k, i) ||
       (!KeepsEndpoint(m, k, i) && (m.peers[k].endpoint.Some? || m.peers[k].endpointSeenAt != ZERO_TIME)))
  }

  lemma RestoredRecordIs(m: Memory, k: Key, i: RestoreInput)
    requires Structural(m) && k in m.peers
    ensures RestoredRecord(m, k, i) ==
      if KeepsEndpoint(m, k, i) then m.peers[k] else m.peers[k].(endpoint := None, endpointSeenAt := ZERO_TIME)
  {
    AttemptIsPermitted(m, k, i);
    KeptIs(m, k, i);
    hide Structural, DecideFor, SeenLately, OfMode, WithinQuota;
  }

  lemma KeptIs(m: Memory, k: Key, i: RestoreInput)
    requires Structural(m) && k in m.peers
    ensures DecideFor(m, k, i).Keep? <==>
      && SeenLately(m.peers[k], i.clock.now)
      && (|| !WithinQuota(m.quotas, OwnerOf(k, m.peers[k]), i.limit, i.clock)
          || (i.mode.SecretMode? && i.revoked.None? && OfMode(i.mode, m.peers[k])))
  {
    AccountIsOfTheDay(m.quotas, OwnerOf(k, m.peers[k]), i.clock);
    hide Structural, Normalize, UsedToday, BlockEnd, NextLocalMidnight;
  }

  /** The account of an owner with a recent record after the restore: brought to the day, and
      blocked until its end when it is over a positive limit. */
  function AccountAfter(m: Memory, o: Owner, i: RestoreInput): QuotaRecord
    requires o in m.quotas
  {
    var q := DaysAccount(m.quotas, o, i.clock, m.quotas[o].lastSeen);
    if i.limit > 0 && q.usedBytes > i.limit && i.clock.now >= q.blockedUntil
    then q.(blockedUntil := EndOfDay(i.clock)) else q
  }

  lemma AccountAfterIs(m: Memory, o: Owner, i: RestoreInput)
    requires o in m.quotas
    ensures RestoreQuota(m.quotas[o], i) == AccountAfter(m, o, i)
    ensures NewlyBlocked(m.quotas[o], i) <==>
      i.limit > 0 && UsedToday(m.quotas, o, i.clock) > i.limit && i.clock.now >= BlockEnd(m.quotas, o, i.clock)
    ensures i.clock.now < AccountAfter(m, o, i).blockedUntil <==> !WithinQuota(m.quotas, o, i.limit, i.clock)
  {
    AccountIsOfTheDay(m.quotas, o, i.clock);
    DayIs(i.clock);
    assert i.clock.now < NextLocalMidnight(i.clock);
    hide Normalize, UsedToday, BlockEnd, NextLocalMidnight, EndOfDay;
  }

  lemma RecentIs(r: PeerRecord, now: Time)
    ensures RecentEndpoint(r, now) <==> SeenLately(r, now)
  {
  }

  lemma RestoredOwnerIs(m: Memory, o: Owner, i: RestoreInput)
    ensures o in RecentOwners(m.peers, i.clock.now) <==>
      exists k :: k in m.peers && SeenLately(m.peers[k], i.clock.now) && OwnerOf(k, m.peers[k]) == o
  {
    forall r: PeerRecord ensures RecentEndpoint(r, i.clock.now) <==> SeenLately(r, i.clock.now) {
      RecentIs(r, i.clock.now);
    }
    hide RecentEndpoint, SeenLately, OwnerOf;
  }

  lemma RestoredMemoryIs(m: Memory, i: RestoreInput, k: Key, o: Owner)
    requires Structural(m)
    ensures var t := RestoredMemory(m, i);
      && t == m.(peers := t.peers, quotas := t.quotas, runtime := t.runtime)
      && (k in t.peers <==> k in m.peers) && (k in m.peers ==> t.peers[k] == RestoredRecord(m, k, i))
      && (o in t.quotas <==> o in m.quotas)
      && (o in m.quotas ==>
        t.quotas[o] ==
          if o in RecentOwners(m.peers, i.clock.now) then RestoreQuota(m.quotas[o], i) else m.quotas[o])
      && (k in t.runtime <==> k in m.peers && (k in m.runtime || Restored(m, k, i)))
      && (k in t.runtime ==>
        t.runtime[k] == if Restored(m, k, i) then Runtime(0, 0, i.clock.now) else m.runtime[k])
  {
    hide RestoredRecord, RestoreQuota, DecideFor, AddOutcomeOf, RecentOwners;
    assert k in m.runtime ==> k in m.peers;
    hide Structural;
  }

  /** After a restore every record is as it was, but for the endpoints that are forgotten; the
      accounts of owners with a recent record are brought to the day and blocked when over a
      positive limit, others are as they were; and sessions begin for the peers that came back. */
  lemma RestoreLeavesExactly(s: System, i: RestoreInput, k: Key, o: Owner)
    requires Structural(s.mem) && !s.mem.failed
    ensures var m, t := s.mem, RestorePeers(s, i).sys.mem;
      && t.window == m.window && t.counts == m.counts
      && (k in t.peers <==> k in m.peers)
      && (k in m.peers ==>
        t.peers[k] ==
          if KeepsEndpoint(m, k, i) then m.peers[k] else m.peers[k].(endpoint := None, endpointSeenAt := ZERO_TIME))
      && (o in t.quotas <==> o in m.quotas)
      && (o in m.quotas ==>
        t.quotas[o] ==
          if exists j :: j in m.peers && SeenLately(m.peers[j], i.clock.now) && OwnerOf(j, m.peers[j]) == o
          then AccountAfter(m, o, i) else m.quotas[o])
      && (k in t.runtime <==> k in m.runtime || (MayReturn(m, k, i) && AddOutcomeOf(i, k).AddOk?))
      && (k in t.runtime ==>
        t.runtime[k] ==
          if MayReturn(m, k, i) && AddOutcomeOf(i, k).AddOk? then Runtime(0, 0, i.clock.now) else m.runtime[k])
  {
    hide *;
    RestoreKeepsRest(s, i);
    RestoredMemoryIs(s.mem, i, k, o);
    RestoredOwnerIs(s.mem, o, i);
    if k in s.mem.peers {
      RestoredRecordIs(s.mem, k, i);
      ReturnIs(s.mem, k, i);
    } else {
      UnrecordedStays(s.mem, k, i);
    }
    if o in s.mem.quotas {
      AccountAfterIs(s.mem, o, i);
    }
  }

  lemma RestoreKeepsRest(s: System, i: RestoreInput)
    requires Structural(s.mem) && !s.mem.failed
    ensures var t, m := RestorePeers(s, i).sys.mem, RestoredMemory(s.mem, i);
      t.peers == m.peers && t.quotas == m.quotas && t.runtime == m.runtime && t.window == m.window &&
        t.counts == m.counts
  {
    hide Structural, RestoredMemory, RestoredDevice, RestoreChanges;
  }

  lemma ReturnIs(m: Memory, k: Key, i: RestoreInput)
    requires Structural(m) && k in m.peers
    ensures Restored(m, k, i) <==> MayReturn(m, k, i) && AddOutcomeOf(i, k).AddOk?
  {
    AttemptIsPermitted(m, k, i);
    hide Structural, DecideFor, MayReturn;
  }

  lemma UnrecordedStays(m: Memory, k: Key, i: RestoreInput)
    requires Structural(m) && k !in m.peers
    ensures k !in m.runtime && !MayReturn(m, k, i)
  {
  }

  /** A restore writes the file again if and only if it forgot an endpoint or set a block; it
      reports an error exactly when that write fails, and then the latch is set. */
  lemma RestoreRewritesExactly(s: System, i: RestoreInput)
    requires Structural(s.mem) && !s.mem.failed
    ensures var r, matters := RestorePeers(s, i), RestoreMatters(s.mem, i);
      && r.error == (if matters && i.save.SaveFailed? then StateUnavailable else NoError)
      && r.sys.mem.failed == (matters && i.save.SaveFailed?)
      && r.sys.images ==
        if !matters then s.images
        else if i.save.SaveOk? then {Some(DiskOf(r.sys.mem))}
        else s.images + {Some(DiskOf(r.sys.mem))}
  {
    ChangesAreMatters(s.mem, i);
    hide Structural, RestoredMemory, RestoredDevice, RestoreChanges, RestoreMatters;
    assert RestoredMemory(s.mem, i).failed == s.mem.failed by { RestoredMemoryIs(s.mem, i, 0, EmptyOwner); }
  }

  lemma ChangesAreMatters(m: Memory, i: RestoreInput)
    requires Structural(m)
    ensures RestoreChanges(m, i) <==> RestoreMatters(m, i)
  {
    hide RestoredRecord, KeepsEndpoint, NewlyBlocked, MustBlock, RecentOwners, Structural;
    forall k | k in m.peers
      ensures RestoredRecord(m, k, i) != m.peers[k] <==>
        !KeepsEndpoint(m, k, i) && (m.peers[k].endpoint.Some? || m.peers[k].endpointSeenAt != ZERO_TIME)
    {
      RestoredRecordIs(m, k, i);
    }
    BlocksAreSet(m, i);
  }

  lemma BlocksAreSet(m: Memory, i: RestoreInput)
    requires Structural(m)
    ensures (exists o :: o in RecentOwners(m.peers, i.clock.now) && o in m.quotas && NewlyBlocked(m.quotas[o], i)) <==>
      exists k :: k in m.peers && MustBlock(m, k, i)
  {
    hide NewlyBlocked, RecentOwners, RecentEndpoint, SeenLately, UsedToday, BlockEnd;
    if o :| o in RecentOwners(m.peers, i.clock.now) && o in m.quotas && NewlyBlocked(m.quotas[o], i) {
      RestoredOwnerIs(m, o, i);
      AccountAfterIs(m, o, i);
      var k :| k in m.peers && SeenLately(m.peers[k], i.clock.now) && OwnerOf(k, m.peers[k]) == o;
      assert MustBlock(m, k, i);
    }
    if k :| k in m.peers && MustBlock(m, k, i) {
      var o := OwnerOf(k, m.peers[k]);
      RestoredOwnerIs(m, o, i);
      AccountAfterIs(m, o, i);
      assert o in RecentOwners(m.peers, i.clock.now) && NewlyBlocked(m.quotas[o], i);
    }
  }
}
