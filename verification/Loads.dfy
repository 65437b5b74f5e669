/** Which state files a load refuses, and what it leaves of the others: in terms of the decoded
    fields of the file. */
module Loads {
  import opened Clocks
  import opened Records
  import opened Operations
  import opened Terms

  /** An empty owner, negative usage, a date that is none, or no last-seen time. */
  predicate BadAccount(o: Owner, q: QuotaRecord) {
    o == EmptyOwner || q.usedBytes < 0 || q.usageDate.Malformed? || q.lastSeen == ZERO_TIME
  }

  /** No key id, a generation where there must be none or none where there must be one, a missing
      timestamp, or an endpoint without its time. */
  predicate BadRecord(r: PeerRecord) {
    || r.keyID == NoId
    || (r.keyID == OpenId && r.generation != NoGeneration)
    || (r.keyID != OpenId && r.generation == NoGeneration)
    || r.createdAt == ZERO_TIME || r.lastSeen == ZERO_TIME
    || (r.endpoint.Some? && r.endpointSeenAt == ZERO_TIME)
  }

  /** Another version, a missing field, or a bad or unowned entry. */
  predicate BadFile(d: Disk) {
    || d.version != 2
    || d.peers.None? || d.quotas.None? || d.counts.None? || d.window == ZERO_TIME
    || d.strayKeys != {}
    || (exists o :: o in d.quotas.value && BadAccount(o, d.quotas.value[o]))
    || (exists k :: k in d.peers.value && BadRecord(d.peers.value[k]))
    || (exists k :: k in d.peers.value && OwnerOf(k, d.peers.value[k]) !in d.quotas.value)
    || (exists ip :: ip in d.counts.value && d.counts.value[ip] < 0)
  }

  lemma BadIsNotLoadable(d: Disk)
    ensures BadFile(d) <==> !Loadable(d)
  {
    if HeaderLoadable(d) && d.strayKeys == {} {
      assert QuotasLoadable(d.quotas.value) <==>
        !(exists o :: o in d.quotas.value && BadAccount(o, d.quotas.value[o]));
      PeersAreLoadable(d.peers.value, d.quotas.value);
      hide QuotasLoadable, PeersLoadable, BadAccount, BadRecord;
    }
  }

  lemma PeersAreLoadable(peers: map<Key, PeerRecord>, quotas: map<Owner, QuotaRecord>)
    ensures PeersLoadable(peers, quotas) <==>
      && !(exists k :: k in peers && BadRecord(peers[k]))
      && !(exists k :: k in peers && OwnerOf(k, peers[k]) !in quotas)
  {
    forall k | k in peers
      ensures PeerLoadable(k, peers[k], quotas) <==> !BadRecord(peers[k]) && OwnerOf(k, peers[k]) in quotas
    {
    }
    hide PeerLoadable, BadRecord, OwnerOf;
  }

  /** A load refuses a file if and only if the file is bad, and then it saves nothing; otherwise it
      fails only when its own save fails. */
  lemma LoadRefusesExactly(s: System, image: Option<Disk>, c: Clock, save: SaveOutcome)
    ensures var r, bad := Load(s, image, c, save), image.Some? && BadFile(image.value);
      && (r.error == InvalidState <==> bad)
      && (r.error == StateUnavailable <==> !bad && save.SaveFailed?)
      && (r.error == NoError <==> !bad && save.SaveOk?)
      && (bad ==> r.sys.images == s.images && r.sys.device == s.device)
  {
    hide Loadable, BadFile, RollWindow, DiskOf;
    if image.Some? {
      BadIsNotLoadable(image.value);
    }
    if !(image.Some? && BadFile(image.value)) {
      RollingKeepsLatch(s.mem.window, image, c);
    }
  }

  lemma RollingKeepsLatch(window: Time, image: Option<Disk>, c: Clock)
    requires image.Some? ==> Loadable(image.value)
    ensures !RollWindow(Recall(image, window, c), c.now, DAY).failed
  {
    hide Loadable;
  }

  /** The issue window a load goes by: the file's, or without a file the one before. */
  function FoundWindow(s: System, image: Option<Disk>): Time {
    if image.Some? then image.value.window else s.mem.window
  }

  /** A window that began less than a day ago goes on. */
  predicate WindowGoesOn(s: System, image: Option<Disk>, c: Clock) {
    FoundWindow(s, image) != ZERO_TIME && 0 <= c.now - FoundWindow(s, image) < 24 * HOUR
  }

  /** What a load that is not refused leaves: the file's records, its accounts brought to the day,
      no session, the window with its positive counts unless it is over, and the latch only if
      the save failed; without a file the maps are empty. */
  lemma LoadedExactly(s: System, image: Option<Disk>, c: Clock, save: SaveOutcome)
    requires image.Some? ==> !BadFile(image.value)
    ensures var t, goes := Load(s, image, c, save).sys, WindowGoesOn(s, image, c);
      && t.mem.peers == (if image.Some? then image.value.peers.value else map[])
      && t.mem.quotas.Keys == (if image.Some? then image.value.quotas.value.Keys else {})
      && (forall o :: o in t.mem.quotas ==>
        var saved := image.value.quotas.value; t.mem.quotas[o] == DaysAccount(saved, o, c, saved[o].lastSeen))
      && t.mem.runtime == map[]
      && t.mem.window == (if goes then FoundWindow(s, image) else c.now)
      && (forall ip :: ip in t.mem.counts <==>
        goes && image.Some? && ip in image.value.counts.value && image.value.counts.value[ip] > 0)
      && (forall ip :: ip in t.mem.counts ==> t.mem.counts[ip] == image.value.counts.value[ip])
      && (t.mem.failed <==> save.SaveFailed?)
      && t.images == (if save.SaveOk? then {Some(DiskOf(t.mem))} else s.images + {Some(DiskOf(t.mem))})
      && t.device == s.device
  {
    if image.Some? {
      BadIsNotLoadable(image.value);
      RecalledAccounts(image.value, c);
    }
    hide Loadable, BadFile, NormalizeAll, DaysAccount;
  }

  lemma RecalledAccounts(d: Disk, c: Clock)
    requires d.quotas.Some?
    ensures var n := NormalizeAll(d.quotas.value, c);
      && n.Keys == d.quotas.value.Keys
      && (forall o :: o in n ==> n[o] == DaysAccount(d.quotas.value, o, c, d.quotas.value[o].lastSeen))
  {
    forall o | o in d.quotas.value
      ensures Normalize(d.quotas.value[o], c) == DaysAccount(d.quotas.value, o, c, d.quotas.value[o].lastSeen)
    {
      AccountIsOfTheDay(d.quotas.value, o, c);
    }
    hide Normalize, DaysAccount;
  }
}
