/** What a client is told when it registers a peer or asks for a key, and what is then recorded:
    every answer with its exact condition on the inputs and on the state before the call. */
module Admissions {
  import opened Clocks
  import opened Records
  import opened Operations
  import opened Structure
  import opened Terms

  // ---------------------------------------------------------------- registerPeer

  /** The credential of a valid request, by mode; None if the request is not valid. In the secret
      mode the signature must hold for an issued id and the revocation list must be readable and
      not name it. */
  function ValidCredential(i: RegisterInput): Option<Credential> {
    match i.mode
    case SecretMode(digest) =>
      if i.validated.Some? && i.validated.value.IssuedId? && i.revoked.Some? && i.validated.value !in i.revoked.value
      then Some(Credential(i.validated.value, Digest(digest))) else None
    case SharedMode(key, digest) => if i.request == key then Some(Credential(SharedId, Digest(digest))) else None
    case OpenMode => Some(Credential(OpenId, NoGeneration))
  }

  /** The owner a valid request is charged to: in the open mode every peer for itself. */
  function ValidOwner(i: RegisterInput): Option<Owner> {
    match ValidCredential(i)
    case None => None
    case Some(c) => Some(if i.mode.OpenMode? then PeerOwner(i.peer) else KeyOwner(c.generation, c.keyID))
  }

  /** The running peers of `o` other than `peer`. */
  function RunningOthers(m: Memory, o: Owner, peer: Key): set<Key> {
    set k | k in m.runtime.Keys * m.peers.Keys - {peer} && OwnerOf(k, m.peers[k]) == o
  }

  /** Nothing is latched, the request is valid, its owner is neither blocked nor over a positive
      limit and, for an issued key, runs at most two other peers. */
  predicate Admissible(s: System, i: RegisterInput) {
    && !s.mem.failed
    && ValidOwner(i).Some?
    && WithinQuota(s.mem.quotas, ValidOwner(i).value, i.limit, i.clock)
    && (i.mode.SecretMode? ==> |RunningOthers(s.mem, ValidOwner(i).value, i.peer)| < 3)
  }

  /** A registration succeeds if and only if nothing is latched, the request is valid, its owner
      is neither blocked nor over a positive limit nor, for an issued key, running three other
      peers, and both the save and the device call work. Then, and otherwise only when the
      cleanup of a failed device call failed too, the peer is recorded for that owner. */
  lemma RegistrationSucceedsExactly(s: System, i: RegisterInput)
    ensures RegisterPeer(s, i).error == NoError <==>
      && !s.mem.failed && ValidOwner(i).Some? && i.save.SaveOk? && i.add.AddOk?
      && i.clock.now >= BlockEnd(s.mem.quotas, ValidOwner(i).value, i.clock)
      && (i.limit > 0 ==> UsedToday(s.mem.quotas, ValidOwner(i).value, i.clock) <= i.limit)
      && (i.mode.SecretMode? ==> |RunningOthers(s.mem, ValidOwner(i).value, i.peer)| < 3)
    ensures var r := RegisterPeer(s, i);
      if r.error == NoError || r.error == AddAndCleanupFailed then
        && i.peer in r.sys.mem.peers && i.peer in r.sys.mem.runtime
        && ValidOwner(i) == Some(OwnerOf(i.peer, r.sys.mem.peers[i.peer]))
        && (r.error == NoError ==> i.peer in r.sys.device)
      else
        r.sys.mem.peers == s.mem.peers && r.sys.mem.quotas == s.mem.quotas
  {
    RegistrationAnswers(s, i);
    RegistrationEffect(s, i);
    if ValidOwner(i).Some? {
      RecordedOwner(s.mem, i);
    }
    hide RegisterPeer, ValidOwner, RunningOthers, BlockEnd, UsedToday, Recorded, Session, DiskOf;
  }

  lemma RecordedOwner(m: Memory, i: RegisterInput)
    requires ValidOwner(i).Some?
    ensures i.peer in Recorded(m, i).peers
    ensures ValidOwner(i) == Some(OwnerOf(i.peer, Recorded(m, i).peers[i.peer]))
  {
    hide DaysAccount;
  }

  /** Every answer of a registration, with its exact condition. */
  lemma RegistrationAnswers(s: System, i: RegisterInput)
    ensures var e, open := RegisterPeer(s, i).error, !s.mem.failed && ValidOwner(i).Some?;
      && (e == RevocationsUnavailable <==>
        !s.mem.failed && i.mode.SecretMode? && i.validated.Some? && i.revoked.None?)
      && (e == Unauthorized <==>
        !s.mem.failed && ValidOwner(i).None? && !(i.mode.SecretMode? && i.validated.Some? && i.revoked.None?))
      && (e == PeerBlocked <==> open && !WithinQuota(s.mem.quotas, ValidOwner(i).value, i.limit, i.clock))
      && (e == PeerLimitReached <==>
        && open && WithinQuota(s.mem.quotas, ValidOwner(i).value, i.limit, i.clock)
        && i.mode.SecretMode? && |RunningOthers(s.mem, ValidOwner(i).value, i.peer)| >= 3)
      && (e == NoError <==> Admissible(s, i) && i.save.SaveOk? && i.add.AddOk?)
      && (e == AddAndCleanupFailed <==> Admissible(s, i) && i.save.SaveOk? && !i.add.AddOk? && !i.cleanup.RemoveOk?)
      && (e == AddFailed <==>
        Admissible(s, i) && i.save.SaveOk? && !i.add.AddOk? && i.cleanup.RemoveOk? && i.rollback.SaveOk?)
      && (e == StateUnavailable <==>
        || s.mem.failed
        || (Admissible(s, i) && i.save.SaveFailed?)
        || (Admissible(s, i) && !i.add.AddOk? && i.cleanup.RemoveOk? && i.rollback.SaveFailed?))
      && RegisterPeer(s, i).credential ==
        if open then ValidCredential(i).value
        else if !s.mem.failed && i.mode.SecretMode? && i.validated.Some? &&
          (i.revoked.None? || i.validated.value in i.revoked.value)
        then Credential(i.validated.value, Digest(i.mode.digest))
        else Credential(NoId, NoGeneration)
  {
    if !s.mem.failed && ValidOwner(i).Some? {
      AdmissionAnswers(s, i);
    }
    hide Admit, WithinQuota, RunningOthers;
  }

  /** A valid request reaches the admission with its credential. */
  lemma AdmissionAnswers(s: System, i: RegisterInput)
    requires !s.mem.failed && ValidOwner(i).Some?
    ensures var e := Admit(s, i, ValidCredential(i).value).error;
      && RegisterPeer(s, i) == Admit(s, i, ValidCredential(i).value)
      && Admit(s, i, ValidCredential(i).value).credential == ValidCredential(i).value
      && e != RevocationsUnavailable && e != Unauthorized
      && (e == PeerBlocked <==> !WithinQuota(s.mem.quotas, ValidOwner(i).value, i.limit, i.clock))
      && (e == PeerLimitReached <==>
        && WithinQuota(s.mem.quotas, ValidOwner(i).value, i.limit, i.clock)
        && i.mode.SecretMode? && |RunningOthers(s.mem, ValidOwner(i).value, i.peer)| >= 3)
      && (e == NoError <==> Admissible(s, i) && i.save.SaveOk? && i.add.AddOk?)
      && (e == AddAndCleanupFailed <==> Admissible(s, i) && i.save.SaveOk? && !i.add.AddOk? && !i.cleanup.RemoveOk?)
      && (e == AddFailed <==>
        Admissible(s, i) && i.save.SaveOk? && !i.add.AddOk? && i.cleanup.RemoveOk? && i.rollback.SaveOk?)
      && (e == StateUnavailable <==>
        && Admissible(s, i)
        && (i.save.SaveFailed? || (!i.add.AddOk? && i.cleanup.RemoveOk? && i.rollback.SaveFailed?)))
  {
    hide Admit, WithinQuota, RunningOthers, OtherPeers, Written, Touch, AddTo, RemoveFrom, DiskOf;
    var credential := ValidCredential(i).value;
    OthersAreCounted(s.mem, ValidOwner(i).value, i.peer);
    var c := AdmitCases(s, i, credential);
  }

  lemma OthersAreCounted(m: Memory, o: Owner, peer: Key)
    ensures OtherPeers(m, o, peer) == RunningOthers(m, o, peer)
  {
  }

  /** What an admissible registration writes: the peer's record under its new credential, seen now
      and otherwise as it was, and its owner's account of the day. */
  function Recorded(m: Memory, i: RegisterInput): Memory
    requires ValidOwner(i).Some?
  {
    var c, o, now := ValidCredential(i).value, ValidOwner(i).value, i.clock.now;
    m.(
      peers := m.peers[i.peer := if i.peer in m.peers
        then m.peers[i.peer].(keyID := c.keyID, generation := c.generation, lastSeen := now)
        else PeerRecord(c.keyID, c.generation, now, now, None, ZERO_TIME)],
      quotas := m.quotas[o := DaysAccount(m.quotas, o, i.clock, now)])
  }

  /** The peer's session from now on; the counters it was last charged for stay. */
  function Session(m: Memory, i: RegisterInput): Runtime {
    if i.peer in m.runtime then Runtime(m.runtime[i.peer].lastRx, m.runtime[i.peer].lastTx, i.clock.now)
    else Runtime(0, 0, i.clock.now)
  }

  /** The whole effect of a registration: the record and the session when the device call works or
      cannot be cleaned up; the latch when the first save fails; everything back but the session,
      and the peer off the device, after a cleanup; and nothing when it is not admissible. */
  lemma RegistrationEffect(s: System, i: RegisterInput)
    ensures var t := RegisterPeer(s, i).sys;
      if !Admissible(s, i) then t == s
      else if i.save.SaveFailed? then
        t == System(s.mem.(failed := true), s.images + {Some(DiskOf(Recorded(s.mem, i)))}, s.device)
      else if i.add.AddOk? || !i.cleanup.RemoveOk? then
        && t.mem == Recorded(s.mem, i).(runtime := s.mem.runtime[i.peer := Session(s.mem, i)])
        && t.images == {Some(DiskOf(Recorded(s.mem, i)))}
        && (i.peer in t.device <==>
          || i.add.AddOk?
          || (i.cleanup.RemoveFailedKept? && (i.add.AddFailedPartial? || i.peer in s.device)))
        && (i.peer in t.device ==>
          t.device[i.peer] == if i.peer in s.device then s.device[i.peer] else Counters(0, 0))
        && t.device - {i.peer} == s.device - {i.peer}
      else
        && t.mem == s.mem.(runtime := s.mem.runtime - {i.peer}, failed := i.rollback.SaveFailed?)
        && t.images == (if i.rollback.SaveOk? then {Some(DiskOf(s.mem))}
          else {Some(DiskOf(s.mem)), Some(DiskOf(Recorded(s.mem, i)))})
        && t.device == s.device - {i.peer}
  {
    hide *;
    if !s.mem.failed && ValidOwner(i).Some? {
      AdmissionAnswers(s, i);
      var c := AdmissionCases(s, i);
      DeviceAfterAdding(s.device, i.peer, i.add, i.cleanup);
      WrittenIsRecorded(s.mem, i);
      SessionIsTouched(s.mem, i);
    } else {
      RefusedAtOnce(s, i);
    }
  }

  lemma RefusedAtOnce(s: System, i: RegisterInput)
    requires s.mem.failed || ValidOwner(i).None?
    ensures RegisterPeer(s, i).sys == s && !Admissible(s, i)
  {
    hide Admit, WithinQuota, RunningOthers;
  }

  /** `AdmitCases` for a valid request. */
  lemma AdmissionCases(s: System, i: RegisterInput) returns (c: AdmitCase)
    requires !s.mem.failed && ValidOwner(i).Some?
    ensures var written := Written(s.mem, i.peer, ValidCredential(i).value, i.clock);
      var t := Admit(s, i, ValidCredential(i).value).sys;
      match c
      case Refused => !Admissible(s, i) && t == s
      case SaveLost =>
        && Admissible(s, i) && i.save.SaveFailed?
        && t == System(s.mem.(failed := true), s.images + {Some(DiskOf(written))}, s.device)
      case Started =>
        && Admissible(s, i) && i.save.SaveOk? && (i.add.AddOk? || !i.cleanup.RemoveOk?)
        && t.mem == written.(runtime := Touch(s.mem.runtime, i.peer, i.clock.now))
        && t.images == {Some(DiskOf(written))}
        && t.device == (if i.add.AddOk? then AddTo(s.device, i.peer, AddOk)
          else RemoveFrom(AddTo(s.device, i.peer, i.add), i.peer, i.cleanup))
      case Undone =>
        && Admissible(s, i) && i.save.SaveOk? && !i.add.AddOk? && i.cleanup.RemoveOk?
        && t.mem == s.mem.(runtime := s.mem.runtime - {i.peer}, failed := i.rollback.SaveFailed?)
        && t.images == (if i.rollback.SaveOk? then {Some(DiskOf(s.mem))}
          else {Some(DiskOf(s.mem)), Some(DiskOf(written))})
        && t.device == RemoveFrom(AddTo(s.device, i.peer, i.add), i.peer, RemoveOk)
  {
    hide Admit, WithinQuota, RunningOthers, OtherPeers, Written, Touch, AddTo, RemoveFrom, DiskOf;
    OthersAreCounted(s.mem, ValidOwner(i).value, i.peer);
    c := AdmitCases(s, i, ValidCredential(i).value);
  }

  lemma WrittenIsRecorded(m: Memory, i: RegisterInput)
    requires ValidOwner(i).Some?
    ensures Written(m, i.peer, ValidCredential(i).value, i.clock) == Recorded(m, i)
  {
    AccountIsOfTheDay(m.quotas, ValidOwner(i).value, i.clock);
    hide AccountOf;
  }

  lemma SessionIsTouched(m: Memory, i: RegisterInput)
    ensures Touch(m.runtime, i.peer, i.clock.now) == m.runtime[i.peer := Session(m, i)]
  {
  }

  lemma DeviceAfterAdding(device: map<Key, Counters>, k: Key, add: AddOutcome, cleanup: RemoveOutcome)
    ensures AddTo(device, k, AddOk) == if k in device then device else device[k := Counters(0, 0)]
    ensures RemoveFrom(AddTo(device, k, add), k, RemoveOk) == device - {k}
    ensures !add.AddOk? ==>
      RemoveFrom(AddTo(device, k, add), k, cleanup) ==
        if !cleanup.RemoveFailedKept? then device - {k}
        else if add.AddFailedPartial? && k !in device then device[k := Counters(0, 0)]
        else device
  {
    assert RemoveFrom(AddTo(device, k, add), k, RemoveOk) == device - {k};
  }

  // ---------------------------------------------------------------- issueAuthKey

  /** The current window is over, or the clock is before its start. */
  predicate WindowOver(m: Memory, i: IssueInput) {
    m.window == ZERO_TIME || !(0 <= i.clock.now - m.window < i.window)
  }

  function WindowStart(m: Memory, i: IssueInput): Time {
    if WindowOver(m, i) then i.clock.now else m.window
  }

  /** The keys that `ip` was given in the window of this request. */
  function GivenInWindow(m: Memory, i: IssueInput, ip: Name): int {
    if !WindowOver(m, i) && ip in m.counts then m.counts[ip] else 0
  }

  /** A secret is set, a key was generated, nothing is latched and the secret is still the same. */
  predicate Issuable(s: System, i: IssueInput) {
    i.before.Some? && i.key.Some? && !s.mem.failed && i.after == i.before
  }

  /** A key request is answered with the generated key if and only if a secret is set, a key was
      generated, nothing is latched, the secret is still the same under the lock, the address got
      fewer keys than the limit in the current window, and the save works; and otherwise with no
      key and the reason. */
  lemma IssueSucceedsExactly(s: System, i: IssueInput)
    ensures var r, given := IssueAuthKey(s, i), GivenInWindow(s.mem, i, i.ip);
      && r.key == (if r.error == NoError then i.key else None)
      && (r.error == NoError <==>
        && i.before.Some? && i.key.Some? && !s.mem.failed && i.after == i.before
        && given < i.max && i.save.SaveOk?)
      && (r.error == IssueFailed <==> i.before.Some? && i.key.None?)
      && (r.error == Unauthorized <==>
        i.before.None? || (i.key.Some? && !s.mem.failed && i.after != i.before))
      && (r.error.RateLimited? <==> Issuable(s, i) && given >= i.max)
      && (r.error.RateLimited? ==>
        var left := WindowStart(s.mem, i) + i.window - i.clock.now;
        r.error.retryAfter == if left < 1_000_000_000 then 1_000_000_000 else left)
      && (r.error == StateUnavailable <==>
        && i.before.Some? && i.key.Some?
        && (s.mem.failed || (i.after == i.before && given < i.max && i.save.SaveFailed?)))
  {
  }

  /** The whole effect of a key request on the counts, the file and the latch: a request that gets
      as far as the limit starts a new window when the old one is over, and one that is answered
      with a key counts one more for its address, in memory and in the file. */
  lemma IssueEffect(s: System, i: IssueInput)
    ensures var r := IssueAuthKey(s, i);
      var given := GivenInWindow(s.mem, i, i.ip);
      var rolled :=
        s.mem.(window := WindowStart(s.mem, i), counts := if WindowOver(s.mem, i) then map[] else s.mem.counts);
      var counted := rolled.(counts := rolled.counts[i.ip := given + 1]);
      if !Issuable(s, i) then r.sys == s
      else if given >= i.max then r.sys == s.(mem := rolled)
      else if i.save.SaveOk? then r.sys == s.(mem := counted, images := {Some(DiskOf(counted))})
      else
        && r.sys.mem == rolled.(counts := rolled.counts[i.ip := given], failed := true)
        && r.sys.images == s.images + {Some(DiskOf(counted))} && r.sys.device == s.device
  {
    hide DiskOf;
  }
}
