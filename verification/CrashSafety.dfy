/** Crash consistency of the state file: whatever system call fails and wherever the process or
    the machine stops, the next load finds a complete state, an old one or the one being saved;
    it finds the new one once a save has returned nil, provided the directory itself was durable;
    and it never finds the marker without the state. */
module CrashSafety {
  import opened Records
  import opened Operations
  import opened FileSystem
  import opened Store

  // ---------------------------------------------------------------- what every disk state satisfies

  ghost predicate Known(fs: FS, file: Option<nat>) {
    file.Some? ==> file.value in fs.files && file.value < fs.next
  }

  /** The state file is complete and synced, a marker comes with a state, names are not shared. */
  ghost predicate SafeDir(fs: FS, dir: Dir) {
    && Known(fs, dir.state) && Known(fs, dir.temp) && Known(fs, dir.marker)
    && (dir.state.Some? ==> fs.files[dir.state.value].synced && fs.files[dir.state.value].content.Image?)
    && (dir.marker.Some? ==> dir.state.Some? && dir.marker != dir.state && dir.marker != dir.temp)
    && (dir.temp.Some? ==> dir.temp != dir.state)
  }

  /** A file that may be written is not the state file of any directory a crash may leave. */
  ghost predicate Writable(fs: FS, file: Option<nat>) {
    file.Some? ==> forall dir :: dir in fs.may ==> dir.state != file
  }

  ghost predicate Safe(fs: FS) {
    && fs.now in fs.may
    && (forall dir :: dir in fs.may ==> SafeDir(fs, dir))
    && Writable(fs, fs.now.temp) && Writable(fs, fs.now.marker)
    && (fs.home.Missing? ==> fs.may == {EMPTY_DIR})
  }

  function StateOf(fs: FS, dir: Dir): Option<Disk> {
    match dir.state
    case Some(i) => if i in fs.files && fs.files[i].content.Image? then Some(fs.files[i].content.disk) else None
    case None => None
  }

  /** The states a load may find after a power loss that leaves the directory in place. */
  ghost function Images(fs: FS): set<Option<Disk>> {
    set dir | dir in fs.may :: StateOf(fs, dir)
  }

  /** ... and after any power loss. */
  ghost function Possible(fs: FS): set<Option<Disk>> {
    Images(fs) + if fs.home.Durable? then {} else {None}
  }

  // ---------------------------------------------------------------- one system call at a time

  ghost predicate Kept(fs: FS, after: FS) {
    Safe(after) && Images(after) == Images(fs)
  }

  lemma SameFilesSameImages(fs: FS, after: FS)
    requires Safe(fs) && after.may == fs.may
    requires forall dir :: dir in fs.may && dir.state.Some? ==>
      dir.state.value in after.files && after.files[dir.state.value] == fs.files[dir.state.value]
    ensures Images(after) == Images(fs)
  {
    assert forall dir :: dir in fs.may ==> SafeDir(fs, dir) && StateOf(after, dir) == StateOf(fs, dir);
  }

  lemma MakeHomeKeeps(fs: FS)
    requires Safe(fs)
    ensures Kept(fs, MakeHome(fs))
  {
    SameFilesSameImages(fs, MakeHome(fs));
  }

  /** Changing the content of a file that no state name may stand for. */
  lemma WritingKeeps(fs: FS, i: nat, file: File)
    requires Safe(fs) && i in fs.files && i < fs.next && Writable(fs, Some(i))
    ensures Kept(fs, fs.(files := fs.files[i := file]))
  {
    var after := fs.(files := fs.files[i := file]);
    forall dir | dir in fs.may ensures SafeDir(after, dir) {
      assert SafeDir(fs, dir);
    }
    SameFilesSameImages(fs, after);
  }

  lemma PutKeeps(fs: FS, slot: Slot, content: Content)
    requires Safe(fs)
    ensures Kept(fs, Put(fs, slot, content))
  {
    assert SafeDir(fs, fs.now);
    if Inode(fs, slot).Some? {
      WritingKeeps(fs, Inode(fs, slot).value, File(content, false));
    }
  }

  lemma SyncFileKeeps(fs: FS, slot: Slot)
    requires Safe(fs)
    ensures Kept(fs, SyncFile(fs, slot))
  {
    assert SafeDir(fs, fs.now);
    if Inode(fs, slot).Some? {
      var i := Inode(fs, slot).value;
      WritingKeeps(fs, i, fs.files[i].(synced := true));
    }
  }

  lemma NewFileKeeps(fs: FS, file: File)
    requires Safe(fs)
    ensures var after := fs.(files := fs.files[fs.next := file], next := fs.next + 1);
      Kept(fs, after) && forall dir :: dir in fs.may ==>
        dir.state != Some(fs.next) && dir.temp != Some(fs.next) && dir.marker != Some(fs.next)
  {
    var after := fs.(files := fs.files[fs.next := file], next := fs.next + 1);
    forall dir | dir in fs.may
      ensures SafeDir(after, dir) && dir.state != Some(fs.next) && dir.temp != Some(fs.next)
      ensures dir.marker != Some(fs.next)
    {
      assert SafeDir(fs, dir);
    }
    SameFilesSameImages(fs, after);
  }

  lemma BindKeeps(fs: FS, dir: Dir)
    requires Safe(fs) && !fs.home.Missing? && SafeDir(fs, dir) && Writable(fs, dir.temp) && Writable(fs, dir.marker)
    ensures Safe(Bind(fs, dir)) && Images(Bind(fs, dir)) == Images(fs) + {StateOf(fs, dir)}
  {
    var after := Bind(fs, dir);
    forall other | other in after.may ensures SafeDir(after, other) && StateOf(after, other) == StateOf(fs, other) {
      assert other in fs.may ==> SafeDir(fs, other);
    }
    assert StateOf(after, dir) in Images(after);
    forall other | other in fs.may ensures StateOf(fs, other) in Images(after) {
      assert StateOf(after, other) in Images(after);
    }
  }

  /** A marker may be created only when every directory a crash may leave has a state. */
  lemma TruncateKeeps(fs: FS, slot: Slot)
    requires Safe(fs) && !fs.home.Missing?
    requires slot.MarkerFile? ==> fs.now.state.Some?
    ensures Kept(fs, Truncate(fs, slot))
    ensures Truncate(fs, slot).now.state == fs.now.state && Truncate(fs, slot).home == fs.home
    ensures Inode(Truncate(fs, slot), slot).Some?
  {
    match Inode(fs, slot)
    case Some(_) => PutKeeps(fs, slot, EMPTY);
    case None =>
      NewFileKeeps(fs, File(EMPTY, false));
      var grown := fs.(files := fs.files[fs.next := File(EMPTY, false)], next := fs.next + 1);
      var dir := if slot.TempFile? then fs.now.(temp := Some(fs.next)) else fs.now.(marker := Some(fs.next));
      assert SafeDir(grown, fs.now);
      BindKeeps(grown, dir);
      assert StateOf(grown, fs.now) in Images(grown);
      assert Images(grown) + {StateOf(grown, dir)} == Images(grown);
  }

  /** The rename adds the state in the temporary file to what a crash may leave. */
  lemma RenameAdds(fs: FS, i: nat, d: Disk)
    requires Safe(fs) && !fs.home.Missing? && fs.now.temp == Some(i) && fs.files[i] == File(Image(d), true)
    ensures Safe(Rename(fs)) && Images(Rename(fs)) == Images(fs) + {Some(d)}
  {
    assert SafeDir(fs, fs.now);
    BindKeeps(fs, fs.now.(state := fs.now.temp, temp := None));
  }

  /** Syncing the directory leaves only what processes see. */
  lemma SyncDirNarrows(fs: FS)
    requires Safe(fs)
    ensures Safe(SyncDir(fs)) && Images(SyncDir(fs)) == {StateOf(fs, fs.now)} && StateOf(fs, fs.now) in Images(fs)
  {
    assert SafeDir(fs, fs.now) && SafeDir(SyncDir(fs), fs.now);
  }

  // ---------------------------------------------------------------- every state of a save

  /** Every state on the way is safe and offers a load nothing outside `allowed`. */
  ghost predicate Within(states: seq<FS>, home: Home, allowed: set<Option<Disk>>) {
    forall x :: x in states ==> Safe(x) && Images(x) <= allowed && x.home == home
  }

  lemma WithinJoins(a: seq<FS>, b: seq<FS>, home: Home, allowed: set<Option<Disk>>)
    requires Within(a, home, allowed) && Within(b, home, allowed)
    ensures Within(a + b, home, allowed)
  {
  }

  lemma WriteIsSafe(fs: FS, slot: Slot, content: Content, f: WriteFaults)
    requires Safe(fs) && !fs.home.Missing? && (slot.MarkerFile? ==> fs.now.state.Some?)
    ensures var t := WriteTrace(fs, slot, content, f);
      && Within(t.states, fs.home, Images(fs))
      && (t.ok ==>
        var x := Final(fs, t.states);
        && Safe(x) && Images(x) == Images(fs) && x.home == fs.home && x.now.state == fs.now.state
        && Inode(x, slot).Some? && Inode(x, slot).value in x.files &&
          x.files[Inode(x, slot).value] == File(content, true))
  {
    hide Truncate, Put, SyncFile, Safe, Images, Inode;
    var emptied := Truncate(fs, slot);
    TruncateKeeps(fs, slot);
    PutKeeps(emptied, slot, f.partial);
    PutKeeps(emptied, slot, content);
    SyncFileKeeps(Put(emptied, slot, content), slot);
    WrittenAndSynced(emptied, slot, content);
    CallsKeepHome(emptied, slot, f.partial);
    CallsKeepHome(emptied, slot, content);
    CallsKeepHome(Put(emptied, slot, content), slot, content);
  }

  lemma CallsKeepHome(fs: FS, slot: Slot, content: Content)
    ensures Put(fs, slot, content).home == fs.home && SyncFile(fs, slot).home == fs.home
  {
  }

  lemma WrittenAndSynced(fs: FS, slot: Slot, content: Content)
    requires Inode(fs, slot).Some?
    ensures var x := SyncFile(Put(fs, slot, content), slot);
      Inode(x, slot) == Inode(fs, slot) && Inode(x, slot).value in x.files &&
        x.files[Inode(x, slot).value] == File(content, true) && x.now == fs.now
  {
  }

  lemma SyncIsSafe(fs: FS, f: SyncFaults)
    requires Safe(fs)
    ensures Within(SyncTrace(fs, f).states, fs.home, Images(fs))
    ensures SyncTrace(fs, f).ok ==> Final(fs, SyncTrace(fs, f).states) == SyncDir(fs)
  {
    SyncDirNarrows(fs);
    hide SyncDir, Safe, Images;
    assert SyncDir(fs).home == fs.home by { SyncDirHome(fs); }
  }

  lemma SyncDirHome(fs: FS)
    ensures SyncDir(fs).home == fs.home && SyncDir(fs).now == fs.now && SyncDir(fs).may == {fs.now}
  {
  }

  /** Nothing a crash may leave lacks the marker. */
  ghost predicate Marked(fs: FS) {
    forall dir :: dir in fs.may ==> dir.marker.Some?
  }

  /** Once the renamed state is durable, making the marker changes no state, and a marker that
      was made is durable too. */
  lemma MarkerIsSafe(fs: FS, f: Faults)
    requires Safe(fs) && !fs.home.Missing? && fs.may == {fs.now} && fs.now.state.Some?
    ensures var t := MarkerTrace(fs, f);
      && Within(t.states, fs.home, Images(fs))
      && (t.ok ==> var x := Final(fs, t.states); Safe(x) && Images(x) == Images(fs) && x.home == fs.home && Marked(x))
  {
    var write := WriteTrace(fs, MarkerFile, VersionLine, f.marker);
    WriteIsSafe(fs, MarkerFile, VersionLine, f.marker);
    if f.readMarker && !MarkerIsCurrent(fs) && write.ok {
      var x := Final(fs, write.states);
      SyncIsSafe(x, f.markerDir);
      SyncDirNarrows(x);
      SyncDirHome(x);
      SingleImage(fs);
      assert StateOf(x, x.now) in Images(x);
      FinalAppends(fs, write.states, SyncTrace(x, f.markerDir).states);
      WithinJoins(write.states, SyncTrace(x, f.markerDir).states, fs.home, Images(fs));
    }
    hide WriteTrace, SyncTrace, SyncDir, Safe, Images, StateOf, Within;
  }

  lemma SingleImage(fs: FS)
    requires fs.may == {fs.now}
    ensures Images(fs) == {StateOf(fs, fs.now)}
  {
  }

  lemma PublishIsSafe(fs: FS, i: nat, d: Disk, marked: bool, f: Faults)
    requires Safe(fs) && !fs.home.Missing? && fs.now.temp == Some(i) && fs.files[i] == File(Image(d), true)
    ensures var t := PublishTrace(fs, marked, f);
      && Within(t.states, fs.home, Images(fs) + {Some(d)})
      && (t.ok ==>
        var x := Final(fs, t.states);
        Safe(x) && Images(x) == {Some(d)} && x.home == fs.home && (marked ==> Marked(x)))
  {
    var renamed := Rename(fs);
    RenameAdds(fs, i, d);
    assert renamed.now.state == Some(i) && renamed.files == fs.files && renamed.home == fs.home;
    SyncIsSafe(renamed, f.dir);
    SyncDirNarrows(renamed);
    SyncDirHome(renamed);
    var synced := SyncDir(renamed);
    assert StateOf(renamed, renamed.now) == Some(d);
    hide SyncTrace, SyncDir, MarkerTrace, Safe, Images, StateOf, Rename;
    var states := [renamed] + SyncTrace(renamed, f.dir).states;
    assert Within([renamed], fs.home, Images(fs) + {Some(d)});
    WithinJoins([renamed], SyncTrace(renamed, f.dir).states, fs.home, Images(fs) + {Some(d)});
    FinalAppends(fs, [renamed], SyncTrace(renamed, f.dir).states);
    if SyncTrace(renamed, f.dir).ok && marked {
      MarkerIsSafe(synced, f);
      FinalAppends(fs, states, MarkerTrace(synced, f).states);
      assert Within(MarkerTrace(synced, f).states, fs.home, Images(fs) + {Some(d)});
      WithinJoins(states, MarkerTrace(synced, f).states, fs.home, Images(fs) + {Some(d)});
    }
  }

  /** Every disk state a save passes through is safe and holds an earlier image or the new one;
      a save that returns nil leaves nothing but the new one, with the marker beside it. */
  lemma SaveIsSafe(fs: FS, d: Disk, marked: bool, f: Faults)
    requires Safe(fs)
    ensures var t := SaveTrace(fs, d, marked, f);
      && Within(t.states, MakeHome(fs).home, Images(fs) + {Some(d)})
      && (t.ok ==>
        var x := Final(fs, t.states);
        Safe(x) && Images(x) == {Some(d)} && x.home == MakeHome(fs).home && (marked ==> Marked(x)))
  {
    var home, allowed := MakeHome(fs), Images(fs) + {Some(d)};
    MakeHomeKeeps(fs);
    assert !home.home.Missing?;
    hide MakeHome, Safe, Images, WriteTrace, PublishTrace;
    assert Within(Effect(home, f.mkdir).states, home.home, allowed);
    if f.mkdir.Done? && f.marshal {
      WriteIsSafe(home, TempFile, Image(d), f.temp);
      var write := WriteTrace(home, TempFile, Image(d), f.temp);
      assert Within(write.states, home.home, allowed);
      WithinJoins([home], write.states, home.home, allowed);
      FinalAppends(fs, [home], write.states);
      if write.ok {
        var x := Final(fs, [home] + write.states);
        PublishIsSafe(x, x.now.temp.value, d, marked, f);
        FinalAppends(fs, [home] + write.states, PublishTrace(x, marked, f).states);
        WithinJoins([home] + write.states, PublishTrace(x, marked, f).states, home.home, allowed);
      }
    }
  }

  // ---------------------------------------------------------------- crashes

  /** What a load reports when the state file holds `image`. */
  function Seen(image: Option<Disk>): Loaded {
    match image
    case None => Absent
    case Some(d) => if d.version == 0 then NoVersion else Found(d)
  }

  /** On a safe disk a load finds one of the possible images, never a torn state file and never
      a marker without one. */
  lemma LoadSeesAnImage(fs: FS, marked: bool)
    requires Safe(fs)
    ensures LoadFrom(fs, marked) == Seen(StateOf(fs, fs.now)) && StateOf(fs, fs.now) in Images(fs)
  {
    assert SafeDir(fs, fs.now);
  }

  lemma LossIsSafe(fs: FS, after: FS)
    requires Safe(fs) && PowerLoss(fs, after)
    ensures Safe(after) && Possible(after) <= Possible(fs) && (fs.home.Durable? ==> after.home.Durable?)
    ensures Images(after) <= Images(fs) + if fs.home.Unsynced? then {None} else {}
    ensures fs.home.Durable? && Marked(fs) ==> Marked(after)
  {
    if after.home.Durable? && !fs.home.Missing? {
      assert SafeDir(fs, after.now);
      assert SafeDir(after, after.now);
      assert StateOf(after, after.now) == StateOf(fs, after.now);
      assert StateOf(fs, after.now) in Images(fs);
      SingleImage(after);
    } else if fs.home.Unsynced? {
      assert StateOf(after, after.now) == None;
      SingleImage(after);
      assert SafeDir(after, EMPTY_DIR);
    }
  }

  /** The process is killed, or the machine stops, at any point of a save: the next load finds
      an earlier image or the new one, or, if the directory was not durable, nothing at all. */
  lemma CrashDuringSave(fs: FS, d: Disk, marked: bool, f: Faults, x: FS, after: FS)
    requires Safe(fs) && (x == fs || x in SaveTrace(fs, d, marked, f).states)
    requires after == x || PowerLoss(x, after)
    ensures exists image :: image in Possible(fs) + {Some(d)} && LoadFrom(after, marked) == Seen(image)
  {
    SaveIsSafe(fs, d, marked, f);
    if after != x {
      LossIsSafe(x, after);
    }
    LoadSeesAnImage(after, marked);
    assert StateOf(after, after.now) in Possible(after);
    assert None in Possible(fs) || x.home.Durable? by {
      if fs.home.Missing? { assert StateOf(fs, EMPTY_DIR) in Images(fs); }
    }
    hide SaveTrace, Safe, LoadFrom, PowerLoss, Images, StateOf;
  }

  /** A save that returned nil survives every power loss if and only if the directory that
      holds the file was durable before the call: the call creates that directory without
      syncing its parent. */
  lemma AcknowledgedIsDurable(fs: FS, d: Disk, marked: bool, f: Faults)
    requires Safe(fs) && SaveTrace(fs, d, marked, f).ok && d.version != 0
    ensures LoadFrom(Saved(fs, d, marked, f), marked) == Found(d)
    ensures (forall after :: PowerLoss(Saved(fs, d, marked, f), after) ==> LoadFrom(after, marked) == Found(d)) <==>
      fs.home.Durable?
  {
    hide SaveTrace, Safe, PowerLoss, LoadFrom, Images, StateOf;
    SaveIsSafe(fs, d, marked, f);
    var x := Saved(fs, d, marked, f);
    LoadSeesAnImage(x, marked);
    hide Saved;
    if fs.home.Durable? {
      forall after | PowerLoss(x, after) ensures LoadFrom(after, marked) == Found(d) {
        LossIsSafe(x, after);
        LoadSeesAnImage(after, marked);
      }
    } else {
      DirectoryMayVanish(x, marked);
    }
  }

  lemma DirectoryMayVanish(fs: FS, marked: bool)
    requires fs.home.Unsynced?
    ensures exists after :: PowerLoss(fs, after) && LoadFrom(after, marked) == Absent
  {
    var gone := FS(FileSystem.Home.Missing, EMPTY_DIR, {EMPTY_DIR}, map[], fs.next);
    assert PowerLoss(fs, gone) && LoadFrom(gone, marked) == Absent;
  }

  // ---------------------------------------------------------------- runs

  /** A save that ran to its end, one that was cut short after its first `at` effects, a power
      loss, or the operating system writing out the directory's own entry. */
  datatype Event = Save(disk: Disk, faults: Faults) | CutShort(disk: Disk, faults: Faults,
    at: nat) | Loss(after: FS) | Settle

  function Next(fs: FS, e: Event, marked: bool): FS {
    match e
    case Save(d, f) => Saved(fs, d, marked, f)
    case CutShort(d, f, at) => if at < |SaveTrace(fs, d, marked, f).states| then SaveTrace(fs, d, marked, f).states[at]
      else fs
    case Loss(after) => after
    case Settle => if fs.home.Unsynced? then fs.(home := Durable) else fs
  }

  ghost predicate CanHappen(fs: FS, e: Event) {
    e.Loss? ==> PowerLoss(fs, e.after)
  }

  /** What the next load may see, told from the saves alone. Only a power loss before the directory
      was durable makes "nothing" possible again. */
  function Expected(fs: FS, e: Event, marked: bool, allowed: set<Option<Disk>>): set<Option<Disk>> {
    match e
    case Save(d, f) => if SaveTrace(fs, d, marked, f).ok then {Some(d)} else allowed + {Some(d)}
    case CutShort(d, _, _) => allowed + {Some(d)}
    case Loss(_) => if fs.home.Unsynced? then allowed + {None} else allowed
    case Settle => allowed
  }

  function RunEvents(fs: FS, events: seq<Event>, marked: bool): FS {
    if |events| == 0 then fs
    else Next(RunEvents(fs, events[..|events| - 1], marked), events[|events| - 1], marked)
  }

  function ExpectedAfter(fs: FS, events: seq<Event>, marked: bool, allowed: set<Option<Disk>>): set<Option<Disk>> {
    if |events| == 0 then allowed
    else
      var n := |events| - 1;
      Expected(RunEvents(fs, events[..n], marked), events[n], marked, ExpectedAfter(fs, events[..n], marked, allowed))
  }

  ghost predicate CanRun(fs: FS, events: seq<Event>, marked: bool) {
    |events| == 0 ||
    (CanRun(fs, events[..|events| - 1], marked) &&
      CanHappen(RunEvents(fs, events[..|events| - 1], marked), events[|events| - 1]))
  }

  lemma EventIsSafe(fs: FS, e: Event, marked: bool, allowed: set<Option<Disk>>)
    requires Safe(fs) && Images(fs) <= allowed && CanHappen(fs, e)
    ensures Safe(Next(fs, e, marked)) && Images(Next(fs, e, marked)) <= Expected(fs, e, marked, allowed)
    ensures fs.home.Durable? ==> Next(fs, e, marked).home.Durable?
  {
    match e
    case Save(d, f) =>
      SaveIsSafe(fs, d, marked, f);
      hide SaveTrace, Safe, Images;
    case CutShort(d, f, at) =>
      SaveIsSafe(fs, d, marked, f);
      hide SaveTrace, Safe, Images;
    case Loss(after) =>
      LossIsSafe(fs, after);
      hide Safe, Images, PowerLoss;
    case Settle =>
      SameFilesSameImages(fs, Next(fs, e, marked));
      hide Images;
  }

  /** Over any sequence of saves, with any system call failing, the process killed or the machine
      stopped at any point, and any number of power losses, the disk is safe and the next load
      finds exactly one of the states the saves so far allow. */
  lemma {:induction false} EveryRunIsCrashConsistent(fs: FS, events: seq<Event>, marked: bool)
    requires Safe(fs) && CanRun(fs, events, marked)
    ensures var x := RunEvents(fs, events, marked);
      && Safe(x) && Images(x) <= ExpectedAfter(fs, events, marked, Images(fs))
      && exists image :: image in ExpectedAfter(fs, events, marked, Images(fs)) && LoadFrom(x, marked) == Seen(image)
  {
    hide Safe, Images, Next, Expected, CanHappen, LoadFrom;
    var x := RunEvents(fs, events, marked);
    if |events| > 0 {
      var n := |events| - 1;
      EveryRunIsCrashConsistent(fs, events[..n], marked);
      EventIsSafe(RunEvents(fs, events[..n], marked), events[n], marked,
        ExpectedAfter(fs, events[..n], marked, Images(fs)));
    }
    LoadSeesAnImage(x, marked);
  }

  /** A disk on which nothing was ever saved. */
  function NewDisk(home: Home): FS {
    FS(home, EMPTY_DIR, {EMPTY_DIR}, map[], 0)
  }

  lemma NewDiskIsSafe(home: Home)
    ensures Safe(NewDisk(home)) && Images(NewDisk(home)) == {None}
  {
    SingleImage(NewDisk(home));
  }

  // ---------------------------------------------------------------- what the controller relies on

  /** The controller's view of a save is sound: after a save that returned nil it counts on the
      new image alone, and after one that failed, or was cut short anywhere, on the old ones and
      the new one. That covers every restart of the process, and on a durable directory every
      power loss too. */
  lemma ControllerViewIsSound(s: System, fs: FS, marked: bool, f: Faults)
    requires Safe(fs) && !s.mem.failed && Images(fs) <= s.images
    ensures var t := SaveTrace(fs, DiskOf(s.mem), marked, f);
      && Images(Saved(fs, DiskOf(s.mem), marked, f)) <= Persist(s, if t.ok then SaveOk else SaveFailed).images
      && (forall x :: x in t.states ==> Images(x) <= Persist(s, SaveFailed).images)
      && (fs.home.Durable? ==>
        && Possible(Saved(fs, DiskOf(s.mem), marked, f)) <= Persist(s, if t.ok then SaveOk else SaveFailed).images
        && forall x :: x in t.states ==> Possible(x) <= Persist(s, SaveFailed).images)
  {
    SaveIsSafe(fs, DiskOf(s.mem), marked, f);
    hide SaveTrace, Images, DiskOf;
  }

  // ---------------------------------------------------------------- the marker stays

  ghost predicate MarkedNow(fs: FS) {
    Marked(fs) && fs.now.marker.Some?
  }

  ghost predicate AllMarked(states: seq<FS>) {
    forall x :: x in states ==> MarkedNow(x)
  }

  lemma CallsKeepMarked(fs: FS, slot: Slot)
    requires MarkedNow(fs)
    ensures MarkedNow(MakeHome(fs)) && MarkedNow(Truncate(fs, slot)) && MarkedNow(SyncFile(fs, slot))
    ensures MarkedNow(Rename(fs)) && MarkedNow(SyncDir(fs))
    ensures forall c :: MarkedNow(Put(fs, slot, c))
  {
  }

  lemma WriteKeepsMarked(fs: FS, slot: Slot, content: Content, f: WriteFaults)
    requires MarkedNow(fs)
    ensures AllMarked(WriteTrace(fs, slot, content, f).states)
  {
    CallsKeepMarked(fs, slot);
    CallsKeepMarked(Truncate(fs, slot), slot);
    CallsKeepMarked(Put(Truncate(fs, slot), slot, content), slot);
    hide MarkedNow, Truncate, Put, SyncFile;
  }

  lemma FinalIsMarked(fs: FS, states: seq<FS>)
    requires MarkedNow(fs) && AllMarked(states)
    ensures MarkedNow(Final(fs, states))
  {
  }

  lemma PublishKeepsMarked(fs: FS, marked: bool, f: Faults)
    requires MarkedNow(fs)
    ensures AllMarked(PublishTrace(fs, marked, f).states)
  {
    CallsKeepMarked(fs, TempFile);
    CallsKeepMarked(Rename(fs), TempFile);
    hide MarkedNow, Rename, SyncDir, MarkerIsCurrent, WriteTrace;
    var sync := Then(Effect(Rename(fs), f.rename), SyncTrace(Rename(fs), f.dir));
    assert AllMarked(sync.states);
    FinalIsMarked(fs, sync.states);
    var x := Final(fs, sync.states);
    WriteKeepsMarked(x, MarkerFile, VersionLine, f.marker);
    var write := WriteTrace(x, MarkerFile, VersionLine, f.marker);
    FinalIsMarked(x, write.states);
    CallsKeepMarked(Final(x, write.states), MarkerFile);
    assert AllMarked(SyncTrace(Final(x, write.states), f.markerDir).states);
    assert AllMarked(MarkerTrace(x, f).states);
  }

  lemma SaveKeepsMarked(fs: FS, d: Disk, marked: bool, f: Faults)
    requires MarkedNow(fs)
    ensures AllMarked(SaveTrace(fs, d, marked, f).states)
  {
    CallsKeepMarked(fs, TempFile);
    hide MarkedNow, MakeHome, WriteTrace, PublishTrace;
    var home := MakeHome(fs);
    WriteKeepsMarked(home, TempFile, Image(d), f.temp);
    var write := [home] + WriteTrace(home, TempFile, Image(d), f.temp).states;
    FinalIsMarked(fs, write);
    PublishKeepsMarked(Final(fs, write), marked, f);
  }

  lemma EventKeepsMarked(fs: FS, e: Event, marked: bool)
    requires MarkedNow(fs) && Safe(fs) && fs.home.Durable? && CanHappen(fs, e)
    ensures MarkedNow(Next(fs, e, marked))
  {
    match e
    case Save(d, f) =>
      SaveKeepsMarked(fs, d, marked, f);
      FinalIsMarked(fs, SaveTrace(fs, d, marked, f).states);
      hide SaveTrace, MarkedNow;
    case CutShort(d, f, at) =>
      SaveKeepsMarked(fs, d, marked, f);
      hide SaveTrace, MarkedNow;
    case Loss(after) =>
      LossIsSafe(fs, after);
    case Settle =>
  }

  /** Once a save has returned nil on a durable directory, every later load of a server whose
      state file was deleted reports the loss; it is never taken for a new server. */
  lemma {:induction false} DeletionIsAlwaysNoticed(fs: FS, d: Disk, f: Faults, events: seq<Event>)
    requires Safe(fs) && fs.home.Durable? && SaveTrace(fs, d, true, f).ok
    requires CanRun(Saved(fs, d, true, f), events, true)
    ensures var x := RunEvents(Saved(fs, d, true, f), events, true);
      && Safe(x) && x.home.Durable? && MarkedNow(x)
      && LoadFrom(x.(now := x.now.(state := None)), true) == MissingAfterInit
  {
    var first := Saved(fs, d, true, f);
    var x := RunEvents(first, events, true);
    if |events| == 0 {
      SaveIsSafe(fs, d, true, f);
      hide SaveTrace;
    } else {
      var n := |events| - 1;
      DeletionIsAlwaysNoticed(fs, d, f, events[..n]);
      var before := RunEvents(first, events[..n], true);
      EventKeepsMarked(before, events[n], true);
      EventIsSafe(before, events[n], true, Images(before));
      hide SaveTrace, Saved, Safe, Marked, CanHappen, Next, Images;
    }
  }
}
