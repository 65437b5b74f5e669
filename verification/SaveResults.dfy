/** When a save of the state file returns nil, and what a load answers: in terms of the outcomes of
    the system calls and of what the directory holds. */
module SaveResults {
  import opened Records
  import opened Operations
  import opened FileSystem
  import opened Store
  import opened CrashSafety

  // ---------------------------------------------------------------- the calls of a save

  /** Every call of writing one file worked. */
  predicate FileWorked(f: WriteFaults) {
    f.open == Done && f.chmod && f.write == Done && f.sync == Done && f.close
  }

  predicate DirWorked(f: SyncFaults) {
    f.open && f.sync == Done && f.close
  }

  /** Every call before the marker worked. */
  predicate StateWorked(f: Faults) {
    f.mkdir == Done && f.marshal && FileWorked(f.temp) && f.rename == Done && DirWorked(f.dir)
  }

  /** The marker is there with its version line. */
  predicate MarkerHolds(fs: FS) {
    match fs.now.marker
    case None => false
    case Some(i) => i in fs.files && fs.files[i].content == VersionLine
  }

  // ---------------------------------------------------------------- the marker while the state is written

  /** The temporary file is not the marker, and neither is the next new file. */
  ghost predicate Apart(fs: FS) {
    && (fs.now.temp.Some? ==> fs.now.temp != fs.now.marker)
    && (fs.now.marker.Some? ==> fs.now.marker.value < fs.next)
  }

  ghost predicate SameMarker(fs: FS, after: FS) {
    Apart(after) && (MarkerHolds(after) <==> MarkerHolds(fs))
  }

  lemma CallsKeepMarker(fs: FS, content: Content)
    requires Apart(fs)
    ensures SameMarker(fs, MakeHome(fs)) && SameMarker(fs, Truncate(fs, TempFile))
    ensures SameMarker(fs, Put(fs, TempFile, content)) && SameMarker(fs, SyncFile(fs, TempFile))
    ensures SameMarker(fs, Rename(fs)) && SameMarker(fs, SyncDir(fs))
  {
  }

  lemma WriteKeepsMarker(fs: FS, content: Content, f: WriteFaults)
    requires Apart(fs) && FileWorked(f)
    ensures SameMarker(fs, Final(fs, WriteTrace(fs, TempFile, content, f).states))
  {
    hide Truncate, Put, SyncFile, Apart, MarkerHolds;
    CallsKeepMarker(fs, content);
    CallsKeepMarker(Truncate(fs, TempFile), content);
    CallsKeepMarker(Put(Truncate(fs, TempFile), TempFile, content), content);
  }

  lemma SafeIsApart(fs: FS)
    requires Safe(fs)
    ensures Apart(fs)
  {
    assert SafeDir(fs, fs.now);
  }

  lemma MarkerIsAnswered(fs: FS, f: Faults)
    ensures MarkerTrace(fs, f).ok <==>
      f.readMarker && (MarkerHolds(fs) || (FileWorked(f.marker) && DirWorked(f.markerDir)))
    ensures MarkerTrace(fs, f).ok ==> MarkerHolds(Final(fs, MarkerTrace(fs, f).states))
  {
    assert MarkerIsCurrent(fs) <==> MarkerHolds(fs);
    if f.readMarker && !MarkerHolds(fs) && FileWorked(f.marker) {
      MarkerIsWritten(fs, f.marker);
      var x := Final(fs, WriteTrace(fs, MarkerFile, VersionLine, f.marker).states);
      FinalAppends(fs, WriteTrace(fs, MarkerFile, VersionLine, f.marker).states, SyncTrace(x, f.markerDir).states);
      assert MarkerHolds(x) ==> MarkerHolds(SyncDir(x));
    }
    hide Truncate, Put, SyncFile, SyncDir, MarkerHolds, MarkerIsCurrent;
  }

  lemma MarkerIsWritten(fs: FS, f: WriteFaults)
    requires FileWorked(f)
    ensures MarkerHolds(Final(fs, WriteTrace(fs, MarkerFile, VersionLine, f).states))
  {
    assert Inode(Truncate(fs, MarkerFile), MarkerFile).Some?;
    WrittenAndSynced(Truncate(fs, MarkerFile), MarkerFile, VersionLine);
    hide Truncate, Put, SyncFile;
  }

  lemma FailuresAreAnswered(fs: FS, d: Disk, marked: bool, f: Faults)
    requires !StateWorked(f)
    ensures !SaveTrace(fs, d, marked, f).ok
  {
    hide Truncate, Put, SyncFile, SyncDir, Rename, MakeHome, MarkerTrace;
  }

  lemma Published(fs: FS, marked: bool, f: Faults) returns (x: FS)
    requires f.rename == Done && DirWorked(f.dir)
    ensures x == SyncDir(Rename(fs))
    ensures PublishTrace(fs, marked, f).ok <==> !marked || MarkerTrace(x, f).ok
    ensures Final(fs, PublishTrace(fs, marked, f).states) == if marked then Final(x, MarkerTrace(x, f).states) else x
  {
    hide SyncDir, Rename, MarkerTrace;
    x := SyncDir(Rename(fs));
    assert [Rename(fs)] + ([x] + []) == [Rename(fs), x];
    FinalAppends(fs, [Rename(fs), x], MarkerTrace(x, f).states);
  }

  /** When its calls work, a save comes to the marker with the marker as it was. */
  lemma StateIsWritten(fs: FS, d: Disk, marked: bool, f: Faults) returns (x: FS)
    requires Apart(fs) && StateWorked(f)
    ensures SameMarker(fs, x)
    ensures SaveTrace(fs, d, marked, f).ok <==> !marked || MarkerTrace(x, f).ok
    ensures Saved(fs, d, marked, f) == if marked then Final(x, MarkerTrace(x, f).states) else x
  {
    hide MakeHome, WriteTrace, SyncDir, Rename, MarkerTrace, PublishTrace, Apart, MarkerHolds;
    var home := MakeHome(fs);
    var states := WriteTrace(home, TempFile, Image(d), f.temp).states;
    var y := Final(home, states);
    CallsKeepMarker(fs, Image(d));
    WriteKeepsMarker(home, Image(d), f.temp);
    CallsKeepMarker(y, Image(d));
    CallsKeepMarker(Rename(y), Image(d));
    FinalAppends(fs, [home], states);
    x := Published(y, marked, f);
    FileIsAnswered(home, TempFile, Image(d), f.temp);
    FinalAppends(fs, [home] + states, PublishTrace(y, marked, f).states);
  }

  lemma FileIsAnswered(fs: FS, slot: Slot, content: Content, f: WriteFaults)
    ensures WriteTrace(fs, slot, content, f).ok <==> FileWorked(f)
  {
    hide Truncate, Put, SyncFile;
  }

  // ---------------------------------------------------------------- the answers

  /** A save returns nil if and only if every call it makes works: those of the state file and its
      directory, and for a marked server either a marker that holds already or those of writing
      it. Then the state file holds the new state, and a marked server's marker its version line. */
  lemma SaveReturnsNilExactly(fs: FS, d: Disk, marked: bool, f: Faults)
    requires Safe(fs)
    ensures SaveTrace(fs, d, marked, f).ok <==>
      && StateWorked(f)
      && (marked ==> f.readMarker && (MarkerHolds(fs) || (FileWorked(f.marker) && DirWorked(f.markerDir))))
    ensures SaveTrace(fs, d, marked, f).ok ==>
      StateOf(Saved(fs, d, marked, f), Saved(fs, d, marked, f).now) == Some(d) &&
      (marked ==> MarkerHolds(Saved(fs, d, marked, f)))
  {
    hide *;
    SafeIsApart(fs);
    if StateWorked(f) {
      var x := StateIsWritten(fs, d, marked, f);
      MarkerIsAnswered(x, f);
      SameMarkerHolds(fs, x);
      if SaveTrace(fs, d, marked, f).ok {
        NewStateIsThere(fs, d, marked, f);
      }
    } else {
      FailuresAreAnswered(fs, d, marked, f);
    }
  }

  lemma SameMarkerHolds(fs: FS, x: FS)
    requires SameMarker(fs, x)
    ensures MarkerHolds(x) <==> MarkerHolds(fs)
  {
  }

  lemma NewStateIsThere(fs: FS, d: Disk, marked: bool, f: Faults)
    requires Safe(fs) && SaveTrace(fs, d, marked, f).ok
    ensures StateOf(Saved(fs, d, marked, f), Saved(fs, d, marked, f).now) == Some(d)
  {
    SaveIsSafe(fs, d, marked, f);
    hide SaveTrace;
    var x := Saved(fs, d, marked, f);
    assert StateOf(x, x.now) in Images(x);
  }

  /** What a load answers, by what the state file and the marker are. */
  lemma LoadAnswersExactly(fs: FS, marked: bool)
    ensures var r := LoadFrom(fs, marked);
      && (r.Found? <==> fs.now.state.Some? && StateOf(fs, fs.now).Some? && StateOf(fs, fs.now).value.version != 0)
      && (r.Found? ==> Some(r.disk) == StateOf(fs, fs.now))
      && (r == NoVersion <==> fs.now.state.Some? && StateOf(fs, fs.now).Some? && StateOf(fs, fs.now).value.version == 0)
      && (r == Corrupt <==> fs.now.state.Some? && StateOf(fs, fs.now).None?)
      && (r == MissingAfterInit <==> fs.now.state.None? && marked && fs.now.marker.Some?)
      && (r == Absent <==> fs.now.state.None? && !(marked && fs.now.marker.Some?))
  {
  }
}
