/** The durable state file: write a temporary file, sync it, rename it over the state file, sync
    the directory, then make sure of the marker. Every system call may fail, with or without
    having taken effect, and a trace records each state the disk passes through, so that
    a crash can be placed between any two of them. */
module Store {
  import opened Operations
  import opened FileSystem

  /** A call that worked, one that failed with no effect, one that failed after its effect. */
  datatype Outcome = Done | Refused | Botched

  datatype WriteFaults = WriteFaults(open: Outcome, chmod: bool, write: Outcome, partial: Content, sync: Outcome,
    close: bool)
  datatype SyncFaults = SyncFaults(open: bool, sync: Outcome, close: bool)

  /** What goes wrong in one save; `readMarker` is false when reading the marker fails for
      another reason than its absence. */
  datatype Faults = Faults(
    mkdir: Outcome,
    marshal: bool,
    temp: WriteFaults,
    rename: Outcome,
    dir: SyncFaults,
    readMarker: bool,
    marker: WriteFaults,
    markerDir: SyncFaults)

  /** The disk states one call passes through, and whether it returned nil. */
  datatype Trace = Trace(states: seq<FS>, ok: bool)

  function Final(fs: FS, states: seq<FS>): FS {
    if |states| == 0 then fs else states[|states| - 1]
  }

  lemma FinalAppends(fs: FS, a: seq<FS>, b: seq<FS>)
    ensures Final(fs, a + b) == Final(Final(fs, a), b)
  {
    if |b| == 0 {
      assert a + b == a;
    }
  }

  lemma PutTwice(fs: FS, slot: Slot, a: Content, b: Content)
    ensures Put(Put(fs, slot, a), slot, b) == Put(fs, slot, b)
  {
  }

  function Then(t: Trace, rest: Trace): Trace {
    Trace(t.states + rest.states, rest.ok)
  }

  function Effect(after: FS, outcome: Outcome): Trace {
    Trace(if outcome.Refused? then [] else [after], outcome.Done?)
  }

  /** Open, chmod, write and sync one file. A write passes through a partial content. */
  function WriteTrace(fs: FS, slot: Slot, content: Content, f: WriteFaults): Trace {
    var emptied := Truncate(fs, slot);
    var partial := Put(emptied, slot, f.partial);
    var written := Put(emptied, slot, content);
    if !f.open.Done? then Effect(emptied, f.open)
    else if !f.chmod || f.write.Refused? then Trace([emptied], false)
    else if f.write.Botched? then Trace([emptied, partial], false)
    else if f.sync.Refused? then Trace([emptied, partial, written], false)
    else Trace([emptied, partial, written, SyncFile(written, slot)], f.sync.Done? && f.close)
  }

  function SyncTrace(fs: FS, f: SyncFaults): Trace {
    if !f.open then Trace([], false)
    else Then(Effect(SyncDir(fs), f.sync), Trace([], f.sync.Done? && f.close))
  }

  function MarkerTrace(fs: FS, f: Faults): Trace {
    if !f.readMarker then Trace([], false)
    else if MarkerIsCurrent(fs) then Trace([], true)
    else
      var write := WriteTrace(fs, MarkerFile, VersionLine, f.marker);
      if !write.ok then write else Then(write, SyncTrace(Final(fs, write.states), f.markerDir))
  }

  predicate MarkerIsCurrent(fs: FS) {
    fs.now.marker.Some? && fs.now.marker.value in fs.files && fs.files[fs.now.marker.value].content.VersionLine?
  }

  function PublishTrace(fs: FS, marked: bool, f: Faults): Trace {
    var rename := Effect(Rename(fs), f.rename);
    if !rename.ok then rename
    else
      var sync := Then(rename, SyncTrace(Rename(fs), f.dir));
      if !sync.ok || !marked then sync else Then(sync, MarkerTrace(Final(fs, sync.states), f))
  }

  function SaveTrace(fs: FS, d: Disk, marked: bool, f: Faults): Trace {
    var made := Effect(MakeHome(fs), f.mkdir);
    if !made.ok || !f.marshal then Trace(made.states, false)
    else
      var write := Then(made, WriteTrace(MakeHome(fs), TempFile, Image(d), f.temp));
      if !write.ok then write else Then(write, PublishTrace(Final(fs, write.states), marked, f))
  }

  function Saved(fs: FS, d: Disk, marked: bool, f: Faults): FS {
    Final(fs, SaveTrace(fs, d, marked, f).states)
  }

  datatype Loaded = Found(disk: Disk) | Absent | NoVersion | Corrupt | MissingAfterInit | ReadFailed

  function LoadFrom(fs: FS, marked: bool): Loaded {
    match fs.now.state
    case Some(i) =>
      if i !in fs.files || !fs.files[i].content.Image? then Corrupt
      else if fs.files[i].content.disk.version == 0 then NoVersion
      else Found(fs.files[i].content.disk)
    case None =>
      if marked && fs.now.marker.Some? then MissingAfterInit else Absent
  }

  // ---------------------------------------------------------------- the store itself

  /** `trace` collects every state the disk has been in. */
  class FileStore {
    const marked: bool
    var fs: FS
    ghost var trace: seq<FS>

    constructor (disk: FS, marked: bool)
      ensures fs == disk && this.marked == marked && trace == []
    {
      fs := disk;
      this.marked := marked;
      trace := [];
    }

    /** One system call that changes the disk. */
    method Call(after: FS, outcome: Outcome) returns (ok: bool)
      modifies this
      ensures trace == old(trace) + Effect(after, outcome).states && ok == outcome.Done?
      ensures fs == Final(old(fs), Effect(after, outcome).states)
    {
      if !outcome.Refused? {
        fs := after;
        trace := trace + [fs];
      }
      ok := outcome.Done?;
    }

    method WriteFile(slot: Slot, content: Content, f: WriteFaults) returns (ok: bool)
      modifies this
      ensures var t := WriteTrace(old(fs), slot, content, f);
        trace == old(trace) + t.states && fs == Final(old(fs), t.states) && ok == t.ok
    {
      hide Truncate, Put, SyncFile;
      ok := Call(Truncate(fs, slot), f.open);
      if !ok {
        return;
      }
      ghost var emptied := fs;
      var failed := !f.chmod;
      if !failed {
        if !f.write.Refused? {
          fs := Put(fs, slot, f.partial);
          trace := trace + [fs];
        }
        failed := !f.write.Done?;
      }
      if !failed {
        PutTwice(emptied, slot, f.partial, content);
        fs := Put(fs, slot, content);
        trace := trace + [fs];
        var synced := Call(SyncFile(fs, slot), f.sync);
        failed := !synced;
      }
      if !f.close {
        failed := true;
      }
      ok := !failed;
    }

    method SyncDirectory(f: SyncFaults) returns (ok: bool)
      modifies this
      ensures var t := SyncTrace(old(fs), f);
        trace == old(trace) + t.states && fs == Final(old(fs), t.states) && ok == t.ok
    {
      if !f.open {
        return false;
      }
      ok := Call(SyncDir(fs), f.sync);
      ok := ok && f.close;
    }

    method EnsureMarker(f: Faults) returns (ok: bool)
      modifies this
      ensures var t := if marked then MarkerTrace(old(fs), f) else Trace([], true);
        trace == old(trace) + t.states && fs == Final(old(fs), t.states) && ok == t.ok
    {
      if !marked {
        return true;
      }
      if !f.readMarker {
        return false;
      }
      if MarkerIsCurrent(fs) {
        return true;
      }
      ok := WriteFile(MarkerFile, VersionLine, f.marker);
      if ok {
        ok := SyncDirectory(f.markerDir);
      }
    }

    method Save(d: Disk, f: Faults) returns (ok: bool)
      modifies this
      ensures var t := SaveTrace(old(fs), d, marked, f);
        trace == old(trace) + t.states && fs == Final(old(fs), t.states) && ok == t.ok
    {
      hide MakeHome, WriteTrace, SyncTrace, MarkerTrace, Rename;
      ok := Call(MakeHome(fs), f.mkdir);
      if !ok || !f.marshal {
        return false;
      }
      ok := WriteFile(TempFile, Image(d), f.temp);
      if !ok {
        return;
      }
      ok := Publish(f);
    }

    /** Renames the temporary file over the state file and makes that durable. */
    method Publish(f: Faults) returns (ok: bool)
      modifies this
      ensures var t := PublishTrace(old(fs), marked, f);
        trace == old(trace) + t.states && fs == Final(old(fs), t.states) && ok == t.ok
    {
      hide SyncTrace, MarkerTrace, Rename;
      ok := Call(Rename(fs), f.rename);
      if !ok {
        return;
      }
      ok := SyncDirectory(f.dir);
      if !ok {
        return;
      }
      ok := EnsureMarker(f);
    }

    /** `readable` and `statable` say whether the two reads work. */
    method Load(readable: bool, statable: bool) returns (r: Loaded)
      ensures r == if !readable || (fs.now.state.None? && marked && !statable) then ReadFailed else LoadFrom(fs, marked)
    {
      if !readable {
        return ReadFailed;
      }
      match fs.now.state {
        case Some(i) =>
          if i !in fs.files || !fs.files[i].content.Image? {
            return Corrupt;
          }
          if fs.files[i].content.disk.version == 0 {
            return NoVersion;
          }
          return Found(fs.files[i].content.disk);
        case None =>
      }
      if marked {
        if !statable {
          return ReadFailed;
        }
        if fs.now.marker.Some? {
          return MissingAfterInit;
        }
      }
      return Absent;
    }
  }
}
