/** The part of a file system that the state store touches: one directory with three names,
    files whose unsynced content may become anything in a power loss, and a directory whose
    recent changes may each be lost until it is synced. Every directory change, a rename
    included, takes effect as a whole or not at all. */
module FileSystem {
  import opened Records
  import opened Operations

  /** A complete encoding of a state, the marker's version line, or any other bytes. */
  datatype Content = Image(disk: Disk) | VersionLine | Bytes(n: nat)

  const EMPTY := Bytes(0)

  datatype File = File(content: Content, synced: bool)

  /** Which file each name stands for: `access_state.json`, its `.tmp`, and the marker. */
  datatype Dir = Dir(state: Option<nat>, temp: Option<nat>, marker: Option<nat>)

  const EMPTY_DIR := Dir(None, None, None)

  /** Whether the directory itself exists, and whether its own entry is on disk. */
  datatype Home = Missing | Unsynced | Durable

  /** `now` is the directory as processes see it; `may` are the directories that a power loss
      may leave behind. */
  datatype FS = FS(home: Home, now: Dir, may: set<Dir>, files: map<nat, File>, next: nat)

  datatype Slot = TempFile | MarkerFile

  function Inode(fs: FS, slot: Slot): Option<nat> {
    match slot
    case TempFile => fs.now.temp
    case MarkerFile => fs.now.marker
  }

  function Bind(fs: FS, dir: Dir): FS {
    fs.(now := dir, may := fs.may + {dir})
  }

  // ---------------------------------------------------------------- system calls that succeed

  function MakeHome(fs: FS): FS {
    if fs.home.Missing? then fs.(home := Unsynced) else fs
  }

  function Put(fs: FS, slot: Slot, content: Content): FS {
    match Inode(fs, slot)
    case Some(i) => fs.(files := fs.files[i := File(content, false)])
    case None => fs
  }

  /** Opens a name for writing: an existing file is emptied, otherwise a new one is bound. */
  function Truncate(fs: FS, slot: Slot): FS {
    match Inode(fs, slot)
    case Some(_) => Put(fs, slot, EMPTY)
    case None =>
      var grown := fs.(files := fs.files[fs.next := File(EMPTY, false)], next := fs.next + 1);
      Bind(grown, if slot.TempFile? then fs.now.(temp := Some(fs.next)) else fs.now.(marker := Some(fs.next)))
  }

  function SyncFile(fs: FS, slot: Slot): FS {
    match Inode(fs, slot)
    case Some(i) => if i in fs.files then fs.(files := fs.files[i := fs.files[i].(synced := true)]) else fs
    case None => fs
  }

  function Rename(fs: FS): FS {
    Bind(fs, fs.now.(state := fs.now.temp, temp := None))
  }

  function SyncDir(fs: FS): FS {
    fs.(may := {fs.now})
  }

  // ---------------------------------------------------------------- power loss

  ghost predicate Survives(file: File, after: File) {
    after.synced && (file.synced ==> after.content == file.content)
  }

  /** The machine stops: one of the recent directories remains, synced files keep their content,
      others hold anything, and a directory whose own entry was never synced may be gone. */
  ghost predicate PowerLoss(fs: FS, after: FS) {
    if fs.home.Missing? then
      after == fs
    else
      || (fs.home.Unsynced? && after == FS(Missing, EMPTY_DIR, {EMPTY_DIR}, map[], fs.next))
      || (&& after.home.Durable? && after.next == fs.next
          && after.now in fs.may && after.may == {after.now}
          && after.files.Keys == fs.files.Keys
          && forall i :: i in fs.files ==> Survives(fs.files[i], after.files[i]))
  }

  /** Opening a file for writing leaves it empty, whatever it held. */
  lemma OpeningEmpties(fs: FS, slot: Slot)
    ensures var t := Truncate(fs, slot);
      Inode(t, slot).Some? && Inode(t, slot).value in t.files && t.files[Inode(t, slot).value].content == EMPTY
  {
  }

  /** What is written and not synced may be anything after a power loss; what is synced may not. */
  lemma OnlySyncedContentStays(fs: FS, slot: Slot, content: Content, other: Content)
    requires fs.home.Durable? && fs.now in fs.may && Inode(fs, slot).Some?
    ensures exists after ::
      && PowerLoss(Put(fs, slot, content), after) && after.now == fs.now
      && after.files[Inode(fs, slot).value].content == other
    ensures forall after ::
      PowerLoss(SyncFile(Put(fs, slot, content), slot), after) ==>
        Inode(fs, slot).value in after.files && after.files[Inode(fs, slot).value].content == content
  {
    var written, i := Put(fs, slot, content), Inode(fs, slot).value;
    var after := FS(Durable, fs.now, {fs.now},
      map j | j in written.files :: File(if j == i then other else written.files[j].content, true), fs.next);
    assert after.files.Keys == written.files.Keys;
    assert PowerLoss(written, after);
  }
}
