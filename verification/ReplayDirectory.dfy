/**
 The replay directory as a disk that can crash. A directory entry is the sequence of values it has
 had since the last directory sync, oldest first; a file remembers whether its content is synced.
 A crash keeps any one value of each entry and may tear any file that is not synced.

 Record files are named by the hash of (installation, action id), taken as injective: the name is
 the key itself. A completion's temporary file carries its record's path in its own name, so every
 file knows the key it was created for.
 */
module ReplayDirectory {
  import opened Collections
  import opened JsonGrammar
  import opened RemoteActionReceipt

  datatype Key = Key(installationId: Text, actionId: Text)

  type Inode = nat

  /** What a file holds; `Torn` is anything that does not validate as a record. */
  datatype Content<+R> = Torn | Claimed(record: R) | Completed(record: R, receipt: Receipt)

  datatype File<+R> = File(home: Key, content: Content<R>, synced: bool)

  datatype Disk<+R> = Disk(entries: map<Key, seq<Option<Inode>>>, files: map<Inode, File<R>>, next: Inode)

  function EmptyDisk<R>(): Disk<R> { Disk(map[], map[], 0) }

  /** The values an entry may turn out to have, the current one last. */
  function Entry<R>(d: Disk<R>, k: Key): (h: seq<Option<Inode>>)
    ensures h != []
  {
    if k in d.entries && d.entries[k] != [] then d.entries[k] else [None]
  }

  function Current<R>(d: Disk<R>, k: Key): Option<Inode> { Entry(d, k)[|Entry(d, k)| - 1] }

  function Change<R>(d: Disk<R>, k: Key, v: Option<Inode>): Disk<R> {
    d.(entries := d.entries[k := Entry(d, k) + [v]])
  }

  /** Open with O_CREAT | O_EXCL at a record path: a new, empty, unsynced file. */
  function CreateExclusive<R>(d: Disk<R>, k: Key): Disk<R>
    requires Current(d, k).None?
  {
    var created := Change(d, k, Some(d.next));
    created.(files := d.files[d.next := File(k, Torn, false)], next := d.next + 1)
  }

  /** A completed record written to a new temporary file for `k`; no record path changes. */
  function CreateTemporary<R>(d: Disk<R>, k: Key, content: Content<R>): Disk<R> {
    d.(files := d.files[d.next := File(k, content, false)], next := d.next + 1)
  }

  function Write<R>(d: Disk<R>, i: Inode, content: Content<R>): Disk<R>
    requires i in d.files
  {
    d.(files := d.files[i := File(d.files[i].home, content, false)])
  }

  function SyncFile<R>(d: Disk<R>, i: Inode): Disk<R>
    requires i in d.files
  {
    d.(files := d.files[i := d.files[i].(synced := true)])
  }

  function Rename<R>(d: Disk<R>, i: Inode, k: Key): Disk<R> { Change(d, k, Some(i)) }

  function SyncDirectory<R>(d: Disk<R>): Disk<R> {
    d.(entries := map k | k in d.entries :: [Current(d, k)])
  }

  /** A crash: `keep` picks a surviving value of each entry, `torn` the unsynced files that are lost. */
  function Crash<R>(d: Disk<R>, keep: map<Key, nat>, torn: set<Inode>): Disk<R> {
    Disk(
      map k | k in d.entries ::
        [if k in keep && keep[k] < |Entry(d, k)| then Entry(d, k)[keep[k]] else Current(d, k)],
      map i | i in d.files ::
        File(d.files[i].home, if i in torn && !d.files[i].synced then Torn else d.files[i].content, true),
      d.next)
  }

  // What each operation does to an entry and to a file.

  lemma EntryAfterChange<R>(d: Disk<R>, k: Key, v: Option<Inode>, j: Key)
    ensures Entry(Change(d, k, v), j) == if j == k then Entry(d, k) + [v] else Entry(d, j)
    ensures Current(Change(d, k, v), j) == if j == k then v else Current(d, j)
  {
  }

  lemma EntryAfterSync<R>(d: Disk<R>, k: Key)
    ensures Entry(SyncDirectory(d), k) == [Current(d, k)]
    ensures Current(SyncDirectory(d), k) == Current(d, k)
  {
  }

  /** After a crash an entry holds one of the values it may have had, and nothing else. */
  lemma EntryAfterCrash<R>(d: Disk<R>, keep: map<Key, nat>, torn: set<Inode>, k: Key)
    ensures |Entry(Crash(d, keep, torn), k)| == 1
    ensures Current(Crash(d, keep, torn), k) in Entry(d, k)
  {
  }

  /** Any value an entry may have is one that a crash can leave. */
  lemma AnyValueMaySurvive<R>(d: Disk<R>, k: Key, n: nat, torn: set<Inode>)
    requires n < |Entry(d, k)|
    ensures Current(Crash(d, map[k := n], torn), k) == Entry(d, k)[n]
  {
  }

  /** A crash tears exactly the unsynced files it picks, and leaves every other content as it was, now durable. */
  lemma ContentAfterCrash<R>(d: Disk<R>, keep: map<Key, nat>, torn: set<Inode>, i: Inode)
    requires i in d.files
    ensures var crashed := Crash(d, keep, torn);
            && crashed.files.Keys == d.files.Keys && crashed.next == d.next && crashed.files[i].synced
            && crashed.files[i].home == d.files[i].home
            && crashed.files[i].content == (if i in torn && !d.files[i].synced then Torn else d.files[i].content)
  {
  }

  /** What was written and not synced may be torn; what was synced after it was written survives any crash. */
  lemma SyncedWritesSurvive<R>(d: Disk<R>, i: Inode, content: Content<R>, keep: map<Key, nat>, torn: set<Inode>)
    requires i in d.files
    ensures var written := Write(d, i, content);
            && Crash(written, keep, torn + {i}).files[i].content == Torn
            && Crash(written, keep, torn - {i}).files[i].content == content
            && Crash(SyncFile(written, i), keep, torn).files[i].content == content
  {
    ContentAfterCrash(Write(d, i, content), keep, torn + {i}, i);
    ContentAfterCrash(Write(d, i, content), keep, torn - {i}, i);
    ContentAfterCrash(SyncFile(Write(d, i, content), i), keep, torn, i);
  }

  /** Every file has a number below the next one. */
  predicate Numbered<R>(d: Disk<R>) { forall i :: i in d.files ==> i < d.next }

  /** A created file is a new one for its key that a crash may tear; no other file is touched. */
  lemma CreatedFilesAreNew<R>(d: Disk<R>, k: Key, content: Content<R>)
    requires Numbered(d)
    ensures var t := CreateTemporary(d, k, content);
            && d.next !in d.files && Numbered(t) && t.entries == d.entries
            && t.files == d.files[d.next := File(k, content, false)]
    ensures Current(d, k).None? ==>
              var t := CreateExclusive(d, k);
              && Numbered(t) && Current(t, k) == Some(d.next) && t.files == d.files[d.next := File(k, Torn, false)]
              && forall j :: j != k ==> Entry(t, j) == Entry(d, j)
  {
  }
}
