/**
  Log rotation: appending to a log that is moved aside when it has grown too big, with at most 63 numbered backups kept
  and a counter record beside them. The file system is a map from path to file.
 */
module LogRotation {
  import opened Wrappers
  import opened LogNames

  const MAX_FILES: nat := 63
  const MAX_SIZE: nat := 20 * 0x10_0000
  const BUFFER: nat := 4096

  datatype Info = Info(count: int, oldest: int)

  datatype File = Text(data: string) | Record(info: Info)

  type Files = map<string, File>

  // ---- file operations

  function Moved<K, V>(fs: map<K, V>, a: K, b: K): map<K, V> {
    if a in fs then (fs - {a})[b := fs[a]] else fs
  }

  /** A file moved aside after `gone` is removed, and a record written beside it. */
  function Rotated<K, V>(fs: map<K, V>, gone: set<K>, a: K, b: K, r: K, record: V): map<K, V> {
    Moved(fs - gone, a, b)[r := record]
  }

  lemma RotatedAt<K, V>(fs: map<K, V>, gone: set<K>, a: K, b: K, r: K, record: V, x: K)
    requires a in fs && a !in gone && r != a && r != b && a != b
    ensures x in Rotated(fs, gone, a, b, r, record) <==> x == r || x == b || (x in fs && x !in gone && x != a)
    ensures x == b ==> Rotated(fs, gone, a, b, r, record)[x] == fs[a]
    ensures x != b && x != r && x in fs && x !in gone && x != a ==> Rotated(fs, gone, a, b, r, record)[x] == fs[x]
    ensures Rotated(fs, gone, a, b, r, record)[r] == record
  {
  }

  /** The record may be created first: writing it at the end settles what it holds. */
  lemma RotatedInSteps<K, V>(fs: map<K, V>, gone: set<K>, a: K, b: K, r: K, v: V, record: V)
    requires r !in gone && r != a && r != b
    ensures r in Moved(fs[r := v] - gone, a, b)
    ensures Moved(fs[r := v] - gone, a, b)[r := record] == Rotated(fs, gone, a, b, r, record)
  {
  }

  function Size(fs: Files, path: string): nat {
    if path in fs && fs[path].Text? then |fs[path].data| else 0
  }

  function Content(fs: Files, path: string): string {
    if path in fs && fs[path].Text? then fs[path].data else ""
  }

  function Appended(fs: Files, path: string, data: string): Files {
    fs[path := Text(Content(fs, path) + data)]
  }

  /** A log whose rotation is in order: it is not its own counter record, and what is there is a log and a record. */
  ghost predicate Rotatable(fs: Files, path: string) {
    && InfoPath(path) != path
    && (path in fs ==> fs[path].Text?)
    && (InfoPath(path) in fs ==> fs[InfoPath(path)].Record?)
  }

  function InfoOf(fs: Files, path: string): Info {
    var p := InfoPath(path);
    if p in fs && fs[p].Record? then fs[p].info else Info(0, 0)
  }

  /** One rotation: the next number is the count while it is below the maximum, and the oldest backup goes after that. */
  function BackedUp(fs: Files, path: string): Files {
    var i := InfoOf(fs, path);
    if i.count < MAX_FILES then
      Rotated(fs, {}, path, BackupName(path, i.count), InfoPath(path), Record(Info(i.count + 1, i.oldest)))
    else
      Rotated(fs, {BackupName(path, i.oldest)}, path, BackupName(path, i.oldest + i.count), InfoPath(path),
              Record(Info(i.count, i.oldest + 1)))
  }

  /** Append a line, rotating first if the log is over its limit. */
  function Logged(fs: Files, path: string, data: string): Files {
    Appended(if Size(fs, path) > MAX_SIZE then BackedUp(fs, path) else fs, path, data)
  }

  /** The line `dbg_log` writes: time stamp and text, cut to what its buffer holds. */
  function Line(stamp: string, text: string): (s: string)
    ensures |s| <= BUFFER - 1
  {
    var line := "[" + stamp + "] " + text;
    if |line| <= BUFFER - 1 then line else line[..BUFFER - 1]
  }

  // ---- the code, on a file system that changes in place

  class LogStore {
    var files: Files

    constructor (files: Files)
      ensures this.files == files
    {
      this.files := files;
    }

    /** Read the record, creating it if there is none; bytes that are no record may read as anything. */
    method ReadLogInfo(path: string) returns (info: Info)
      modifies this
      ensures HasRecord(old(files), path) ==> info == InfoOf(old(files), path)
      ensures files == WithRecord(old(files), path)
    {
      var p := InfoPath(path);
      if p !in files {
        info := Info(0, 0);
        files := files[p := Record(info)];
      } else if files[p].Record? {
        info := files[p].info;
      } else {
        info := *;
      }
    }

    /** Overwrite the record if its file exists; over other bytes the outcome may be anything. */
    method WriteLogInfo(path: string, info: Info)
      modifies this
      ensures files.Keys == old(files).Keys
      ensures forall p :: p in files && p != InfoPath(path) ==> files[p] == old(files)[p]
      ensures InfoPath(path) in files && old(files)[InfoPath(path)].Record? ==> files[InfoPath(path)] == Record(info)
    {
      var p := InfoPath(path);
      if p in files {
        if files[p].Record? {
          files := files[p := Record(info)];
        } else {
          var bytes: string := *;
          files := files[p := Text(bytes)];
        }
      }
    }

    method Rename(a: string, b: string)
      modifies this
      ensures files == Moved(old(files), a, b)
    {
      if a in files {
        files := (files - {a})[b := files[a]];
      }
    }

    /**
      One rotation. Whatever is on disk, the log is moved aside under a numbered name and nothing of other names changes;
      if the log and its record are in order, the new file map is exactly the specification's.
     */
    method BackupLogFile(path: string) returns (ghost k: int)
      modifies this
      ensures Rotatable(old(files), path) ==> files == BackedUp(old(files), path)
      ensures path !in files
      ensures path in old(files) ==> BackupName(path, k) in files && files[BackupName(path, k)] == old(files)[path]
      ensures SameElsewhere(old(files), files, path)
    {
      hide BackupName, InfoPath, Moved, Rotated;
      var info := ReadLogInfo(path);
      ghost var fs, found := old(files), info;
      ghost var gone: set<string> := {};
      if info.count < MAX_FILES {
        k := info.count;
        assert files - gone == files;
        Rename(path, BackupName(path, info.count));
        info := info.(count := info.count + 1);
      } else {
        k := info.oldest + info.count;
        gone := {BackupName(path, info.oldest)};
        files := files - {BackupName(path, info.oldest)};
        Rename(path, BackupName(path, info.oldest + info.count));
        info := info.(oldest := info.oldest + 1);
      }
      ghost var moved := files;
      assert moved == Moved(WithRecord(fs, path) - gone, path, BackupName(path, k));
      NamesApart(path, k);
      NamesApart(path, found.oldest);
      MovedAside(fs, gone, path, k, found);
      WriteLogInfo(path, info);
      if Rotatable(fs, path) {
        RotationMeets(fs, gone, path, k, found, files, info);
      }
    }

    /** Append to a file, creating it if there is none; a record's bytes are text like any others then. */
    method Append(path: string, data: string)
      modifies this
      ensures path in files && files[path].Text? && EndsWith(files[path].data, data)
      ensures files == old(files)[path := files[path]]
      ensures !IsRecord(old(files), path) ==> files == Appended(old(files), path, data)
    {
      if path in files && files[path].Record? {
        var bytes: string := *;
        files := files[path := Text(bytes + data)];
      } else {
        files := files[path := Text((if path in files then files[path].data else "") + data)];
      }
    }

    /** The measure of the unbounded loop: over the limit, missing, writable. */
    ghost function Stage(path: string): nat
      reads this
    {
      if path !in files then 1 else if Size(files, path) > MAX_SIZE then 2 else 0
    }

    /**
      Whatever is on disk, the line ends the active file, after what was there unless that was over the limit, within
      three passes; if log and record are in order, the new file map is exactly the specification's.
     */
    method DbgLog(stamp: string, text: string, path: string) returns (passes: nat)
      modifies this
      ensures Rotatable(old(files), path) ==> files == Logged(old(files), path, Line(stamp, text))
      ensures Ends(old(files), files, path, Line(stamp, text)) && SameElsewhere(old(files), files, path)
      ensures 1 <= passes <= 3
    {
      hide Line, InfoPath, BackupName, BackedUp;
      passes := 0;
      var done := false;
      ghost var fs, line := files, Line(stamp, text);
      while !done
        invariant SameElsewhere(fs, files, path)
        invariant done ==> 1 <= passes <= 3 && Ends(fs, files, path, line)
        invariant !done ==> passes + Stage(path) <= 2
        invariant !done ==> Active(files, path) == Active(fs, path) && (IsRecord(files, path) ==> IsRecord(fs, path))
        invariant Rotatable(fs, path) ==> Rotatable(files, path)
        invariant Rotatable(fs, path) && !done ==> Logged(files, path, line) == Logged(fs, path, line)
        invariant Rotatable(fs, path) && done ==> files == Logged(fs, path, line)
        decreases !done, Stage(path)
      {
        passes := passes + 1;
        ghost var was := files;
        if path in files {
          if Size(files, path) > MAX_SIZE {
            if Rotatable(files, path) { BackedUpIsMissing(files, path); }
            var _ := BackupLogFile(path);
          } else {
            Append(path, Line(stamp, text));
            done := true;
          }
        } else {
          TouchedThenLogged(files, path, line);
          files := files[path := Text("")];
        }
      }
    }

    method DbgSignalSafe(text: string, path: string)
      modifies this
      ensures Rotatable(old(files), path) ==> files == Logged(old(files), path, text)
      ensures Ends(old(files), files, path, text) && SameElsewhere(old(files), files, path)
    {
      hide InfoPath, BackupName, BackedUp;
      if Size(files, path) > MAX_SIZE {
        var _ := BackupLogFile(path);
      }
      Append(path, text);
    }

    /** Any calls, one after the other: the files go where the specification's do, and so show their history. */
    method LogAll(path: string, calls: seq<Call>)
      modifies this
      ensures Rotatable(old(files), path) ==> files == After(old(files), path, calls)
      ensures Untouched(old(files), path) ==> Shows(files, old(files), path, HistoryOf(calls))
    {
      hide Line, Logged, Shows, InfoPath, Own;
      var n := 0;
      ghost var fs := files;
      while n < |calls|
        invariant 0 <= n <= |calls|
        invariant Rotatable(fs, path) ==> files == After(fs, path, calls[..n]) && Rotatable(files, path)
      {
        if Rotatable(files, path) { LoggedIsRotatable(files, path, Data(calls[n])); }
        assert calls[..n + 1][..n] == calls[..n];
        match calls[n] {
          case Stamped(stamp, text) => var _ := DbgLog(stamp, text, path);
          case Raw(text) => DbgSignalSafe(text, path);
        }
        n := n + 1;
      }
      assert calls[..n] == calls;
      if Untouched(fs, path) {
        UntouchedIsRotatable(fs, path);
        FilesShowHistory(fs, path, calls);
      }
    }
  }

  // ---- the code's steps and the specification

  predicate IsRecord(fs: Files, path: string) {
    path in fs && fs[path].Record?
  }

  /** The counter record is absent or a record. */
  predicate HasRecord(fs: Files, path: string) {
    InfoPath(path) in fs ==> fs[InfoPath(path)].Record?
  }

  function WithRecord(fs: Files, path: string): Files {
    if InfoPath(path) in fs then fs else fs[InfoPath(path) := Record(Info(0, 0))]
  }

  /** The text a line is appended to. */
  function Active(fs: Files, path: string): string {
    if Size(fs, path) > MAX_SIZE then "" else Content(fs, path)
  }

  ghost predicate Ends(before: Files, after: Files, path: string, data: string) {
    && path in after && after[path].Text? && EndsWith(after[path].data, data)
    && (!IsRecord(before, path) ==> after[path] == Text(Active(before, path) + data))
  }

  ghost predicate NamedAfter(path: string, p: string) {
    p == path || p == InfoPath(path) || exists k: int :: p == BackupName(path, k)
  }

  /** Only the log, its record and names of backups are touched. */
  ghost predicate SameElsewhere(before: Files, after: Files, path: string) {
    forall p :: !NamedAfter(path, p) ==> (p in after <==> p in before) && (p in before ==> after[p] == before[p])
  }

  /** The rename leaves nothing under the log's name, and puts what was there under the backup's. */
  lemma MovedAside(fs: Files, gone: set<string>, path: string, k: int, found: Info)
    requires gone == {} || gone == {BackupName(path, found.oldest)}
    ensures var moved := Moved(WithRecord(fs, path) - gone, path, BackupName(path, k));
            && path !in moved && SameElsewhere(fs, moved, path)
            && (path in fs ==> BackupName(path, k) in moved && moved[BackupName(path, k)] == fs[path])
  {
    hide BackupName, InfoPath;
    NamesApart(path, k);
    NamesApart(path, found.oldest);
    assert NamedAfter(path, BackupName(path, k)) && NamedAfter(path, BackupName(path, found.oldest));
  }

  /** With log and record in order, the rename and the record's overwriting come to the specification's rotation. */
  lemma RotationMeets(fs: Files, gone: set<string>, path: string, k: int, found: Info, written: Files, info: Info)
    requires Rotatable(fs, path) && (gone == {} || gone == {BackupName(path, found.oldest)})
    requires var moved := Moved(WithRecord(fs, path) - gone, path, BackupName(path, k));
             && written.Keys == moved.Keys
             && (forall p :: p in written && p != InfoPath(path) ==> written[p] == moved[p])
             && (InfoPath(path) in written && moved[InfoPath(path)].Record? ==> written[InfoPath(path)] == Record(info))
    ensures written == Rotated(fs, gone, path, BackupName(path, k), InfoPath(path), Record(info))
  {
    hide BackupName, InfoPath;
    NamesApart(path, k);
    NamesApart(path, found.oldest);
    var r, b := InfoPath(path), BackupName(path, k);
    var v := WithRecord(fs, path)[r];
    assert v.Record? && WithRecord(fs, path) == fs[r := v];
    RotatedInSteps(fs, gone, path, b, r, v, Record(info));
    hide Rotated, WithRecord;
    var moved := Moved(fs[r := v] - gone, path, b);
    assert r in moved && moved[r] == v;
    assert written == moved[r := Record(info)];
  }

  lemma UntouchedIsRotatable(fs: Files, path: string)
    requires Untouched(fs, path)
    ensures Rotatable(fs, path)
  {
    assert Own(path, path) && Own(path, InfoPath(path));
  }

  lemma LoggedIsRotatable(fs: Files, path: string, data: string)
    requires Rotatable(fs, path)
    ensures Rotatable(Logged(fs, path, data), path)
  {
    hide BackedUp, InfoPath;
    BackedUpIsMissing(fs, path);
  }

  lemma BackedUpIsMissing(fs: Files, path: string)
    requires Rotatable(fs, path)
    ensures path !in BackedUp(fs, path) && Rotatable(BackedUp(fs, path), path)
    ensures forall data :: Size(fs, path) > MAX_SIZE ==> Logged(BackedUp(fs, path), path, data) == Logged(fs, path, data)
  {
    var i := InfoOf(fs, path);
    NamesApart(path, i.count);
    NamesApart(path, i.oldest + i.count);
  }

  lemma TouchedThenLogged(fs: Files, path: string, data: string)
    requires path !in fs
    ensures Logged(fs[path := Text("")], path, data) == Logged(fs, path, data)
  {
    assert fs[path := Text("")][path := Text("" + data)] == fs[path := Text("" + data)];
  }

  // ---- what the files hold

  /** A rotated log as history: every generation moved aside so far, and the file being written. */
  datatype History = History(generations: seq<string>, active: Option<string>)

  function Oldest(n: nat): nat {
    if n <= MAX_FILES then 0 else n - MAX_FILES
  }

  ghost predicate Own(path: string, p: string) {
    p == path || p == InfoPath(path) || exists k: nat :: p == BackupName(path, k)
  }

  /**
    The files of a log are exactly its history seen through a window: the backups of the last 63 generations, each under
    its own number; the counter record; the active file. Every other path is as it was.
   */
  ghost predicate Shows(fs: Files, base: Files, path: string, h: History) {
    var n := |h.generations|;
    && (forall k: nat :: BackupName(path, k) in fs <==> Oldest(n) <= k < n)
    && (forall k: nat :: Oldest(n) <= k < n ==> fs[BackupName(path, k)] == Text(h.generations[k]))
    && (InfoPath(path) in fs <==> n > 0)
    && (n > 0 ==> fs[InfoPath(path)] == Record(Info(n - Oldest(n), Oldest(n))))
    && (path in fs <==> h.active.Some?)
    && (h.active.Some? ==> fs[path] == Text(h.active.value))
    && (forall p :: !Own(path, p) ==> (p in fs <==> p in base) && (p in base ==> fs[p] == base[p]))
  }

  /** Before the first line: nothing of the log is there yet. */
  ghost predicate Untouched(base: Files, path: string) {
    InfoPath(path) != path && forall p :: Own(path, p) ==> p !in base
  }

  lemma UntouchedShows(base: Files, path: string)
    requires Untouched(base, path)
    ensures Shows(base, base, path, History([], None))
  {
    assert Own(path, path) && Own(path, InfoPath(path));
    forall k: nat ensures BackupName(path, k) !in base { assert Own(path, BackupName(path, k)); }
  }

  /** What is where after one rotation. */
  lemma RotationAt(fs: Files, path: string, n: nat, p: string)
    requires InfoPath(path) != path && path in fs && InfoOf(fs, path) == Info(n - Oldest(n), Oldest(n))
    ensures var fs', gone := BackedUp(fs, path), Oldest(n + 1) > Oldest(n) && p == BackupName(path, Oldest(n));
            && (p in fs' <==> p == InfoPath(path) || p == BackupName(path, n) || (p in fs && !gone && p != path))
            && (p == BackupName(path, n) ==> fs'[p] == fs[path])
            && (p in fs && !gone && p != path && p != InfoPath(path) && p != BackupName(path, n) ==> fs'[p] == fs[p])
            && fs'[InfoPath(path)] == Record(Info(n + 1 - Oldest(n + 1), Oldest(n + 1)))
  {
    hide Rotated, BackupName, InfoPath;
    NamesApart(path, n);
    NamesApart(path, Oldest(n));
    var i := InfoOf(fs, path);
    if i.count < MAX_FILES {
      RotatedAt(fs, {}, path, BackupName(path, n), InfoPath(path), Record(Info(i.count + 1, i.oldest)), p);
    } else {
      RotatedAt(fs, {BackupName(path, i.oldest)}, path, BackupName(path, n), InfoPath(path),
                Record(Info(i.count, i.oldest + 1)), p);
    }
  }

  lemma RotationNames(fs: Files, path: string, gs: seq<string>, a: string, k: nat)
    requires InfoPath(path) != path && path in fs && fs[path] == Text(a)
    requires InfoOf(fs, path) == Info(|gs| - Oldest(|gs|), Oldest(|gs|))
    requires BackupName(path, k) in fs <==> Oldest(|gs|) <= k < |gs|
    requires Oldest(|gs|) <= k < |gs| ==> fs[BackupName(path, k)] == Text(gs[k])
    ensures var n, fs' := |gs|, BackedUp(fs, path);
            && (BackupName(path, k) in fs' <==> Oldest(n + 1) <= k < n + 1)
            && (Oldest(n + 1) <= k < n + 1 ==> fs'[BackupName(path, k)] == Text((gs + [a])[k]))
  {
    hide BackupName, InfoPath, InfoOf, BackedUp;
    var n := |gs|;
    NamesApart(path, k);
    RotationAt(fs, path, n, BackupName(path, k));
    if BackupName(path, k) == BackupName(path, n) { BackupNameInjective(path, k, n); }
    if BackupName(path, k) == BackupName(path, Oldest(n)) { BackupNameInjective(path, k, Oldest(n)); }
  }

  lemma RotationSpares(fs: Files, base: Files, path: string, h: History, p: string)
    requires InfoPath(path) != path && Shows(fs, base, path, h) && h.active.Some? && !Own(path, p)
    ensures p in BackedUp(fs, path) <==> p in base
    ensures p in base ==> BackedUp(fs, path)[p] == base[p]
  {
    hide BackedUp, BackupName, InfoPath;
    var n := |h.generations|;
    assert p != BackupName(path, n) && p != BackupName(path, Oldest(n));
    assert InfoOf(fs, path) == Info(n - Oldest(n), Oldest(n));
    RotationAt(fs, path, n, p);
  }

  /** One rotation moves the active file into the window under the next number, and the 64th-last out of it. */
  lemma {:induction false} RotationShifts(fs: Files, base: Files, path: string, h: History)
    requires InfoPath(path) != path && Shows(fs, base, path, h) && h.active.Some?
    ensures Shows(BackedUp(fs, path), base, path, History(h.generations + [h.active.value], None))
  {
    hide BackedUp, BackupName, InfoPath, Own;
    var n, gs := |h.generations|, h.generations;
    var fs' := BackedUp(fs, path);
    assert InfoOf(fs, path) == Info(n - Oldest(n), Oldest(n));
    hide InfoOf;
    forall k: nat
      ensures BackupName(path, k) in fs' <==> Oldest(n + 1) <= k < n + 1
      ensures Oldest(n + 1) <= k < n + 1 ==> fs'[BackupName(path, k)] == Text((gs + [h.active.value])[k])
    {
      RotationNames(fs, path, gs, h.active.value, k);
    }
    forall p | !Own(path, p) ensures (p in fs' <==> p in base) && (p in base ==> fs'[p] == base[p]) {
      RotationSpares(fs, base, path, h, p);
    }
    NamesApart(path, n);
    RotationAt(fs, path, n, path);
    RotationAt(fs, path, n, InfoPath(path));
  }

  function Grown(h: History, data: string): History {
    if h.active.Some? && |h.active.value| > MAX_SIZE then History(h.generations + [h.active.value], Some(data))
    else History(h.generations, Some(h.active.GetOr("") + data))
  }

  lemma AppendingShows(fs: Files, base: Files, path: string, h: History, data: string)
    requires InfoPath(path) != path && Shows(fs, base, path, h)
    ensures Shows(Appended(fs, path, data), base, path, History(h.generations, Some(h.active.GetOr("") + data)))
  {
    forall k: nat ensures BackupName(path, k) != path { NamesApart(path, k); }
  }

  lemma {:induction false} LoggingShows(fs: Files, base: Files, path: string, h: History, data: string)
    requires InfoPath(path) != path && Shows(fs, base, path, h)
    ensures Shows(Logged(fs, path, data), base, path, Grown(h, data))
  {
    hide BackedUp;
    if h.active.Some? && |h.active.value| > MAX_SIZE {
      RotationShifts(fs, base, path, h);
      AppendingShows(BackedUp(fs, path), base, path, History(h.generations + [h.active.value], None), data);
      assert "" + data == data;
    } else {
      AppendingShows(fs, base, path, h, data);
    }
  }

  // ---- runs

  /** A call on the log: through `dbg_log` with its time stamp, or through the signal-safe path as is. */
  datatype Call = Stamped(stamp: string, text: string) | Raw(text: string)

  function Data(c: Call): string {
    match c
    case Stamped(stamp, text) => Line(stamp, text)
    case Raw(text) => text
  }

  ghost function After(fs: Files, path: string, calls: seq<Call>): Files {
    if calls == [] then fs
    else Logged(After(fs, path, calls[..|calls| - 1]), path, Data(calls[|calls| - 1]))
  }

  ghost function HistoryOf(calls: seq<Call>): History {
    if calls == [] then History([], None)
    else Grown(HistoryOf(calls[..|calls| - 1]), Data(calls[|calls| - 1]))
  }

  /** Everything ever written. */
  ghost function Written(calls: seq<Call>): string {
    if calls == [] then "" else Written(calls[..|calls| - 1]) + Data(calls[|calls| - 1])
  }

  ghost function Concat(parts: seq<string>): string {
    if parts == [] then "" else Concat(parts[..|parts| - 1]) + parts[|parts| - 1]
  }

  /**
    After any calls on a log whose files are all its own: with n rotations so far the record says `min(n, 63)` backups
    from number `max(0, n - 63)` on, exactly those exist, and backup k holds the k-th generation moved aside.
   */
  lemma {:induction false} FilesShowHistory(base: Files, path: string, calls: seq<Call>)
    requires Untouched(base, path)
    ensures Shows(After(base, path, calls), base, path, HistoryOf(calls))
  {
    hide Shows, Logged, Grown;
    if calls == [] {
      UntouchedShows(base, path);
    } else {
      var front := calls[..|calls| - 1];
      FilesShowHistory(base, path, front);
      LoggingShows(After(base, path, front), base, path, HistoryOf(front), Data(calls[|calls| - 1]));
    }
  }

  /** Reading a log back through its record: the backups it lists, oldest first, then the active file. */
  ghost function Listed(fs: Files, path: string, from: int, count: int): string
    decreases count
  {
    if count <= 0 then "" else Listed(fs, path, from, count - 1) + Content(fs, BackupName(path, from + count - 1))
  }

  ghost function ReadBack(fs: Files, path: string): string {
    Listed(fs, path, InfoOf(fs, path).oldest, InfoOf(fs, path).count) + Content(fs, path)
  }

  lemma {:induction false} ConcatSplit(parts: seq<string>, m: nat)
    requires m <= |parts|
    ensures Concat(parts) == Concat(parts[..m]) + Concat(parts[m..])
  {
    if m == |parts| {
      assert parts[..m] == parts;
    } else {
      var front := parts[..|parts| - 1];
      ConcatSplit(front, m);
      assert parts[m..][..|parts| - m - 1] == front[m..];
      assert parts[..m] == front[..m];
    }
  }

  lemma {:induction false} ListedIsConcat(fs: Files, path: string, gs: seq<string>, from: nat, count: nat)
    requires from + count <= |gs|
    requires forall k: nat :: from <= k < |gs| ==> BackupName(path, k) in fs && fs[BackupName(path, k)] == Text(gs[k])
    ensures Listed(fs, path, from, count) == Concat(gs[from..from + count])
  {
    hide BackupName, Concat;
    if count == 0 {
      ConcatNone();
      assert gs[from..from + count] == [];
    } else {
      ListedIsConcat(fs, path, gs, from, count - 1);
      assert Content(fs, BackupName(path, from + count - 1)) == gs[from + count - 1];
      hide Content;
      WindowGrows(gs, from, count);
    }
  }

  lemma WindowGrows(gs: seq<string>, from: nat, count: nat)
    requires count > 0 && from + count <= |gs|
    ensures Concat(gs[from..from + count]) == Concat(gs[from..from + count - 1]) + gs[from + count - 1]
  {
    var part := gs[from..from + count];
    assert part[..count - 1] == gs[from..from + count - 1] && part[count - 1] == gs[from + count - 1];
  }

  lemma ConcatMore(parts: seq<string>, last: string)
    ensures Concat(parts + [last]) == Concat(parts) + last
  {
    assert (parts + [last])[..|parts|] == parts;
  }

  lemma GrownHolds(h: History, data: string)
    ensures Concat(Grown(h, data).generations) + Grown(h, data).active.GetOr("")
         == Concat(h.generations) + h.active.GetOr("") + data
  {
    hide Concat;
    if h.active.Some? && |h.active.value| > MAX_SIZE {
      ConcatMore(h.generations, h.active.value);
    }
  }

  lemma {:induction false} NothingLost(calls: seq<Call>)
    ensures Written(calls) == Concat(HistoryOf(calls).generations) + HistoryOf(calls).active.GetOr("")
  {
    if calls == [] {
      ConcatNone();
    } else {
      hide Concat, Grown, Data;
      NothingLost(calls[..|calls| - 1]);
      GrownHolds(HistoryOf(calls[..|calls| - 1]), Data(calls[|calls| - 1]));
    }
  }

  lemma {:induction false} ReadBackIs(fs: Files, base: Files, path: string, h: History)
    requires Shows(fs, base, path, h)
    ensures ReadBack(fs, path) == Concat(h.generations[Oldest(|h.generations|)..]) + h.active.GetOr("")
  {
    hide Concat, Listed, BackupName, InfoPath, Own;
    var gs := h.generations;
    var lo := Oldest(|gs|);
    ListedIsConcat(fs, path, gs, lo, |gs| - lo);
    assert gs[lo..|gs|] == gs[lo..];
    ConcatNone();
    ListedNone(fs, path);
  }

  /**
    What can be read back from the files after any calls is a suffix of everything ever written, and all of it while at
    most 63 rotations have happened.
   */
  lemma {:induction false} ReadBackIsSuffix(base: Files, path: string, calls: seq<Call>)
    requires Untouched(base, path)
    ensures EndsWith(Written(calls), ReadBack(After(base, path, calls), path))
    ensures |HistoryOf(calls).generations| <= MAX_FILES ==> ReadBack(After(base, path, calls), path) == Written(calls)
  {
    hide Concat, ReadBack, HistoryOf, After, Written, Shows;
    var fs, h := After(base, path, calls), HistoryOf(calls);
    var gs, active := h.generations, h.active.GetOr("");
    var lo := Oldest(|gs|);
    FilesShowHistory(base, path, calls);
    ReadBackIs(fs, base, path, h);
    NothingLost(calls);
    ConcatSplit(gs, lo);
    ConcatNone();
    var dropped := Concat(gs[..lo]);
    assert Written(calls) == dropped + ReadBack(fs, path);
  }

  lemma ConcatNone()
    ensures Concat([]) == ""
  {
  }

  lemma ListedNone(fs: Files, path: string)
    ensures Listed(fs, path, 0, 0) == ""
  {
  }

  // ---- sizes

  ghost predicate AllStamped(calls: seq<Call>) {
    forall i :: 0 <= i < |calls| ==> calls[i].Stamped?
  }

  const FILE_BOUND: nat := MAX_SIZE + BUFFER - 1

  /** Through `dbg_log` alone every generation, and the active file, stays within the limit plus one line. */
  lemma {:induction false} GenerationsAreBounded(calls: seq<Call>)
    requires AllStamped(calls)
    ensures forall k :: 0 <= k < |HistoryOf(calls).generations| ==> |HistoryOf(calls).generations[k]| <= FILE_BOUND
    ensures |HistoryOf(calls).active.GetOr("")| <= FILE_BOUND
  {
    if calls == [] {
    } else {
      hide Line;
      GenerationsAreBounded(calls[..|calls| - 1]);
      assert calls[|calls| - 1].Stamped?;
    }
  }

  lemma {:induction false} ConcatBounded(parts: seq<string>, b: nat)
    requires forall i :: 0 <= i < |parts| ==> |parts[i]| <= b
    ensures |Concat(parts)| <= |parts| * b
  {
    if parts == [] {
    } else {
      ConcatBounded(parts[..|parts| - 1], b);
    }
  }

  /** So at most 64 such files' worth of text is on disk, whatever the number of calls. */
  lemma {:induction false} DiskIsBounded(base: Files, path: string, calls: seq<Call>)
    requires Untouched(base, path) && AllStamped(calls)
    ensures |ReadBack(After(base, path, calls), path)| <= (MAX_FILES + 1) * FILE_BOUND
    ensures forall p :: Own(path, p) && p in After(base, path, calls) ==> Size(After(base, path, calls), p) <= FILE_BOUND
  {
    hide Concat, Listed, HistoryOf, After;
    var fs, h := After(base, path, calls), HistoryOf(calls);
    var gs := h.generations;
    var lo := Oldest(|gs|);
    FilesShowHistory(base, path, calls);
    GenerationsAreBounded(calls);
    ListedIsConcat(fs, path, gs, lo, |gs| - lo);
    assert gs[lo..|gs|] == gs[lo..];
    ConcatBounded(gs[lo..], FILE_BOUND);
    ListedNone(fs, path);
    ConcatNone();
  }

  // ---- in plain numbers

  /** A line is the stamp in brackets, a space and the text, cut after 4095 characters. */
  lemma LineIs(stamp: string, text: string)
    ensures Line(stamp, text) <= "[" + stamp + "] " + text
    ensures |Line(stamp, text)| == if |stamp| + |text| + 3 < 4095 then |stamp| + |text| + 3 else 4095
  {
  }

  /** A call starts a new generation exactly when the active file holds more than 20 MiB, and else adds to it. */
  lemma HistoryStep(calls: seq<Call>, c: Call)
    ensures var h, h' := HistoryOf(calls), HistoryOf(calls + [c]);
            var data := if c.Raw? then c.text else Line(c.stamp, c.text);
            && (h.active.None? <==> calls == [])
            && (h.active.None? ==> h' == History([], Some(data)))
            && (h.active.Some? ==>
                  h' == if |h.active.value| > 20971520 then History(h.generations + [h.active.value], Some(data))
                        else History(h.generations, Some(h.active.value + data)))
  {
    assert (calls + [c])[..|calls|] == calls;
    hide Line;
    if calls != [] { assert HistoryOf(calls).active.Some?; }
    assert calls == [] ==> HistoryOf(calls) == History([], None);
    assert "" + Data(c) == Data(c);
  }

  /**
    After any calls with n rotations: of the backups exactly the last 63 are there, each with its generation, the record
    gives their number and the first of them, and the log holds what was written since the last rotation.
   */
  lemma WindowIs(base: Files, path: string, calls: seq<Call>, k: nat)
    requires Untouched(base, path) && calls != []
    ensures var fs, h := After(base, path, calls), HistoryOf(calls);
            var n := |h.generations|;
            && (BackupName(path, k) in fs <==> k < n <= k + 63)
            && (k < n <= k + 63 ==> fs[BackupName(path, k)] == Text(h.generations[k]))
            && (InfoPath(path) in fs <==> n > 0)
            && (n > 0 ==> fs[InfoPath(path)] == Record(if n <= 63 then Info(n, 0) else Info(63, n - 63)))
            && h.active.Some? && path in fs && fs[path] == Text(h.active.value)
  {
    hide *;
    FilesShowHistory(base, path, calls);
    var front, last := calls[..|calls| - 1], calls[|calls| - 1];
    assert calls == front + [last];
    HistoryStep(front, last);
    ShownWindow(After(base, path, calls), base, path, HistoryOf(calls), k);
  }

  lemma ShownWindow(fs: Files, base: Files, path: string, h: History, k: nat)
    requires Shows(fs, base, path, h) && h.active.Some?
    ensures var n := |h.generations|;
            && (BackupName(path, k) in fs <==> k < n <= k + 63)
            && (k < n <= k + 63 ==> fs[BackupName(path, k)] == Text(h.generations[k]))
            && (InfoPath(path) in fs <==> n > 0)
            && (n > 0 ==> fs[InfoPath(path)] == Record(if n <= 63 then Info(n, 0) else Info(63, n - 63)))
            && path in fs && fs[path] == Text(h.active.value)
  {
    hide BackupName, InfoPath, Own;
  }
}
