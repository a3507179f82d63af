/**
  Retention by calendar day: day folders from before today are archived and removed, and when space runs out the entry of
  the oldest day goes, but never one of today or later.
 */
module Retention {
  import opened Calendar
  import opened Orders
  import opened Wrappers

  /** A directory entry. An archive holds what the folder held that it was packed from. */
  datatype Item = Folder(content: string) | Archive(content: string) | Plain(data: string) | Special

  type Entries = map<string, Item>

  const ARCHIVE := ".tgz"

  function StartOfDay(t: nat): nat {
    t - t % DAY
  }

  /** The entry is a folder named after a day before `today`. */
  predicate IsOld(es: Entries, name: string, today: int) {
    && name in es && es[name].Folder?
    && FolderTime(name).Some? && FolderTime(name).value < today
  }

  /** The name of a folder's archive is taken by a folder, so that packing fails. */
  predicate Clash(es: Entries, name: string) {
    name + ARCHIVE in es && es[name + ARCHIVE].Folder?
  }

  /** One entry met on the walk: an old folder is packed, unless its archive's name is a folder, and removed either way. */
  function Packed(es: Entries, name: string, today: int): Entries {
    if !IsOld(es, name, today) then es
    else if Clash(es, name) then es - {name}
    else es[name + ARCHIVE := Archive(es[name].content)] - {name}
  }

  function PackedAll(es: Entries, order: seq<string>, today: int): Entries {
    if order == [] then es else Packed(PackedAll(es, order[..|order| - 1], today), order[|order| - 1], today)
  }

  // ---- the code

  class LogFolder {
    var entries: Entries

    constructor (entries: Entries)
      ensures this.entries == entries
    {
      this.entries := entries;
    }

    /** Walk the directory in whatever order it is read, packing and removing each old folder met. */
    method HandleOldLog(t: nat) returns (ghost order: seq<string>)
      modifies this
      ensures Enumerates(order, old(entries).Keys)
      ensures entries == PackedAll(old(entries), order, StartOfDay(t))
    {
      hide FolderTime;
      var today := StartOfDay(t);
      var rest := entries.Keys;
      order := [];
      while rest != {}
        invariant rest <= old(entries).Keys && Enumerates(order, old(entries).Keys - rest)
        invariant entries == PackedAll(old(entries), order, today)
        decreases |rest|
      {
        var name :| name in rest;
        rest := rest - {name};
        assert (order + [name])[..|order|] == order;
        order := order + [name];
        if IsOld(entries, name, today) {
          if !Clash(entries, name) {
            entries := entries[name + ARCHIVE := Archive(entries[name].content)];
          }
          entries := entries - {name};
        }
      }
    }

    /** Find the oldest dated entry from before today, folders and regular files alike, and remove it. */
    method RemoveTheOldestLog(now: nat)
      modifies this
      ensures OldestRemoved(old(entries), entries, StartOfDay(now))
    {
      var today := StartOfDay(now);
      var oldestTime: int := today;
      var oldestName := "";
      var found := false;
      var rest := entries.Keys;
      while rest != {}
        invariant rest <= entries.Keys && entries == old(entries)
        invariant oldestTime <= today && found == (oldestTime != today)
        invariant found ==> IsDated(entries, oldestName, today) && FolderTime(oldestName).value == oldestTime
        invariant forall n :: n in entries.Keys - rest && IsDated(entries, n, today) ==> oldestTime <= FolderTime(n).value
        decreases |rest|
      {
        var name :| name in rest;
        rest := rest - {name};
        if !entries[name].Special? {
          var time := FolderTime(name);
          if time.Some? && oldestTime > time.value {
            oldestTime := time.value;
            oldestName := name;
            found := true;
          }
        }
      }
      if found {
        entries := entries - {oldestName};
      }
    }
  }

  /** A folder or regular file dated before today. */
  predicate IsDated(es: Entries, name: string, today: int) {
    && name in es && !es[name].Special?
    && FolderTime(name).Some? && FolderTime(name).value < today
  }

  // ---- names

  lemma ArchiveNameInjective(m: string, n: string)
    requires m + ARCHIVE == n + ARCHIVE
    ensures m == n
  {
    assert |m| == |n|;
    assert m == (m + ARCHIVE)[..|m|] && n == (n + ARCHIVE)[..|n|];
  }

  /** The name of the archive of some old folder. */
  ghost predicate IsPacked(es: Entries, p: string, today: int) {
    exists n :: IsOld(es, n, today) && p == n + ARCHIVE
  }

  /** A folder in the way of an old folder's archive is old itself: its name is dated the same. */
  lemma ClashIsOld(es: Entries, n: string, today: int)
    requires IsOld(es, n, today) && Clash(es, n)
    ensures IsOld(es, n + ARCHIVE, today)
  {
    hide FolderTime;
    FolderTimeAppend(n, ARCHIVE);
  }

  lemma PackedIsDated(es: Entries, p: string, today: int)
    requires IsPacked(es, p, today)
    ensures FolderTime(p).Some? && FolderTime(p).value < today
  {
    hide FolderTime;
    var n :| IsOld(es, n, today) && p == n + ARCHIVE;
    FolderTimeAppend(n, ARCHIVE);
  }

  // ---- the walk

  /** What a folder held is kept: if nothing is in the way of its archive, or what was in the way has been met before it. */
  ghost predicate Survives(before: Entries, order: seq<string>, n: string) {
    order != []
    && if order[|order| - 1] == n then !Clash(before, n) || n + ARCHIVE in order[..|order| - 1]
       else Survives(before, order[..|order| - 1], n)
  }

  ghost predicate Kept(before: Entries, now: Entries, n: string)
    requires n in before && before[n].Folder?
  {
    n + ARCHIVE in now && now[n + ARCHIVE] == Archive(before[n].content)
  }

  lemma {:induction false} SurvivorsWereFree(before: Entries, order: seq<string>, n: string)
    requires Survives(before, order, n) && Clash(before, n)
    ensures n + ARCHIVE in order
  {
    if order[|order| - 1] != n {
      SurvivorsWereFree(before, order[..|order| - 1], n);
    }
  }

  /** Folders not met yet are untouched, and no new ones have come. */
  ghost predicate FoldersStay(before: Entries, now: Entries, order: seq<string>) {
    && (forall p :: p in before && p !in order && before[p].Folder? ==> p in now && now[p] == before[p])
    && (forall p :: p in now && now[p].Folder? ==> p in before && now[p] == before[p])
  }

  /** An old folder met is gone; what it held is in its archive exactly if it survives. */
  ghost predicate Met(before: Entries, now: Entries, order: seq<string>, today: int, n: string)
    requires IsOld(before, n, today)
  {
    && (n in now ==> IsPacked(before, n, today) && now[n].Archive?)
    && if Survives(before, order, n) then Kept(before, now, n)
       else Clash(before, n) && (n + ARCHIVE in order ==> n + ARCHIVE !in now)
  }

  /** Nothing else changes, and nothing but archives is new. */
  ghost predicate OthersStay(before: Entries, now: Entries, today: int) {
    && (forall p :: p in before && !IsOld(before, p, today) && !IsPacked(before, p, today) ==> p in now && now[p] == before[p])
    && (forall p :: p in now ==> p in before || IsPacked(before, p, today))
  }

  ghost predicate Midway(before: Entries, now: Entries, order: seq<string>, today: int) {
    && FoldersStay(before, now, order)
    && (forall n :: n in order && IsOld(before, n, today) ==> Met(before, now, order, today, n))
    && OthersStay(before, now, today)
  }

  /** An entry not met yet is an old folder now exactly if it was one, and has its archive's name taken exactly if it will not survive. */
  lemma StillOld(before: Entries, now: Entries, order: seq<string>, today: int, x: string)
    requires Midway(before, now, order, today) && x in before && x !in order
    ensures IsOld(now, x, today) <==> IsOld(before, x, today)
    ensures IsOld(before, x, today) ==> now[x] == before[x]
    ensures IsOld(before, x, today) ==> (Clash(now, x) <==> !Survives(before, order + [x], x))
  {
    hide FolderTime;
    assert (order + [x])[..|order|] == order;
    if IsOld(before, x, today) && Clash(before, x) {
      ClashIsOld(before, x, today);
      if x + ARCHIVE in order {
        assert Met(before, now, order, today, x + ARCHIVE);
      }
    }
  }

  lemma FoldersStayOn(before: Entries, now: Entries, order: seq<string>, today: int, x: string)
    requires Midway(before, now, order, today) && x in before && x !in order
    ensures FoldersStay(before, Packed(now, x, today), order + [x])
  {
    hide FolderTime, Met, OthersStay;
    assert x + ARCHIVE != x;
  }

  /** What is where after one entry is met. */
  lemma PackedAt(es: Entries, x: string, today: int, p: string)
    ensures var es', packs := Packed(es, x, today), IsOld(es, x, today) && !Clash(es, x) && p == x + ARCHIVE;
            && (p in es' <==> packs || (p in es && !(IsOld(es, x, today) && p == x)))
            && (p in es' ==> es'[p] == if packs then Archive(es[x].content) else es[p])
  {
    hide FolderTime;
    assert x + ARCHIVE != x;
  }

  lemma ArchiveIsPacked(es: Entries, x: string, today: int)
    requires IsOld(es, x, today)
    ensures IsPacked(es, x + ARCHIVE, today)
  {
    hide FolderTime;
  }

  lemma OtherStaysOn(before: Entries, now: Entries, today: int, x: string, p: string)
    requires OthersStay(before, now, today)
    requires IsOld(now, x, today) <==> IsOld(before, x, today)
    ensures var next := Packed(now, x, today);
            && (p in before && !IsOld(before, p, today) && !IsPacked(before, p, today) ==> p in next && next[p] == before[p])
            && (p in next ==> p in before || IsPacked(before, p, today))
  {
    if IsOld(before, x, today) {
      ArchiveIsPacked(before, x, today);
    }
    PackedAt(now, x, today, p);
    hide IsPacked, IsOld, Packed, Clash;
  }

  lemma OthersStayOn(before: Entries, now: Entries, order: seq<string>, today: int, x: string)
    requires Midway(before, now, order, today) && x in before && x !in order
    ensures OthersStay(before, Packed(now, x, today), today)
  {
    StillOld(before, now, order, today, x);
    assert OthersStay(before, now, today);
    hide Midway, IsPacked, IsOld, Packed;
    forall p {
      OtherStaysOn(before, now, today, x, p);
    }
  }

  lemma WasMet(before: Entries, now: Entries, order: seq<string>, today: int, n: string)
    requires Midway(before, now, order, today) && n in order && IsOld(before, n, today)
    ensures Met(before, now, order, today, n)
    ensures !(n in now && now[n].Folder?)
  {
    hide FolderTime, FoldersStay, OthersStay, Survives;
    assert Met(before, now, order, today, n);
  }

  lemma ArchiveNotMet(before: Entries, now: Entries, order: seq<string>, today: int, x: string)
    requires Midway(before, now, order, today) && x in before && x !in order && IsOld(before, x, today) && Clash(now, x)
    ensures x + ARCHIVE !in order && Clash(before, x)
  {
    assert Clash(before, x) by { hide FolderTime, Met, OthersStay; }
    hide Midway;
    ClashIsOld(before, x, today);
    if x + ARCHIVE in order {
      WasMet(before, now, order, today, x + ARCHIVE);
    }
  }

  /** The entry just met. */
  lemma MetNow(before: Entries, now: Entries, order: seq<string>, today: int, x: string)
    requires Midway(before, now, order, today) && x in before && x !in order && IsOld(before, x, today)
    ensures Met(before, Packed(now, x, today), order + [x], today, x)
  {
    StillOld(before, now, order, today, x);
    if Clash(now, x) { ArchiveNotMet(before, now, order, today, x); }
    hide Midway, FolderTime, IsPacked, Survives;
    assert x + ARCHIVE != x;
  }

  /** An entry met before stays as it was left. */
  lemma MetStays(before: Entries, now: Entries, order: seq<string>, today: int, x: string, n: string)
    requires Midway(before, now, order, today) && x in before && x !in order
    requires n in order && IsOld(before, n, today)
    ensures Met(before, Packed(now, x, today), order + [x], today, n)
  {
    StillOld(before, now, order, today, x);
    WasMet(before, now, order, today, n);
    assert Survives(before, order + [x], n) <==> Survives(before, order, n) by {
      assert (order + [x])[..|order|] == order && n != x;
    }
    hide Midway, FolderTime, IsPacked;
    if n + ARCHIVE == x + ARCHIVE { ArchiveNameInjective(n, x); }
    if Clash(before, n) {
      ClashIsOld(before, n, today);
      if Survives(before, order, n) { SurvivorsWereFree(before, order, n); }
    }
    if IsOld(before, x, today) { ArchiveIsPacked(before, x, today); }
    PackedAt(now, x, today, n);
    PackedAt(now, x, today, n + ARCHIVE);
    hide Survives, Packed, IsOld, Clash;
  }

  lemma {:induction false} WalkIsMidway(before: Entries, order: seq<string>, today: int)
    requires forall i :: 0 <= i < |order| ==> order[i] in before
    requires forall i, j :: 0 <= i < j < |order| ==> order[i] != order[j]
    ensures Midway(before, PackedAll(before, order, today), order, today)
  {
    hide FolderTime, Packed, Met, IsOld;
    if order == [] {
    } else {
      var front, x := order[..|order| - 1], order[|order| - 1];
      var now := PackedAll(before, front, today);
      WalkIsMidway(before, front, today);
      assert order == front + [x] && x !in front;
      FoldersStayOn(before, now, front, today, x);
      OthersStayOn(before, now, front, today, x);
      forall n | n in order && IsOld(before, n, today) ensures Met(before, Packed(now, x, today), order, today, n) {
        if n == x { MetNow(before, now, front, today, x); } else { MetStays(before, now, front, today, x, n); }
      }
    }
  }

  // ---- what retention means

  /** What an old folder held is in its archive after the walk, if and only if it survives the order of the walk. */
  lemma {:induction false} KeptIff(before: Entries, order: seq<string>, today: int, n: string)
    requires Enumerates(order, before.Keys) && IsOld(before, n, today)
    ensures Kept(before, PackedAll(before, order, today), n) <==> Survives(before, order, n)
  {
    WalkIsMidway(before, order, today);
    hide PackedAll, FolderTime, FoldersStay, OthersStay, Survives;
    assert Met(before, PackedAll(before, order, today), order, today, n);
  }

  /** Whatever the order, no folder from before today is left, and an entry neither old nor the name of an archive stays. */
  lemma {:induction false} OnlyOldFoldersGo(before: Entries, order: seq<string>, t: nat)
    requires Enumerates(order, before.Keys)
    ensures var after := PackedAll(before, order, StartOfDay(t));
            && (forall n :: !IsOld(after, n, StartOfDay(t)))
            && OthersStay(before, after, StartOfDay(t))
  {
    var today := StartOfDay(t);
    WalkIsMidway(before, order, today);
    hide PackedAll, FolderTime, Survives;
    var after := PackedAll(before, order, today);
    forall n ensures !IsOld(after, n, today) {
      if IsOld(after, n, today) {
        WasMet(before, after, order, today, n);
      }
    }
  }

  /** Whatever is dated today or later, or not dated at all, is left in place. */
  lemma {:induction false} LaterDaysStay(before: Entries, order: seq<string>, t: nat, p: string)
    requires Enumerates(order, before.Keys) && p in before
    requires FolderTime(p).None? || FolderTime(p).value >= StartOfDay(t)
    ensures var after := PackedAll(before, order, StartOfDay(t)); p in after && after[p] == before[p]
  {
    hide PackedAll, FolderTime, Enumerates;
    OnlyOldFoldersGo(before, order, t);
    if IsPacked(before, p, StartOfDay(t)) { PackedIsDated(before, p, StartOfDay(t)); }
  }

  /** So is the folder printed for any time of today or later. */
  lemma {:induction false} LaterFoldersStay(before: Entries, order: seq<string>, t: nat, u: nat)
    requires Enumerates(order, before.Keys) && u / DAY >= t / DAY && FolderName(u) in before
    ensures var after := PackedAll(before, order, StartOfDay(t));
            FolderName(u) in after && after[FolderName(u)] == before[FolderName(u)]
  {
    hide PackedAll, FolderTime, Enumerates, FolderName;
    FolderNameRoundTrips(u);
    assert StartOfDay(u) >= StartOfDay(t);
    LaterDaysStay(before, order, t, FolderName(u));
  }

  /** The folder of a day before today is removed, and what it held is in its archive unless that name was a folder's. */
  lemma {:induction false} OldFoldersArePacked(before: Entries, order: seq<string>, t: nat, u: nat)
    requires Enumerates(order, before.Keys) && u / DAY < t / DAY
    requires FolderName(u) in before && before[FolderName(u)].Folder?
    ensures var name, after := FolderName(u), PackedAll(before, order, StartOfDay(t));
            && name !in after
            && (Kept(before, after, name) <==> Survives(before, order, name))
            && (!Clash(before, name) ==> Kept(before, after, name))
  {
    var name, today := FolderName(u), StartOfDay(t);
    FolderNameRoundTrips(u);
    assert StartOfDay(u) < today;
    WalkIsMidway(before, order, today);
    KeptIff(before, order, today, name);
    hide PackedAll, FolderTime, Midway, FolderName, Survives, Kept;
    assert IsOld(before, name, today);
    WasMet(before, PackedAll(before, order, today), order, today, name);
    if !Clash(before, name) { FreeSurvives(before, order, name); }
    FolderNameIsNoArchive(u);
  }

  lemma {:induction false} FreeSurvives(before: Entries, order: seq<string>, n: string)
    requires n in order && !Clash(before, n)
    ensures Survives(before, order, n)
  {
    if order[|order| - 1] != n {
      FreeSurvives(before, order[..|order| - 1], n);
    }
  }

  /** A folder's name ends in a digit, an archive's does not. */
  lemma FolderNameIsNoArchive(u: nat)
    ensures forall m :: FolderName(u) != m + ARCHIVE
  {
    var d := GmTime(u);
    PadValue(d.day);
    var name := FolderName(u);
    assert name[|name| - 1] == Pad(d.day)[|Pad(d.day)| - 1];
    forall m ensures name != m + ARCHIVE { assert (m + ARCHIVE)[|m + ARCHIVE| - 1] == 'z'; }
  }

  // ---- when nothing is lost

  /** Nothing is lost: what each old folder held is in its archive, and every other entry is as it was. */
  ghost predicate Intact(before: Entries, after: Entries, today: int) {
    && (forall n :: IsOld(before, n, today) ==> Kept(before, after, n))
    && (forall p :: p in before && !IsOld(before, p, today) ==> p in after && after[p] == before[p])
  }

  /** An entry under the name of a folder's archive, if it is no folder, is that very archive. */
  predicate Repacks(es: Entries, n: string)
    requires n in es && es[n].Folder?
  {
    n + ARCHIVE in es && !es[n + ARCHIVE].Folder? ==> es[n + ARCHIVE] == Archive(es[n].content)
  }

  /** Where every old folder is kept, another entry is unchanged unless it was packed over. */
  lemma OtherIntact(before: Entries, after: Entries, today: int, p: string)
    requires OthersStay(before, after, today) && p in before && !IsOld(before, p, today)
    requires forall n :: IsOld(before, n, today) ==> Kept(before, after, n) && Repacks(before, n)
    ensures p in after && after[p] == before[p]
  {
    hide FolderTime;
    if IsPacked(before, p, today) {
      var n :| IsOld(before, n, today) && p == n + ARCHIVE;
      hide IsPacked, OthersStay;
      assert Kept(before, after, n) && Repacks(before, n);
      if before[p].Folder? { ClashIsOld(before, n, today); }
    }
  }

  lemma IntactRepacks(before: Entries, after: Entries, today: int, n: string)
    requires Intact(before, after, today) && IsOld(before, n, today)
    ensures Repacks(before, n)
  {
    hide FolderTime;
    assert Kept(before, after, n);
  }

  lemma {:induction false} IntactSurvives(before: Entries, order: seq<string>, today: int, n: string)
    requires Enumerates(order, before.Keys) && Intact(before, PackedAll(before, order, today), today)
    requires IsOld(before, n, today)
    ensures Survives(before, order, n) && Repacks(before, n)
  {
    hide PackedAll, FolderTime, Survives, Enumerates;
    KeptIff(before, order, today, n);
    IntactRepacks(before, PackedAll(before, order, today), today, n);
  }

  lemma {:induction false} SurvivingIsIntact(before: Entries, order: seq<string>, today: int)
    requires Enumerates(order, before.Keys)
    requires forall n :: IsOld(before, n, today) ==> Survives(before, order, n) && Repacks(before, n)
    ensures Intact(before, PackedAll(before, order, today), today)
  {
    var after := PackedAll(before, order, today);
    OnlyOthersStay(before, order, today);
    hide PackedAll, IsOld, Survives, OthersStay, Kept, Repacks, Enumerates;
    forall n | IsOld(before, n, today) ensures n in before && before[n].Folder? && Kept(before, after, n) {
      OldIsFolder(before, n, today);
      KeptIff(before, order, today, n);
    }
    forall p | p in before && !IsOld(before, p, today) ensures p in after && after[p] == before[p] {
      OtherIntact(before, after, today, p);
    }
  }

  lemma OldIsFolder(es: Entries, n: string, today: int)
    requires IsOld(es, n, today)
    ensures n in es && es[n].Folder?
  {
    hide FolderTime;
  }

  /**
    For every order: nothing is lost if and only if each old folder survives the order of the walk, and none is packed over
    another content.
   */
  lemma {:induction false} IntactIff(before: Entries, order: seq<string>, today: int)
    requires Enumerates(order, before.Keys)
    ensures Intact(before, PackedAll(before, order, today), today) <==>
            forall n :: IsOld(before, n, today) ==> Survives(before, order, n) && Repacks(before, n)
  {
    hide PackedAll, FolderTime, Survives, Intact, Repacks, Enumerates;
    if Intact(before, PackedAll(before, order, today), today) {
      forall n | IsOld(before, n, today) ensures Survives(before, order, n) && Repacks(before, n) {
        IntactSurvives(before, order, today, n);
      }
    } else if forall n :: IsOld(before, n, today) ==> Survives(before, order, n) && Repacks(before, n) {
      SurvivingIsIntact(before, order, today);
    }
  }

  lemma OnlyOthersStay(before: Entries, order: seq<string>, today: int)
    requires Enumerates(order, before.Keys)
    ensures OthersStay(before, PackedAll(before, order, today), today)
  {
    WalkIsMidway(before, order, today);
    hide OthersStay, FoldersStay, Met, PackedAll;
  }

  /** Whatever order the directory is read in, nothing is lost. */
  ghost predicate NeverLoses(es: Entries, today: int) {
    forall order :: Enumerates(order, es.Keys) ==> Intact(es, PackedAll(es, order, today), today)
  }

  /** Each old folder's archive name is free, or taken by an archive of the same content. */
  ghost predicate Packable(es: Entries, today: int) {
    forall n :: IsOld(es, n, today) ==> n + ARCHIVE !in es || es[n + ARCHIVE] == Archive(es[n].content)
  }

  lemma {:induction false} FirstIsLost(before: Entries, order: seq<string>, n: string)
    requires order != [] && order[0] == n && Clash(before, n)
    requires forall i, j :: 0 <= i < j < |order| ==> order[i] != order[j]
    ensures !Survives(before, order, n)
  {
    if |order| > 1 {
      FirstIsLost(before, order[..|order| - 1], n);
    }
  }

  lemma FirstThenRest(keys: set<string>, n: string, rest: seq<string>)
    requires n in keys && Enumerates(rest, keys - {n})
    ensures Enumerates([n] + rest, keys)
  {
    forall k | k in keys ensures k in [n] + rest { assert k == n || k in rest; }
  }

  /** An order that reads a given entry first. */
  lemma OrderFrom(keys: set<string>, n: string) returns (order: seq<string>)
    requires n in keys
    ensures Enumerates(order, keys) && order != [] && order[0] == n
  {
    var rest := SomeOrder(keys - {n});
    order := [n] + rest;
    FirstThenRest(keys, n, rest);
  }

  /**
    Exactly then: a folder in an archive's way costs the content of the folder it belongs to in some order, and an archive
    of other content is overwritten in every order.
   */
  lemma {:induction false} NeverLosesIff(before: Entries, today: int)
    ensures NeverLoses(before, today) <==> Packable(before, today)
  {
    hide PackedAll, FolderTime, Survives, Intact;
    if Packable(before, today) {
      forall order | Enumerates(order, before.Keys) ensures Intact(before, PackedAll(before, order, today), today) {
        forall n | IsOld(before, n, today) ensures Survives(before, order, n) && Repacks(before, n) {
          FreeSurvives(before, order, n);
        }
        IntactIff(before, order, today);
      }
    } else {
      var n :| IsOld(before, n, today) && n + ARCHIVE in before && before[n + ARCHIVE] != Archive(before[n].content);
      var order := OrderFrom(before.Keys, n);
      IntactIff(before, order, today);
      if Clash(before, n) { FirstIsLost(before, order, n); }
      assert !(Survives(before, order, n) && Repacks(before, n));
    }
  }

  // ---- making room

  /** One entry of minimal date among those dated before today is gone, or there was none and nothing changed. */
  ghost predicate OldestRemoved(before: Entries, after: Entries, today: int) {
    if exists n :: IsDated(before, n, today) then
      exists n :: IsDated(before, n, today) && after == before - {n}
                  && forall m :: IsDated(before, m, today) ==> FolderTime(n).value <= FolderTime(m).value
    else after == before
  }

  ghost function DatedNames(es: Entries, today: int): set<string> {
    set n | n in es && IsDated(es, n, today)
  }

  /** Each removal with something to remove leaves one dated entry fewer. */
  lemma {:induction false} RemovalShrinks(before: Entries, after: Entries, today: int)
    requires OldestRemoved(before, after, today)
    ensures |DatedNames(after, today)| == if DatedNames(before, today) == {} then 0 else |DatedNames(before, today)| - 1
    ensures DatedNames(after, today) <= DatedNames(before, today)
  {
    hide FolderTime;
    if n :| IsDated(before, n, today) {
      assert n in DatedNames(before, today);
      var o :| IsDated(before, o, today) && after == before - {o}
               && forall m :: IsDated(before, m, today) ==> FolderTime(o).value <= FolderTime(m).value;
      assert DatedNames(after, today) == DatedNames(before, today) - {o};
    } else {
      assert DatedNames(before, today) == {};
    }
  }

  /** Entries of today or later, and undated ones, are never removed. */
  lemma {:induction false} OthersSurvive(before: Entries, after: Entries, today: int, p: string)
    requires OldestRemoved(before, after, today) && p in before && !IsDated(before, p, today)
    ensures p in after && after[p] == before[p]
  {
  }

  ghost predicate Removals(states: seq<Entries>, today: int) {
    forall j :: 0 <= j < |states| - 1 ==> OldestRemoved(states[j], states[j + 1], today)
  }

  /** Repeated removals, as many as there are dated entries, leave no entry dated before today. */
  lemma {:induction false} RepeatedRemovalsFinish(states: seq<Entries>, today: int, i: nat)
    requires i < |states| && Removals(states, today)
    ensures var n := |DatedNames(states[0], today)|;
            |DatedNames(states[i], today)| == if i <= n then n - i else 0
  {
    if i == 0 {
    } else {
      RepeatedRemovalsFinish(states, today, i - 1);
      assert OldestRemoved(states[i - 1], states[i - 1 + 1], today);
      hide DatedNames, OldestRemoved, Removals;
      RemovalShrinks(states[i - 1], states[i], today);
      if |DatedNames(states[i - 1], today)| == 0 {
        assert DatedNames(states[i - 1], today) == {};
      }
    }
  }

  /** And on the way nothing of today or later, and nothing undated, is ever touched. */
  lemma {:induction false} RepeatedRemovalsSpare(states: seq<Entries>, today: int, i: nat, p: string)
    requires i < |states| && Removals(states, today)
    requires p in states[0] && !IsDated(states[0], p, today)
    ensures p in states[i] && states[i][p] == states[0][p]
  {
    if i == 0 {
    } else {
      RepeatedRemovalsSpare(states, today, i - 1, p);
      assert OldestRemoved(states[i - 1], states[i - 1 + 1], today);
      hide OldestRemoved, Removals, FolderTime;
      OthersSurvive(states[i - 1], states[i], today, p);
    }
  }

  /**
    With an entry named after an earlier day than today, be it a folder or an archive, one is removed: a dated one, and of
    no later day than any entry so named.
   */
  lemma OldestGoes(before: Entries, after: Entries, now: nat, u: nat)
    requires OldestRemoved(before, after, StartOfDay(now)) && u / 86400 < now / 86400
    requires FolderName(u) in before && !before[FolderName(u)].Special?
    ensures exists n :: n in before && !before[n].Special? && FolderTime(n).Some? && after == before - {n} && NoneBefore(before, n)
  {
    hide FolderName, FolderTime;
    DayStarts(u, now);
    assert IsDated(before, FolderName(u), StartOfDay(now)) by { FolderNameRoundTrips(u); }
    var n :| IsDated(before, n, StartOfDay(now)) && after == before - {n}
             && forall m :: IsDated(before, m, StartOfDay(now)) ==> FolderTime(n).value <= FolderTime(m).value;
    forall v: nat | FolderName(v) in before && !before[FolderName(v)].Special?
      ensures FolderTime(n).value <= v - v % 86400
    {
      FolderNameRoundTrips(v);
      assert IsDated(before, FolderName(v), StartOfDay(now)) || StartOfDay(now) <= v - v % 86400;
    }
  }

  lemma DayStarts(u: nat, now: nat)
    requires u / 86400 < now / 86400
    ensures u - u % 86400 < StartOfDay(now)
  {
  }

  /** No folder or file is named after an earlier day than the entry's. */
  ghost predicate NoneBefore(es: Entries, n: string)
    requires FolderTime(n).Some?
  {
    forall v: nat :: FolderName(v) in es && !es[FolderName(v)].Special? ==> FolderTime(n).value <= v - v % 86400
  }
}
