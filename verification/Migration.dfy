/**
 * The migration of a Majestic Launcher backup folder to a junction (powershell/Publish-IscsiRelease.ps1):
 * the folder is copied to the anchor volume and its old place becomes a junction to the copy. Every
 * file-system operation may fail before its effect, part of the way through or after it, and the helper
 * may die at any of them.
 */
module Migration {
  import opened Faults
  import opened Results
  import opened Sums

  /** A directory entry: a plain file with its times, or something the helper refuses to touch. */
  datatype Child = Regular(bytes: seq<int>, written: int, created: int) | Unsafe

  type Files = map<string, Child>

  datatype Place = Source | Active | Staging | Previous | LinkStage | Elsewhere

  datatype Entry = Absent | PlainFile | Folder(files: Files) | Junction(target: Place)

  /** What stands at the five paths the migration uses. */
  datatype Disk = Disk(source: Entry, active: Entry, staging: Entry, previous: Entry, linkStage: Entry) {
    function At(p: Place): Entry {
      match p
      case Source => source
      case Active => active
      case Staging => staging
      case Previous => previous
      case LinkStage => linkStage
      case Elsewhere => Absent
    }

    function With(p: Place, e: Entry): Disk {
      match p
      case Source => this.(source := e)
      case Active => this.(active := e)
      case Staging => this.(staging := e)
      case Previous => this.(previous := e)
      case LinkStage => this.(linkStage := e)
      case Elsewhere => this
    }
  }

  datatype Refusal = WrongTarget | Incomplete | Ambiguous | UnsafePath | BadIndex | Failed

  datatype Answer = Done(files: Files) | Refused(reason: Refusal)

  const MAX_FILES: nat := 64
  const MAX_TOTAL: nat := 8589934592
  const MAX_FILE: nat := 4294967296

  // ---- what a backup folder may hold, and when two hold the same

  predicate LeafName(n: string) {
    && (exists i :: 0 <= i < |n| && n[i] !in " \t\n\r")
    && |n| <= 255
    && n != "."
    && n != ".."
    && (forall i :: 0 <= i < |n| ==> n[i] !in "\\/:")
  }

  predicate Listed(n: string, c: Child) {
    LeafName(n) && c.Regular? && |c.bytes| <= MAX_FILE
  }

  function Size(c: Child): nat {
    if c.Regular? then |c.bytes| else 0
  }

  ghost function Sizes(files: Files): map<string, nat> {
    map n | n in files :: Size(files[n])
  }

  ghost function Total(files: Files): nat {
    Sum(Sizes(files))
  }

  ghost predicate Indexable(files: Files) {
    && 1 <= |files| <= MAX_FILES
    && (forall n :: n in files ==> Listed(n, files[n]))
    && Total(files) <= MAX_TOTAL
  }

  /** The same bytes and times; creation times are set and compared on Windows only. */
  predicate Alike(windows: bool, a: Child, b: Child) {
    && a.Regular?
    && b.Regular?
    && a.bytes == b.bytes
    && a.written == b.written
    && (windows ==> a.created == b.created)
  }

  ghost predicate Copies(windows: bool, a: Files, b: Files) {
    a.Keys == b.Keys && forall n :: n in b ==> Alike(windows, a[n], b[n])
  }

  /** What the helper takes for a backup: 1 to 64 plain files of at most 4 GiB each and 8 GiB in all. */
  lemma IndexableMeans(files: Files)
    ensures Indexable(files) <==>
              && 1 <= |files| <= 64
              && Total(files) <= 8 * 1024 * 1024 * 1024
              && (forall n :: n in files ==>
                    && files[n].Regular? && |files[n].bytes| <= 4 * 1024 * 1024 * 1024
                    && |n| <= 255 && n != "." && n != ".." && '/' !in n && '\\' !in n && ':' !in n
                    && !(forall c :: c in n ==> c == ' ' || c == '\t' || c == '\n' || c == '\r'))
  {
    hide Total;
    forall n | n in files
      ensures LeafName(n) <==>
                && |n| <= 255 && n != "." && n != ".." && '/' !in n && '\\' !in n && ':' !in n
                && !(forall c :: c in n ==> c == ' ' || c == '\t' || c == '\n' || c == '\r')
    {
      LeafNameMeans(n);
    }
  }

  lemma LeafNameMeans(n: string)
    ensures LeafName(n) <==>
              && |n| <= 255 && n != "." && n != ".." && '/' !in n && '\\' !in n && ':' !in n
              && !(forall c :: c in n ==> c == ' ' || c == '\t' || c == '\n' || c == '\r')
  {
    if exists i :: 0 <= i < |n| && n[i] !in " \t\n\r" {
      var i :| 0 <= i < |n| && n[i] !in " \t\n\r";
      assert n[i] in n;
    }
  }

  /** A copy has the files of the backup and no other, each with its bytes and times. */
  lemma CopiesMean(windows: bool, a: Files, b: Files)
    requires Indexable(b)
    ensures Copies(windows, a, b) <==>
              && (forall n :: n in a <==> n in b)
              && (forall n :: n in b && n in a ==>
                    a[n].Regular? && a[n].bytes == b[n].bytes && a[n].written == b[n].written &&
                    (windows ==> a[n].created == b[n].created))
  {
    hide LeafName, Total;
    forall n | n in b ensures b[n].Regular? {
      assert Listed(n, b[n]);
    }
  }

  lemma TotalWithout(files: Files, n: string)
    requires n in files
    ensures Total(files) == Size(files[n]) + Total(files - {n}) && |files - {n}| + 1 == |files|
  {
    SumWithout(Sizes(files), n);
    assert Sizes(files - {n}) == Sizes(files) - {n};
    Fewer(files, n);
  }

  lemma SubsetTotal(part: Files, whole: Files)
    requires part.Keys <= whole.Keys && forall n :: n in part ==> Size(part[n]) == Size(whole[n])
    ensures Total(part) <= Total(whole) && |part| <= |whole|
  {
    SumSubset(Sizes(part), Sizes(whole));
    assert |Sizes(part).Keys| == |part.Keys| && |Sizes(whole).Keys| == |whole.Keys| by {
      assert Sizes(part).Keys == part.Keys && Sizes(whole).Keys == whole.Keys;
    }
    assert |Sizes(part)| == |part| && |Sizes(whole)| == |whole| by {
      assert |Sizes(part).Keys| == |Sizes(part)| && |part.Keys| == |part|;
      assert |Sizes(whole).Keys| == |Sizes(whole)| && |whole.Keys| == |whole|;
    }
  }

  /** Fewer files of an acceptable backup are an acceptable backup, unless none is left. */
  lemma PartIndexable(part: Files, whole: Files)
    requires Indexable(whole)
    requires part.Keys <= whole.Keys && forall n :: n in part ==> part[n] == whole[n]
    ensures Indexable(part) <==> part != map[]
  {
    SubsetTotal(part, whole);
  }

  lemma CopyIndexable(windows: bool, a: Files, b: Files)
    requires Copies(windows, a, b)
    requires Indexable(b)
    ensures Indexable(a)
  {
    SubsetTotal(a, b);
    SubsetTotal(b, a);
    forall n | n in a
      ensures Listed(n, a[n])
    {
      assert n in b && Alike(windows, a[n], b[n]) && Listed(n, b[n]);
    }
  }

  lemma SelfCopies(windows: bool, files: Files)
    requires Indexable(files)
    ensures Copies(windows, files, files)
  {
  }

  /** A folder with as many files as the index, each indexed file among them, is a copy. */
  lemma CountedCopies(windows: bool, a: Files, b: Files)
    requires |a| == |b|
    requires forall n :: n in b ==> n in a && Alike(windows, a[n], b[n])
    ensures Copies(windows, a, b)
  {
    assert b.Keys <= a.Keys;
    assert |a.Keys - b.Keys| == |a.Keys| - |b.Keys| == 0;
  }

  // ---- the states of a migration

  predicate Tidy(e: Entry) {
    e.Absent? || e.Folder?
  }

  ghost predicate Holds(windows: bool, e: Entry, backup: Files) {
    e.Folder? && Copies(windows, e.files, backup)
  }

  /** A full copy of the backup is at its old place, at the recovery place or on the anchor volume. */
  ghost predicate Kept(windows: bool, d: Disk, backup: Files) {
    Holds(windows, d.source, backup) || Holds(windows, d.previous, backup) || Holds(windows, d.active, backup)
  }

  /** What every run starts from: not begun, interrupted between the two moves, or switched over. */
  ghost predicate Sound(windows: bool, d: Disk, backup: Files) {
    && Indexable(backup)
    && Tidy(d.staging)
    && (d.linkStage.Absent? || d.linkStage.Junction?)
    && (|| (d.source == Folder(backup) && d.previous.Absent? && Tidy(d.active))
        || (d.source.Absent? && d.previous == Folder(backup) && Tidy(d.active))
        || (d.source == Junction(Active) && Tidy(d.previous) && Holds(windows, d.active, backup)))
  }

  predicate Migrated(d: Disk) {
    && d.source == Junction(Active)
    && d.previous.Absent?
    && d.staging.Absent?
    && d.linkStage.Absent?
  }

  predicate Proper(e: Entry, backup: Files) {
    e.Folder? && e.files.Keys < backup.Keys && forall n :: n in e.files ==> e.files[n] == backup[n]
  }

  /**
   * The last removal had an effect, yet was reported as failed to a helper that lived on and undid the
   * switch: only the copy on the anchor volume is whole.
   */
  ghost predicate Torn(windows: bool, d: Disk, backup: Files) {
    && Indexable(backup)
    && Holds(windows, d.active, backup)
    && Tidy(d.staging)
    && (d.linkStage.Absent? || d.linkStage.Junction?)
    && (|| (d.source.Absent? && d.previous.Absent?)
        || (d.source.Absent? && Proper(d.previous, backup))
        || (Proper(d.source, backup) && d.previous.Absent?))
  }

  function Remaining(files: Files, kept: set<string>): Files {
    files - (files.Keys - kept)
  }

  class Helper {
    const windows: bool
    var disk: Disk
    var faults: nat -> Fault
    var stamps: nat -> int
    var calls: nat
    var down: bool
    /** In this run the last removal had an effect, was reported as failed, and the helper lived on. */
    ghost var spoilt: bool

    constructor (windows: bool, disk: Disk, faults: nat -> Fault, stamps: nat -> int)
      ensures this.windows == windows && this.disk == disk && this.faults == faults
      ensures calls == 0 && !down && !spoilt
    {
      this.windows := windows;
      this.disk := disk;
      this.faults := faults;
      this.stamps := stamps;
      calls := 0;
      down := false;
      spoilt := false;
    }

    /** From here on nothing fails. */
    ghost predicate Quiet()
      reads this
    {
      !down && forall k: nat :: k >= calls ==> faults(k).NoFault?
    }

    /** The only faults that are not clean failures are deaths of the helper. */
    ghost predicate OnlyCrashes()
      reads this`faults
    {
      forall k: nat :: !ReportedLate(faults(k))
    }

    /** The staging places hold what a former run may have left there, or nothing. */
    predicate Cleared()
      reads this
    {
      Tidy(disk.staging) && (disk.linkStage.Absent? || disk.linkStage.Junction?)
    }

    /** A new run of the helper under a new sequence of faults. */
    method Restart(faults: nat -> Fault)
      modifies this
      ensures disk == old(disk) && this.faults == faults && !down && calls == 0 && !spoilt
    {
      this.faults := faults;
      down := false;
      spoilt := false;
      calls := 0;
    }

    method Tick() returns (f: Fault)
      modifies this`calls, this`down
      ensures old(Quiet()) ==> Quiet() && f.NoFault?
      ensures old(down) ==> down && f == Fault(Before, true)
      ensures down == (old(down) || (f.Fault? && f.halts))
      ensures !old(down) ==> f == faults(old(calls)) && calls == old(calls) + 1
      ensures OnlyCrashes() && f.Fault? && !f.halts ==> f.moment.Before?
    {
      if down {
        return Fault(Before, true);
      }
      f := faults(calls);
      calls := calls + 1;
      if f.Fault? && f.halts {
        down := true;
      }
    }

    /** Remove-PublisherMajesticOwnedDirectory. */
    method RemoveFolder(p: Place) returns (ok: bool)
      requires p != Elsewhere
      modifies this`calls, this`down, this`disk
      ensures old(down) ==> disk == old(disk)
      ensures old(down) ==> down
      ensures old(Quiet()) ==> Quiet() && (ok <==> Tidy(old(disk).At(p)))
      ensures Tidy(old(disk).At(p)) ==> Tidy(disk.At(p))
      ensures ok ==> disk == old(disk).With(p, Absent)
      ensures disk == old(disk) || (old(disk).At(p).Folder? && disk == old(disk).With(p, Absent))
              || (old(disk).At(p).Folder? && Proper(disk.At(p), old(disk).At(p).files)
                  && disk == old(disk).With(p, disk.At(p)))
      ensures OnlyCrashes() && !ok && !down ==> disk == old(disk)
      ensures !old(down) && old(disk).At(p).Folder? && faults(old(calls)).Fault? && faults(old(calls)).moment.Midway? ==>
                && !ok && calls == old(calls) + 1 && down == faults(old(calls)).halts
                && disk == old(disk).With(p, Folder(Remaining(old(disk).At(p).files, faults(old(calls)).moment.kept)))
    {
      var item := disk.At(p);
      if item.Absent? {
        return !down;
      }
      if !item.Folder? {
        return false;
      }
      var f := Tick();
      if f.Fault? && f.moment.Before? {
        return false;
      }
      if f.Fault? && f.moment.Midway? {
        var rest := Remaining(item.files, f.moment.kept);
        if rest.Keys < item.files.Keys {
          disk := disk.With(p, Folder(rest));
        } else {
          assert rest == item.files;
        }
        return false;
      }
      disk := disk.With(p, Absent);
      return f.NoFault?;
    }

    /** Remove-PublisherMajesticLinkStage, and the deletion of the junction at the old place. */
    method DeleteLink(p: Place) returns (ok: bool)
      requires p != Elsewhere
      modifies this`calls, this`down, this`disk
      ensures old(down) ==> disk == old(disk)
      ensures old(down) ==> down
      ensures old(Quiet()) ==> Quiet() && (ok <==> old(disk).At(p).Absent? || old(disk).At(p).Junction?)
      ensures ok ==> disk == old(disk).With(p, Absent)
      ensures disk == old(disk) || (old(disk).At(p).Junction? && disk == old(disk).With(p, Absent))
    {
      var item := disk.At(p);
      if item.Absent? {
        return !down;
      }
      if !item.Junction? {
        return false;
      }
      var f := Tick();
      if f.Fault? && !f.moment.After? {
        return false;
      }
      disk := disk.With(p, Absent);
      return f.NoFault?;
    }

    /** [IO.Directory]::Move, which renames. */
    method Move(a: Place, b: Place) returns (ok: bool)
      requires a != Elsewhere && b != Elsewhere && a != b
      modifies this`calls, this`down, this`disk
      ensures old(down) ==> disk == old(disk)
      ensures old(down) ==> down && !ok
      ensures old(Quiet()) ==> Quiet() && (ok <==> !old(disk).At(a).Absent? && old(disk).At(b).Absent?)
      ensures ok ==> disk != old(disk)
      ensures disk == old(disk) || (!old(disk).At(a).Absent? && old(disk).At(b).Absent?
                                    && disk == old(disk).With(b, old(disk).At(a)).With(a, Absent))
    {
      var f := Tick();
      var item := disk.At(a);
      if (f.Fault? && !f.moment.After?) || item.Absent? || !disk.At(b).Absent? {
        return false;
      }
      disk := disk.With(b, item).With(a, Absent);
      return f.NoFault?;
    }

    /** New-PublisherMajesticBackupJunction. */
    method LinkTo(p: Place, target: Place) returns (ok: bool)
      requires p != Elsewhere
      modifies this`calls, this`down, this`disk
      ensures old(down) ==> down
      ensures old(Quiet()) ==> Quiet() && (ok <==> old(disk).At(p).Absent?)
      ensures ok ==> disk == old(disk).With(p, Junction(target)) && old(disk).At(p).Absent?
      ensures disk == old(disk) || (old(disk).At(p).Absent? && disk == old(disk).With(p, Junction(target)))
    {
      var f := Tick();
      if (f.Fault? && !f.moment.After?) || !disk.At(p).Absent? {
        return false;
      }
      disk := disk.With(p, Junction(target));
      return f.NoFault?;
    }

    /** Get-PublisherMajesticBackupIndex and Get-PublisherMajesticBackupMetadata, which apply the same checks. */
    method Index(p: Place) returns (r: Option<Files>)
      modifies this`calls, this`down
      ensures old(down) ==> down && r.None?
      ensures r.Some? ==> disk.At(p) == Folder(r.value) && Indexable(r.value)
      ensures old(Quiet()) ==> Quiet() && (r.Some? <==> disk.At(p).Folder? && Indexable(disk.At(p).files))
    {
      hide LeafName, Listed, ReportedLate;
      var f := Tick();
      var root := disk.At(p);
      if f.Fault? || !root.Folder? {
        return None;
      }
      var files := root.files;
      if |files| < 1 || |files| > MAX_FILES {
        return None;
      }
      var rest, total := files, 0;
      while rest != map[]
        invariant rest.Keys <= files.Keys && forall n :: n in rest ==> rest[n] == files[n]
        invariant total + Total(rest) == Total(files)
        invariant total <= MAX_TOTAL
        invariant forall n :: n in files && n !in rest ==> Listed(n, files[n])
        invariant old(Quiet()) ==> Quiet()
        invariant old(down) ==> down
        decreases |rest|
      {
        var n :| n in rest;
        if !Listed(n, files[n]) {
          return None;
        }
        TotalWithout(rest, n);
        total := total + Size(files[n]);
        if total > MAX_TOTAL {
          return None;
        }
        rest := rest - {n};
      }
      return Some(files);
    }

    /** Assert-PublisherMajesticBackupCopy: the counts, then every file of the index. */
    method IsCopy(p: Place, index: Files) returns (ok: bool)
      requires Indexable(index)
      modifies this`calls, this`down
      ensures old(down) ==> down && !ok
      ensures ok ==> Holds(windows, disk.At(p), index)
      ensures old(Quiet()) ==> Quiet() && (ok <==> Holds(windows, disk.At(p), index))
    {
      var listing := Index(p);
      if listing.None? {
        if disk.At(p).Folder? && Copies(windows, disk.At(p).files, index) {
          CopyIndexable(windows, disk.At(p).files, index);
        }
        return false;
      }
      var files := listing.value;
      if |files| != |index| {
        if Copies(windows, files, index) {
          SubsetTotal(files, index);
          SubsetTotal(index, files);
        }
        return false;
      }
      var names := index.Keys;
      while names != {}
        invariant names <= index.Keys
        invariant forall n :: n in index && n !in names ==> n in files && Alike(windows, files[n], index[n])
        invariant old(Quiet()) ==> Quiet()
        invariant old(down) ==> down
        decreases names
      {
        var n :| n in names;
        var f := Tick();
        if f.Fault? || n !in files || !Alike(windows, files[n], index[n]) {
          return false;
        }
        names := names - {n};
      }
      CountedCopies(windows, files, index);
      return true;
    }

    /** One file of the copy: its bytes, then its times. */
    method CopyFile(n: string, entry: Child) returns (ok: bool)
      requires disk.staging.Folder? && n !in disk.staging.files && entry.Regular?
      modifies this`calls, this`down, this`disk
      ensures old(down) ==> down && !ok
      ensures disk == old(disk).With(Staging, disk.staging)
      ensures disk.staging.Folder?
      ensures ok ==> exists c :: Alike(windows, c, entry) && disk.staging.files == old(disk).staging.files[n := c]
      ensures old(Quiet()) ==> Quiet() && ok
    {
      var f := Tick();
      if f.Fault? && f.moment.Before? {
        return false;
      }
      var length := if f.Fault? && f.moment.Midway? && f.moment.length < |entry.bytes| then f.moment.length
                    else |entry.bytes|;
      var copy := Regular(entry.bytes[..length], stamps(calls), stamps(calls));
      var rest := disk.staging.files;
      disk := disk.With(Staging, Folder(rest[n := copy]));
      if f.Fault? {
        return false;
      }
      f := Tick();
      if f.Fault? && !f.moment.After? {
        return false;
      }
      copy := copy.(written := entry.written);
      disk := disk.With(Staging, Folder(rest[n := copy]));
      if f.Fault? {
        return false;
      }
      if windows {
        f := Tick();
        if f.Fault? && !f.moment.After? {
          return false;
        }
        copy := copy.(created := entry.created);
        disk := disk.With(Staging, Folder(rest[n := copy]));
        if f.Fault? {
          return false;
        }
      }
      assert Alike(windows, copy, entry);
      return true;
    }

    /** Copy-PublisherMajesticBackupOnce. */
    method CopyOnce(origin: Place, index: Files) returns (ok: bool)
      requires Indexable(index)
      requires origin == Source || origin == Previous
      requires disk.At(origin) == Folder(index)
      modifies this`calls, this`down, this`disk
      ensures old(down) ==> down && !ok
      ensures disk == old(disk).With(Staging, disk.staging)
      ensures Tidy(old(disk).staging) ==> Tidy(disk.staging)
      ensures ok ==> Holds(windows, disk.staging, index)
      ensures old(Quiet()) ==> Quiet() && (ok <==> old(disk).staging.Absent?)
    {
      hide LeafName, Total;
      var f := Tick();
      if (f.Fault? && !f.moment.After?) || !disk.staging.Absent? {
        return false;
      }
      disk := disk.With(Staging, Folder(map[]));
      if f.Fault? {
        return false;
      }
      var names := index.Keys;
      while names != {}
        invariant names <= index.Keys
        invariant disk == old(disk).With(Staging, disk.staging)
        invariant disk.staging.Folder? && disk.staging.files.Keys == index.Keys - names
        invariant forall n :: n in disk.staging.files ==> Alike(windows, disk.staging.files[n], index[n])
        invariant old(Quiet()) ==> Quiet()
        invariant old(down) ==> down
        decreases names
      {
        var n :| n in names;
        assert Listed(n, index[n]);
        ok := CopyFile(n, index[n]);
        if !ok {
          return;
        }
        names := names - {n};
      }
      ok := IsCopy(Staging, index);
    }

    /** The part before the switch: leftovers go, and the anchor volume gets a verified copy. */
    method PrepareActive(origin: Place, index: Files) returns (ok: bool)
      requires Indexable(index)
      requires origin == Source || origin == Previous
      requires disk.At(origin) == Folder(index)
      modifies this`calls, this`down, this`disk
      ensures old(down) ==> down
      ensures disk.source == old(disk).source && disk.previous == old(disk).previous
      ensures Tidy(old(disk).staging) ==> Tidy(disk.staging)
      ensures Tidy(old(disk).active) ==> Tidy(disk.active)
      ensures disk.linkStage == old(disk).linkStage || disk.linkStage.Absent?
      ensures ok ==> Holds(windows, disk.active, index) && disk.staging.Absent? && disk.linkStage.Absent?
      ensures old(Quiet()) ==> Quiet()
      ensures old(Quiet() && Cleared()) && Tidy(old(disk).active) ==> ok
    {
      hide LeafName, Indexable, Copies, Proper;
      SelfCopies(windows, index);
      ok := RemoveFolder(Staging);
      if !ok {
        return;
      }
      ok := DeleteLink(LinkStage);
      if !ok {
        return;
      }
      var ready := false;
      if !disk.active.Absent? {
        ready := IsCopy(Active, index);
        if !ready {
          ok := RemoveFolder(Active);
          if !ok {
            return;
          }
        }
      }
      if !ready {
        ok := CopyOnce(origin, index);
        if !ok {
          return;
        }
        ok := Move(Staging, Active);
        if !ok {
          return;
        }
        ok := IsCopy(Active, index);
        if !ok {
          return;
        }
      }
      ok := IsCopy(origin, index);
    }

    /** The switch: the old folder is moved aside, the junction takes its place, the old folder goes. */
    method Switch(origin: Place, index: Files) returns (r: Answer)
      requires Ready(disk, origin, index)
      modifies this`calls, this`down, this`disk, this`spoilt
      ensures old(down) ==> down && r.Refused?
      ensures Underway(disk, old(disk), origin, index)
      ensures r.Done? ==> Migrated(disk) && disk.active == Folder(r.files)
      ensures r.Refused? ==> r.reason == Failed
      ensures old(Quiet()) ==> Quiet() && r.Done?
      ensures OnlyCrashes() || r.Done? ==> spoilt == old(spoilt)
      ensures spoilt && !old(spoilt) ==>
                !down && disk.source == Junction(Active) && disk.previous != Folder(index)
      ensures r.Refused? && !down && !spoilt ==>
                disk.previous == Folder(index) || disk.source == Folder(index)
    {
      hide LeafName, Total, Proper, ReportedLate, Copies;
      r := Refused(Failed);
      var ok := LinkTo(LinkStage, Active);
      if !ok {
        return;
      }
      var listing := Index(Active);
      if listing.None? {
        if Copies(windows, disk.active.files, index) {
          CopyIndexable(windows, disk.active.files, index);
        }
        return;
      }
      if origin != Previous {
        ok := Move(origin, Previous);
        if !ok {
          return;
        }
      }
      ok := Move(LinkStage, Source);
      if !ok {
        return;
      }
      if disk.source != Junction(Active) {
        return;
      }
      listing := Index(Active);
      if listing.None? {
        return;
      }
      ok := RemoveFolder(Previous);
      if !ok {
        spoilt := spoilt || (!down && disk.previous != Folder(index));
        return;
      }
      return Done(listing.value);
    }

    /** The catch block: the junction is deleted and the folder moved aside goes back. */
    method Undo()
      modifies this`calls, this`down, this`disk
      ensures old(down) ==> disk == old(disk)
      ensures old(down) ==> down
      ensures Undone(disk, old(disk))
      ensures old(Quiet()) ==> Quiet()
      ensures old(Quiet()) && old(disk).source.Junction? && !old(disk).previous.Absent? ==>
                disk == old(disk).With(Source, old(disk).previous).With(Previous, Absent)
    {
      if disk.source.Junction? {
        var ok := DeleteLink(Source);
        if !ok {
          return;
        }
      }
      if disk.source.Absent? && !disk.previous.Absent? {
        var _ := Move(Previous, Source);
      }
    }

    /** The finally block. */
    method Sweep() returns (ok: bool)
      modifies this`calls, this`down, this`disk
      ensures old(down) ==> down
      ensures disk == old(disk).With(Staging, disk.staging).With(LinkStage, disk.linkStage)
      ensures Tidy(old(disk).staging) ==> Tidy(disk.staging)
      ensures disk.linkStage == old(disk).linkStage || disk.linkStage.Absent?
      ensures ok ==> disk.staging.Absent? && disk.linkStage.Absent?
      ensures old(Quiet()) ==> Quiet()
      ensures old(Quiet() && Cleared()) ==> ok
    {
      ok := RemoveFolder(Staging);
      if !ok {
        return;
      }
      ok := DeleteLink(LinkStage);
    }

    /** Undoing the switch leads back to a sound state, but for a last removal that had an effect. */
    lemma UndoneIs(ready: Disk, switched: Disk, d: Disk, origin: Place, index: Files)
      requires Ready(ready, origin, index)
      requires Underway(switched, ready, origin, index)
      requires Undone(d, switched)
      ensures Sound(windows, d, index) || Torn(windows, d, index)
      ensures switched.previous == Folder(index) || switched.source == Folder(index) || d == switched ==>
                Sound(windows, d, index)
      ensures d.staging.Absent? && (d.linkStage.Absent? || d.linkStage.Junction?)
    {
      hide LeafName, Indexable, Total, Copies;
    }

    /** The try block from the switch on, with its catch block. */
    method SwitchOrUndo(origin: Place, index: Files) returns (r: Answer)
      requires Ready(disk, origin, index)
      modifies this`calls, this`down, this`disk, this`spoilt
      ensures r.Refused? ==> r.reason == Failed
      ensures Sound(windows, disk, index) || Torn(windows, disk, index)
      ensures !spoilt ==> Sound(windows, disk, index)
      ensures OnlyCrashes() || r.Done? ==> spoilt == old(spoilt)
      ensures disk.staging.Absent? && (disk.linkStage.Absent? || disk.linkStage.Junction?)
      ensures r.Done? ==> Migrated(disk) && Holds(windows, disk.active, index) && r.files == disk.active.files
      ensures old(Quiet()) ==> Quiet() && r.Done?
    {
      hide LeafName, Indexable, Total, Copies, Undone, Proper, ReportedLate;
      ghost var ready := disk;
      r := Switch(origin, index);
      ghost var switched := disk;
      if r.Refused? {
        Undo();
        UndoneIs(ready, switched, disk, origin, index);
      }
    }

    ghost predicate Ready(d: Disk, origin: Place, index: Files) {
      && Indexable(index)
      && (origin == Source || origin == Previous)
      && d.At(origin) == Folder(index)
      && d.At(if origin == Source then Previous else Source).Absent?
      && Holds(windows, d.active, index)
      && d.staging.Absent?
      && d.linkStage.Absent?
    }

    /** The five states the switch passes through, and what a failed last removal leaves. */
    ghost predicate Underway(d: Disk, was: Disk, origin: Place, index: Files) {
      var linked := was.With(LinkStage, Junction(Active));
      var aside := linked.With(Source, Absent).With(Previous, Folder(index));
      var switched := aside.With(LinkStage, Absent).With(Source, Junction(Active));
      || d == was
      || d == linked
      || d == aside
      || d == switched
      || d == switched.With(Previous, Absent)
      || (Proper(d.previous, index) && d == switched.With(Previous, d.previous))
    }

    predicate Undone(d: Disk, was: Disk) {
      var unlinked := if was.source.Junction? then was.With(Source, Absent) else was;
      || d == was
      || d == unlinked
      || (unlinked.source.Absent? && d == unlinked.With(Source, was.previous).With(Previous, Absent))
    }

    /**
     * Ensure-PublisherMajesticBackupJunction. From any sound state it keeps a full copy whatever
     * fails, ends migrated when it answers, answers when nothing fails, and leaves a sound state unless
     * the last removal was reported as failed after an effect to a helper that lived on.
     */
    method Ensure(ghost backup: Files) returns (r: Answer)
      modifies this`calls, this`down, this`disk, this`spoilt
      ensures old(Sound(windows, disk, backup)) ==>
                Kept(windows, disk, backup) && (Sound(windows, disk, backup) || Torn(windows, disk, backup))
      ensures old(Sound(windows, disk, backup)) && !spoilt ==> Sound(windows, disk, backup)
      ensures OnlyCrashes() || r.Done? || old(disk).source.Junction? ==> spoilt == old(spoilt)
      ensures old(Sound(windows, disk, backup)) && r.Done? ==>
                Migrated(disk) && Holds(windows, disk.active, backup) && r.files == disk.active.files
      ensures old(Sound(windows, disk, backup)) && old(Quiet()) ==> r.Done?
      ensures old(disk.source.Junction?) && old(disk).source != Junction(Active) ==>
                r == Refused(WrongTarget) && disk == old(disk)
      ensures old(disk.source.PlainFile?) ==> r == Refused(UnsafePath) && disk == old(disk)
      ensures old(disk.source.Folder? && !disk.previous.Absent?) ==> r == Refused(Ambiguous) && disk == old(disk)
      ensures old(disk.source.Absent? && disk.previous.Absent?) ==> r == Refused(Incomplete) && disk == old(disk)
      ensures old(disk.source.Folder? && disk.previous.Absent? && !Indexable(disk.source.files)) ==>
                r == Refused(BadIndex)
      ensures old(disk.source.Absent? && disk.previous.Folder? && !Indexable(disk.previous.files)) ==>
                r == Refused(BadIndex)
      ensures r.Refused? && r.reason != Failed ==> disk == old(disk)
    {
      if disk.source.Junction? {
        r := Finish(backup);
        return;
      }
      var origin := Source;
      if disk.source.Absent? {
        if disk.previous.Absent? {
          return Refused(Incomplete);
        }
        if !disk.previous.Folder? {
          return Refused(UnsafePath);
        }
        origin := Previous;
      } else if !disk.source.Folder? {
        return Refused(UnsafePath);
      } else if !disk.previous.Absent? {
        return Refused(Ambiguous);
      }
      var listing := Index(origin);
      if listing.None? {
        return Refused(BadIndex);
      }
      r := Migrate(origin, listing.value, backup);
    }

    /** The steps from an accepted index on. */
    method Migrate(origin: Place, index: Files, ghost backup: Files) returns (r: Answer)
      requires Indexable(index)
      requires origin == Source || origin == Previous
      requires disk.At(origin) == Folder(index)
      requires disk.At(if origin == Source then Previous else Source).Absent?
      modifies this`calls, this`down, this`disk, this`spoilt
      ensures r.Refused? ==> r.reason == Failed
      ensures old(Sound(windows, disk, backup)) ==> Sound(windows, disk, backup) || Torn(windows, disk, backup)
      ensures old(Sound(windows, disk, backup)) && !spoilt ==> Sound(windows, disk, backup)
      ensures OnlyCrashes() || r.Done? ==> spoilt == old(spoilt)
      ensures old(Sound(windows, disk, backup)) && r.Done? ==>
                Migrated(disk) && Holds(windows, disk.active, backup) && r.files == disk.active.files
      ensures old(Sound(windows, disk, backup)) && old(Quiet()) ==> r.Done?
    {
      hide LeafName, Indexable, Total, Copies, Proper, ReportedLate;
      var ok := PrepareActive(origin, index);
      if !ok {
        return Refused(Failed);
      }
      r := SwitchOrUndo(origin, index);
      ok := Sweep();
      if !ok {
        r := Refused(Failed);
      }
    }

    /** The run that finds the junction in place only clears the leftovers. */
    method Finish(ghost backup: Files) returns (r: Answer)
      requires disk.source.Junction?
      modifies this`calls, this`down, this`disk
      ensures old(Sound(windows, disk, backup)) ==> Sound(windows, disk, backup)
      ensures old(Sound(windows, disk, backup)) && r.Done? ==>
                Migrated(disk) && Holds(windows, disk.active, backup) && r.files == disk.active.files
      ensures old(Sound(windows, disk, backup)) && old(Quiet()) ==> r.Done?
      ensures old(disk).source != Junction(Active) ==> r == Refused(WrongTarget) && disk == old(disk)
      ensures r.Refused? && r.reason != Failed ==> disk == old(disk)
    {
      hide LeafName, Total, Proper;
      if disk.source != Junction(Active) {
        return Refused(WrongTarget);
      }
      if disk.active.Folder? && Holds(windows, disk.active, backup) && Indexable(backup) {
        CopyIndexable(windows, disk.active.files, backup);
      }
      var listing := Index(Active);
      if listing.None? {
        return Refused(Failed);
      }
      var ok := RemoveFolder(Staging);
      if !ok {
        return Refused(Failed);
      }
      ok := DeleteLink(LinkStage);
      if !ok {
        return Refused(Failed);
      }
      ok := RemoveFolder(Previous);
      if !ok {
        return Refused(Failed);
      }
      return Done(listing.value);
    }
  }

  /**
   * Any number of runs, each dying or failing anywhere, before the effect of a step, part of the way
   * through it or after it, then one that is left alone: the old place is a junction to a full copy of
   * the backup and nothing else is left. Only a run whose last removal had an effect yet was reported
   * as failed to a helper that lived on is out; no run that only crashes, or whose reported failures
   * had no effect, is one.
   */
  method RunUntilMigrated(helper: Helper, attempts: seq<nat -> Fault>, calm: nat -> Fault, ghost backup: Files)
    returns (ghost spoilt: set<nat>)
    requires Sound(helper.windows, helper.disk, backup)
    requires forall k: nat :: calm(k).NoFault?
    modifies helper
    ensures spoilt == {} ==> Migrated(helper.disk) && Holds(helper.windows, helper.disk.active, backup)
    ensures forall i :: i in spoilt ==> i < |attempts| && exists k: nat :: ReportedLate(attempts[i](k))
  {
    spoilt := {};
    for i := 0 to |attempts|
      invariant spoilt == {} ==> Sound(helper.windows, helper.disk, backup)
      invariant forall j :: j in spoilt ==> j < i && exists k: nat :: ReportedLate(attempts[j](k))
    {
      helper.Restart(attempts[i]);
      var _ := helper.Ensure(backup);
      if helper.spoilt { spoilt := spoilt + {i}; }
    }
    helper.Restart(calm);
    var _ := helper.Ensure(backup);
  }

  /** A failure with an effect, reported to a helper that lives on. */
  predicate ReportedLate(f: Fault) {
    f.Fault? && !f.halts && !f.moment.Before?
  }

  /**
   * After a torn removal the next run, even one that is left alone, loses the backup exactly when some
   * file was left: it takes the files that are left for the whole backup.
   */
  method RunAfterTornRemoval(helper: Helper, ghost backup: Files) returns (r: Answer)
    requires Torn(helper.windows, helper.disk, backup)
    requires helper.Quiet()
    modifies helper
    ensures Kept(helper.windows, helper.disk, backup) <==>
              (old(helper.disk).source.Folder? ==> old(helper.disk).source.files == map[])
              && (old(helper.disk).previous.Folder? ==> old(helper.disk).previous.files == map[])
    ensures Kept(helper.windows, helper.disk, backup) <==> r.Refused?
  {
    hide LeafName, Total, Indexable;
    ghost var left := Left(helper.disk);
    TornLeft(helper.windows, helper.disk, backup);
    r := helper.Ensure(left);
  }

  lemma RemainingOne(files: Files, n: string)
    requires n in files
    ensures Remaining(files, {n}) == map[n := files[n]]
  {
  }

  /** The end of a run whose last removal leaves the file `n` and reports a failure. */
  method TearSwitch(helper: Helper, ghost backup: Files, n: string)
    requires n in backup && |backup| > 1
    requires helper.disk == Disk(Junction(Active), helper.disk.active, Absent, Folder(backup), Absent)
    requires !helper.down && helper.faults(helper.calls) == Fault(Midway({n}, 0), false)
    requires forall k: nat :: k > helper.calls ==> helper.faults(k).NoFault?
    modifies helper
    ensures helper.disk == Disk(Folder(map[n := backup[n]]), old(helper.disk).active, Absent, Absent, Absent)
    ensures helper.Quiet()
  {
    hide Proper, ReportedLate, Remaining;
    assert Remaining(backup, {n}) == map[n := backup[n]] by {
      RemainingOne(backup, n);
    }
    var _ := helper.RemoveFolder(Previous);
    assert helper.Quiet();
    helper.Undo();
    assert helper.disk.staging == Absent && helper.disk.linkStage == Absent;
    var _ := helper.Sweep();
  }

  lemma OneLeftIsTorn(windows: bool, active: Entry, backup: Files, n: string)
    requires Indexable(backup) && n in backup && |backup| > 1 && Holds(windows, active, backup)
    ensures Torn(windows, Disk(Folder(map[n := backup[n]]), active, Absent, Absent, Absent), backup)
  {
    hide Indexable, Copies;
    var left := map[n := backup[n]];
    assert left.Keys == {n} && |left.Keys| == 1 && |backup.Keys| == |backup|;
    assert left.Keys <= backup.Keys && left.Keys != backup.Keys;
  }

  /**
   * Such a loss happens: from the switched state every undisturbed run comes to, one failure reported
   * by the last removal when only the file `n` is left ends, through the undoing and the sweeping, with
   * that file alone in the old place, and the next run, left alone, takes it for the whole backup.
   */
  method LoseBackup(helper: Helper, ghost backup: Files, n: string) returns (r: Answer)
    requires Indexable(backup) && n in backup && |backup| > 1
    requires helper.disk == Disk(Junction(Active), helper.disk.active, Absent, Folder(backup), Absent)
    requires Holds(helper.windows, helper.disk.active, backup)
    requires !helper.down && helper.faults(helper.calls) == Fault(Midway({n}, 0), false)
    requires forall k: nat :: k > helper.calls ==> helper.faults(k).NoFault?
    modifies helper
    ensures r.Done? && !Kept(helper.windows, helper.disk, backup)
  {
    hide Indexable, Torn, Holds;
    OneLeftIsTorn(helper.windows, helper.disk.active, backup, n);
    TearSwitch(helper, backup, n);
    assert n in helper.disk.source.files;
    r := RunAfterTornRemoval(helper, backup);
  }

  function Left(d: Disk): Files {
    if d.source.Folder? then d.source.files
    else if d.previous.Folder? then d.previous.files
    else map[]
  }

  lemma TornLeft(windows: bool, d: Disk, backup: Files)
    requires Torn(windows, d, backup)
    ensures Left(d).Keys < backup.Keys
    ensures Left(d) != map[] ==> Sound(windows, d, Left(d))
    ensures Left(d) == map[] ==> !Indexable(Left(d))
  {
    PartIndexable(Left(d), backup);
  }
}
