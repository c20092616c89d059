/**
 * configurator.py: saving the configuration file. The file lock is held for a whole save, so saves
 * follow one another; each may fail, or its process may die, at any step.
 */
module Configurator {
  import opened Faults
  import opened Results
  import opened Topology
  import opened Releases
  import opened Manager

  type Bytes = seq<int>

  const MAX_CONFIG_BYTES: nat := 524288

  datatype SaveError = Changed | TooLarge | Invalid | Undiscovered | Conflict | StateMissing | StateInvalid
    | Incompatible | ReleasePending | WriteFailed

  /** The bytes stand for their SHA-256 revision; None for a file that is missing or cannot be read. */
  datatype Document = Document(present: bool, revision: Option<Bytes>, config: Option<ServiceConfig>)

  datatype SaveResult = Saved(config: ServiceConfig, content: Bytes) | Rejected(error: SaveError)

  /** What the release database must say of a new configuration that is to replace `current`. */
  ghost predicate Permits(current: Document, proposed: ServiceConfig, db: Db) {
    && (db.active.Some? ==>
          db.active.value in db.releases && SnapshotsOf(db, db.active.value) == Expected(proposed, db.active.value))
    && ((exists n :: IncompleteIn(db, n)) ==>
          current.config.Some? && SamePublisher(current.config.value, proposed))
  }

  /** The volumes are a mapping, so their order does not count. */
  predicate SamePublisher(a: ServiceConfig, b: ServiceConfig) {
    && a.portal == b.portal && a.prefix == b.prefix
    && a.publisher.(volumes := []) == b.publisher.(volumes := [])
    && (set p | p in a.publisher.volumes) == (set p | p in b.publisher.volumes)
  }

  // ---- What the release database demands, field by field ----

  /** All that a release left incomplete is continued under: where it was begun, by whom, and from what. */
  ghost predicate KeepsPublisher(a: ServiceConfig, b: ServiceConfig) {
    && b.portal == a.portal
    && b.prefix == a.prefix
    && b.publisher.sourceIp == a.publisher.sourceIp
    && b.publisher.initiatorIqn == a.publisher.initiatorIqn
    && b.publisher.targetIqn == a.publisher.targetIqn
    && (forall name, dataset, extent, lun ::
          PublisherVolume(name, dataset, extent, lun) in b.publisher.volumes <==>
          PublisherVolume(name, dataset, extent, lun) in a.publisher.volumes)
  }

  lemma SamePublisherMeans(a: ServiceConfig, b: ServiceConfig)
    ensures SamePublisher(a, b) <==> KeepsPublisher(a, b)
  {
    var mine, yours := set p | p in a.publisher.volumes, set p | p in b.publisher.volumes;
    if KeepsPublisher(a, b) {
      forall p: PublisherVolume
        ensures p in mine <==> p in yours
      {
        assert p == PublisherVolume(p.name, p.dataset, p.extentId, p.lun);
      }
      assert mine == yours;
    }
    if SamePublisher(a, b) {
      forall name, dataset, extent, lun
        ensures PublisherVolume(name, dataset, extent, lun) in b.publisher.volumes <==>
                PublisherVolume(name, dataset, extent, lun) in a.publisher.volumes
      {
        assert PublisherVolume(name, dataset, extent, lun) in mine <==> PublisherVolume(name, dataset, extent, lun) in yours;
      }
    }
  }

  ghost predicate DistinctNames(config: ServiceConfig) {
    forall i, j :: 0 <= i < j < |config.publisher.volumes| ==>
      config.publisher.volumes[i].name != config.publisher.volumes[j].name
  }

  /** The rows of the release are those of the configured volumes, each with the snapshot of its dataset. */
  ghost predicate RowsAre(config: ServiceConfig, db: Db, release: string) {
    && (forall p :: p in config.publisher.volumes ==>
          (release, p.name) in db.volumes && db.volumes[(release, p.name)] == At(p.dataset, release))
    && (forall v :: (release, v) in db.volumes ==> exists p :: p in config.publisher.volumes && p.name == v)
  }

  lemma {:induction false} DatasetByName(volumes: seq<PublisherVolume>, p: PublisherVolume)
    requires p in volumes && forall i, j :: 0 <= i < j < |volumes| ==> volumes[i].name != volumes[j].name
    ensures MasterDataset(volumes, p.name) == p.dataset
  {
    if volumes[0] != p {
      var k :| 0 <= k < |volumes| && volumes[k] == p;
      assert volumes[1..][k - 1] == p;
      DatasetByName(volumes[1..], p);
    }
  }

  lemma RowsMean(config: ServiceConfig, db: Db, release: string)
    requires DistinctNames(config)
    ensures SnapshotsOf(db, release) == Expected(config, release) <==> RowsAre(config, db, release)
  {
    hide MasterDataset;
    var rows, expected := SnapshotsOf(db, release), Expected(config, release);
    forall p | p in config.publisher.volumes
      ensures p.name in expected && expected[p.name] == At(p.dataset, release)
    {
      DatasetByName(config.publisher.volumes, p);
    }
    assert forall v :: v in rows <==> (release, v) in db.volumes;
    if RowsAre(config, db, release) {
      forall v | v in expected ensures v in rows && rows[v] == expected[v] {
        var p :| p in config.publisher.volumes && p.name == v;
      }
      assert rows.Keys == expected.Keys;
    }
  }

  /**
   * A configuration is refused for the sake of a release exactly if it changes a snapshot of the active
   * one, or anything an incomplete one is continued under.
   */
  lemma PermitsExactly(current: Document, proposed: ServiceConfig, db: Db)
    requires DbInv(db) && DistinctNames(proposed)
    ensures Permits(current, proposed, db) <==>
              && (db.active.Some? ==> RowsAre(proposed, db, db.active.value))
              && (forall n :: IncompleteIn(db, n) ==>
                    current.config.Some? && KeepsPublisher(current.config.value, proposed))
  {
    hide SnapshotsOf, Expected, RowsAre, SamePublisher, KeepsPublisher;
    if db.active.Some? { RowsMean(proposed, db, db.active.value); }
    if current.config.Some? { SamePublisherMeans(current.config.value, proposed); }
  }

  lemma ClientsDoNotCount(config: ServiceConfig, clients: seq<Client>, db: Db)
    ensures KeepsPublisher(config, config.(clients := clients))
    ensures DistinctNames(config) ==> DistinctNames(config.(clients := clients))
    ensures forall release :: RowsAre(config, db, release) ==> RowsAre(config.(clients := clients), db, release)
  {
  }

  /** Clients may come, go and change whatever is left incomplete. */
  lemma ClientsOnlyPermitted(current: Document, clients: seq<Client>, db: Db)
    requires DbInv(db) && current.config.Some? && DistinctNames(current.config.value)
    requires db.active.Some? ==> RowsAre(current.config.value, db, db.active.value)
    ensures Permits(current, current.config.value.(clients := clients), db)
  {
    var config := current.config.value;
    PermitsExactly(current, config.(clients := clients), db);
    ClientsDoNotCount(config, clients, db);
    hide Permits, DbInv, KeepsPublisher, RowsAre;
  }

  class ConfigRepository {
    const parse: Bytes -> Option<ServiceConfig>
    const dump: ServiceConfig -> Bytes
    const store: ReleaseStore
    var stored: bool
    var file: Option<Bytes>
    var history: seq<Bytes>
    var faults: nat -> Fault
    var calls: nat
    var down: bool
    ghost var contents: seq<Option<Bytes>>

    constructor (
      parse: Bytes -> Option<ServiceConfig>, dump: ServiceConfig -> Bytes, store: ReleaseStore, stored: bool,
      file: Option<Bytes>)
      ensures this.parse == parse && this.dump == dump && this.store == store && this.stored == stored
      ensures this.file == file && history == [] && contents == [file] && Valid()
    {
      this.parse, this.dump, this.store, this.stored, this.file := parse, dump, store, stored, file;
      history, calls, down, contents := [], 0, false, [file];
      faults := n => NoFault;
    }

    /** `contents` is all the file ever held; every content that was replaced is in the history. */
    ghost predicate Valid()
      reads this
    {
      && contents != []
      && contents[|contents| - 1] == file
      && forall i :: 0 <= i < |contents| - 1 && contents[i].Some? ==> contents[i].value in history
    }

    ghost predicate Faultless()
      reads this
    {
      !down && forall n: nat :: n >= calls ==> faults(n).NoFault?
    }

    method Restart(faults: nat -> Fault)
      modifies this`faults, this`calls, this`down
      ensures this.faults == faults && calls == 0 && !down
      ensures old(Valid()) ==> Valid()
    {
      this.faults, calls, down := faults, 0, false;
    }

    method Tick() returns (f: Fault)
      modifies this`calls, this`down
      ensures old(down) ==> down && f == Fault(Before, true)
      ensures !old(down) ==> f == faults(old(calls)) && calls == old(calls) + 1 && (down <==> f.Fault? && f.halts)
      ensures old(Faultless()) ==> Faultless() && f.NoFault?
    {
      if down { return Fault(Before, true); }
      f := faults(calls);
      calls := calls + 1;
      if f.Fault? && f.halts { down := true; }
    }

    /** `read`: an unreadable file is reported as existing, without a revision. */
    method Read() returns (d: Document)
      modifies this`calls, this`down
      ensures old(down) ==> down
      ensures d == Readable() || d == Document(true, None, None)
      ensures d != Readable() ==> old(down) || faults(old(calls)).Fault?
      ensures !old(down) && faults(old(calls)).Fault? ==>
                d == Document(true, None, None) && calls == old(calls) + 1 && (down <==> faults(old(calls)).halts)
      ensures old(Faultless()) ==> Faultless() && d == Readable()
    {
      var f := Tick();
      if file.None? && f.NoFault? { return Document(false, None, None); }
      if f.Fault? { return Document(true, None, None); }
      d := Document(true, file, parse(file.value));
    }

    function Readable(): Document
      reads this`file
    {
      if file.None? then Document(false, None, None) else Document(true, file, parse(file.value))
    }

    /** _validate_release_state. */
    method CheckReleases(proposed: ServiceConfig) returns (failure: Option<SaveError>)
      requires DbInv(store.View())
      modifies this`calls, this`down
      ensures old(down) ==> down
      ensures failure.None? && stored ==> Permits(Readable(), proposed, store.View())
      ensures failure.None? ==> Continues(file, proposed)
      ensures failure.None? && !stored ==> file.None?
      ensures old(Faultless()) ==> Faultless()
      ensures old(Faultless()) ==>
                (failure.None? <==> if stored then Permits(Readable(), proposed, store.View()) else file.None?)
    {
      hide DbInv;
      var current := Read();
      if !stored {
        if current.present { return Some(StateMissing); }
        return None;
      }
      var f := Tick();
      if f.Fault? { return Some(StateInvalid); }
      var active := store.ActiveRelease();
      if active.Err? { return Some(StateInvalid); }
      if active.value.Some? && active.value.value.snapshots != Expected(proposed, active.value.value.name) {
        return Some(Incompatible);
      }
      var pending := set n | n in store.releases && store.releases[n].status.Incomplete?;
      assert forall n :: IncompleteIn(store.View(), n) <==> n in pending;
      if pending != {} {
        if current.config.None? { return Some(ReleasePending); }
        if !SamePublisher(current.config.value, proposed) { return Some(ReleasePending); }
      }
      PermitsContinues(proposed);
      return None;
    }

    /** validate_yaml; `live` is the verdict of the checks against the storage server's own topology. */
    method ValidateYaml(source: Bytes, live: bool) returns (r: SaveResult)
      requires DbInv(store.View())
      modifies this`calls, this`down
      ensures old(down) ==> down && r.Rejected?
      ensures r.Saved? ==> |source| <= MAX_CONFIG_BYTES && parse(source) == Some(r.config) && r.content == dump(r.config)
      ensures r.Saved? ==> Acceptable(source, live) && Continues(file, r.config)
      ensures old(Faultless()) ==> Faultless() && (r.Saved? <==> Acceptable(source, live))
      ensures old(Faultless()) && Faulty(source, live).Some? ==> r == Rejected(Faulty(source, live).value)
    {
      hide DbInv, Permits, Continues;
      if |source| > MAX_CONFIG_BYTES { return Rejected(TooLarge); }
      var config := parse(source);
      if config.None? { return Rejected(Invalid); }
      var f := Tick();
      if f.Fault? { return Rejected(Undiscovered); }
      if !live { return Rejected(Conflict); }
      var failure := CheckReleases(config.value);
      if failure.Some? { return Rejected(failure.value); }
      r := Saved(config.value, dump(config.value));
    }

    /** What is wrong with a draft whatever the file and the release database hold. */
    function Faulty(source: Bytes, live: bool): Option<SaveError> {
      if |source| > MAX_CONFIG_BYTES then Some(TooLarge)
      else if parse(source).None? then Some(Invalid)
      else if !live then Some(Conflict)
      else None
    }

    ghost predicate Acceptable(source: Bytes, live: bool)
      reads this`stored, this`file, store
    {
      && |source| <= MAX_CONFIG_BYTES && live
      && parse(source).Some?
      && if stored then Permits(Readable(), parse(source).value, store.View()) else file.None?
    }

    /** While a release is incomplete only what it was begun under replaces a configuration. */
    ghost predicate Continues(before: Option<Bytes>, proposed: ServiceConfig)
      reads this`stored, store
    {
      Pending() ==> before.Some? && parse(before.value).Some? && KeepsPublisher(parse(before.value).value, proposed)
    }

    ghost predicate Pending()
      reads this`stored, store
    {
      stored && exists n :: IncompleteIn(store.View(), n)
    }

    lemma PermitsContinues(proposed: ServiceConfig)
      requires if stored then Permits(Readable(), proposed, store.View()) else file.None?
      ensures Continues(file, proposed)
    {
      if Pending() { SamePublisherMeans(Readable().config.value, proposed); }
    }

    /** A draft opened at no file may replace a file that is there, if that cannot be read. */
    ghost predicate Exposed(source: Bytes, base: Option<Bytes>, live: bool)
      reads this`stored, this`file, store
    {
      base.None? && file.Some? && Acceptable(source, live)
    }

    /** _preserve_history: a failed write may leave part of the content behind, never less than before. */
    method PreserveHistory(present: bool) returns (ok: bool)
      modifies this`calls, this`down, this`history
      ensures old(down) ==> down && (present ==> !ok)
      ensures old(history) <= history
      ensures ok && present ==> file.Some? && file.value in history
      ensures old(Faultless()) ==> Faultless() && (ok <==> !present || file.Some?)
    {
      if !present { return true; }
      var f := Tick();
      if f.Fault? || file.None? { return false; }
      var raw := file.value;
      f := Tick();
      if f.Fault? && f.moment.Before? { return false; }
      if f.Fault? && f.moment.Midway? && f.moment.length < |raw| {
        history := history + [raw[..f.moment.length]];
        return false;
      }
      history := history + [raw];
      return f.NoFault?;
    }

    /** _atomic_replace: the content is written aside and renamed; what follows the rename may still fail. */
    method AtomicReplace(content: Bytes) returns (ok: bool, ghost replaced: bool)
      requires Valid()
      requires file.Some? ==> file.value in history
      modifies this`calls, this`down, this`file, this`contents
      ensures Valid()
      ensures old(down) ==> down && !replaced
      ensures replaced ==> file == Some(content) && contents == old(contents) + [file]
      ensures !replaced ==> file == old(file) && contents == old(contents)
      ensures ok ==> replaced
      ensures old(Faultless()) ==> Faultless() && ok
    {
      var f := Tick();
      if f.Fault? { return false, false; }
      f := Tick();
      if f.Fault? && !f.moment.After? { return false, false; }
      file := Some(content);
      contents := contents + [file];
      if f.Fault? { return false, true; }
      f := Tick();
      return f.NoFault?, true;
    }

    /**
     * `save_yaml`. The file is untouched or holds the new canonical content of an acceptable draft. It is
     * replaced only on the revision it was opened at, unless that was none and the file could not be
     * read; what is replaced is in the history, and a reported success did replace. A reported failure may
     * have, too. When nothing but that read fails, the file is replaced exactly if the draft exposes it.
     */
    method Save(source: Bytes, base: Option<Bytes>, live: bool)
      returns (r: SaveResult, ghost replaced: bool, ghost unread: bool)
      requires Valid() && DbInv(store.View())
      modifies this`calls, this`down, this`file, this`history, this`contents
      ensures Valid() && old(history) <= history
      ensures !replaced ==> file == old(file) && contents == old(contents)
      ensures replaced ==> old(Acceptable(source, live))
      ensures replaced ==> file == Some(dump(parse(source).value)) && contents == old(contents) + [file]
      ensures replaced ==> Continues(old(file), parse(source).value)
      ensures replaced && !unread ==> base == old(file)
      ensures replaced && unread ==> old(Exposed(source, base, live)) && ReadFails(faults, old(calls))
      ensures !old(down) && OnlyReadFails(faults, old(calls)) ==>
                unread && (replaced <==> old(Exposed(source, base, live))) && (r.Saved? <==> replaced)
      ensures r.Saved? ==> replaced && file == Some(r.content)
      ensures old(Faultless()) ==> !unread && (r.Saved? <==> base == old(file) && old(Acceptable(source, live)))
      ensures old(Faultless()) && base != old(file) ==> r == Rejected(Changed)
      ensures old(Faultless()) && base == old(file) && Faulty(source, live).Some? ==>
                r == Rejected(Faulty(source, live).value)
    {
      hide DbInv, Permits, Continues, Acceptable;
      replaced, unread := false, false;
      var f := Tick();
      if f.Fault? { return Rejected(WriteFailed), false, false; }
      var current := Read();
      unread := current != Readable();
      if current.revision != base { return Rejected(Changed), false, unread; }
      r := ValidateYaml(source, live);
      if r.Rejected? { return; }
      var ok := PreserveHistory(current.present);
      if !ok { return Rejected(WriteFailed), false, unread; }
      ok, replaced := AtomicReplace(r.content);
      if !ok { r := Rejected(WriteFailed); }
    }
  }

  /** The step after taking the lock, reading the file, goes wrong. */
  ghost predicate ReadFails(faults: nat -> Fault, calls: nat) {
    faults(calls).NoFault? && faults(calls + 1).Fault?
  }

  /** It is the only step that goes wrong, and the process lives on. */
  ghost predicate OnlyReadFails(faults: nat -> Fault, calls: nat) {
    ReadFails(faults, calls) && !faults(calls + 1).halts && forall n: nat :: n > calls + 1 ==> faults(n).NoFault?
  }

  type Draft = (Bytes, Option<Bytes>, bool)

  /** `d`, saved under `adversary`, turned `before` into `after`, maybe with a release left incomplete. */
  ghost predicate Replaces(
    repository: ConfigRepository, d: Draft, adversary: nat -> Fault, pending: bool, before: Option<Bytes>,
    after: Option<Bytes>)
  {
    && repository.parse(d.0).Some?
    && (pending ==>
          before.Some? && repository.parse(before.value).Some? &&
          KeepsPublisher(repository.parse(before.value).value, repository.parse(d.0).value))
    && after == Some(repository.dump(repository.parse(d.0).value))
    && (d.1 == before || (d.1 == None && before.Some? && ReadFails(adversary, 0)))
  }

  /** One of the drafts turned content number `i - 1` into content number `i`. */
  ghost predicate ReplacedBySome(
    repository: ConfigRepository, drafts: seq<Draft>, adversaries: seq<nat -> Fault>, pending: bool,
    contents: seq<Option<Bytes>>, i: nat)
    requires |drafts| == |adversaries| && 0 < i < |contents|
  {
    exists k :: 0 <= k < |drafts| && Replaces(repository, drafts[k], adversaries[k], pending, contents[i - 1], contents[i])
  }

  lemma MoreDrafts(
    repository: ConfigRepository, drafts: seq<Draft>, adversaries: seq<nat -> Fault>, pending: bool,
    k: nat, before: seq<Option<Bytes>>, contents: seq<Option<Bytes>>, i: nat)
    requires k < |drafts| == |adversaries| && 0 < i < |contents| && before != []
    requires i < |before| ==> ReplacedBySome(repository, drafts[..k], adversaries[..k], pending, before, i)
    requires contents == before ||
             exists after :: contents == before + [after] &&
               Replaces(repository, drafts[k], adversaries[k], pending, before[|before| - 1], after)
    ensures ReplacedBySome(repository, drafts[..k + 1], adversaries[..k + 1], pending, contents, i)
  {
    hide Replaces;
    if i < |before| {
      var j :| 0 <= j < k && Replaces(repository, drafts[..k][j], adversaries[..k][j], pending, before[i - 1], before[i]);
      assert Replaces(repository, drafts[..k + 1][j], adversaries[..k + 1][j], pending, contents[i - 1], contents[i]);
    } else {
      assert Replaces(repository, drafts[..k + 1][k], adversaries[..k + 1][k], pending, contents[i - 1], contents[i]);
    }
  }

  /**
   * Every history of saves: the file only ever held what it started with and canonical contents of
   * accepted sources. Each of these replaced the very content its draft was opened at, unless that
   * was none and the file could not be read, and what it replaced is in the history, so none is lost.
   */
  method SaveAll(repository: ConfigRepository, drafts: seq<Draft>, adversaries: seq<nat -> Fault>)
    requires repository.Valid() && DbInv(repository.store.View()) && |drafts| == |adversaries|
    modifies repository
    ensures repository.Valid() && old(repository.history) <= repository.history && repository.stored == old(repository.stored)
    ensures old(repository.contents) <= repository.contents
    ensures forall i :: |old(repository.contents)| <= i < |repository.contents| ==>
              ReplacedBySome(repository, drafts, adversaries, repository.Pending(), repository.contents, i)
    ensures forall i :: 0 <= i < |repository.contents| - 1 && repository.contents[i].Some? ==>
              repository.contents[i].value in repository.history
  {
    hide DbInv, Replaces, ReplacedBySome;
    ghost var pending := repository.Pending();
    for k := 0 to |drafts|
      invariant repository.Valid() && old(repository.history) <= repository.history
      invariant repository.stored == old(repository.stored)
      invariant old(repository.contents) <= repository.contents
      invariant forall i :: |old(repository.contents)| <= i < |repository.contents| ==>
                  ReplacedBySome(repository, drafts[..k], adversaries[..k], pending, repository.contents, i)
    {
      ghost var before, done, against := repository.contents, drafts[..k + 1], adversaries[..k + 1];
      SaveOne(repository, drafts[k], adversaries[k]);
      forall i | |old(repository.contents)| <= i < |repository.contents|
        ensures ReplacedBySome(repository, done, against, pending, repository.contents, i)
      {
        MoreDrafts(repository, drafts, adversaries, pending, k, before, repository.contents, i);
      }
    }
    assert drafts[..|drafts|] == drafts && adversaries[..|drafts|] == adversaries;
  }

  /**
   * A save against any adversary replaces only the content its draft was opened at, unless the draft
   * exposes the file: it was opened at no file, a file is there, and the draft is acceptable.
   */
  method SaveOne(repository: ConfigRepository, d: Draft, adversary: nat -> Fault)
    requires repository.Valid() && DbInv(repository.store.View())
    modifies repository
    ensures repository.Valid() && old(repository.history) <= repository.history && repository.stored == old(repository.stored)
    ensures repository.contents == old(repository.contents) ||
            (repository.contents == old(repository.contents) + [repository.file] &&
             Replaces(repository, d, adversary, repository.Pending(), old(repository.file), repository.file))
    ensures !old(repository.Exposed(d.0, d.1, d.2)) ==>
              repository.contents == old(repository.contents) || d.1 == old(repository.file)
  {
    hide DbInv;
    repository.Restart(adversary);
    var _, _, _ := repository.Save(d.0, d.1, d.2);
  }

  /**
   * That exception is exact: when only the read after the lock fails, just the drafts that expose the
   * file replace a content they were not opened at, and the save is reported as a success.
   */
  method SaveUnseen(repository: ConfigRepository, d: Draft) returns (r: SaveResult)
    requires repository.Valid() && DbInv(repository.store.View())
    modifies repository
    ensures old(repository.Exposed(d.0, d.1, d.2)) <==>
              repository.contents == old(repository.contents) + [repository.file] && d.1 != old(repository.file)
    ensures old(repository.Exposed(d.0, d.1, d.2)) ==> r.Saved? && old(repository.file).value in repository.history
  {
    hide DbInv;
    repository.Restart(n => if n == 1 then Fault(Before, false) else NoFault);
    ghost var replaced, unread;
    ghost var last := |repository.contents| - 1;
    r, replaced, unread := repository.Save(d.0, d.1, d.2);
    assert repository.contents[last] == old(repository.file);
  }

  /**
   * A release left incomplete freezes all it is continued under: as long as it is incomplete, whatever is
   * saved, the configuration in the file keeps the publisher of the first, if configurations read back.
   */
  lemma {:induction false} PendingFreezesPublisher(
    repository: ConfigRepository, drafts: seq<Draft>, adversaries: seq<nat -> Fault>, contents: seq<Option<Bytes>>,
    from: nat, i: nat)
    requires |drafts| == |adversaries| && from <= i < |contents|
    requires forall c :: repository.parse(repository.dump(c)) == Some(c)
    requires forall j :: from < j <= i ==> ReplacedBySome(repository, drafts, adversaries, true, contents, j)
    requires contents[from].Some? && repository.parse(contents[from].value).Some?
    ensures contents[i].Some? && repository.parse(contents[i].value).Some?
    ensures KeepsPublisher(repository.parse(contents[from].value).value, repository.parse(contents[i].value).value)
    decreases i
  {
    hide KeepsPublisher;
    KeepsChained(repository.parse(contents[from].value).value);
    if i > from {
      PendingFreezesPublisher(repository, drafts, adversaries, contents, from, i - 1);
      assert ReplacedBySome(repository, drafts, adversaries, true, contents, i);
      var k :| 0 <= k < |drafts| && Replaces(repository, drafts[k], adversaries[k], true, contents[i - 1], contents[i]);
    }
  }

  lemma KeepsChained(a: ServiceConfig)
    ensures KeepsPublisher(a, a)
    ensures forall b, c :: KeepsPublisher(a, b) && KeepsPublisher(b, c) ==> KeepsPublisher(a, c)
  {
  }

  /**
   * No lost update: of two drafts opened at the same content, the second is refused unless the first
   * changed nothing or the file could not be read.
   */
  method SaveTwice(
    repository: ConfigRepository, base: Option<Bytes>, mine: Bytes, yours: Bytes, first: nat -> Fault, second: nat -> Fault)
    returns (a: SaveResult, b: SaveResult, ghost unread: bool)
    requires repository.Valid() && DbInv(repository.store.View())
    modifies repository
    ensures a.Saved? && b.Saved? && !unread ==> base == Some(a.content)
    ensures unread && b.Saved? ==> base == None
    ensures a.Saved? && b.Saved? ==> a.content in repository.history
  {
    repository.Restart(first);
    ghost var replaced;
    a, replaced, unread := repository.Save(mine, base, true);
    repository.Restart(second);
    ghost var n := |repository.contents|;
    assert repository.contents[n - 1] == repository.file;
    b, replaced, unread := repository.Save(yours, base, true);
    assert a.Saved? && b.Saved? ==> repository.contents[n - 1] == Some(a.content);
  }
}
