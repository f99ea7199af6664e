/**
 * The storage clean-up functions of CLOUD_FUNCTIONS_CODE.ts over in-memory
 * stores: the photo documents by id, the set of object names in the storage
 * bucket, the `deletion_logs` collection and the `cleanup_reports`
 * collection. It covers the expiry trigger, the daily orphan sweep, the
 * manual test call and the deletion statistics. Server timestamps are the
 * `now` parameter; a storage call that throws is a parameter too.
 */
module StorageCleanup {
  import opened Base
  import opened Seqs
  import opened Domain
  import opened Text

  /** The fields of a photo document the functions read; a missing or empty `storagePath` is `""`. */
  datatype PhotoDoc = PhotoDoc(jobId: Option<string>, storagePath: string)

  /** An entry of `cleanup_reports`; a failed sweep carries no counters. */
  datatype CleanupReport = CleanupReport(timestamp: int, filesChecked: Option<nat>, filesDeleted: Option<nat>, success: bool)

  function ExpiryLog(photoId: string, d: PhotoDoc, now: int, success: bool): DeletionLog
  {
    DeletionLog(Some(photoId), d.jobId, d.storagePath, now, "auto-expiry", Some(success), None)
  }

  function OrphanLog(path: string, now: int, success: bool): DeletionLog
  {
    DeletionLog(None, None, path, now, "orphaned-cleanup", Some(success), None)
  }

  function ManualTestLog(photoId: string, d: PhotoDoc, uid: string, now: int): DeletionLog
  {
    DeletionLog(Some(photoId), d.jobId, d.storagePath, now, "manual-test", Some(true), Some(uid))
  }

  // ------------------------------------------------------------ the sweep

  /** The storage paths the photo documents name. */
  function ReferencedPaths(photos: map<string, PhotoDoc>): set<string>
  {
    set id | id in photos :: photos[id].storagePath
  }

  /** The photo query of the sweep finds a document with that storage path. */
  predicate Referenced(photos: map<string, PhotoDoc>, path: string)
  {
    path in ReferencedPaths(photos)
  }

  /** A listed file the sweep deletes: no photo refers to it and its deletion does not throw. */
  function Removable(photos: map<string, PhotoDoc>, failing: set<string>): string -> bool
  {
    (p: string) => !Referenced(photos, p) && p !in failing
  }

  function Unreferenced(photos: map<string, PhotoDoc>): string -> bool
  {
    (p: string) => !Referenced(photos, p)
  }

  /** The files the sweep removes from the bucket. */
  function Swept(photos: map<string, PhotoDoc>, listed: seq<string>, failing: set<string>): set<string>
  {
    set p | p in listed && Removable(photos, failing)(p)
  }

  /** What the sweep logs for one listed file: nothing for a referenced file, else one entry with the delete's outcome. */
  function SweepEntry(photos: map<string, PhotoDoc>, failing: set<string>, p: string, now: int): seq<DeletionLog>
  {
    if Referenced(photos, p) then [] else [OrphanLog(p, now, p !in failing)]
  }

  /** The log entries the sweep writes, one per orphan, in listing order. */
  function SweepLogs(photos: map<string, PhotoDoc>, listed: seq<string>, failing: set<string>, now: int): seq<DeletionLog>
  {
    if listed == [] then []
    else SweepLogs(photos, listed[..|listed| - 1], failing, now) + SweepEntry(photos, failing, listed[|listed| - 1], now)
  }

  function LogSucceeded(l: DeletionLog): bool
  {
    l.success == Some(true)
  }

  /** One log per unreferenced listed file. */
  lemma {:induction false} SweepLogsLength(photos: map<string, PhotoDoc>, listed: seq<string>, failing: set<string>, now: int)
    ensures |SweepLogs(photos, listed, failing, now)| == Count(listed, Unreferenced(photos))
  {
    if listed != [] {
      var init, p := listed[..|listed| - 1], listed[|listed| - 1];
      assert listed == init + [p];
      SweepLogsLength(photos, init, failing, now);
      FilterAppend(init, [p], Unreferenced(photos));
      SweepEntrySpec(photos, failing, p, now);
    }
  }

  /** The entries marked successful are exactly the deletions the report counts. */
  lemma {:induction false} SweepLogsSucceeded(photos: map<string, PhotoDoc>, listed: seq<string>, failing: set<string>, now: int)
    ensures Count(SweepLogs(photos, listed, failing, now), LogSucceeded) == Count(listed, Removable(photos, failing))
  {
    if listed != [] {
      var init, p := listed[..|listed| - 1], listed[|listed| - 1];
      assert listed == init + [p];
      SweepLogsSucceeded(photos, init, failing, now);
      FilterAppend(init, [p], Removable(photos, failing));
      FilterAppend(SweepLogs(photos, init, failing, now), SweepEntry(photos, failing, p, now), LogSucceeded);
      SweepEntrySpec(photos, failing, p, now);
    }
  }

  /**
   * Every entry is an `orphaned-cleanup` entry for an unreferenced listed
   * file, and its success flag says whether that file's delete went through.
   */
  lemma {:induction false} SweepLogsEntries(photos: map<string, PhotoDoc>, listed: seq<string>, failing: set<string>, now: int)
    ensures forall l :: l in SweepLogs(photos, listed, failing, now) ==>
      l.reason == "orphaned-cleanup" && l.storagePath in listed && !Referenced(photos, l.storagePath)
      && l.success == Some(l.storagePath !in failing)
  {
    if listed != [] {
      var init, p := listed[..|listed| - 1], listed[|listed| - 1];
      assert listed == init + [p];
      SweepLogsEntries(photos, init, failing, now);
      SweepEntrySpec(photos, failing, p, now);
    }
  }

  /** What the sweep logs for one file. */
  lemma SweepEntrySpec(photos: map<string, PhotoDoc>, failing: set<string>, p: string, now: int)
    ensures |SweepEntry(photos, failing, p, now)| == |Filter([p], Unreferenced(photos))|
    ensures |Filter(SweepEntry(photos, failing, p, now), LogSucceeded)| == |Filter([p], Removable(photos, failing))|
    ensures forall l :: l in SweepEntry(photos, failing, p, now) ==>
      l.reason == "orphaned-cleanup" && l.storagePath == p && !Referenced(photos, p) && l.success == Some(p !in failing)
  {
  }

  /** The sweep deletes no file a photo refers to, and no file it did not list. */
  lemma SweptSpec(photos: map<string, PhotoDoc>, listed: seq<string>, failing: set<string>, p: string)
    ensures p in Swept(photos, listed, failing) <==> p in listed && !Referenced(photos, p) && p !in failing
    ensures Referenced(photos, p) ==> p !in Swept(photos, listed, failing)
  {
  }

  /** A sweep never reports more deletions than files checked. */
  lemma DeletedAtMostChecked(photos: map<string, PhotoDoc>, listed: seq<string>, failing: set<string>)
    ensures Count(listed, Removable(photos, failing)) <= |listed|
  {
  }

  // ------------------------------------------------------------ expiry

  datatype ExpiryOutcome = NoStoragePath | Expired | ExpiryFailed

  datatype CallError = Unauthenticated | InvalidArgument | PermissionDenied | Internal

  datatype TestOutcome = TestRejected(error: CallError) | FileMissing | Cleaned

  /** The back end: the photo documents, the bucket and the two log collections. */
  class Backend {
    var photos: map<string, PhotoDoc>
    var files: set<string>
    var deletionLogs: seq<DeletionLog>
    var cleanupReports: seq<CleanupReport>

    constructor (photos: map<string, PhotoDoc>, files: set<string>)
      ensures this.photos == photos && this.files == files && deletionLogs == [] && cleanupReports == []
    {
      this.photos := photos;
      this.files := files;
      deletionLogs := [];
      cleanupReports := [];
    }

    /**
     * `onJobPhotoExpiry`, run with the data of the deleted document: with no
     * storage path it does nothing; otherwise it deletes the file when the
     * bucket holds it and logs one successful `auto-expiry` entry either way.
     * When a storage call throws it logs one failed entry and reports the
     * error.
     */
    method OnPhotoExpiry(photoId: string, data: PhotoDoc, storageFails: bool, now: int) returns (outcome: ExpiryOutcome)
      modifies this
      ensures data.storagePath == "" ==>
        outcome == NoStoragePath && files == old(files) && deletionLogs == old(deletionLogs)
      ensures data.storagePath != "" && storageFails ==>
        outcome == ExpiryFailed && files == old(files)
        && deletionLogs == old(deletionLogs) + [ExpiryLog(photoId, data, now, false)]
      ensures data.storagePath != "" && !storageFails ==>
        outcome == Expired && files == old(files) - {data.storagePath}
        && deletionLogs == old(deletionLogs) + [ExpiryLog(photoId, data, now, true)]
      ensures photos == old(photos) && cleanupReports == old(cleanupReports)
    {
      if data.storagePath == "" {
        return NoStoragePath;
      }
      if storageFails {
        deletionLogs := deletionLogs + [ExpiryLog(photoId, data, now, false)];
        return ExpiryFailed;
      }
      if data.storagePath in files {
        files := files - {data.storagePath};
      }
      deletionLogs := deletionLogs + [ExpiryLog(photoId, data, now, true)];
      outcome := Expired;
    }

    /** The time-to-live deletion of a document, which fires the expiry trigger with its data. */
    method Expire(photoId: string, storageFails: bool, now: int) returns (outcome: ExpiryOutcome)
      requires photoId in photos
      modifies this
      ensures photos == old(photos) - {photoId}
      ensures var d := old(photos)[photoId];
        d.storagePath == "" ==>
          outcome == NoStoragePath && files == old(files) && deletionLogs == old(deletionLogs)
      ensures var d := old(photos)[photoId];
        d.storagePath != "" && storageFails ==>
          outcome == ExpiryFailed && files == old(files)
          && deletionLogs == old(deletionLogs) + [ExpiryLog(photoId, d, now, false)]
      ensures var d := old(photos)[photoId];
        d.storagePath != "" && !storageFails ==>
          outcome == Expired && files == old(files) - {d.storagePath}
          && deletionLogs == old(deletionLogs) + [ExpiryLog(photoId, d, now, true)]
      ensures cleanupReports == old(cleanupReports)
    {
      var data := photos[photoId];
      photos := photos - {photoId};
      outcome := OnPhotoExpiry(photoId, data, storageFails, now);
    }

    /**
     * `cleanupOrphanedFiles`. `listing` is what the bucket lists under
     * `jobs/`, `None` when the listing throws; `failing` names the files
     * whose deletion throws. Every listed file is checked; an orphan is
     * deleted and logged, a failed deletion is logged as failed, and one
     * report with both counters ends the run.
     */
    method CleanupOrphans(listing: Option<seq<string>>, failing: set<string>, now: int) returns (report: CleanupReport)
      requires listing.Some? ==> forall f :: f in listing.value ==> f in files && StartsWith(f, "jobs/")
      modifies this
      ensures listing.None? ==>
        report == CleanupReport(now, None, None, false) && files == old(files) && deletionLogs == old(deletionLogs)
      ensures listing.Some? ==>
        report == CleanupReport(now, Some(|listing.value|), Some(Count(listing.value, Removable(old(photos), failing))), true)
        && files == old(files) - Swept(old(photos), listing.value, failing)
        && deletionLogs == old(deletionLogs) + SweepLogs(old(photos), listing.value, failing, now)
      ensures cleanupReports == old(cleanupReports) + [report] && photos == old(photos)
    {
      if listing.None? {
        report := CleanupReport(now, None, None, false);
        cleanupReports := cleanupReports + [report];
        return;
      }
      var listed, docs := listing.value, photos;
      ghost var files0, logs0 := files, deletionLogs;
      var orphanedCount, checkedCount := 0, 0;
      var i := 0;
      while i < |listed|
        invariant 0 <= i <= |listed| && checkedCount == i && photos == docs
        invariant orphanedCount == Count(listed[..i], Removable(docs, failing))
        invariant files == files0 - Swept(docs, listed[..i], failing)
        invariant deletionLogs == logs0 + SweepLogs(docs, listed[..i], failing, now)
        invariant cleanupReports == old(cleanupReports)
      {
        var filePath := listed[i];
        checkedCount := checkedCount + 1;
        SweepStep(docs, listed, failing, now, i, files0);
        ghost var entry := SweepEntry(docs, failing, filePath, now);
        if !Referenced(docs, filePath) {
          if filePath !in failing {
            files := files - {filePath};
            orphanedCount := orphanedCount + 1;
            assert entry == [OrphanLog(filePath, now, true)];
            deletionLogs := deletionLogs + [OrphanLog(filePath, now, true)];
          } else {
            assert entry == [OrphanLog(filePath, now, false)];
            deletionLogs := deletionLogs + [OrphanLog(filePath, now, false)];
          }
        } else {
          assert entry == [];
        }
        assert deletionLogs == logs0 + (SweepLogs(docs, listed[..i], failing, now) + entry);
        i := i + 1;
      }
      assert listed[..i] == listed;
      report := CleanupReport(now, Some(checkedCount), Some(orphanedCount), true);
      cleanupReports := cleanupReports + [report];
    }

    /**
     * `testPhotoCleanup`: signed-in callers only, a photo id is required,
     * and a missing document or storage path or a throwing storage call is
     * reported as an internal error. A file absent from the bucket is
     * reported without touching anything; otherwise the file and the
     * document are deleted and one `manual-test` entry is logged.
     */
    method TestCleanup(uid: Option<string>, photoId: string, storageFails: bool, now: int) returns (outcome: TestOutcome)
      modifies this
      ensures uid.None? ==> outcome == TestRejected(Unauthenticated)
      ensures uid.Some? && photoId == "" ==> outcome == TestRejected(InvalidArgument)
      ensures uid.Some? && photoId != "" && (photoId !in old(photos) || old(photos)[photoId].storagePath == "" || storageFails) ==>
        outcome == TestRejected(Internal)
      ensures outcome.TestRejected? || outcome == FileMissing ==>
        photos == old(photos) && files == old(files) && deletionLogs == old(deletionLogs)
      ensures outcome == FileMissing <==>
        uid.Some? && photoId != "" && photoId in old(photos) && old(photos)[photoId].storagePath != ""
        && !storageFails && old(photos)[photoId].storagePath !in old(files)
      ensures outcome == Cleaned ==>
        uid.Some? && photoId in old(photos) && old(photos)[photoId].storagePath in old(files)
        && photos == old(photos) - {photoId} && files == old(files) - {old(photos)[photoId].storagePath}
        && deletionLogs == old(deletionLogs) + [ManualTestLog(photoId, old(photos)[photoId], uid.value, now)]
      ensures cleanupReports == old(cleanupReports)
    {
      if uid.None? {
        return TestRejected(Unauthenticated);
      }
      if photoId == "" {
        return TestRejected(InvalidArgument);
      }
      if photoId !in photos {
        return TestRejected(Internal);
      }
      var data := photos[photoId];
      if data.storagePath == "" || storageFails {
        return TestRejected(Internal);
      }
      if data.storagePath !in files {
        return FileMissing;
      }
      files := files - {data.storagePath};
      photos := photos - {photoId};
      deletionLogs := deletionLogs + [ManualTestLog(photoId, data, uid.value, now)];
      outcome := Cleaned;
    }
  }

  /** One turn of the sweep loop, stated on the prefixes before and after file `i`. */
  lemma SweepStep(photos: map<string, PhotoDoc>, listed: seq<string>, failing: set<string>, now: int, i: nat, files: set<string>)
    requires i < |listed|
    ensures var p := listed[i];
      Count(listed[..i + 1], Removable(photos, failing))
        == Count(listed[..i], Removable(photos, failing)) + (if Removable(photos, failing)(p) then 1 else 0)
      && files - Swept(photos, listed[..i + 1], failing)
        == (if Removable(photos, failing)(p) then files - Swept(photos, listed[..i], failing) - {p}
            else files - Swept(photos, listed[..i], failing))
      && SweepLogs(photos, listed[..i + 1], failing, now)
        == SweepLogs(photos, listed[..i], failing, now) + SweepEntry(photos, failing, p, now)
  {
    var p := listed[i];
    assert listed[..i + 1] == listed[..i] + [p];
    assert listed[..i + 1][..i] == listed[..i];
    FilterAppend(listed[..i], [p], Removable(photos, failing));
    assert Swept(photos, listed[..i + 1], failing)
      == Swept(photos, listed[..i], failing) + (if Removable(photos, failing)(p) then {p} else {});
  }

  // ------------------------------------------------------------ statistics

  datatype Stats = Stats(totalDeletions: nat, autoExpiry: nat, manualDelete: nat, orphanedCleanup: nat, failures: nat)

  function WithReason(reason: string): DeletionLog -> bool
  {
    (l: DeletionLog) => l.reason == reason
  }

  /** `!data.success`: a failed entry, or one written without a success flag. */
  function IsFailure(l: DeletionLog): bool
  {
    l.success != Some(true)
  }

  /** What the tally of `getDeletionStats` reaches over the entries of the window. */
  function StatsOf(logs: seq<DeletionLog>): Stats
  {
    Stats(|logs|, Count(logs, WithReason("auto-expiry")), Count(logs, WithReason("manual-delete")),
          Count(logs, WithReason("orphaned-cleanup")), Count(logs, IsFailure))
  }

  /**
   * One more entry adds one to the total, one to the counter of its own
   * reason if it has one of the three, and one to the failures when it is not
   * marked successful.
   */
  lemma StatsSnoc(logs: seq<DeletionLog>, l: DeletionLog)
    ensures var s, t := StatsOf(logs), StatsOf(logs + [l]);
      t.totalDeletions == s.totalDeletions + 1
      && t.autoExpiry == s.autoExpiry + (if l.reason == "auto-expiry" then 1 else 0)
      && t.manualDelete == s.manualDelete + (if l.reason == "manual-delete" then 1 else 0)
      && t.orphanedCleanup == s.orphanedCleanup + (if l.reason == "orphaned-cleanup" then 1 else 0)
      && t.failures == s.failures + (if l.success == Some(true) then 0 else 1)
  {
    FilterAppend(logs, [l], WithReason("auto-expiry"));
    FilterAppend(logs, [l], WithReason("manual-delete"));
    FilterAppend(logs, [l], WithReason("orphaned-cleanup"));
    FilterAppend(logs, [l], IsFailure);
  }

  /** The three reason counters together never exceed the total: other reasons only add to the total. */
  lemma {:induction false} ReasonCountersBounded(logs: seq<DeletionLog>)
    ensures var s := StatsOf(logs);
      s.autoExpiry + s.manualDelete + s.orphanedCleanup <= s.totalDeletions && s.failures <= s.totalDeletions
  {
    if logs != [] {
      var init := logs[..|logs| - 1];
      assert logs == init + [logs[|logs| - 1]];
      ReasonCountersBounded(init);
      StatsSnoc(init, logs[|logs| - 1]);
    }
  }

  /** A `manual-test` entry, such as the test call writes, counts in the total and in no reason counter. */
  lemma ManualTestCountsInTotalOnly(logs: seq<DeletionLog>, photoId: string, d: PhotoDoc, uid: string, now: int)
    ensures var s, t := StatsOf(logs), StatsOf(logs + [ManualTestLog(photoId, d, uid, now)]);
      t == s.(totalDeletions := s.totalDeletions + 1)
  {
    StatsSnoc(logs, ManualTestLog(photoId, d, uid, now));
  }

  /**
   * An entry written with no success flag, as the tracking page's manual
   * delete writes it, counts as a failure although the delete went through.
   */
  lemma UnflaggedManualDeleteIsFailure(logs: seq<DeletionLog>, jobId: string, path: string, uid: Option<string>, now: int)
    ensures var l := DeletionLog(None, Some(jobId), path, now, "manual-delete", None, uid);
      StatsOf(logs + [l]).failures == StatsOf(logs).failures + 1
      && StatsOf(logs + [l]).manualDelete == StatsOf(logs).manualDelete + 1
  {
    StatsSnoc(logs, DeletionLog(None, Some(jobId), path, now, "manual-delete", None, uid));
  }

  /** The `forEach` tally of `getDeletionStats`. */
  method Tally(logs: seq<DeletionLog>) returns (stats: Stats)
    ensures stats == StatsOf(logs)
  {
    stats := Stats(0, 0, 0, 0, 0);
    var i := 0;
    while i < |logs|
      invariant 0 <= i <= |logs|
      invariant stats == StatsOf(logs[..i])
    {
      var l := logs[i];
      assert logs[..i + 1] == logs[..i] + [l];
      StatsSnoc(logs[..i], l);
      stats := stats.(totalDeletions := stats.totalDeletions + 1);
      if l.success != Some(true) {
        stats := stats.(failures := stats.failures + 1);
      }
      if l.reason == "auto-expiry" {
        stats := stats.(autoExpiry := stats.autoExpiry + 1);
      } else if l.reason == "manual-delete" {
        stats := stats.(manualDelete := stats.manualDelete + 1);
      } else if l.reason == "orphaned-cleanup" {
        stats := stats.(orphanedCleanup := stats.orphanedCleanup + 1);
      }
      i := i + 1;
    }
    assert logs[..i] == logs;
  }

  datatype StatsOutcome = StatsRejected(error: CallError) | StatsReady(stats: Stats)

  function InWindow(since: int): DeletionLog -> bool
  {
    (l: DeletionLog) => l.deletedAt >= since
  }

  /**
   * `getDeletionStats`: signed-in administrators only; the tally runs over
   * the entries deleted at or after `since` (thirty days before the call).
   */
  method DeletionStats(uid: Option<string>, role: Option<string>, logs: seq<DeletionLog>, since: int) returns (r: StatsOutcome)
    ensures uid.None? ==> r == StatsRejected(Unauthenticated)
    ensures uid.Some? && role != Some("admin") ==> r == StatsRejected(PermissionDenied)
    ensures uid.Some? && role == Some("admin") ==> r == StatsReady(StatsOf(Filter(logs, InWindow(since))))
  {
    if uid.None? {
      return StatsRejected(Unauthenticated);
    }
    if role != Some("admin") {
      return StatsRejected(PermissionDenied);
    }
    var window := Filter(logs, InWindow(since));
    var stats := Tally(window);
    r := StatsReady(stats);
  }
}
