/**
 * The tracking detail page of one job (TrackingDetailPage.tsx). It covers:
 * - the nine-step catalog;
 * - the done/current/pending projection of a job's current step;
 * - advancing the status, which on the first arrival at `payment-received`
 *   stamps a retention date on every photo of the job;
 * - uploading attachments;
 * - deleting an attachment by hand.
 *
 * The store is one object. It holds the job record, its events and the
 * photo collection of all jobs, keyed by document number. It also holds the
 * set of storage paths that hold a file, the deletion log, and a journal of
 * the writes in the order the page issues them. Time is a whole number of
 * days, except the millisecond stamps that name uploaded files.
 */
module Tracking {
  import opened Base
  import opened Text
  import opened Seqs
  import opened Domain

  datatype CatalogEntry = CatalogEntry(step: TrackingStep, number: int)

  /** `TRACKING_STEPS`. */
  const TrackingSteps: seq<CatalogEntry> := [
    CatalogEntry(Created, 1), CatalogEntry(Confirmed, 2), CatalogEntry(VehicleAssigned, 3),
    CatalogEntry(PickupScheduled, 4), CatalogEntry(PickedUp, 5), CatalogEntry(InTransit, 6),
    CatalogEntry(Delivered, 7), CatalogEntry(Invoiced, 8), CatalogEntry(PaymentReceived, 9)
  ]

  /** The catalog is the nine steps from `created` to `payment-received`, ranked 1 to 9 in order, each step once. */
  lemma CatalogShape()
    ensures |TrackingSteps| == 9
    ensures forall i :: 0 <= i < 9 ==> TrackingSteps[i].number == i + 1
    ensures forall i, j :: 0 <= i < j < 9 ==> TrackingSteps[i].step != TrackingSteps[j].step
    ensures TrackingSteps[0].step == Created && TrackingSteps[8].step == PaymentReceived
  {
  }

  /** `TRACKING_STEPS.find(s => s.step === step)?.number`. */
  function FindNumber(entries: seq<CatalogEntry>, step: TrackingStep): (r: Option<int>)
    ensures r.Some? ==> exists i :: 0 <= i < |entries| && entries[i] == CatalogEntry(step, r.value)
    ensures r.None? ==> forall i :: 0 <= i < |entries| ==> entries[i].step != step
  {
    if entries == [] then None
    else if entries[0].step == step then
      assert entries[0] == CatalogEntry(step, entries[0].number);
      Some(entries[0].number)
    else
      var r := FindNumber(entries[1..], step);
      if r.Some? then
        var i :| 0 <= i < |entries[1..]| && entries[1..][i] == CatalogEntry(step, r.value);
        assert entries[i + 1] == CatalogEntry(step, r.value);
        r
      else r
  }

  /** The rank the page reads for a step: its catalog number, or 1 when none (`?.number || 1`). */
  function StepNumber(step: TrackingStep): int
  {
    var n := FindNumber(TrackingSteps, step);
    if n.Some? && n.value != 0 then n.value else 1
  }

  /** Every step is in the catalog, and its rank is its position there. */
  lemma StepNumberIsPosition(step: TrackingStep)
    ensures 1 <= StepNumber(step) <= 9
    ensures TrackingSteps[StepNumber(step) - 1].step == step
  {
    CatalogShape();
    var at: nat := match step
      case Created => 0
      case Confirmed => 1
      case VehicleAssigned => 2
      case PickupScheduled => 3
      case PickedUp => 4
      case InTransit => 5
      case Delivered => 6
      case Invoiced => 7
      case PaymentReceived => 8;
    assert TrackingSteps[at].step == step;
    FindNumberFirst(TrackingSteps, step, at);
  }

  /** The search finds the first entry of a step. */
  lemma {:induction false} FindNumberFirst(entries: seq<CatalogEntry>, step: TrackingStep, i: nat)
    requires i < |entries| && entries[i].step == step
    requires forall j :: 0 <= j < i ==> entries[j].step != step
    ensures FindNumber(entries, step) == Some(entries[i].number)
  {
    if i > 0 {
      FindNumberFirst(entries[1..], step, i - 1);
    }
  }

  datatype StepStatus = Done | Current | Pending

  /** `getStepStatus`: the current rank is that of the job's current step, `created` when it is unset. */
  function GetStepStatus(step: Option<TrackingStep>, stepNumber: int): StepStatus
  {
    var current := StepNumber(step.GetOr(Created));
    if stepNumber < current then Done else if stepNumber == current then Current else Pending
  }

  /**
   * Over the catalog the projection is a partition: the job's current step
   * is current, the steps before it are done, the steps after it pending.
   */
  lemma StepStatusPartition(step: Option<TrackingStep>, i: int)
    requires 0 <= i < 9
    ensures var p := step.GetOr(Created);
      var s := GetStepStatus(step, TrackingSteps[i].number);
      (s == Current <==> TrackingSteps[i].step == p)
      && (s == Done <==> i < StepNumber(p) - 1)
      && (s == Pending <==> i > StepNumber(p) - 1)
  {
    CatalogShape();
    StepNumberIsPosition(step.GetOr(Created));
  }

  /** Exactly one catalog step is current. */
  lemma ExactlyOneCurrent(step: Option<TrackingStep>)
    ensures exists i :: 0 <= i < 9 && GetStepStatus(step, TrackingSteps[i].number) == Current
    ensures forall i, j ::
      0 <= i < 9 && 0 <= j < 9
      && GetStepStatus(step, TrackingSteps[i].number) == Current
      && GetStepStatus(step, TrackingSteps[j].number) == Current
      ==> i == j
  {
    CatalogShape();
    var p := step.GetOr(Created);
    StepNumberIsPosition(p);
    var k := StepNumber(p) - 1;
    StepStatusPartition(step, k);
  }

  /** An unset current step reads as `created`: step 1 is current and every later step pending. */
  lemma UnsetStepIsCreated(stepNumber: int)
    ensures GetStepStatus(None, stepNumber) == GetStepStatus(Some(Created), stepNumber)
    ensures GetStepStatus(None, stepNumber) == (if stepNumber < 1 then Done else if stepNumber == 1 then Current else Pending)
  {
    StepNumberIsPosition(Created);
    CatalogShape();
  }

  datatype Folder = Workflow | Documents

  function FolderName(f: Folder): string
  {
    match f
    case Workflow => "workflow"
    case Documents => "documents"
  }

  datatype TrackingEvent = TrackingEvent(
    jobId: string,
    step: TrackingStep,
    stepNumber: int,
    notes: Option<string>,
    updatedBy: string,
    updatedByName: string,
    timestamp: int,
    createdAt: int)

  datatype Photo = Photo(
    jobId: string,
    folder: Folder,
    stepNumber: Option<int>,
    documentType: Option<string>,
    storagePath: string,
    fileName: string,
    fileSize: nat,
    uploadedBy: string,
    uploadedByName: string,
    uploadedAt: int,
    deleteAt: Option<int>)

  /** `getStepEvent`: the first event of the list recorded for the step. */
  function GetStepEvent(events: seq<TrackingEvent>, step: TrackingStep): (r: Option<TrackingEvent>)
    ensures r.Some? ==> exists i :: (0 <= i < |events| && events[i] == r.value && r.value.step == step
      && forall j :: 0 <= j < i ==> events[j].step != step)
    ensures r.None? ==> forall i :: 0 <= i < |events| ==> events[i].step != step
  {
    if events == [] then None
    else if events[0].step == step then Some(events[0])
    else
      var r := GetStepEvent(events[1..], step);
      if r.Some? then
        var i :| 0 <= i < |events[1..]| && events[1..][i] == r.value && r.value.step == step
          && forall j :: 0 <= j < i ==> events[1..][j].step != step;
        assert events[i + 1] == r.value;
        assert forall j :: 0 <= j < i + 1 ==> events[j].step != step by {
          forall j | 0 <= j < i + 1 ensures events[j].step != step {
            if j > 0 {
              assert events[j] == events[1..][j - 1];
            }
          }
        }
        r
      else r
  }

  /** `canUpdateStatus`: ops, admin or manager. */
  predicate CanUpdateStatus(role: Option<Role>)
  {
    role == Some(Ops) || role == Some(Admin) || role == Some(Manager)
  }

  /** Operations staff, administrators and managers may advance and attach; sales, finance and signed-out users may not. */
  lemma UpdateStatusRoles(role: Role)
    ensures CanUpdateStatus(Some(role)) <==> role in {Ops, Admin, Manager}
    ensures !CanUpdateStatus(Some(Sales)) && !CanUpdateStatus(Some(Finance)) && !CanUpdateStatus(None)
  {
  }

  // ---------------------------------------------------------------- advance

  /** The event an advance appends: its rank is the catalog's, empty notes are stored as null. */
  function NewEvent(jobId: string, step: TrackingStep, notes: string, actor: Actor, now: int): TrackingEvent
  {
    TrackingEvent(jobId, step, StepNumber(step), if notes == "" then None else Some(notes), actor.uid, actor.name, now, now)
  }

  /** Retention runs when the target is `payment-received` and the job has no payment date yet. */
  predicate RetentionDue(job: Job, selected: TrackingStep)
  {
    selected == PaymentReceived && job.paymentReceivedDate.None?
  }

  const WorkflowRetentionDays: int := 30
  const DocumentRetentionDays: int := 90

  function RetentionDays(f: Folder): int
  {
    match f
    case Workflow => WorkflowRetentionDays
    case Documents => DocumentRetentionDays
  }

  /** Every photo of the job is due for deletion `now` plus its folder's horizon; other photos are unchanged. */
  function Retained(photos: map<nat, Photo>, jobId: string, now: int): map<nat, Photo>
  {
    map id | id in photos :: if photos[id].jobId == jobId then photos[id].(deleteAt := Some(now + RetentionDays(photos[id].folder))) else photos[id]
  }

  /** The job record after an advance. */
  function AdvancedJob(job: Job, selected: TrackingStep, now: int): Job
  {
    job.(currentTrackingStep := Some(selected), updatedAt := now,
         paymentReceivedDate := if RetentionDue(job, selected) then Some(now) else job.paymentReceivedDate)
  }

  /** The photo collection after an advance. */
  function AdvancedPhotos(job: Job, photos: map<nat, Photo>, selected: TrackingStep, now: int): map<nat, Photo>
  {
    if RetentionDue(job, selected) then Retained(photos, job.id, now) else photos
  }

  /** What retention does to one photo. */
  lemma RetentionOfPhoto(photos: map<nat, Photo>, jobId: string, now: int, id: nat)
    requires id in photos
    ensures id in Retained(photos, jobId, now)
    ensures var p, q := photos[id], Retained(photos, jobId, now)[id];
      (p.jobId != jobId ==> q == p)
      && (p.jobId == jobId && p.folder == Workflow ==> q == p.(deleteAt := Some(now + 30)))
      && (p.jobId == jobId && p.folder == Documents ==> q == p.(deleteAt := Some(now + 90)))
  {
  }

  /** An advance moves the current step to the target, whatever the current step is (no ordering check). */
  lemma AdvanceMovesStep(job: Job, selected: TrackingStep, now: int)
    ensures AdvancedJob(job, selected, now).currentTrackingStep == Some(selected)
    ensures AdvancedJob(job, selected, now).id == job.id
    ensures AdvancedJob(job, selected, now).paymentReceivedDate.Some? <==> (job.paymentReceivedDate.Some? || selected == PaymentReceived)
  {
  }

  /** Retention is one-shot: once an advance has reached `payment-received`, no later advance stamps anything. */
  lemma RetentionOneShot(job: Job, photos: map<nat, Photo>, t1: int, later: TrackingStep, t2: int)
    ensures var j1 := AdvancedJob(job, PaymentReceived, t1);
      !RetentionDue(j1, later) && AdvancedPhotos(j1, photos, later, t2) == photos
  {
  }

  /** The photos of the job in `folder` (the page's query), ids below `n`, ascending. */
  function FolderIds(photos: map<nat, Photo>, jobId: string, folder: Folder, n: nat): seq<nat>
  {
    if n == 0 then []
    else
      FolderIds(photos, jobId, folder, n - 1)
      + (if n - 1 in photos && photos[n - 1].jobId == jobId && photos[n - 1].folder == folder then [n - 1] else [])
  }

  /** The collection after the loop over one folder has handled the ids below `n`. */
  function StampBelow(photos: map<nat, Photo>, jobId: string, folder: Folder, at: int, n: nat): map<nat, Photo>
  {
    map id | id in photos ::
      if id < n && photos[id].jobId == jobId && photos[id].folder == folder then photos[id].(deleteAt := Some(at)) else photos[id]
  }

  lemma StampBelowNone(photos: map<nat, Photo>, jobId: string, folder: Folder, at: int)
    ensures StampBelow(photos, jobId, folder, at, 0) == photos
  {
  }

  lemma StampBelowStep(photos: map<nat, Photo>, jobId: string, folder: Folder, at: int, n: nat, current: map<nat, Photo>)
    requires current == StampBelow(photos, jobId, folder, at, n)
    ensures n in photos && photos[n].jobId == jobId && photos[n].folder == folder ==>
      n in current && StampBelow(photos, jobId, folder, at, n + 1) == current[n := current[n].(deleteAt := Some(at))]
    ensures !(n in photos && photos[n].jobId == jobId && photos[n].folder == folder) ==>
      StampBelow(photos, jobId, folder, at, n + 1) == current
    ensures n in current <==> n in photos
    ensures n in photos ==> current[n].jobId == photos[n].jobId && current[n].folder == photos[n].folder
  {
  }

  /** The writes of the folder loop after one more id. */
  lemma StampWritesStep(photos: map<nat, Photo>, writes0: seq<Write>, jobId: string, folder: Folder, n: nat, writes: seq<Write>)
    requires writes == writes0 + Updates(FolderIds(photos, jobId, folder, n))
    ensures n in photos && photos[n].jobId == jobId && photos[n].folder == folder ==>
      writes + [PhotoUpdated(n)] == writes0 + Updates(FolderIds(photos, jobId, folder, n + 1))
    ensures !(n in photos && photos[n].jobId == jobId && photos[n].folder == folder) ==>
      writes == writes0 + Updates(FolderIds(photos, jobId, folder, n + 1))
  {
    var ids := FolderIds(photos, jobId, folder, n);
    if n in photos && photos[n].jobId == jobId && photos[n].folder == folder {
      assert (ids + [n])[..|ids|] == ids;
    } else {
      assert ids + [] == ids;
    }
  }

  /** Stamping changes only `deleteAt`, so a later folder query sees the same photos. */
  lemma {:induction false} FolderIdsIgnoreStamps(photos: map<nat, Photo>, jobId: string, folder: Folder, at: int, k: nat, other: Folder, n: nat)
    ensures FolderIds(StampBelow(photos, jobId, folder, at, k), jobId, other, n) == FolderIds(photos, jobId, other, n)
  {
    if n > 0 {
      FolderIdsIgnoreStamps(photos, jobId, folder, at, k, other, n - 1);
    }
  }

  /** The two folder loops over all ids together do what `Retained` says. */
  lemma TwoFoldersRetain(photos: map<nat, Photo>, jobId: string, now: int, n: nat)
    requires forall id :: id in photos ==> id < n
    ensures StampBelow(StampBelow(photos, jobId, Workflow, now + 30, n), jobId, Documents, now + 90, n) == Retained(photos, jobId, now)
  {
  }

  function Updates(ids: seq<nat>): seq<Write>
  {
    if ids == [] then [] else Updates(ids[..|ids| - 1]) + [PhotoUpdated(ids[|ids| - 1])]
  }

  /** The writes an advance issues: the event, the retention updates (workflow, then documents), then the job. */
  function AdvanceWrites(job: Job, photos: map<nat, Photo>, n: nat, selected: TrackingStep): seq<Write>
  {
    [EventAdded] + (if RetentionDue(job, selected) then RetentionWrites(photos, job.id, n) else []) + [JobUpdated]
  }

  /** The retention pass's writes: one update per workflow photo of the job, then one per document photo. */
  function RetentionWrites(photos: map<nat, Photo>, jobId: string, n: nat): seq<Write>
  {
    Updates(FolderIds(photos, jobId, Workflow, n)) + Updates(FolderIds(photos, jobId, Documents, n))
  }

  /** The job update is the last write of an advance, after the event and every retention write. */
  lemma JobWrittenLast(job: Job, photos: map<nat, Photo>, n: nat, selected: TrackingStep)
    ensures var w := AdvanceWrites(job, photos, n, selected);
      |w| >= 2 && w[0] == EventAdded && w[|w| - 1] == JobUpdated
      && forall i :: 0 < i < |w| - 1 ==> w[i].PhotoUpdated?
  {
    var u := if RetentionDue(job, selected) then RetentionWrites(photos, job.id, n) else [];
    UpdatesArePhotoUpdates(FolderIds(photos, job.id, Workflow, n));
    UpdatesArePhotoUpdates(FolderIds(photos, job.id, Documents, n));
    var w := AdvanceWrites(job, photos, n, selected);
    assert w == [EventAdded] + u + [JobUpdated];
    assert forall i :: 0 < i < |w| - 1 ==> w[i] == u[i - 1];
  }

  lemma {:induction false} UpdatesArePhotoUpdates(ids: seq<nat>)
    ensures |Updates(ids)| == |ids|
    ensures forall i :: 0 <= i < |ids| ==> Updates(ids)[i] == PhotoUpdated(ids[i])
  {
    if ids != [] {
      UpdatesArePhotoUpdates(ids[..|ids| - 1]);
    }
  }

  datatype Write =
    | EventAdded
    | PhotoUpdated(id: nat)
    | JobUpdated
    | ObjectStored(path: string)
    | PhotoAdded(id: nat)
    | ObjectDeleted(path: string)
    | LogAdded

  // ----------------------------------------------------------------- upload

  datatype FileInfo = FileInfo(name: string, size: nat)

  const MaxFiles: nat := 5
  const MaxFileSize: nat := 5 * 1024 * 1024

  /** `stepNumber ? ...`: a step number counts only when given and non-zero. */
  predicate HasStep(stepNumber: Option<int>)
  {
    stepNumber.Some? && stepNumber.value != 0
  }

  function FolderOf(stepNumber: Option<int>): Folder
  {
    if HasStep(stepNumber) then Workflow else Documents
  }

  /** `jobs/<job>/<folder>/`, the storage prefix of a job's folder. */
  function FolderPrefix(jobId: string, folder: Folder): string
  {
    "jobs/" + jobId + "/" + FolderName(folder) + "/"
  }

  /** `jobs/<job>/workflow/<step>/<stamp>_<name>` or `jobs/<job>/documents/<stamp>_<name>`. */
  function StoragePath(jobId: string, stepNumber: Option<int>, stamp: nat, name: string): string
  {
    FolderPrefix(jobId, FolderOf(stepNumber)) + FileTail(stepNumber, stamp, name)
  }

  /** The part of a storage path after the folder: the step, when there is one, then `<stamp>_<name>`. */
  function FileTail(stepNumber: Option<int>, stamp: nat, name: string): string
  {
    (if HasStep(stepNumber) then IntToString(stepNumber.value) + "/" else "") + NatToString(stamp) + "_" + name
  }

  /** The record stored for one uploaded file; `documentType || null` and `stepNumber || null`. */
  function NewPhoto(jobId: string, file: FileInfo, stepNumber: Option<int>, documentType: Option<string>,
                    actor: Actor, stamp: nat, now: int): Photo
  {
    Photo(jobId,
          FolderOf(stepNumber),
          if HasStep(stepNumber) then stepNumber else None,
          if documentType.Some? && documentType.value != "" then documentType else None,
          StoragePath(jobId, stepNumber, stamp, file.name),
          file.name, file.size, actor.uid, actor.name, now, None)
  }

  predicate SmallEnough(f: FileInfo)
  {
    f.size <= MaxFileSize
  }

  /** The record of one file, given the timestamp of its upload, for a batch with these settings. */
  function Recorder(jobId: string, stepNumber: Option<int>, documentType: Option<string>, actor: Actor, now: int)
    : (FileInfo, nat) -> Photo
  {
    (f: FileInfo, stamp: nat) => NewPhoto(jobId, f, stepNumber, documentType, actor, stamp, now)
  }

  /** The records a batch produces, in file order: one per file within the size limit. */
  function Planned(jobId: string, files: seq<FileInfo>, stamps: seq<nat>, stepNumber: Option<int>,
                   documentType: Option<string>, actor: Actor, now: int): seq<Photo>
    requires |stamps| == |files|
  {
    PlannedUpTo(files, stamps, Recorder(jobId, stepNumber, documentType, actor, now), |files|)
  }

  /** The records of the first `i` files. */
  function PlannedUpTo(files: seq<FileInfo>, stamps: seq<nat>, record: (FileInfo, nat) -> Photo, i: nat): seq<Photo>
    requires i <= |files| == |stamps|
  {
    if i == 0 then []
    else PlannedUpTo(files, stamps, record, i - 1) + PlannedFile(files[i - 1], stamps[i - 1], record)
  }

  /** The record of one file, or none when it is over the size limit. */
  function PlannedFile(file: FileInfo, stamp: nat, record: (FileInfo, nat) -> Photo): seq<Photo>
  {
    if SmallEnough(file) then [record(file, stamp)] else []
  }

  /**
   * Every planned record belongs to the job, is within the size limit, has
   * no deletion date, and is in `workflow` exactly when a step number is given.
   */
  lemma PlannedRecords(jobId: string, files: seq<FileInfo>, stamps: seq<nat>, stepNumber: Option<int>,
                       documentType: Option<string>, actor: Actor, now: int)
    requires |stamps| == |files|
    ensures forall p :: p in Planned(jobId, files, stamps, stepNumber, documentType, actor, now) ==>
      p.jobId == jobId && p.fileSize <= MaxFileSize && p.deleteAt.None?
      && (p.folder == Workflow <==> HasStep(stepNumber))
      && StartsWith(p.storagePath, FolderPrefix(jobId, p.folder))
  {
    PlannedRecordsUpTo(jobId, files, stamps, stepNumber, documentType, actor, now, |files|);
  }

  lemma {:induction false} PlannedRecordsUpTo(jobId: string, files: seq<FileInfo>, stamps: seq<nat>, stepNumber: Option<int>,
                                              documentType: Option<string>, actor: Actor, now: int, i: nat)
    requires i <= |files| == |stamps|
    ensures forall p :: p in PlannedUpTo(files, stamps, Recorder(jobId, stepNumber, documentType, actor, now), i) ==>
      p.jobId == jobId && p.fileSize <= MaxFileSize && p.deleteAt.None?
      && (p.folder == Workflow <==> HasStep(stepNumber))
      && StartsWith(p.storagePath, FolderPrefix(jobId, p.folder))
  {
    if i > 0 {
      PlannedRecordsUpTo(jobId, files, stamps, stepNumber, documentType, actor, now, i - 1);
      if SmallEnough(files[i - 1]) {
        PathHasFolderPrefix(jobId, stepNumber, stamps[i - 1], files[i - 1].name);
      }
    }
  }

  lemma PathHasFolderPrefix(jobId: string, stepNumber: Option<int>, stamp: nat, name: string)
    ensures StartsWith(StoragePath(jobId, stepNumber, stamp, name), FolderPrefix(jobId, FolderOf(stepNumber)))
  {
    StartsWithAppend(FolderPrefix(jobId, FolderOf(stepNumber)), FileTail(stepNumber, stamp, name));
  }

  /** The batch keeps exactly the files within the limit, in order: the stored names are those files' names. */
  lemma PlannedKeepsSmallFiles(jobId: string, files: seq<FileInfo>, stamps: seq<nat>, stepNumber: Option<int>,
                               documentType: Option<string>, actor: Actor, now: int)
    requires |stamps| == |files|
    ensures var ps := Planned(jobId, files, stamps, stepNumber, documentType, actor, now);
      Map(ps, StoredName) == Map(Filter(files, SmallEnough), FileName)
  {
    KeepsSmallFilesUpTo(jobId, files, stamps, stepNumber, documentType, actor, now, |files|);
    assert files[..|files|] == files;
  }

  lemma {:induction false} KeepsSmallFilesUpTo(jobId: string, files: seq<FileInfo>, stamps: seq<nat>, stepNumber: Option<int>,
                                               documentType: Option<string>, actor: Actor, now: int, i: nat)
    requires i <= |files| == |stamps|
    ensures var ps := PlannedUpTo(files, stamps, Recorder(jobId, stepNumber, documentType, actor, now), i);
      Map(ps, StoredName) == Map(Filter(files[..i], SmallEnough), FileName)
  {
    if i > 0 {
      KeepsSmallFilesUpTo(jobId, files, stamps, stepNumber, documentType, actor, now, i - 1);
      var f := files[i - 1];
      assert files[..i] == files[..i - 1] + [f];
      FilterAppend(files[..i - 1], [f], SmallEnough);
      var before := PlannedUpTo(files, stamps, Recorder(jobId, stepNumber, documentType, actor, now), i - 1);
      var pf := PlannedFile(f, stamps[i - 1], Recorder(jobId, stepNumber, documentType, actor, now));
      PlannedFileNames(jobId, f, stepNumber, documentType, actor, stamps[i - 1], now);
      MapAppend(before, pf, StoredName);
      MapAppend(Filter(files[..i - 1], SmallEnough), Filter([f], SmallEnough), FileName);
    }
  }

  /** One file's record, if any, has the file's name exactly when the file is within the limit. */
  lemma PlannedFileNames(jobId: string, f: FileInfo, stepNumber: Option<int>, documentType: Option<string>,
                         actor: Actor, stamp: nat, now: int)
    ensures Map(PlannedFile(f, stamp, Recorder(jobId, stepNumber, documentType, actor, now)), StoredName)
      == Map(Filter([f], SmallEnough), FileName)
  {
    assert Filter([f], SmallEnough) == if SmallEnough(f) then [f] else [];
  }

  function StoredName(p: Photo): string
  {
    p.fileName
  }

  function FileName(f: FileInfo): string
  {
    f.name
  }

  lemma MapAppend<T, U>(xs: seq<T>, ys: seq<T>, f: T -> U)
    ensures Map(xs + ys, f) == Map(xs, f) + Map(ys, f)
  {
  }

  /** Records numbered from `base`, one per planned photo. */
  function Added(base: nat, ps: seq<Photo>): (r: map<nat, Photo>)
    ensures forall k :: k in r ==> base <= k < base + |ps|
  {
    if ps == [] then map[] else Added(base, ps[..|ps| - 1])[base + |ps| - 1 := ps[|ps| - 1]]
  }

  /** Per stored file: the object goes to storage, then its record is added. */
  function UploadWrites(base: nat, ps: seq<Photo>): seq<Write>
  {
    if ps == [] then []
    else UploadWrites(base, ps[..|ps| - 1]) + [ObjectStored(ps[|ps| - 1].storagePath), PhotoAdded(base + |ps| - 1)]
  }

  function Paths(ps: seq<Photo>): set<string>
  {
    set p | p in ps :: p.storagePath
  }

  datatype UploadOutcome = TooManyFiles | Stored(count: nat)

  // ----------------------------------------------------------------- delete

  /** The log entry a manual delete writes; it carries no success flag. */
  function ManualDeleteLog(p: Photo, deletedBy: Option<string>, now: int): DeletionLog
  {
    DeletionLog(None, Some(p.jobId), p.storagePath, now, "manual-delete", None, deletedBy)
  }

  class TrackingDetail {
    var job: Job
    var events: seq<TrackingEvent>
    var photos: map<nat, Photo>
    var nextPhotoId: nat
    var storage: set<string>
    var deletionLogs: seq<DeletionLog>
    var writes: seq<Write>

    ghost predicate Valid()
      reads this
    {
      forall id :: id in photos ==> id < nextPhotoId
    }

    /** The part of the state an upload changes. */
    function Current(): Batch
      reads this
    {
      Batch(photos, nextPhotoId, storage, writes)
    }

    constructor (job: Job, events: seq<TrackingEvent>, photos: map<nat, Photo>, nextPhotoId: nat,
                 storage: set<string>, deletionLogs: seq<DeletionLog>)
      requires forall id :: id in photos ==> id < nextPhotoId
      ensures Valid()
      ensures this.job == job && this.events == events && this.photos == photos && this.nextPhotoId == nextPhotoId
      ensures this.storage == storage && this.deletionLogs == deletionLogs && this.writes == []
    {
      this.job := job;
      this.events := events;
      this.photos := photos;
      this.nextPhotoId := nextPhotoId;
      this.storage := storage;
      this.deletionLogs := deletionLogs;
      this.writes := [];
    }

    /**
     * `handleUpdateStatus`: append the event, run the retention when due,
     * then write the job. Regressions and repeats are allowed.
     */
    method Advance(selected: TrackingStep, notes: string, actor: Actor, now: int)
      requires Valid()
      modifies this
      ensures Valid()
      ensures events == old(events) + [NewEvent(old(job).id, selected, notes, actor, now)]
      ensures job == AdvancedJob(old(job), selected, now)
      ensures photos == AdvancedPhotos(old(job), old(photos), selected, now)
      ensures writes == old(writes) + AdvanceWrites(old(job), old(photos), old(nextPhotoId), selected)
      ensures nextPhotoId == old(nextPhotoId) && storage == old(storage) && deletionLogs == old(deletionLogs)
    {
      ghost var w0 := writes;
      ghost var mid := if RetentionDue(job, selected) then RetentionWrites(photos, job.id, nextPhotoId) else [];
      EventThenRetention(selected, notes, actor, now);
      job := AdvancedJob(job, selected, now);
      writes := writes + [JobUpdated];
      JournalAppend(w0, EventAdded, mid, JobUpdated);
    }

    /** The first two steps of an advance: the event is added, then the retention runs when it is due. */
    method EventThenRetention(selected: TrackingStep, notes: string, actor: Actor, now: int)
      requires Valid()
      modifies this`events, this`photos, this`writes
      ensures Valid()
      ensures events == old(events) + [NewEvent(job.id, selected, notes, actor, now)]
      ensures photos == AdvancedPhotos(job, old(photos), selected, now)
      ensures writes == old(writes) + [EventAdded]
        + (if RetentionDue(job, selected) then RetentionWrites(old(photos), job.id, nextPhotoId) else [])
    {
      events := events + [NewEvent(job.id, selected, notes, actor, now)];
      writes := writes + [EventAdded];
      if RetentionDue(job, selected) {
        RetainJobPhotos(now);
      } else {
        assert writes + [] == writes;
      }
    }

    /** The retention pass: both folder loops, workflow first. */
    method RetainJobPhotos(now: int)
      requires Valid()
      modifies this`photos, this`writes
      ensures Valid()
      ensures photos == Retained(old(photos), job.id, now)
      ensures writes == old(writes) + RetentionWrites(old(photos), job.id, nextPhotoId)
    {
      StampFolder(job.id, Workflow, now + WorkflowRetentionDays);
      StampFolder(job.id, Documents, now + DocumentRetentionDays);
      FolderIdsIgnoreStamps(old(photos), job.id, Workflow, now + 30, nextPhotoId, Documents, nextPhotoId);
      TwoFoldersRetain(old(photos), job.id, now, nextPhotoId);
    }

    /** One retention loop: every photo of the job in `folder` gets `deleteAt := at`, in id order. */
    method StampFolder(jobId: string, folder: Folder, at: int)
      requires Valid()
      modifies this`photos, this`writes
      ensures Valid()
      ensures photos == StampBelow(old(photos), jobId, folder, at, nextPhotoId)
      ensures writes == old(writes) + Updates(FolderIds(old(photos), jobId, folder, nextPhotoId))
    {
      photos, writes := StampLoop(photos, writes, jobId, folder, at, nextPhotoId);
    }

    /**
     * `handlePhotoUpload`: a batch over the limit is refused outright;
     * otherwise each file within the size limit is stored and recorded in
     * turn and each larger one is skipped.
     */
    method UploadPhotos(files: seq<FileInfo>, stamps: seq<nat>, stepNumber: Option<int>, documentType: Option<string>,
                        actor: Actor, now: int) returns (outcome: UploadOutcome)
      requires Valid() && |stamps| == |files|
      modifies this
      ensures Valid()
      ensures |files| > MaxFiles ==> outcome == TooManyFiles && Current() == old(Current())
      ensures |files| <= MaxFiles ==>
        var ps := Planned(old(job).id, files, stamps, stepNumber, documentType, actor, now);
        outcome == Stored(|ps|) && Current() == StoredAll(old(Current()), ps)
      ensures job == old(job) && events == old(events) && deletionLogs == old(deletionLogs)
    {
      if |files| > MaxFiles {
        return TooManyFiles;
      }
      var count := StoreFiles(files, stamps, Recorder(job.id, stepNumber, documentType, actor, now));
      outcome := Stored(count);
    }

    /** The upload loop run on this job's records, objects and writes. */
    method StoreFiles(files: seq<FileInfo>, stamps: seq<nat>, record: (FileInfo, nat) -> Photo) returns (count: nat)
      requires Valid() && |stamps| == |files|
      modifies this`photos, this`nextPhotoId, this`storage, this`writes
      ensures Valid()
      ensures Current() == StoredAll(old(Current()), PlannedUpTo(files, stamps, record, |files|))
      ensures count == |PlannedUpTo(files, stamps, record, |files|)|
    {
      var b;
      b, count := StoreBatch(Current(), files, stamps, record);
      photos, nextPhotoId, storage, writes := b.photos, b.next, b.storage, b.writes;
    }

    /**
     * `handleDeletePhoto`: remove the stored object, log the deletion, and
     * set the record's `deleteAt` to now; the record itself is kept. Nothing
     * is written when no photo is chosen, when the record is gone, or when the
     * object is already gone from storage (the storage call fails first).
     */
    method DeletePhoto(photoId: Option<nat>, deletedBy: Option<string>, now: int) returns (deleted: bool)
      requires Valid()
      modifies this
      ensures Valid()
      ensures deleted <==> photoId.Some? && photoId.value in old(photos) && old(photos)[photoId.value].storagePath in old(storage)
      ensures deleted ==>
        var id := photoId.value;
        var p := old(photos)[id];
        storage == old(storage) - {p.storagePath}
        && deletionLogs == old(deletionLogs) + [ManualDeleteLog(p, deletedBy, now)]
        && photos == old(photos)[id := p.(deleteAt := Some(now))]
        && writes == old(writes) + [ObjectDeleted(p.storagePath), LogAdded, PhotoUpdated(id)]
      ensures !deleted ==> storage == old(storage) && deletionLogs == old(deletionLogs) && photos == old(photos) && writes == old(writes)
      ensures job == old(job) && events == old(events) && nextPhotoId == old(nextPhotoId)
    {
      if photoId.None? || photoId.value !in photos {
        return false;
      }
      var id := photoId.value;
      var p := photos[id];
      if p.storagePath !in storage {
        return false;
      }
      storage := storage - {p.storagePath};
      writes := writes + [ObjectDeleted(p.storagePath)];
      deletionLogs := deletionLogs + [ManualDeleteLog(p, deletedBy, now)];
      writes := writes + [LogAdded];
      photos := photos[id := p.(deleteAt := Some(now))];
      writes := writes + [PhotoUpdated(id)];
      deleted := true;
    }
  }

  /** The loop of one retention pass over the ids below `n`, on the collection and the journal as values. */
  method StampLoop(photos0: map<nat, Photo>, writes0: seq<Write>, jobId: string, folder: Folder, at: int, n: nat)
    returns (photos: map<nat, Photo>, writes: seq<Write>)
    ensures photos == StampBelow(photos0, jobId, folder, at, n)
    ensures writes == writes0 + Updates(FolderIds(photos0, jobId, folder, n))
  {
    photos, writes := photos0, writes0;
    StampBelowNone(photos0, jobId, folder, at);
    var k := 0;
    while k < n
      invariant 0 <= k <= n
      invariant photos == StampBelow(photos0, jobId, folder, at, k)
      invariant writes == writes0 + Updates(FolderIds(photos0, jobId, folder, k))
    {
      StampBelowStep(photos0, jobId, folder, at, k, photos);
      StampWritesStep(photos0, writes0, jobId, folder, k, writes);
      if k in photos && photos[k].jobId == jobId && photos[k].folder == folder {
        photos := photos[k := photos[k].(deleteAt := Some(at))];
        writes := writes + [PhotoUpdated(k)];
      }
      k := k + 1;
    }
  }

  lemma UploadWritesSnoc(base: nat, ps: seq<Photo>, p: Photo)
    ensures UploadWrites(base, ps + [p]) == UploadWrites(base, ps) + [ObjectStored(p.storagePath), PhotoAdded(base + |ps|)]
  {
    assert (ps + [p])[..|ps|] == ps;
  }

  /** The state the upload loop changes: the records, the next record id, the stored objects and the writes. */
  datatype Batch = Batch(photos: map<nat, Photo>, next: nat, storage: set<string>, writes: seq<Write>)

  /** Storing one file: its object goes to storage, then its record is added under the next id. */
  function Store(b: Batch, p: Photo): Batch
  {
    Batch(b.photos[b.next := p], b.next + 1, b.storage + {p.storagePath}, b.writes + [ObjectStored(p.storagePath), PhotoAdded(b.next)])
  }

  /** The state after storing `ps` in order. */
  function StoredAll(b: Batch, ps: seq<Photo>): Batch
  {
    Batch(b.photos + Added(b.next, ps), b.next + |ps|, b.storage + Paths(ps), b.writes + UploadWrites(b.next, ps))
  }

  /** Storing one more file extends the batch by that file's record, object and writes. */
  lemma StoreStep(b: Batch, ps: seq<Photo>, p: Photo)
    ensures Store(StoredAll(b, ps), p) == StoredAll(b, ps + [p])
  {
    var s, t := Store(StoredAll(b, ps), p), StoredAll(b, ps + [p]);
    assert s.photos == t.photos by {
      var n, a := b.next + |ps|, Added(b.next, ps);
      AddedSnoc(b.next, ps, p);
      UnionUpdate(b.photos, a, n, p);
      assert s.photos == (b.photos + a)[n := p];
      assert t.photos == b.photos + a[n := p];
    }
    assert s.storage == t.storage by {
      PathsSnoc(ps, p);
    }
    assert s.writes == t.writes by {
      UploadWritesSnoc(b.next, ps, p);
      var u := UploadWrites(b.next, ps);
      var last := [ObjectStored(p.storagePath), PhotoAdded(b.next + |ps|)];
      assert b.writes + u + last == b.writes + (u + last);
    }
  }

  lemma PlannedStep(files: seq<FileInfo>, stamps: seq<nat>, record: (FileInfo, nat) -> Photo, i: nat)
    requires i < |files| == |stamps|
    ensures var q := PlannedUpTo(files, stamps, record, i);
      PlannedUpTo(files, stamps, record, i + 1) == if files[i].size <= MaxFileSize then q + [record(files[i], stamps[i])] else q
  {
    var q := PlannedUpTo(files, stamps, record, i);
    assert q + [] == q;
  }

  /**
   * The upload loop over a batch: store and record each file within the
   * size limit, in file order; `record` makes a file's record from the file
   * and the timestamp of its upload.
   */
  method StoreBatch(b0: Batch, files: seq<FileInfo>, stamps: seq<nat>, record: (FileInfo, nat) -> Photo)
    returns (b: Batch, count: nat)
    requires |stamps| == |files|
    ensures b == StoredAll(b0, PlannedUpTo(files, stamps, record, |files|))
    ensures count == |PlannedUpTo(files, stamps, record, |files|)|
  {
    b, count := b0, 0;
    assert b0.photos + map[] == b0.photos && b0.writes + [] == b0.writes;
    var i := 0;
    while i < |files|
      invariant 0 <= i <= |files|
      invariant b == StoredAll(b0, PlannedUpTo(files, stamps, record, i))
      invariant count == |PlannedUpTo(files, stamps, record, i)|
    {
      BatchStep(b0, files, stamps, record, i);
      if files[i].size <= MaxFileSize {
        b := Store(b, record(files[i], stamps[i]));
        count := count + 1;
      }
      i := i + 1;
    }
  }

  /** One turn of the upload loop: a file within the limit is stored and planned, a larger one is skipped. */
  lemma BatchStep(b0: Batch, files: seq<FileInfo>, stamps: seq<nat>, record: (FileInfo, nat) -> Photo, i: nat)
    requires i < |files| == |stamps|
    ensures var before, after := PlannedUpTo(files, stamps, record, i), PlannedUpTo(files, stamps, record, i + 1);
      StoredAll(b0, after)
        == (if files[i].size <= MaxFileSize then Store(StoredAll(b0, before), record(files[i], stamps[i])) else StoredAll(b0, before))
      && |after| == |before| + (if files[i].size <= MaxFileSize then 1 else 0)
  {
    PlannedStep(files, stamps, record, i);
    StoreStep(b0, PlannedUpTo(files, stamps, record, i), record(files[i], stamps[i]));
  }

  lemma PathsSnoc(ps: seq<Photo>, p: Photo)
    ensures Paths(ps + [p]) == Paths(ps) + {p.storagePath}
  {
  }

  lemma JournalAppend(w: seq<Write>, first: Write, mid: seq<Write>, last: Write)
    ensures w + [first] + mid + [last] == w + ([first] + mid + [last])
  {
  }

  lemma UnionUpdate(m: map<nat, Photo>, a: map<nat, Photo>, k: nat, p: Photo)
    ensures (m + a)[k := p] == m + a[k := p]
  {
  }

  lemma AddedSnoc(base: nat, ps: seq<Photo>, p: Photo)
    ensures Added(base, ps + [p]) == Added(base, ps)[base + |ps| := p]
  {
    assert (ps + [p])[..|ps|] == ps;
  }
}
