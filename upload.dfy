/** The photo intake of the upload screen (components/steps/UploadStep.tsx):
    the size filter, photo creation under the three-photo cap, face-detection
    results applied by id, removal, rotation and the "next" gate. */
module Upload {
  import opened Types

  /** The per-file size ceiling, 10 MiB. */
  const MaxFileSize: nat := 10 * 1024 * 1024

  /** The most photos the working set may hold. */
  const MaxPhotos: nat := 3

  /** The angles a photo can be shown at. */
  const QuarterTurns: set<nat> := {0, 90, 180, 270}

  /** What one awaited face-detection call gives back: a verdict, or a rejection. */
  datatype DetectOutcome = Detected(hasFace: bool) | DetectFailed

  /** No two photos share an id. */
  predicate DistinctIds(photos: seq<Photo>)
  {
    forall i, j :: 0 <= i < j < |photos| ==> photos[i].id != photos[j].id
  }

  // ---------------------------------------------------------------------
  // Size filter (handleFileChange)
  // ---------------------------------------------------------------------

  /** True when some selected file is over the ceiling. */
  predicate HasOversize(files: seq<File>)
  {
    exists i :: 0 <= i < |files| && files[i].size > MaxFileSize
  }

  /** The files the size filter keeps, in their original order. A kept file is
      within the ceiling, every file within the ceiling is kept as often as it
      was selected, and no file over it is kept. */
  function KeepWithinLimit(files: seq<File>): (kept: seq<File>)
    ensures |kept| <= |files|
    ensures forall i :: 0 <= i < |kept| ==> kept[i].size <= MaxFileSize
    ensures forall f: File :: f.size <= MaxFileSize ==> multiset(kept)[f] == multiset(files)[f]
    ensures forall f: File :: f.size > MaxFileSize ==> multiset(kept)[f] == 0
  {
    if files == [] then []
    else
      assert files == [files[0]] + files[1..];
      if files[0].size <= MaxFileSize then [files[0]] + KeepWithinLimit(files[1..])
      else KeepWithinLimit(files[1..])
  }

  /** Filtering a concatenation filters each part: the kept files keep their
      relative order. */
  lemma {:induction false} KeepWithinLimitDistributes(a: seq<File>, b: seq<File>)
    ensures KeepWithinLimit(a + b) == KeepWithinLimit(a) + KeepWithinLimit(b)
  {
    if a == [] {
      assert a + b == b;
    } else {
      assert (a + b)[0] == a[0];
      assert (a + b)[1..] == a[1..] + b;
      KeepWithinLimitDistributes(a[1..], b);
    }
  }

  /** Below a first file within the ceiling, an oversize file is one of the rest. */
  lemma {:induction false} OversizeInTail(files: seq<File>)
    requires files != [] && files[0].size <= MaxFileSize
    ensures HasOversize(files) <==> HasOversize(files[1..])
  {
    if HasOversize(files[1..]) {
      var i :| 0 <= i < |files[1..]| && files[1..][i].size > MaxFileSize;
      assert files[i + 1].size > MaxFileSize;
    }
    if HasOversize(files) {
      var i :| 0 <= i < |files| && files[i].size > MaxFileSize;
      assert files[1..][i - 1].size > MaxFileSize;
    }
  }

  /** The filter drops a file exactly when some file is over the ceiling. */
  lemma {:induction false} KeepWithinLimitDropsIff(files: seq<File>)
    ensures |KeepWithinLimit(files)| < |files| <==> HasOversize(files)
  {
    if files != [] {
      KeepWithinLimitDropsIff(files[1..]);
      if files[0].size > MaxFileSize {
        assert KeepWithinLimit(files) == KeepWithinLimit(files[1..]);
        assert files[0].size > MaxFileSize;
      } else {
        assert |KeepWithinLimit(files)| == 1 + |KeepWithinLimit(files[1..])|;
        OversizeInTail(files);
      }
    }
  }

  // ---------------------------------------------------------------------
  // Photo records
  // ---------------------------------------------------------------------

  /** The photos made from the accepted files, one per file, each with the id
      the supply gave it, shown upright, waiting for detection and with no
      face verdict yet. */
  function CreatePhotos(files: seq<File>, ids: seq<Id>): (created: seq<Photo>)
    requires |ids| == |files|
    ensures |created| == |files|
    ensures forall i :: 0 <= i < |files| ==> created[i].id == ids[i] && created[i].file == files[i]
    ensures forall i :: 0 <= i < |files| ==>
      created[i].rotation == 0 && created[i].isValidating && created[i].hasFace == None
  {
    seq(|files|, i requires 0 <= i < |files| => Photo(ids[i], files[i], 0, true, None))
  }

  /** A photo once its detection call has reported `hasFace`. */
  function MarkDetected(p: Photo, hasFace: bool): (q: Photo)
    ensures q.id == p.id && q.file == p.file && q.rotation == p.rotation
    ensures !q.isValidating && q.hasFace == Some(hasFace)
  {
    p.(isValidating := false, hasFace := Some(hasFace))
  }

  /** A photo turned a quarter clockwise and waiting for detection again. */
  function Turned(p: Photo): (q: Photo)
    ensures q.id == p.id && q.file == p.file && q.hasFace == p.hasFace
    ensures q.rotation == NextRotation(p.rotation) && q.isValidating
  {
    p.(rotation := NextRotation(p.rotation), isValidating := true)
  }

  /** The angle after one more quarter turn, kept below a full turn. */
  function NextRotation(rotation: nat): (r: nat)
    ensures r < 360
    ensures rotation in QuarterTurns ==> r in QuarterTurns
    ensures rotation in QuarterTurns ==> r == if rotation == 270 then 0 else rotation + 90
  {
    (rotation + 90) % 360
  }

  /** Four quarter turns bring an upright-based angle back to itself. */
  lemma FourTurnsRestore(rotation: nat)
    requires rotation in QuarterTurns
    ensures NextRotation(NextRotation(NextRotation(NextRotation(rotation)))) == rotation
  {
  }

  // ---------------------------------------------------------------------
  // Updates by id
  // ---------------------------------------------------------------------

  /** A detection completion: only the photos carrying `id` change, and those
      stop validating and take the verdict. Length and order are kept. */
  function ApplyDetection(photos: seq<Photo>, id: Id, hasFace: bool): (r: seq<Photo>)
    ensures |r| == |photos|
    ensures forall i :: 0 <= i < |photos| && photos[i].id != id ==> r[i] == photos[i]
    ensures forall i :: 0 <= i < |photos| && photos[i].id == id ==> r[i] == MarkDetected(photos[i], hasFace)
  {
    if photos == [] then []
    else
      [if photos[0].id == id then MarkDetected(photos[0], hasFace) else photos[0]]
      + ApplyDetection(photos[1..], id, hasFace)
  }

  /** The rotate handler's functional update: only the photos carrying `id`
      are turned and marked as validating again. */
  function RotatePhoto(photos: seq<Photo>, id: Id): (r: seq<Photo>)
    ensures |r| == |photos|
    ensures forall i :: 0 <= i < |photos| && photos[i].id != id ==> r[i] == photos[i]
    ensures forall i :: 0 <= i < |photos| && photos[i].id == id ==> r[i] == Turned(photos[i])
  {
    if photos == [] then []
    else
      [if photos[0].id == id then Turned(photos[0]) else photos[0]]
      + RotatePhoto(photos[1..], id)
  }

  /** Removal: no photo with `id` is left, every other photo is kept as often
      as it occurred, and nothing changes when `id` is absent. */
  function RemovePhoto(photos: seq<Photo>, id: Id): (r: seq<Photo>)
    ensures |r| <= |photos|
    ensures forall i :: 0 <= i < |r| ==> r[i].id != id
    ensures forall p: Photo :: p.id != id ==> multiset(r)[p] == multiset(photos)[p]
    ensures (forall i :: 0 <= i < |photos| ==> photos[i].id != id) ==> r == photos
  {
    if photos == [] then []
    else
      assert photos == [photos[0]] + photos[1..];
      if photos[0].id == id then RemovePhoto(photos[1..], id)
      else [photos[0]] + RemovePhoto(photos[1..], id)
  }

  /** Removing twice is removing once. */
  lemma RemoveIdempotent(photos: seq<Photo>, id: Id)
    ensures RemovePhoto(RemovePhoto(photos, id), id) == RemovePhoto(photos, id)
  {
  }

  /** Removal works part by part: the photos kept keep their relative order. */
  lemma {:induction false} RemoveDistributes(a: seq<Photo>, b: seq<Photo>, id: Id)
    ensures RemovePhoto(a + b, id) == RemovePhoto(a, id) + RemovePhoto(b, id)
  {
    if a == [] {
      assert a + b == b;
    } else {
      assert (a + b)[0] == a[0];
      assert (a + b)[1..] == a[1..] + b;
      RemoveDistributes(a[1..], b, id);
    }
  }

  /** Every photo left after a removal was in the list. */
  lemma RemovedPhotosWereThere(photos: seq<Photo>, id: Id)
    ensures forall p :: p in RemovePhoto(photos, id) ==> p in photos
  {
    var r := RemovePhoto(photos, id);
    forall p | p in r
      ensures p in photos
    {
      assert p in multiset(r);
    }
  }

  /** Removal keeps ids unique. */
  lemma {:induction false} RemoveKeepsDistinct(photos: seq<Photo>, id: Id)
    requires DistinctIds(photos)
    ensures DistinctIds(RemovePhoto(photos, id))
  {
    if photos != [] {
      RemoveKeepsDistinct(photos[1..], id);
      var rest := RemovePhoto(photos[1..], id);
      if photos[0].id != id {
        var r := RemovePhoto(photos, id);
        assert r == [photos[0]] + rest;
        RemovedPhotosWereThere(photos[1..], id);
        forall a, b | 0 <= a < b < |r|
          ensures r[a].id != r[b].id
        {
          assert r[b] == rest[b - 1];
          if a > 0 {
            assert r[a] == rest[a - 1];
          } else {
            assert rest[b - 1] in photos[1..];
            var j :| 0 <= j < |photos[1..]| && photos[1..][j] == rest[b - 1];
            assert photos[j + 1] == r[b];
          }
        }
      }
    }
  }


  /** The position of the first photo with `id`, or the length when there is none. */
  function FindIndex(photos: seq<Photo>, id: Id): (i: nat)
    ensures i <= |photos|
    ensures forall j :: 0 <= j < i ==> photos[j].id != id
    ensures i < |photos| ==> photos[i].id == id
  {
    if photos == [] then 0
    else if photos[0].id == id then 0
    else 1 + FindIndex(photos[1..], id)
  }

  /** The first photo with `id`, as Array.prototype.find returns it. */
  function FindPhoto(photos: seq<Photo>, id: Id): (r: Option<Photo>)
    ensures r.None? <==> forall i :: 0 <= i < |photos| ==> photos[i].id != id
    ensures r.Some? ==> r.value.id == id && r.value in photos
    ensures r.Some? ==> r.value == photos[FindIndex(photos, id)]
  {
    var i := FindIndex(photos, id);
    if i < |photos| then Some(photos[i]) else None
  }

  /** When the render-time snapshot is the list the functional update ran on,
      the angle sent to detection is exactly the angle now stored for that
      photo. */
  lemma {:induction false} CurrentSnapshotSendsStoredAngle(photos: seq<Photo>, id: Id)
    requires FindPhoto(photos, id).Some?
    ensures FindPhoto(RotatePhoto(photos, id), id) == Some(Turned(FindPhoto(photos, id).value))
  {
    var r := RotatePhoto(photos, id);
    var i := FindIndex(photos, id);
    var m := FindIndex(r, id);
    assert i < |photos|;
    assert forall j :: 0 <= j < |r| ==> r[j].id == photos[j].id;
    assert m == i;
  }

  /** With a stale snapshot (a turn already applied but not yet rendered) the
      angle sent to detection lags the stored angle by a quarter turn. */
  lemma StaleSnapshotSendsOldAngle()
    ensures var p := Photo("a", File(1), 0, false, Some(true));
            var current := RotatePhoto([p], "a");
            FindPhoto(current, "a").value.rotation == 90
            && NextRotation(FindPhoto([p], "a").value.rotation) == 90
            && FindPhoto(RotatePhoto(current, "a"), "a").value.rotation == 180
  {
  }

  // ---------------------------------------------------------------------
  // The "next" gate (allValid)
  // ---------------------------------------------------------------------

  /** The upload screen lets the user go on: there is a photo, and every
      photo has finished detection with a face found. */
  predicate AllValid(photos: seq<Photo>)
    ensures AllValid(photos) <==>
      photos != [] && forall p :: p in photos ==> !p.isValidating && p.hasFace == Some(true)
  {
    |photos| > 0 && forall i :: 0 <= i < |photos| ==> !photos[i].isValidating && photos[i].hasFace == Some(true)
  }

  /** Appending freshly created photos closes the gate until they are checked. */
  lemma NewPhotosCloseGate(photos: seq<Photo>, files: seq<File>, ids: seq<Id>)
    requires |ids| == |files| && |files| > 0
    ensures !AllValid(photos + CreatePhotos(files, ids))
  {
    assert (photos + CreatePhotos(files, ids))[|photos|].isValidating;
  }

  /** Turning a photo that is present closes the gate until it is re-checked. */
  lemma RotateClosesGate(photos: seq<Photo>, id: Id)
    requires exists i :: 0 <= i < |photos| && photos[i].id == id
    ensures !AllValid(RotatePhoto(photos, id))
  {
  }

  /** A "no face" verdict for a photo that is present closes the gate. */
  lemma NoFaceClosesGate(photos: seq<Photo>, id: Id)
    requires exists i :: 0 <= i < |photos| && photos[i].id == id
    ensures !AllValid(ApplyDetection(photos, id, false))
  {
  }

  /** Removing a photo leaves the gate open as long as some photo remains, and
      removing the last photo closes it. */
  lemma RemoveKeepsGate(photos: seq<Photo>, id: Id)
    requires AllValid(photos)
    ensures AllValid(RemovePhoto(photos, id)) <==> RemovePhoto(photos, id) != []
  {
    var r := RemovePhoto(photos, id);
    forall k | 0 <= k < |r|
      ensures !r[k].isValidating && r[k].hasFace == Some(true)
    {
      assert r[k] in multiset(r);
      assert r[k] in multiset(photos);
      var j :| 0 <= j < |photos| && photos[j] == r[k];
    }
  }

  // ---------------------------------------------------------------------
  // The detection loop of handlePrivacyAgree
  // ---------------------------------------------------------------------

  /** How many detection calls, in order, report before the first rejection. */
  function DetectedCount(detections: seq<DetectOutcome>): (k: nat)
    ensures k <= |detections|
    ensures forall j :: 0 <= j < k ==> detections[j].Detected?
    ensures k < |detections| ==> detections[k].DetectFailed?
  {
    if detections == [] || detections[0].DetectFailed? then 0
    else 1 + DetectedCount(detections[1..])
  }

  /** The created photos after the first `k` verdicts have been applied. */
  function ValidatedPrefix(created: seq<Photo>, detections: seq<DetectOutcome>, k: nat): (r: seq<Photo>)
    requires |detections| == |created| && k <= DetectedCount(detections)
    ensures |r| == |created|
    ensures forall j :: 0 <= j < |created| ==>
      r[j] == if j < k then MarkDetected(created[j], detections[j].hasFace) else created[j]
  {
    seq(|created|, j requires 0 <= j < |created| =>
      if j < k then MarkDetected(created[j], detections[j].hasFace) else created[j])
  }

  /** One verdict of the detection loop: applying the next verdict by id to
      the list (existing photos, then the batch with `k` verdicts applied)
      applies it to exactly the next photo of the batch. */
  lemma {:induction false} DetectionStep(base: seq<Photo>, created: seq<Photo>, detections: seq<DetectOutcome>, k: nat)
    requires |detections| == |created| && k < DetectedCount(detections)
    requires DistinctIds(base + created)
    ensures ApplyDetection(base + ValidatedPrefix(created, detections, k), created[k].id, detections[k].hasFace)
         == base + ValidatedPrefix(created, detections, k + 1)
  {
    var pre := ValidatedPrefix(created, detections, k);
    var post := ValidatedPrefix(created, detections, k + 1);
    var before := base + pre;
    var after := ApplyDetection(before, created[k].id, detections[k].hasFace);
    var want := base + post;
    var all := base + created;
    var target := created[k].id;
    assert all[|base| + k] == created[k];
    forall m | 0 <= m < |after|
      ensures after[m] == want[m]
    {
      if m < |base| {
        assert before[m] == base[m] == all[m] && want[m] == base[m];
        assert all[m].id != target;
      } else {
        var j := m - |base|;
        assert before[m] == pre[j] && want[m] == post[j] && all[m] == created[j];
        assert pre[j].id == created[j].id;
        if j != k {
          assert all[m].id != target;
        }
      }
    }
  }

  /** Verdicts keep the ids of the list they are applied to. */
  lemma ValidatedKeepsIds(base: seq<Photo>, created: seq<Photo>, detections: seq<DetectOutcome>, k: nat)
    requires |detections| == |created| && k <= DetectedCount(detections)
    requires DistinctIds(base + created)
    ensures DistinctIds(base + ValidatedPrefix(created, detections, k))
  {
    var all := base + created;
    var now := base + ValidatedPrefix(created, detections, k);
    assert forall m :: 0 <= m < |now| ==> now[m].id == all[m].id;
  }

  // ---------------------------------------------------------------------
  // The upload screen's handlers
  // ---------------------------------------------------------------------

  class UploadStep {
    /** The wizard's uploaded photos, read through the `photos` prop and
        written through `setPhotos`. */
    var photos: seq<Photo>
    /** Files that passed the size filter and wait for consent. */
    var pendingFiles: seq<File>
    var showPrivacyModal: bool

    /** The working set is within the cap, ids are unique and every photo is
        at one of the four angles. */
    ghost predicate Valid()
      reads this
    {
      |photos| <= MaxPhotos && DistinctIds(photos)
      && forall i :: 0 <= i < |photos| ==> photos[i].rotation in QuarterTurns
    }

    /** The screen mounts with the wizard's photo list, which the upload
        handlers keep within the cap, with unique ids and quarter-turn angles. */
    constructor (photos: seq<Photo>)
      requires |photos| <= MaxPhotos && DistinctIds(photos)
      requires forall i :: 0 <= i < |photos| ==> photos[i].rotation in QuarterTurns
      ensures this.photos == photos && pendingFiles == [] && !showPrivacyModal
      ensures Valid()
    {
      this.photos := photos;
      pendingFiles := [];
      showPrivacyModal := false;
    }

    /** A new file selection: oversize files are dropped with a notice; when
        any file survives it becomes the pending batch and consent is asked. */
    method HandleFileChange(files: seq<File>) returns (oversizeNotice: bool)
      modifies this
      ensures photos == old(photos)
      ensures oversizeNotice <==> HasOversize(files)
      ensures KeepWithinLimit(files) != [] ==> pendingFiles == KeepWithinLimit(files) && showPrivacyModal
      ensures KeepWithinLimit(files) == [] ==>
        pendingFiles == old(pendingFiles) && showPrivacyModal == old(showPrivacyModal)
    {
      var validFiles := KeepWithinLimit(files);
      KeepWithinLimitDropsIff(files);
      oversizeNotice := |validFiles| < |files|;
      if |validFiles| > 0 {
        pendingFiles := validFiles;
        showPrivacyModal := true;
      }
    }

    /** Closing or cancelling the consent dialog; the pending files stay. */
    method ClosePrivacyModal()
      modifies this
      ensures !showPrivacyModal && photos == old(photos) && pendingFiles == old(pendingFiles)
    {
      showPrivacyModal := false;
    }

    /** Consent given: the pending files become photos with fresh ids. Over the
        cap, the batch is refused with a notice and nothing else changes but the
        modal closing. Otherwise the photos are appended and their detection
        calls are awaited one after another; each verdict is applied by id, and
        the first rejected call ends the handler. */
    method HandlePrivacyAgree(ids: seq<Id>, detections: seq<DetectOutcome>) returns (capNotice: bool, validated: nat)
      requires Valid()
      requires |ids| == |pendingFiles| && |detections| == |pendingFiles|
      requires DistinctIds(photos + CreatePhotos(pendingFiles, ids))
      modifies this
      ensures Valid()
      ensures !showPrivacyModal
      ensures capNotice <==> |old(photos)| + |old(pendingFiles)| > MaxPhotos
      ensures capNotice ==> photos == old(photos) && pendingFiles == old(pendingFiles) && validated == 0
      ensures !capNotice ==> pendingFiles == [] && validated == DetectedCount(detections)
      ensures !capNotice ==>
        photos == old(photos) + ValidatedPrefix(CreatePhotos(old(pendingFiles), ids), detections, validated)
    {
      var newPhotos := CreatePhotos(pendingFiles, ids);
      if |photos| + |newPhotos| > MaxPhotos {
        capNotice, validated := true, 0;
        showPrivacyModal := false;
        return;
      }
      capNotice := false;
      ghost var base := photos;
      photos := photos + newPhotos;
      showPrivacyModal := false;
      pendingFiles := [];
      validated := 0;
      assert ValidatedPrefix(newPhotos, detections, 0) == newPhotos;
      while validated < |newPhotos|
        invariant validated <= DetectedCount(detections)
        invariant photos == base + ValidatedPrefix(newPhotos, detections, validated)
        invariant !showPrivacyModal && pendingFiles == []
        decreases |newPhotos| - validated
      {
        if detections[validated].DetectFailed? {
          break;
        }
        DetectionStep(base, newPhotos, detections, validated);
        photos := ApplyDetection(photos, newPhotos[validated].id, detections[validated].hasFace);
        validated := validated + 1;
      }
      ValidatedKeepsIds(base, newPhotos, detections, validated);
    }

    /** Deleting a photo by id. */
    method HandleRemovePhoto(id: Id)
      requires Valid()
      modifies this
      ensures Valid()
      ensures photos == RemovePhoto(old(photos), id)
      ensures pendingFiles == old(pendingFiles) && showPrivacyModal == old(showPrivacyModal)
    {
      RemoveKeepsDistinct(photos, id);
      var rest := RemovePhoto(photos, id);
      forall k | 0 <= k < |rest|
        ensures rest[k].rotation in QuarterTurns
      {
        assert rest[k] in multiset(rest);
        assert rest[k] in multiset(photos);
      }
      photos := rest;
    }

    /** Turning a photo: the functional update turns it in the current list;
        the angle sent to detection is computed from the render-time
        `snapshot`, and only when the snapshot holds the id is the verdict
        awaited and applied by id. A rejected call leaves the photo
        validating. */
    method HandleRotatePhoto(id: Id, snapshot: seq<Photo>, detection: DetectOutcome) returns (sentRotation: Option<nat>)
      requires Valid()
      modifies this
      ensures Valid()
      ensures pendingFiles == old(pendingFiles) && showPrivacyModal == old(showPrivacyModal)
      ensures sentRotation == match FindPhoto(snapshot, id)
                              case Some(p) => Some(NextRotation(p.rotation))
                              case None => None
      ensures photos == if sentRotation.Some? && detection.Detected?
                        then ApplyDetection(RotatePhoto(old(photos), id), id, detection.hasFace)
                        else RotatePhoto(old(photos), id)
    {
      photos := RotatePhoto(photos, id);
      var updatedPhoto := FindPhoto(snapshot, id);
      sentRotation := None;
      if updatedPhoto.Some? {
        var nextRotation := NextRotation(updatedPhoto.value.rotation);
        sentRotation := Some(nextRotation);
        if detection.Detected? {
          photos := ApplyDetection(photos, id, detection.hasFace);
        }
      }
    }
  }
}
