/** The upload: bytes first, then the row, with the bytes taken out again when the row
    cannot be written. Two resources, no shared transaction, any step may fail. */
module Uploads {
  import opened Common
  import opened StorageLocations
  import opened StoredFiles
  import opened FileStorages
  import Text

  datatype ReferenceInput = ReferenceInput(context: string, entityType: string, id: Identifier, uuid: Option<nat>)

  datatype UploadCommand = UploadCommand(
    disk: string, path: Option<string>, name: string, contentType: Option<string>, references: seq<ReferenceInput>)

  /** What strikes one upload: the look-up, the write, the insert, its compensation,
      the commit. */
  datatype UploadFaults = UploadFaults(
    existsFails: bool, write: WriteOutcome, persistFails: bool, deleteFails: bool, commit: CommitOutcome)

  datatype UploadError =
    | UnknownStorageDisk
    | InvalidLocation(location: LocationError)
    | FileAlreadyStored
    | StorageFailed(storage: StorageError)
    | InvalidFile(file: FileError)
    | InsertFailed

  /** The deployment's disks, ceiling and digest. */
  datatype Deployment = Deployment(disks: set<string>, max: nat, digest: Digest)

  /** What the disks hold and which rows are committed. */
  datatype World = World(objects: Objects, rows: seq<FileValue>)

  function Declaring(input: ReferenceInput): Result<FileReference, FileError> {
    Declare(input.context, input.entityType, input.id, input.uuid)
  }

  function DeclareAll(inputs: seq<ReferenceInput>): Result<seq<FileReference>, FileError> {
    if inputs == [] then Ok([])
    else match DeclareAll(inputs[..|inputs| - 1])
      case Err(error) => Err(error)
      case Ok(most) =>
        match Declaring(inputs[|inputs| - 1])
        case Err(error) => Err(error)
        case Ok(reference) => Ok(most + [reference])
  }

  /** The unique constraint on the location, which the insert is refused by. */
  predicate LocationTaken(rows: seq<FileValue>, file: FileValue) {
    exists i :: 0 <= i < |rows| && rows[i].disk == file.disk && rows[i].location == file.location
  }

  predicate IdTaken(rows: seq<FileValue>, id: nat) {
    exists i :: 0 <= i < |rows| && rows[i].id == id
  }

  /** The file as it would be registered once its bytes are written. */
  function Described(d: Deployment, u: UploadCommand, l: StorageLocation, total: Bytes, id: nat)
    : Result<FileValue, FileError> {
    match DeclareAll(u.references)
    case Err(error) => Err(error)
    case Ok(references) => StoredFiles.Registered(id, u.disk, l, |total|, u.contentType, Checksum(d.digest, total),
                                                  references)
  }

  /** Inserting the row, or undoing the write when the insert fails for any reason but
      a lost race for the key. A failing compensation replaces the error it was for. */
  function Inserted(w: World, at: Address, file: FileValue, f: UploadFaults): (World, Result<FileValue, UploadError>) {
    if LocationTaken(w.rows, file) then (w, Err(FileAlreadyStored))
    else if f.persistFails || IdTaken(w.rows, file.id)
    then (if f.deleteFails then (w, Err(StorageFailed(BackendUnavailable)))
          else (w.(objects := w.objects - {at}), Err(InsertFailed)))
    else (w.(rows := w.rows + [file]), Ok(file))
  }

  /** Past the checks: write the bytes, describe them, insert the row. */
  function WrittenAndRecorded(d: Deployment, w: World, u: UploadCommand, l: StorageLocation, stream: Stream, id: nat,
                              f: UploadFaults): (World, Result<FileValue, UploadError>) {
    var at, total := Address(u.disk, l.Key()), Concat(stream.chunks);
    var put := w.(objects := PutLeaves(w.objects, true, d.max, at, total, stream.broken, f.write));
    match PutAnswer(true, d.max, d.digest, total, stream.broken, f.write)
    case Err(error) => (put, Err(StorageFailed(error)))
    case Ok(_) => DescribedAndInserted(d, put, u, l, total, id, f)
  }

  function DescribedAndInserted(d: Deployment, w: World, u: UploadCommand, l: StorageLocation, total: Bytes, id: nat,
                                f: UploadFaults): (World, Result<FileValue, UploadError>) {
    match Described(d, u, l, total, id)
    case Err(error) => (w, Err(InvalidFile(error)))
    case Ok(file) => Inserted(w, Address(u.disk, l.Key()), file, f)
  }

  /** What the handler leaves on the disks and in its session, and what it answers. */
  function HandledUpload(d: Deployment, w: World, u: UploadCommand, stream: Stream, id: nat, f: UploadFaults)
    : (World, Result<FileValue, UploadError>) {
    if u.disk !in d.disks then (w, Err(UnknownStorageDisk))
    else match MakeLocation(u.path, u.name)
      case Err(error) => (w, Err(InvalidLocation(error)))
      case Ok(l) =>
        if f.existsFails then (w, Err(StorageFailed(BackendUnavailable)))
        else if Address(u.disk, l.Key()) in w.objects then (w, Err(FileAlreadyStored))
        else WrittenAndRecorded(d, w, u, l, stream, id, f)
  }

  /** The request: its row is kept only when the handler returned and the commit
      stored; what happened on the disks stays happened. */
  function Uploaded(d: Deployment, w: World, u: UploadCommand, stream: Stream, id: nat, f: UploadFaults): World {
    var (handled, r) := HandledUpload(d, w, u, stream, id, f);
    if r.Ok? && f.commit != Refused then handled else World(handled.objects, w.rows)
  }

  // ----- when an upload succeeds -------------------------------------------

  /** The references are declared one by one, in order; one that cannot be refuses all. */
  lemma {:induction false} DeclaresAllExactly(inputs: seq<ReferenceInput>)
    ensures DeclareAll(inputs).Ok? <==>
              forall i :: 0 <= i < |inputs| ==> Declaring(inputs[i]).Ok?
    ensures DeclareAll(inputs).Ok? ==>
              |DeclareAll(inputs).value| == |inputs| &&
              forall i :: 0 <= i < |inputs| ==> Declaring(inputs[i]) == Ok(DeclareAll(inputs).value[i])
  {
    if inputs != [] {
      var most, last := inputs[..|inputs| - 1], inputs[|inputs| - 1];
      DeclaresAllExactly(most);
      forall i | 0 <= i < |most|
        ensures Declaring(inputs[i]) == Declaring(most[i])
      {
      }
      assert DeclareAll(inputs).Ok? <==> DeclareAll(most).Ok? && Declaring(last).Ok?;
      if DeclareAll(inputs).Ok? {
        assert DeclareAll(inputs).value == DeclareAll(most).value + [Declaring(last).value];
        forall i | 0 <= i < |inputs|
          ensures Declaring(inputs[i]) == Ok(DeclareAll(inputs).value[i])
        {
          assert i < |most| ==> Declaring(most[i]) == Ok(DeclareAll(most).value[i]);
        }
      }
    }
  }

  /** What is refused before anything is written, in this order: an unknown disk, a location
      that cannot be made, a look-up that fails, a key something is stored under. */
  predicate Admitted(d: Deployment, w: World, u: UploadCommand, f: UploadFaults) {
    u.disk in d.disks && MakeLocation(u.path, u.name).Ok? && !f.existsFails &&
    Address(u.disk, MakeLocation(u.path, u.name).value.Key()) !in w.objects
  }

  lemma {:induction false} AdmitsExactly(d: Deployment, w: World, u: UploadCommand, stream: Stream, id: nat,
                                         f: UploadFaults)
    ensures var (after, r) := HandledUpload(d, w, u, stream, id, f);
            (r == Err(UnknownStorageDisk) <==> u.disk !in d.disks) &&
            (u.disk in d.disks && MakeLocation(u.path, u.name).Err? ==>
               r == Err(InvalidLocation(MakeLocation(u.path, u.name).error))) &&
            (u.disk in d.disks && MakeLocation(u.path, u.name).Ok? && f.existsFails ==>
               r == Err(StorageFailed(BackendUnavailable))) &&
            (u.disk in d.disks && MakeLocation(u.path, u.name).Ok? && !f.existsFails && !Admitted(d, w, u, f) ==>
               r == Err(FileAlreadyStored)) &&
            (!Admitted(d, w, u, f) ==> after == w)
  {
  }

  /** An upload succeeds exactly when it is admitted, has 1 byte up to the ceiling, arrives
      and is written whole, declares references that can be made and a media type of at most
      255 characters, and its row - of a new file at a free location - is inserted. */
  lemma {:induction false} UploadsExactly(d: Deployment, w: World, u: UploadCommand, stream: Stream, id: nat,
                                          f: UploadFaults)
    requires d.disks <= KNOWN_DISKS
    ensures HandledUpload(d, w, u, stream, id, f).1.Ok? <==>
              Admitted(d, w, u, f) && 1 <= |Concat(stream.chunks)| <= d.max && !stream.broken && f.write == Written &&
              DeclareAll(u.references).Ok? && (u.contentType.Some? ==> |Text.Trim(u.contentType.value)| <= 255) &&
              !f.persistFails &&
              forall row :: row in w.rows ==>
                row.id != id && (row.disk, row.location) != (u.disk, MakeLocation(u.path, u.name).value)
    ensures HandledUpload(d, w, u, stream, id, f).1.Ok? ==>
              var (after, r) := HandledUpload(d, w, u, stream, id, f);
              var l, total := MakeLocation(u.path, u.name).value, Concat(stream.chunks);
              after.rows == w.rows + [r.value] &&
              after.objects == w.objects[Address(u.disk, l.Key()) := total] &&
              r.value.id == id && r.value.disk == u.disk && r.value.location == l && r.value.size == |total| &&
              r.value.checksum == "sha256:" + d.digest(total) &&
              r.value.references == RelatedAll([], DeclareAll(u.references).value)
  {
    if Admitted(d, w, u, f) {
      var l, total := MakeLocation(u.path, u.name).value, Concat(stream.chunks);
      KnownDisksAreNormal(u.disk);
      ChecksumIsTrimmed(d.digest, total);
      if DeclareAll(u.references).Ok? {
        RegistersExactly(id, u.disk, l, |total|, u.contentType, Checksum(d.digest, total),
                         DeclareAll(u.references).value);
        if Described(d, u, l, total, id).Ok? {
          TakenMeans(w.rows, Described(d, u, l, total, id).value);
        }
      }
    }
  }

  lemma {:induction false} TakenMeans(rows: seq<FileValue>, file: FileValue)
    ensures LocationTaken(rows, file) <==>
              exists row :: row in rows && (row.disk, row.location) == (file.disk, file.location)
    ensures IdTaken(rows, file.id) <==> exists row :: row in rows && row.id == file.id
  {
    if i :| 0 <= i < |rows| && rows[i].disk == file.disk && rows[i].location == file.location {
      assert rows[i] in rows;
    }
    if i :| 0 <= i < |rows| && rows[i].id == file.id {
      assert rows[i] in rows;
    }
  }

  // ----- every row points at its object ------------------------------------

  function AddressOf(file: FileValue): Address {
    Address(file.disk, file.location.Key())
  }

  /** The row's object exists on its disk, and the row records its size and digest. */
  ghost predicate Backed(d: Deployment, objects: Objects, file: FileValue) {
    Accepted(file.location) && AddressOf(file) in objects &&
    var content := objects[AddressOf(file)];
    file.size == |content| && 0 < file.size <= d.max && file.checksum == Checksum(d.digest, content)
  }

  ghost predicate AllBacked(d: Deployment, w: World) {
    forall i :: 0 <= i < |w.rows| ==> Backed(d, w.objects, w.rows[i])
  }

  ghost predicate OneRowPerObject(rows: seq<FileValue>) {
    forall i, j :: 0 <= i < j < |rows| ==> AddressOf(rows[i]) != AddressOf(rows[j])
  }

  ghost predicate Consistent(d: Deployment, w: World) {
    AllBacked(d, w) && OneRowPerObject(w.rows)
  }

  lemma {:induction false} PlainNameIsNormal(disk: string)
    requires 1 <= |disk| <= MAX_DISK_LENGTH && Text.Trimmed(disk) &&
             forall i :: 0 <= i < |disk| ==> !('A' <= disk[i] <= 'Z')
    ensures ValidatedDisk(disk) == Ok(disk)
  {
    assert Text.Lower(disk) == disk;
  }

  /** Every name the settings know is stored as it is spelled. */
  lemma {:induction false} KnownDisksAreNormal(disk: string)
    ensures KNOWN_DISKS == {"local", "gcp", "aws", "sftp"}
    ensures disk in KNOWN_DISKS ==> ValidatedDisk(disk) == Ok(disk)
  {
    if disk in KNOWN_DISKS {
      PlainNameIsNormal(disk);
    }
  }

  /** At most that one object is new or gone; the others are as they were. */
  ghost predicate TouchesOnly(before: Objects, after: Objects, at: Address) {
    (forall other :: other in before && other != at ==> other in after && after[other] == before[other]) &&
    (forall other :: other in after ==> other in before || other == at)
  }

  lemma {:induction false} PutTouchesOnlyItsKey(objects: Objects, max: nat, at: Address, total: Bytes, broken: bool,
                                                write: WriteOutcome)
    ensures TouchesOnly(objects, PutLeaves(objects, true, max, at, total, broken, write), at)
  {
  }

  lemma {:induction false} InsertTouchesOnlyItsKey(objects: Objects, w: World, at: Address, file: FileValue,
                                                   f: UploadFaults)
    requires TouchesOnly(objects, w.objects, at)
    ensures TouchesOnly(objects, Inserted(w, at, file, f).0.objects, at)
  {
  }

  lemma {:induction false} WritingTouchesOnlyItsKey(d: Deployment, w: World, u: UploadCommand, l: StorageLocation,
                                                    stream: Stream, id: nat, f: UploadFaults)
    ensures TouchesOnly(w.objects, WrittenAndRecorded(d, w, u, l, stream, id, f).0.objects, Address(u.disk, l.Key()))
  {
    var at, total := Address(u.disk, l.Key()), Concat(stream.chunks);
    PutTouchesOnlyItsKey(w.objects, d.max, at, total, stream.broken, f.write);
    if Described(d, u, l, total, id).Ok? {
      var put := w.(objects := PutLeaves(w.objects, true, d.max, at, total, stream.broken, f.write));
      InsertTouchesOnlyItsKey(w.objects, put, at, Described(d, u, l, total, id).value, f);
    }
  }

  /** Whatever fails, an upload touches no object but its own, and that one only when
      nothing was there. */
  lemma {:induction false} UploadTouchesOnlyItsKey(d: Deployment, w: World, u: UploadCommand, stream: Stream, id: nat,
                                                   f: UploadFaults)
    ensures var after := Uploaded(d, w, u, stream, id, f).objects;
            after == w.objects ||
            (MakeLocation(u.path, u.name).Ok? &&
             var at := Address(u.disk, MakeLocation(u.path, u.name).value.Key());
             at !in w.objects && TouchesOnly(w.objects, after, at))
  {
    if MakeLocation(u.path, u.name).Ok? {
      WritingTouchesOnlyItsKey(d, w, u, MakeLocation(u.path, u.name).value, stream, id, f);
    }
  }

  /** No upload overwrites or deletes an object that was there before it began, and the
      only object it can add is its own - whatever fails. */
  lemma {:induction false} NothingIsOverwritten(d: Deployment, w: World, u: UploadCommand, stream: Stream, id: nat,
                                                f: UploadFaults, at: Address)
    ensures at in w.objects ==> at in Uploaded(d, w, u, stream, id, f).objects &&
                                Uploaded(d, w, u, stream, id, f).objects[at] == w.objects[at]
    ensures at in Uploaded(d, w, u, stream, id, f).objects && at !in w.objects ==>
              MakeLocation(u.path, u.name).Ok? && at == Address(u.disk, MakeLocation(u.path, u.name).value.Key())
  {
    UploadTouchesOnlyItsKey(d, w, u, stream, id, f);
  }

  /** The new row's object is what was just written for it. */
  lemma {:induction false} NewRowIsBacked(d: Deployment, objects: Objects, u: UploadCommand, l: StorageLocation,
                                          total: Bytes, id: nat)
    requires u.disk in KNOWN_DISKS && MakeLocation(u.path, u.name) == Ok(l) && |total| <= d.max
    requires Described(d, u, l, total, id).Ok? && Address(u.disk, l.Key()) in objects &&
             objects[Address(u.disk, l.Key())] == total
    ensures AddressOf(Described(d, u, l, total, id).value) == Address(u.disk, l.Key())
    ensures Backed(d, objects, Described(d, u, l, total, id).value)
  {
    KnownDisksAreNormal(u.disk);
    ChecksumIsTrimmed(d.digest, total);
    assert Accepted(l);
  }

  lemma {:induction false} OldRowsStayBacked(d: Deployment, w: World, objects: Objects)
    requires AllBacked(d, w)
    requires forall at :: at in w.objects ==> at in objects && objects[at] == w.objects[at]
    ensures AllBacked(d, w.(objects := objects))
  {
    forall i | 0 <= i < |w.rows|
      ensures Backed(d, objects, w.rows[i])
    {
      assert Backed(d, w.objects, w.rows[i]);
    }
  }

  /** An upload that commits got past every step. */
  lemma {:induction false} CommittedUpload(d: Deployment, w: World, u: UploadCommand, stream: Stream, id: nat,
                                           f: UploadFaults) returns (l: StorageLocation)
    requires HandledUpload(d, w, u, stream, id, f).1.Ok?
    ensures MakeLocation(u.path, u.name) == Ok(l) && u.disk in d.disks && |Concat(stream.chunks)| <= d.max
    ensures Address(u.disk, l.Key()) !in w.objects && Described(d, u, l, Concat(stream.chunks), id).Ok?
    ensures HandledUpload(d, w, u, stream, id, f).0 ==
            World(w.objects[Address(u.disk, l.Key()) := Concat(stream.chunks)],
                  w.rows + [Described(d, u, l, Concat(stream.chunks), id).value])
  {
    l := MakeLocation(u.path, u.name).value;
  }

  lemma {:induction false} UploadStaysConsistent(d: Deployment, w: World, u: UploadCommand, stream: Stream, id: nat,
                                                 f: UploadFaults)
    requires d.disks <= KNOWN_DISKS && Consistent(d, w)
    ensures Consistent(d, Uploaded(d, w, u, stream, id, f))
  {
    var after := Uploaded(d, w, u, stream, id, f);
    forall at | at in w.objects
      ensures at in after.objects && after.objects[at] == w.objects[at]
    {
      NothingIsOverwritten(d, w, u, stream, id, f, at);
    }
    OldRowsStayBacked(d, w, after.objects);
    if after.rows != w.rows {
      var l := CommittedUpload(d, w, u, stream, id, f);
      var file := Described(d, u, l, Concat(stream.chunks), id).value;
      NewRowIsBacked(d, after.objects, u, l, Concat(stream.chunks), id);
      NewRowIsAlone(d, w, file);
    }
  }

  lemma {:induction false} NewRowIsAlone(d: Deployment, w: World, file: FileValue)
    requires Consistent(d, w) && AddressOf(file) !in w.objects
    ensures OneRowPerObject(w.rows + [file])
  {
    forall i | 0 <= i < |w.rows|
      ensures AddressOf(w.rows[i]) != AddressOf(file)
    {
      assert Backed(d, w.objects, w.rows[i]);
    }
  }

  // ----- every history -----------------------------------------------------

  datatype Attempt = Attempt(command: UploadCommand, stream: Stream, id: nat, faults: UploadFaults)

  function AllUploaded(d: Deployment, w: World, attempts: seq<Attempt>): World {
    if attempts == [] then w
    else
      var last := attempts[|attempts| - 1];
      Uploaded(d, AllUploaded(d, w, attempts[..|attempts| - 1]), last.command, last.stream, last.id, last.faults)
  }

  /** After any serial history of uploads with any step failing: every row points at an
      existing object on its disk, whose size and digest it records, and no two rows
      share an object. Objects found on the disks at the start are still there. */
  lemma {:induction false} RowsAlwaysPointAtTheirObjects(d: Deployment, objects: Objects, attempts: seq<Attempt>,
                                                         at: Address)
    requires d.disks <= KNOWN_DISKS
    ensures var w := AllUploaded(d, World(objects, []), attempts);
            Consistent(d, w) &&
            (at in objects ==> at in w.objects && w.objects[at] == objects[at])
  {
    if attempts != [] {
      var most, last := attempts[..|attempts| - 1], attempts[|attempts| - 1];
      RowsAlwaysPointAtTheirObjects(d, objects, most, at);
      var w := AllUploaded(d, World(objects, []), most);
      UploadStaysConsistent(d, w, last.command, last.stream, last.id, last.faults);
      NothingIsOverwritten(d, w, last.command, last.stream, last.id, last.faults, at);
    }
  }

  // ----- objects without a row ---------------------------------------------

  /** The bytes got onto the disk, all or some of them. */
  predicate Wrote(d: Deployment, stream: Stream, write: WriteOutcome) {
    |Concat(stream.chunks)| <= d.max && !stream.broken && write != WriteRefused(None)
  }

  /** The upload is one that can be recorded, and nothing stood in the way of that. */
  predicate Recordable(d: Deployment, w: World, u: UploadCommand, l: StorageLocation, stream: Stream, id: nat,
                       f: UploadFaults) {
    f.write == Written && Described(d, u, l, Concat(stream.chunks), id).Ok? && !f.persistFails && !IdTaken(w.rows, id)
  }

  /** An insert that failed was made up for. */
  predicate MadeUpFor(d: Deployment, w: World, u: UploadCommand, l: StorageLocation, stream: Stream, id: nat,
                      f: UploadFaults) {
    f.write == Written && Described(d, u, l, Concat(stream.chunks), id).Ok? &&
    (f.persistFails || IdTaken(w.rows, id)) && !f.deleteFails
  }

  /** Exactly when an upload leaves bytes no row will ever point at: they were written,
      and then either the upload could not be described - an empty file, say, which is
      only noticed after the write - or a refused write left a part, or the insert
      failed and so did its compensation, or the commit stored nothing. */
  lemma {:induction false} LeavesAnOrphanIff(d: Deployment, w: World, u: UploadCommand, stream: Stream, id: nat,
                                             f: UploadFaults, l: StorageLocation)
    requires d.disks <= KNOWN_DISKS && Consistent(d, w)
    requires u.disk in d.disks && MakeLocation(u.path, u.name) == Ok(l) && !f.existsFails
    requires Address(u.disk, l.Key()) !in w.objects
    ensures var after := Uploaded(d, w, u, stream, id, f);
            (Address(u.disk, l.Key()) in after.objects && after.rows == w.rows) <==>
            Wrote(d, stream, f.write) && !MadeUpFor(d, w, u, l, stream, id, f) &&
            !(Recordable(d, w, u, l, stream, id, f) && f.commit != Refused)
  {
    var at, total := Address(u.disk, l.Key()), Concat(stream.chunks);
    var after := Uploaded(d, w, u, stream, id, f);
    if f.write == Written && |total| <= d.max && !stream.broken {
      assert at in PutLeaves(w.objects, true, d.max, at, total, stream.broken, f.write);
      if Described(d, u, l, total, id).Ok? {
        NoRowThereYet(d, w, u, l, total, id);
      }
    } else {
      assert after.rows == w.rows && after.objects
              == PutLeaves(w.objects, true, d.max, at, total, stream.broken, f.write);
    }
  }

  lemma {:induction false} NoRowThereYet(d: Deployment, w: World, u: UploadCommand, l: StorageLocation, total: Bytes,
                                         id: nat)
    requires u.disk in KNOWN_DISKS && Consistent(d, w) && Address(u.disk, l.Key()) !in w.objects
    requires Described(d, u, l, total, id).Ok?
    ensures !LocationTaken(w.rows, Described(d, u, l, total, id).value)
  {
    KnownDisksAreNormal(u.disk);
    forall i | 0 <= i < |w.rows|
      ensures !(w.rows[i].disk == u.disk && w.rows[i].location == l)
    {
      assert Backed(d, w.objects, w.rows[i]);
    }
  }

  /** An empty upload is the plain case: it fails, its object stays, and every later
      upload to that key is told the file is already stored. */
  lemma {:induction false} EmptyUploadBlocksItsKey(d: Deployment, w: World, u: UploadCommand, id: nat, f: UploadFaults,
                                                   l: StorageLocation,
                                                   stream: Stream, laterId: nat, later: UploadFaults)
    requires u.disk in d.disks && MakeLocation(u.path, u.name) == Ok(l) && !f.existsFails && f.write == Written
    requires Address(u.disk, l.Key()) !in w.objects && !later.existsFails
    ensures HandledUpload(d, w, u, Stream([], false), id, f).1.Err?
    ensures var after := Uploaded(d, w, u, Stream([], false), id, f);
            after.rows == w.rows && Address(u.disk, l.Key()) in after.objects &&
            HandledUpload(d, after, u, stream, laterId, later) == (after, Err(FileAlreadyStored))
  {
    assert Concat([]) == [];
  }
}
