/** The upload handler over a storage and a session, and the request scope around it. */
module UploadHandler {
  import opened Common
  import opened Store
  import opened StorageLocations
  import opened StoredFiles
  import opened FileStorages
  import opened Uploads

  datatype PersistOutcome = Persisted | LocationRefused | PersistFailed

  class StoredFileRepository {
    const session: Session<seq<FileValue>>

    constructor (session: Session<seq<FileValue>>)
      ensures this.session == session
    {
      this.session := session;
    }

    /** Inserts the row; the unique location is what decides a collision. */
    method Persist(file: StoredFile, fails: bool) returns (outcome: PersistOutcome)
      modifies session`working
      ensures outcome == if LocationTaken(old(session.working), file.Value()) then LocationRefused
                         else if fails || IdTaken(old(session.working), file.id) then PersistFailed else Persisted
      ensures session.working == if outcome == Persisted
              then old(session.working) + [file.Value()] else old(session.working)
    {
      if LocationTaken(session.working, file.Value()) {
        return LocationRefused;
      }
      if fails || IdTaken(session.working, file.id) {
        return PersistFailed;
      }
      session.working := session.working + [file.Value()];
      return Persisted;
    }
  }

  method DeclareReferences(inputs: seq<ReferenceInput>) returns (r: Result<seq<FileReference>, FileError>)
    ensures r == DeclareAll(inputs)
  {
    var references: seq<FileReference> := [];
    for i := 0 to |inputs|
      invariant DeclareAll(inputs[..i]) == Ok(references)
    {
      TakeOneMore(inputs, i);
      assert inputs[..i + 1][..i] == inputs[..i];
      var reference := Declare(inputs[i].context, inputs[i].entityType, inputs[i].id, inputs[i].uuid);
      if reference.Err? {
        RefusedOnceRefusedForGood(inputs, i + 1, reference.error);
        return Err(reference.error);
      }
      references := references + [reference.value];
    }
    assert inputs[..|inputs|] == inputs;
    return Ok(references);
  }

  lemma {:induction false} RefusedOnceRefusedForGood(inputs: seq<ReferenceInput>, n: nat, error: FileError)
    requires n <= |inputs| && DeclareAll(inputs[..n]) == Err(error)
    ensures DeclareAll(inputs) == Err(error)
    decreases |inputs| - n
  {
    if n == |inputs| {
      assert inputs[..n] == inputs;
    } else {
      TakeOneMore(inputs, n);
      assert inputs[..n + 1][..n] == inputs[..n];
      RefusedOnceRefusedForGood(inputs, n + 1, error);
    }
  }

  class UploadFileHandler {
    const files: StoredFileRepository
    const storage: FileStorage

    constructor (files: StoredFileRepository, storage: FileStorage)
      ensures this.files == files && this.storage == storage
    {
      this.files, this.storage := files, storage;
    }

    function TheDeployment(): Deployment {
      Deployment(storage.disks, storage.maxUploadBytes, storage.digest)
    }

    function TheWorld(): World
      reads storage, files.session
    {
      World(storage.objects, files.session.working)
    }

    /** Inserts the row, taking the bytes out again when that fails - unless the key was
        lost to somebody else, whose object it then is. */
    method Insert(file: StoredFile, key: string, f: UploadFaults) returns (error: Option<UploadError>)
      requires file.disk in storage.disks && storage.disks <= KNOWN_DISKS
      modifies storage, files.session`working
      ensures match Inserted(old(TheWorld()), Address(file.disk, key), file.Value(), f)
              case (after, Ok(_)) => error == None && TheWorld() == after
              case (after, Err(e)) => error == Some(e) && TheWorld() == after
    {
      var outcome := files.Persist(file, f.persistFails);
      match outcome {
        case Persisted => return None;
        case LocationRefused => return Some(FileAlreadyStored);
        case PersistFailed =>
          var failure := storage.Delete(file.disk, key, f.deleteFails);
          return Some(if failure.Some? then UploadError.StorageFailed(failure.value) else InsertFailed);
      }
    }

    /** Stores the upload and registers it. */
    method Handle(u: UploadCommand, stream: Stream, id: nat, f: UploadFaults)
      returns (r: Result<StoredFile, UploadError>)
      requires storage.disks <= KNOWN_DISKS
      modifies storage, files.session`working
      ensures match HandledUpload(TheDeployment(), old(TheWorld()), u, stream, id, f)
              case (after, Ok(file)) => TheWorld() == after && r.Ok? && r.value.Value() == file
              case (after, Err(error)) => TheWorld() == after && r == Err(error)
    {
      if u.disk !in storage.disks {
        return Err(UnknownStorageDisk);
      }
      var location := MakeLocation(u.path, u.name);
      if location.Err? {
        return Err(InvalidLocation(location.error));
      }
      var key := location.value.Key();
      var exists_ := storage.Exists(u.disk, key, f.existsFails);
      if exists_.Err? {
        return Err(UploadError.StorageFailed(exists_.error));
      }
      if exists_.value {
        return Err(FileAlreadyStored);
      }
      r := WriteAndRecord(u, location.value, stream, id, f);
    }

    /** The aggregate for what was written, with its declared references. */
    method Describe(u: UploadCommand, location: StorageLocation, written: StoredObject, id: nat, ghost total: Bytes)
      returns (r: Result<StoredFile, FileError>)
      requires written == StoredObject(|total|, Checksum(storage.digest, total))
      ensures match Described(TheDeployment(), u, location, total, id)
              case Ok(file) => r.Ok? && fresh(r.value) && r.value.Value() == file
              case Err(error) => r == Err(error)
    {
      var references := DeclareReferences(u.references);
      if references.Err? {
        return Err(references.error);
      }
      r := StoredFile.Register(id, u.disk, location, written.size, u.contentType, written.checksum, references.value);
    }

    method WriteAndRecord(u: UploadCommand, location: StorageLocation, stream: Stream, id: nat, f: UploadFaults)
      returns (r: Result<StoredFile, UploadError>)
      requires u.disk in storage.disks && storage.disks <= KNOWN_DISKS
      modifies storage, files.session`working
      ensures match WrittenAndRecorded(TheDeployment(), old(TheWorld()), u, location, stream, id, f)
              case (after, Ok(file)) => TheWorld() == after && r.Ok? && r.value.Value() == file
              case (after, Err(error)) => TheWorld() == after && r == Err(error)
    {
      var written := storage.Put(u.disk, location.Key(), stream, f.write);
      if written.Err? {
        return Err(UploadError.StorageFailed(written.error));
      }
      r := DescribeAndInsert(u, location, written.value, id, f, Concat(stream.chunks));
    }

    method DescribeAndInsert(u: UploadCommand, location: StorageLocation, written: StoredObject, id: nat,
                             f: UploadFaults, ghost total: Bytes) returns (r: Result<StoredFile, UploadError>)
      requires u.disk in storage.disks && storage.disks <= KNOWN_DISKS
      requires written == StoredObject(|total|, Checksum(storage.digest, total))
      modifies storage, files.session`working
      ensures match DescribedAndInserted(TheDeployment(), old(TheWorld()), u, location, total, id, f)
              case (after, Ok(file)) => TheWorld() == after && r.Ok? && r.value.Value() == file
              case (after, Err(error)) => TheWorld() == after && r == Err(error)
    {
      var file := Describe(u, location, written, id, total);
      if file.Err? {
        return Err(InvalidFile(file.error));
      }
      KnownDisksAreNormal(u.disk);
      var error := Insert(file.value, location.Key(), f);
      r := if error.None? then Ok(file.value) else Err(error.value);
    }
  }

  /** One upload in one request: its row commits when the handler returned and the
      commit stores; the disks keep whatever happened to them. */
  method ServeUpload(db: Database<seq<FileValue>>, storage: FileStorage, u: UploadCommand, stream: Stream, id: nat,
                     f: UploadFaults)
    returns (ok: bool)
    requires storage.disks <= KNOWN_DISKS
    modifies db, storage
    ensures World(storage.objects, db.tables)
         == Uploaded(Deployment(storage.disks, storage.maxUploadBytes, storage.digest),
                     World(old(storage.objects), old(db.tables)), u, stream, id, f)
    ensures ok <==>
              (f.commit == Stored &&
               HandledUpload(Deployment(storage.disks, storage.maxUploadBytes, storage.digest),
                             World(old(storage.objects), old(db.tables)), u, stream, id, f).1.Ok?)
  {
    var session := new Session(db);
    var files := new StoredFileRepository(session);
    var handler := new UploadFileHandler(files, storage);
    var r := handler.Handle(u, stream, id, f);
    ok := r.Ok?;
    if ok {
      ok := session.Commit(f.commit);
    }
    if !ok {
      session.Rollback();
    }
  }
}
