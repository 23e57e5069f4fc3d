/** A stored file and what it is about: references declared once each, and the query
    that finds files by them. */
module StoredFiles {
  import opened Common
  import opened StorageLocations
  import Text

  const MAX_FIELD_LENGTH := 128
  const MAX_DISK_LENGTH := 32
  const MAX_CONTENT_TYPE_LENGTH := 255
  const DEFAULT_CONTENT_TYPE := "application/octet-stream"

  datatype FileError =
    | InvalidReference
    | DiskRequired
    | DiskTooLong
    | EmptyFile
    | ContentTypeTooLong
    | ChecksumRequired

  datatype FileReference = FileReference(context: string, entityType: string, entityId: Option<string>,
                                         entityUuid: Option<nat>)
  {
    /** Both describe the same thing; the UUID is not part of the question. */
    predicate PointsAt(other: FileReference) {
      context == other.context && entityType == other.entityType && entityId == other.entityId
    }
  }

  predicate ValidText(value: string) {
    1 <= |Text.Trim(value)| <= MAX_FIELD_LENGTH
  }

  /** An identifier as the caller sends it: nothing, a key kept as its own text, or text. */
  datatype Identifier = NoKey | PlainKey(text: string) | TextKey(raw: string)

  function ValidatedIdentifier(id: Identifier): Result<Option<string>, FileError> {
    match id
    case NoKey => Ok(None)
    case PlainKey(text) => Ok(Some(text))
    case TextKey(raw) =>
      if Text.Trim(raw) == "" then Ok(None)
      else if |Text.Trim(raw)| > MAX_FIELD_LENGTH then Err(InvalidReference)
      else Ok(Some(Text.Trim(raw)))
  }

  function Declare(context: string, entityType: string, id: Identifier, uuid: Option<nat>)
    : Result<FileReference, FileError> {
    if !ValidText(context) || !ValidText(entityType) || ValidatedIdentifier(id).Err? then Err(InvalidReference)
    else Ok(FileReference(Text.Trim(context), Text.Trim(entityType), ValidatedIdentifier(id).value, uuid))
  }

  /** One entity is one thing however its key is sent: as a number, as text, or as text
      with space around it; and blank text is no key at all. */
  lemma {:induction false} KeysOfOneEntityAgree(context: string, entityType: string, key: string, sent: string,
                                                uuid: Option<nat>, other: Option<nat>)
    requires ValidText(context) && ValidText(entityType)
    ensures Text.Trim(sent) == key && 1 <= |key| <= MAX_FIELD_LENGTH ==>
              Declare(context, entityType, TextKey(sent), uuid).Ok? &&
              Declare(context, entityType, PlainKey(key), other).Ok? &&
              var declared := Declare(context, entityType, TextKey(sent), uuid).value;
              declared.PointsAt(Declare(context, entityType, PlainKey(key), other).value)
    ensures Text.Trim(sent) == "" ==> Declare(context, entityType, TextKey(sent), uuid)
                                       == Declare(context, entityType, NoKey, uuid)
  {
  }

  /** A reference names the context, the type and the key as they were sent, space around
      them aside; each of the first two must have 1 to 128 characters, a key at most 128. */
  lemma {:induction false} DeclaresExactly(context: string, entityType: string, id: Identifier, uuid: Option<nat>)
    ensures Declare(context, entityType, id, uuid).Ok? <==>
              1 <= |Text.Trim(context)| <= 128 && 1 <= |Text.Trim(entityType)| <= 128 &&
              (id.TextKey? ==> |Text.Trim(id.raw)| <= 128)
    ensures Declare(context, entityType, id, uuid).Ok? ==>
              var r := Declare(context, entityType, id, uuid).value;
              r.context == Text.Trim(context) && r.entityType == Text.Trim(entityType) && r.entityUuid == uuid &&
              r.entityId == match id
                            case NoKey => None
                            case PlainKey(text) => Some(text)
                            case TextKey(raw) => if Text.Trim(raw) == "" then None else Some(Text.Trim(raw))
  {
  }

  /** Some reference already points at the same thing. */
  predicate Declared(refs: seq<FileReference>, r: FileReference) {
    exists i :: 0 <= i < |refs| && refs[i].PointsAt(r)
  }

  function Related(refs: seq<FileReference>, r: FileReference): seq<FileReference> {
    if Declared(refs, r) then refs else refs + [r]
  }

  function RelatedAll(refs: seq<FileReference>, more: seq<FileReference>): seq<FileReference> {
    if more == [] then refs else Related(RelatedAll(refs, more[..|more| - 1]), more[|more| - 1])
  }

  /** What the table's unique constraint asks of one file's references, with a missing
      identifier equal to a missing identifier. */
  ghost predicate EachOnce(refs: seq<FileReference>) {
    forall i, j :: 0 <= i < j < |refs| ==> !refs[i].PointsAt(refs[j])
  }

  lemma {:induction false} DeclaredAfterOneMore(refs: seq<FileReference>, r: FileReference, other: FileReference)
    ensures Declared(Related(refs, r), other) <==> Declared(refs, other) || r.PointsAt(other)
  {
    var after := Related(refs, r);
    if i :| 0 <= i < |refs| && refs[i].PointsAt(other) {
      assert after[i].PointsAt(other);
    }
    if r.PointsAt(other) && Declared(refs, r) {
      var i :| 0 <= i < |refs| && refs[i].PointsAt(r);
      assert refs[i].PointsAt(other);
    } else if r.PointsAt(other) {
      assert after[|refs|].PointsAt(other);
    }
  }

  /** Relating a file to any list of references keeps one per thing, loses none of the
      things declared, and adds nothing nobody declared. */
  lemma {:induction false} RelatesEachOnce(refs: seq<FileReference>, more: seq<FileReference>, other: FileReference)
    requires EachOnce(refs)
    ensures var all := RelatedAll(refs, more);
            EachOnce(all) && refs <= all &&
            (forall r :: r in all ==> r in refs || r in more) &&
            (Declared(all, other) <==> Declared(refs, other) || Declared(more, other))
  {
    if more != [] {
      var most, last := more[..|more| - 1], more[|more| - 1];
      RelatesEachOnce(refs, most, other);
      DeclaredAfterOneMore(RelatedAll(refs, most), last, other);
      assert more == most + [last];
      DeclaredAppend(most, last, other);
    }
  }

  lemma {:induction false} DeclaredAppend(refs: seq<FileReference>, r: FileReference, other: FileReference)
    ensures Declared(refs + [r], other) <==> Declared(refs, other) || r.PointsAt(other)
  {
    var all := refs + [r];
    if i :| 0 <= i < |refs| && refs[i].PointsAt(other) {
      assert all[i].PointsAt(other);
    }
    assert all[|refs|] == r;
  }

  predicate Answers(r: FileReference, context: string, entityType: string, entityId: Option<string>) {
    r.context == context && r.entityType == entityType && (entityId.None? || r.entityId == entityId)
  }

  predicate ReferencedBy(refs: seq<FileReference>, context: string, entityType: string, entityId: Option<string>) {
    exists i :: 0 <= i < |refs| && Answers(refs[i], context, entityType, entityId)
  }

  // ----- registering -------------------------------------------------------

  /** The facts a stored file is registered with. */
  datatype FileValue = FileValue(
    id: nat, disk: string, location: StorageLocation, size: nat, contentType: string, checksum: string,
    references: seq<FileReference>)

  function ValidatedDisk(value: string): Result<string, FileError> {
    var disk := Text.Lower(Text.Trim(value));
    if disk == "" then Err(DiskRequired)
    else if |disk| > MAX_DISK_LENGTH then Err(DiskTooLong)
    else Ok(disk)
  }

  function ValidatedContentType(value: Option<string>): Result<string, FileError> {
    if value.None? || Text.Trim(value.value) == "" then Ok(DEFAULT_CONTENT_TYPE)
    else if |Text.Trim(value.value)| > MAX_CONTENT_TYPE_LENGTH then Err(ContentTypeTooLong)
    else Ok(Text.Trim(value.value))
  }

  function Registered(id: nat, disk: string, location: StorageLocation, size: nat, contentType: Option<string>,
                      checksum: string, references: seq<FileReference>): Result<FileValue, FileError> {
    match ValidatedDisk(disk)
    case Err(error) => Err(error)
    case Ok(name) =>
      if size == 0 then Err(EmptyFile)
      else match ValidatedContentType(contentType)
        case Err(error) => Err(error)
        case Ok(mediaType) =>
          if Text.Trim(checksum) == "" then Err(ChecksumRequired)
          else Ok(FileValue(id, name, location, size, mediaType, Text.Trim(checksum), RelatedAll([], references)))
  }

  /** A file is registered exactly on a disk with a name of 1 to 32 characters, with at
      least one byte, a media type of at most 255 characters and a checksum. It carries what
      was given; a missing media type becomes the general one. */
  lemma {:induction false} RegistersExactly(id: nat, disk: string, location: StorageLocation, size: nat,
                                            contentType: Option<string>, checksum: string,
                                            references: seq<FileReference>)
    ensures var r := Registered(id, disk, location, size, contentType, checksum, references);
            (r.Ok? <==> 1 <= |Text.Trim(disk)| <= 32 && size >= 1 && Text.Trim(checksum) != "" &&
                        (contentType.Some? ==> |Text.Trim(contentType.value)| <= 255)) &&
            (r.Ok? ==> r.value.id == id && r.value.disk == Text.Lower(Text.Trim(disk)) &&
                       r.value.location == location && r.value.size == size &&
                       r.value.checksum == Text.Trim(checksum) &&
                       r.value.references == RelatedAll([], references) &&
                       r.value.contentType ==
                         if contentType.None? || Text.Trim(contentType.value) == "" then "application/octet-stream"
                         else Text.Trim(contentType.value))
  {
  }

  class StoredFile {
    const id: nat
    const disk: string
    const location: StorageLocation
    const size: nat
    const contentType: string
    const checksum: string
    var references: seq<FileReference>

    constructor (id: nat, disk: string, location: StorageLocation, size: nat, contentType: string, checksum: string)
      ensures Value() == FileValue(id, disk, location, size, contentType, checksum, [])
    {
      this.id, this.disk, this.location := id, disk, location;
      this.size, this.contentType, this.checksum := size, contentType, checksum;
      references := [];
    }

    function Value(): FileValue
      reads this
    {
      FileValue(id, disk, location, size, contentType, checksum, references)
    }

    static method Register(id: nat, disk: string, location: StorageLocation, size: nat, contentType: Option<string>,
                           checksum: string, references: seq<FileReference>) returns (r: Result<StoredFile, FileError>)
      ensures match Registered(id, disk, location, size, contentType, checksum, references)
              case Ok(value) => r.Ok? && fresh(r.value) && r.value.Value() == value
              case Err(error) => r == Err(error)
    {
      var name := ValidatedDisk(disk);
      if name.Err? { return Err(name.error); }
      if size == 0 { return Err(EmptyFile); }
      var mediaType := ValidatedContentType(contentType);
      if mediaType.Err? { return Err(mediaType.error); }
      if Text.Trim(checksum) == "" { return Err(ChecksumRequired); }
      var file := new StoredFile(id, name.value, location, size, mediaType.value, Text.Trim(checksum));
      for i := 0 to |references|
        invariant file.references == RelatedAll([], references[..i])
      {
        file.RelateTo(references[i]);
        assert references[..i + 1][..i] == references[..i];
      }
      assert references[..|references|] == references;
      return Ok(file);
    }

    /** Declaring the same owner twice changes nothing. */
    method RelateTo(reference: FileReference)
      modifies this
      ensures references == Related(old(references), reference)
      ensures references == old(references) <==>
                exists r :: r in old(references) && r.context == reference.context &&
                            r.entityType == reference.entityType && r.entityId == reference.entityId
      ensures references == old(references) || references == old(references) + [reference]
    {
      for i := 0 to |references|
        invariant forall j :: 0 <= j < i ==> !references[j].PointsAt(reference)
      {
        if references[i].PointsAt(reference) {
          return;
        }
      }
      references := references + [reference];
    }

    method IsReferencedBy(context: string, entityType: string, entityId: Option<string>) returns (found: bool)
      ensures found <==> ReferencedBy(references, context, entityType, entityId)
      ensures found <==> exists r :: r in references && r.context == context && r.entityType == entityType &&
                                     (entityId == None || r.entityId == entityId)
    {
      for i := 0 to |references|
        invariant forall j :: 0 <= j < i ==> !Answers(references[j], context, entityType, entityId)
      {
        if Answers(references[i], context, entityType, entityId) {
          return true;
        }
      }
      return false;
    }
  }

  // ----- finding files by reference ----------------------------------------

  /** A row of the reference table, in the order the database numbered them. */
  datatype ReferenceRow = ReferenceRow(fileId: nat, reference: FileReference)

  /** The references of one file, in table order. */
  function ReferencesOf(table: seq<ReferenceRow>, fileId: nat): seq<FileReference> {
    if table == [] then []
    else
      var last := table[|table| - 1];
      ReferencesOf(table[..|table| - 1], fileId) + if last.fileId == fileId then [last.reference] else []
  }

  /** The join of files with their references, filtered: one entry per matching row. */
  function Matching(table: seq<ReferenceRow>, context: string, entityType: string, entityId: Option<string>): seq<nat> {
    if table == [] then []
    else
      var last := table[|table| - 1];
      Matching(table[..|table| - 1], context, entityType, entityId) +
      if Answers(last.reference, context, entityType, entityId) then [last.fileId] else []
  }

  /** First occurrences only, in order. */
  function Unique(ids: seq<nat>): (r: seq<nat>)
    ensures forall id :: id in r <==> id in ids
    ensures forall i, j :: 0 <= i < j < |r| ==> r[i] != r[j]
  {
    if ids == [] then []
    else
      var most, last := ids[..|ids| - 1], ids[|ids| - 1];
      assert forall id :: id in ids <==> id in most || id == last;
      if last in most then Unique(most) else Unique(most) + [last]
  }

  function FindByReference(table: seq<ReferenceRow>, context: string, entityType: string, entityId: Option<string>)
    : seq<nat> {
    Unique(Matching(table, context, entityType, entityId))
  }

  lemma {:induction false} ReferencedAppend(refs: seq<FileReference>, r: FileReference, context: string,
                                            entityType: string, entityId: Option<string>)
    ensures ReferencedBy(refs + [r], context, entityType, entityId) <==>
            ReferencedBy(refs, context, entityType, entityId) || Answers(r, context, entityType, entityId)
  {
    var all := refs + [r];
    if i :| 0 <= i < |refs| && Answers(refs[i], context, entityType, entityId) {
      assert Answers(all[i], context, entityType, entityId);
    }
    assert all[|refs|] == r;
  }

  lemma {:induction false} MatchingIsReferenced(table: seq<ReferenceRow>, fileId: nat, context: string,
                                                entityType: string, entityId: Option<string>)
    ensures fileId in Matching(table, context, entityType, entityId) <==>
            ReferencedBy(ReferencesOf(table, fileId), context, entityType, entityId)
  {
    if table != [] {
      var most, last := table[..|table| - 1], table[|table| - 1];
      MatchingIsReferenced(most, fileId, context, entityType, entityId);
      if last.fileId == fileId {
        ReferencedAppend(ReferencesOf(most, fileId), last.reference, context, entityType, entityId);
      } else {
        assert ReferencesOf(table, fileId) == ReferencesOf(most, fileId);
      }
    }
  }

  /** The query and the aggregate agree: a file is found, once, exactly when it says
      itself that it is referenced by that thing. */
  lemma {:induction false} FoundIffReferenced(table: seq<ReferenceRow>, fileId: nat, context: string,
                                              entityType: string, entityId: Option<string>)
    ensures var found := FindByReference(table, context, entityType, entityId);
            (fileId in found <==> ReferencedBy(ReferencesOf(table, fileId), context, entityType, entityId)) &&
            forall i, j :: 0 <= i < j < |found| ==> found[i] != found[j]
  {
    MatchingIsReferenced(table, fileId, context, entityType, entityId);
  }

  /** How often a file appears in the join. */
  function Occurrences(ids: seq<nat>, id: nat): nat {
    if ids == [] then 0
    else Occurrences(ids[..|ids| - 1], id) + if ids[|ids| - 1] == id then 1 else 0
  }

  lemma {:induction false} OccurrencesAppend(ids: seq<nat>, last: nat, id: nat)
    ensures Occurrences(ids + [last], id) == Occurrences(ids, id) + if last == id then 1 else 0
  {
    assert (ids + [last])[..|ids|] == ids;
  }

  /** A question that names an identifier meets each file at most once even before
      duplicates are dropped, because a file declares each thing once. */
  lemma {:induction false} PreciseQuestionsMatchOnce(table: seq<ReferenceRow>, fileId: nat, context: string,
                                                     entityType: string, entityId: string)
    requires EachOnce(ReferencesOf(table, fileId))
    ensures Occurrences(Matching(table, context, entityType, Some(entityId)), fileId)
         == if ReferencedBy(ReferencesOf(table, fileId), context, entityType, Some(entityId)) then 1 else 0
  {
    if table != [] {
      var most, last := table[..|table| - 1], table[|table| - 1];
      var refs := ReferencesOf(most, fileId);
      if Answers(last.reference, context, entityType, Some(entityId)) {
        OccurrencesAppend(Matching(most, context, entityType, Some(entityId)), last.fileId, fileId);
      } else {
        assert Matching(table, context, entityType, Some(entityId))
                == Matching(most, context, entityType, Some(entityId));
      }
      if last.fileId == fileId {
        assert ReferencesOf(table, fileId) == refs + [last.reference];
        OnceWithoutLast(refs, last.reference);
        ReferencedAppend(refs, last.reference, context, entityType, Some(entityId));
        if Answers(last.reference, context, entityType, Some(entityId)) {
          LastAnswersAlone(refs, last.reference, context, entityType, entityId);
        }
      } else {
        assert ReferencesOf(table, fileId) == refs;
      }
      PreciseQuestionsMatchOnce(most, fileId, context, entityType, entityId);
    }
  }

  lemma {:induction false} OnceWithoutLast(refs: seq<FileReference>, r: FileReference)
    requires EachOnce(refs + [r])
    ensures EachOnce(refs)
  {
    var all := refs + [r];
    forall i, j | 0 <= i < j < |refs|
      ensures !refs[i].PointsAt(refs[j])
    {
      assert !all[i].PointsAt(all[j]);
    }
  }

  lemma {:induction false} LastAnswersAlone(refs: seq<FileReference>, r: FileReference, context: string,
                                            entityType: string, entityId: string)
    requires EachOnce(refs + [r]) && Answers(r, context, entityType, Some(entityId))
    ensures !ReferencedBy(refs, context, entityType, Some(entityId))
  {
    var all := refs + [r];
    forall i | 0 <= i < |refs|
      ensures !Answers(refs[i], context, entityType, Some(entityId))
    {
      assert !all[i].PointsAt(all[|refs|]);
    }
  }
}
