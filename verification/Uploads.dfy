/** Files in two tiers: small ones ("content") live in the database row, others ("lockbox") in an
    object store under the row's key. */
module Uploads {
  import opened Entities
  import opened RangedReader

  type Bytes = seq<Byte>

  const MAX_DB_FILE_SIZE := 2 * 1024

  const S3_READ_CHUNK_SIZE := 100 * 1024

  // ----- extractFileFromRequest: events that settle a promise once -----

  datatype FormEvent = Data(chunk: Bytes) | FileError | FormError | Finish

  datatype Reason = TooLong | NotAFile | StreamError

  datatype Promise = Pending | Resolved(bytes: Bytes) | Rejected(reason: Reason)

  /** The first settlement counts; later ones do nothing. */
  function Settle(p: Promise, outcome: Promise): Promise {
    if p.Pending? then outcome else p
  }

  datatype Upload = Upload(fileData: Option<Bytes>, promise: Promise)

  function Handle(u: Upload, e: FormEvent): Upload {
    match e
    case Data(chunk) =>
      var fileData := match u.fileData { case None => chunk case Some(before) => before + chunk };
      Upload(Some(fileData), if |fileData| > MAX_DB_FILE_SIZE then Settle(u.promise, Rejected(TooLong)) else u.promise)
    case FileError => u.(promise := Settle(u.promise, Rejected(StreamError)))
    case FormError => u.(promise := Settle(u.promise, Rejected(StreamError)))
    case Finish =>
      (match u.fileData
       case None => u.(promise := Settle(u.promise, Rejected(NotAFile)))
       case Some(bytes) => u.(promise := Settle(u.promise, Resolved(bytes))))
  }

  function HandleAll(u: Upload, events: seq<FormEvent>): Upload
    decreases |events|
  {
    if events == [] then u else HandleAll(Handle(u, events[0]), events[1..])
  }

  const START := Upload(None, Pending)

  /** The handlers as they are registered on one request: what its events settle the promise to. */
  method ExtractFileFromRequest(events: seq<FormEvent>) returns (promise: Promise)
    ensures promise == HandleAll(START, events).promise
  {
    var fileData: Option<Bytes> := None;
    promise := Pending;
    for i := 0 to |events|
      invariant HandleAll(START, events) == HandleAll(Upload(fileData, promise), events[i..])
    {
      match events[i] {
        case Data(chunk) =>
          fileData := Some(match fileData { case None => chunk case Some(before) => before + chunk });
          if |fileData.value| > MAX_DB_FILE_SIZE {
            promise := Settle(promise, Rejected(TooLong));
          }
        case FileError => promise := Settle(promise, Rejected(StreamError));
        case FormError => promise := Settle(promise, Rejected(StreamError));
        case Finish =>
          if fileData.None? {
            promise := Settle(promise, Rejected(NotAFile));
          } else {
            promise := Settle(promise, Resolved(fileData.value));
          }
      }
    }
  }

  function Concat(chunks: seq<Bytes>): Bytes {
    if chunks == [] then [] else chunks[0] + Concat(chunks[1..])
  }

  /** The events of a request whose file arrives in the given chunks. */
  function Arrival(chunks: seq<Bytes>): (r: seq<FormEvent>)
    ensures |r| == |chunks|
  {
    if chunks == [] then [] else [Data(chunks[0])] + Arrival(chunks[1..])
  }

  /** What a request is settled to: all its bytes, if there is at least one chunk and they are not too many. */
  function Extracted(chunks: seq<Bytes>): Promise {
    if chunks == [] then Rejected(NotAFile)
    else if |Concat(chunks)| > MAX_DB_FILE_SIZE then Rejected(TooLong)
    else Resolved(Concat(chunks))
  }

  /** A settled promise stays settled. */
  lemma {:induction false} SettledForGood(u: Upload, events: seq<FormEvent>)
    requires !u.promise.Pending?
    ensures HandleAll(u, events).promise == u.promise
    decreases |events|
  {
    if events != [] { SettledForGood(Handle(u, events[0]), events[1..]); }
  }

  lemma {:induction false} DataThenFinish(u: Upload, chunks: seq<Bytes>, later: seq<FormEvent>)
    requires u.promise.Pending? && (u.fileData.Some? ==> |u.fileData.value| <= MAX_DB_FILE_SIZE)
    requires u.fileData.Some? || chunks != []
    ensures var all := (if u.fileData.Some? then u.fileData.value else []) + Concat(chunks);
      HandleAll(u, Arrival(chunks) + [Finish] + later).promise
        == if |all| > MAX_DB_FILE_SIZE then Rejected(TooLong) else Resolved(all)
    decreases |chunks|
  {
    var events := Arrival(chunks) + [Finish] + later;
    if chunks == [] {
      assert events[0] == Finish && events[1..] == later;
      SettledForGood(Handle(u, Finish), later);
      assert u.fileData.value + [] == u.fileData.value;
    } else {
      var u' := Handle(u, Data(chunks[0]));
      var before := if u.fileData.Some? then u.fileData.value else [];
      assert events[0] == Data(chunks[0]) && events[1..] == Arrival(chunks[1..]) + [Finish] + later;
      assert u'.fileData.value == before + chunks[0];
      assert before + Concat(chunks) == u'.fileData.value + Concat(chunks[1..]);
      if u'.promise.Pending? {
        DataThenFinish(u', chunks[1..], later);
      } else {
        SettledForGood(u', events[1..]);
      }
    }
  }

  /** Whatever chunks a file arrives in, and whatever happens after the request has finished, the
      promise resolves with their concatenation iff there was a chunk and the total fits the
      database; otherwise it is rejected with the fitting reason. */
  lemma ExtractionIsExact(chunks: seq<Bytes>, later: seq<FormEvent>)
    ensures var promise := HandleAll(START, Arrival(chunks) + [Finish] + later).promise;
      && promise == Extracted(chunks)
      && (promise.Resolved? <==> chunks != [] && |Concat(chunks)| <= 2048)
      && (promise.Resolved? ==> promise.bytes == Concat(chunks))
      && !promise.Pending?
  {
    if chunks == [] {
      var events := Arrival(chunks) + [Finish] + later;
      assert events[0] == Finish && events[1..] == later;
      SettledForGood(Handle(START, Finish), later);
    } else {
      DataThenFinish(START, chunks, later);
      assert [] + Concat(chunks) == Concat(chunks);
    }
  }

  lemma {:induction false} HandleInTwo(u: Upload, events: seq<FormEvent>, more: seq<FormEvent>)
    ensures HandleAll(u, events + more) == HandleAll(HandleAll(u, events), more)
    decreases |events|
  {
    if events == [] {
      assert events + more == more;
    } else {
      HandleInTwo(Handle(u, events[0]), events[1..], more);
      assert (events + more)[1..] == events[1..] + more;
    }
  }

  /** An error of the file's stream or of the form that comes before the promise is settled rejects it for
      good, whatever comes after. */
  lemma ErrorsRejectForGood(before: seq<FormEvent>, error: FormEvent, after: seq<FormEvent>)
    requires HandleAll(START, before).promise.Pending? && (error.FileError? || error.FormError?)
    ensures HandleAll(START, before + [error] + after).promise == Rejected(StreamError)
  {
    var u := HandleAll(START, before);
    HandleInTwo(START, before, [error] + after);
    assert before + [error] + after == before + ([error] + after);
    assert ([error] + after)[1..] == after;
    SettledForGood(Handle(u, error), after);
  }

  // ----- The file table and the object store -----

  datatype PayloadType = Lockbox | Content

  datatype File = File(
    key: string, userId: Id, kind: PayloadType, data: Option<Bytes>,
    bucket: Option<string>, etag: Option<string>, location: Option<string>)

  datatype Address = Address(bucket: string, key: string)

  /** The row and the object that a file's bytes are kept in. */
  ghost predicate Holds(f: File, objects: map<Address, Bytes>, bytes: Bytes) {
    match f.kind
    case Lockbox =>
      && f.data.None? && f.bucket.Some? && f.etag.Some? && f.location.Some?
      && Address(f.bucket.value, f.key) in objects && objects[Address(f.bucket.value, f.key)] == bytes
    case Content =>
      && f.data == Some(bytes) && |bytes| <= MAX_DB_FILE_SIZE
      && f.bucket.None? && f.etag.None? && f.location.None?
  }

  /** The same, but that the object may be gone: what is still there has the right bytes. */
  ghost predicate Agrees(f: File, objects: map<Address, Bytes>, bytes: Bytes) {
    match f.kind
    case Lockbox =>
      && f.data.None? && f.bucket.Some? && f.etag.Some? && f.location.Some?
      && (Address(f.bucket.value, f.key) in objects ==> objects[Address(f.bucket.value, f.key)] == bytes)
    case Content =>
      && f.data == Some(bytes) && |bytes| <= MAX_DB_FILE_SIZE
      && f.bucket.None? && f.etag.None? && f.location.None?
  }

  /** The row points at an object that is gone. */
  predicate Lost(f: File, objects: map<Address, Bytes>) {
    f.kind == Lockbox && f.bucket.Some? && Address(f.bucket.value, f.key) !in objects
  }

  lemma HoldsIff(f: File, objects: map<Address, Bytes>, bytes: Bytes)
    ensures Holds(f, objects, bytes) <==> Agrees(f, objects, bytes) && !Lost(f, objects)
  {
  }

  /** Every file agrees with the bytes last written to it, and no two share a key. */
  ghost predicate Sound(files: map<Id, File>, objects: map<Address, Bytes>, written: map<Id, Bytes>) {
    && files.Keys == written.Keys
    && (forall id <- files :: Agrees(files[id], objects, written[id]))
    && (forall a <- files, b <- files :: files[a].key == files[b].key ==> a == b)
  }

  /** The two stores agree on every object but those under one key. */
  ghost predicate SameExcept(objects: map<Address, Bytes>, objects': map<Address, Bytes>, key: string) {
    forall a: Address :: a.key != key ==> (a in objects <==> a in objects') && (a in objects ==> objects[a] == objects'[a])
  }

  /** A file under another key is as it was. */
  lemma OtherFile(f: File, objects: map<Address, Bytes>, objects': map<Address, Bytes>, key: string, bytes: Bytes)
    requires SameExcept(objects, objects', key) && f.key != key
    ensures Agrees(f, objects, bytes) <==> Agrees(f, objects', bytes)
    ensures Lost(f, objects) <==> Lost(f, objects')
  {
  }

  /** Writing one file, its own objects included, leaves the others as they were, lost or not. */
  lemma WriteOne(files: map<Id, File>, objects: map<Address, Bytes>, written: map<Id, Bytes>,
                 id: Id, f: File, objects': map<Address, Bytes>, bytes: Bytes)
    requires Sound(files, objects, written) && id in files && f.key == files[id].key
    requires SameExcept(objects, objects', f.key)
    ensures Sound(files[id := f], objects', written[id := bytes]) <==> Agrees(f, objects', bytes)
    ensures forall other <- files | other != id :: Lost(files[other], objects') <==> Lost(files[other], objects)
  {
    var files', written' := files[id := f], written[id := bytes];
    forall other <- files | other != id
      ensures Agrees(files[other], objects', written[other]) && (Lost(files[other], objects') <==> Lost(files[other], objects))
    {
      assert files[other].key != f.key;
      OtherFile(files[other], objects, objects', f.key, written[other]);
    }
    hide Agrees, Lost;
    if Sound(files', objects', written') { assert Agrees(files'[id], objects', written'[id]); }
  }

  /** A new file under a key of its own: adding its objects, and then its row, leaves the others as they were. */
  lemma AddOne(files: map<Id, File>, objects: map<Address, Bytes>, written: map<Id, Bytes>,
               id: Id, f: File, objects': map<Address, Bytes>, bytes: Bytes)
    requires Sound(files, objects, written) && id !in files && forall other <- files :: files[other].key != f.key
    requires SameExcept(objects, objects', f.key)
    ensures Sound(files, objects', written)
    ensures Agrees(f, objects', bytes) ==> Sound(files[id := f], objects', written[id := bytes])
    ensures forall other <- files :: Lost(files[other], objects') <==> Lost(files[other], objects)
  {
    forall other <- files
      ensures Agrees(files[other], objects', written[other]) && (Lost(files[other], objects') <==> Lost(files[other], objects))
    {
      OtherFile(files[other], objects, objects', f.key, written[other]);
    }
    hide Agrees, Lost;
  }

  /** Removing one file, its own objects included, leaves the others as they were. */
  lemma RemoveOne(files: map<Id, File>, objects: map<Address, Bytes>, written: map<Id, Bytes>, id: Id, objects': map<Address, Bytes>)
    requires Sound(files, objects, written) && id in files && SameExcept(objects, objects', files[id].key)
    ensures Sound(files - {id}, objects', written - {id})
    ensures Agrees(files[id], objects', written[id]) ==> Sound(files, objects', written)
    ensures forall other <- files | other != id :: Lost(files[other], objects') <==> Lost(files[other], objects)
  {
    forall other <- files | other != id
      ensures Agrees(files[other], objects', written[other]) && (Lost(files[other], objects') <==> Lost(files[other], objects))
    {
      OtherFile(files[other], objects, objects', files[id].key, written[other]);
    }
    hide Agrees, Lost;
  }

  datatype Result = Done | NotFound | BadRequest | Failed

  /** What a download delivers: `complete` is false if the stream broke off with an error. An object that
      is gone makes the request for its length fail, and nothing is delivered. */
  datatype Download = Delivered(bytes: Bytes, complete: bool) | NoFile | ObjectGone

  class UploadService {
    const bucketName: string
    var files: map<Id, File>
    var objects: map<Address, Bytes>
    /** The bytes that the last effective write left in each file. */
    ghost var written: map<Id, Bytes>

    /** The store refines the map from files to their last written bytes, but for objects that are gone, in
        the one bucket it writes to. */
    ghost predicate Valid()
      reads this
    {
      Sound(files, objects, written) && forall id <- files :: InBucket(files[id])
    }

    predicate InBucket(f: File) { f.bucket.Some? ==> f.bucket.value == bucketName }

    /** The file's row is there and its object is gone. */
    predicate IsLost(id: Id)
      reads this
    {
      id in files && Lost(files[id], objects)
    }

    constructor (bucketName: string)
      ensures Valid() && files == map[] && objects == map[] && this.bucketName == bucketName
    {
      this.bucketName := bucketName;
      files, objects, written := map[], map[], map[];
    }

    /** Stores a new file. `chunks` are the parts it arrives in; `freshId` and `freshKey` are newly
        generated. The flags say which of the object upload, the row's save and the final message succeed. */
    method Upload(userId: Id, kind: PayloadType, chunks: seq<Bytes>, freshId: Id, freshKey: string,
                  uploads: bool, saves: bool, publishes: bool) returns (r: Result)
      requires Valid() && freshId !in files && forall id <- files :: files[id].key != freshKey
      modifies this
      ensures Valid()
      ensures var accepted := if kind == Lockbox then uploads else Extracted(chunks).Resolved?;
        && r == (if !accepted then if kind == Content && Extracted(chunks) == Rejected(TooLong) then BadRequest else Failed
                 else if saves && publishes then Done else Failed)
        && written == (if accepted && saves then old(written)[freshId := Concat(chunks)] else old(written))
        && files.Keys == (if accepted && saves then old(files).Keys + {freshId} else old(files).Keys)
        && (accepted && saves ==>
              files[freshId].userId == userId && files[freshId].kind == kind && files[freshId].key == freshKey && !IsLost(freshId))
      ensures forall id <- old(files) :: id in files && files[id] == old(files)[id] && (IsLost(id) <==> old(IsLost(id)))
    {
      var file: File;
      ghost var objects0 := objects;
      if kind == Lockbox {
        if !uploads {
          return Failed;
        }
        objects := objects[Address(bucketName, freshKey) := Concat(chunks)];
        file := File(freshKey, userId, kind, None, Some(bucketName), Some("etag"), Some("location"));
      } else {
        var promise := ExtractFileFromRequest(Arrival(chunks) + [Finish]);
        ExtractionIsExact(chunks, []);
        assert Arrival(chunks) + [Finish] + [] == Arrival(chunks) + [Finish];
        if promise == Rejected(TooLong) {
          return BadRequest;
        } else if !promise.Resolved? {
          return Failed;
        }
        file := File(freshKey, userId, kind, Some(promise.bytes), None, None, None);
      }
      assert Holds(file, objects, Concat(chunks));
      HoldsIff(file, objects, Concat(chunks));
      AddOne(files, objects0, written, freshId, file, objects, Concat(chunks));
      hide Sound, Holds, Agrees, Lost, SameExcept;
      if !saves {
        return Failed;
      }
      files := files[freshId := file];
      written := written[freshId := Concat(chunks)];
      if !publishes {
        return Failed;
      }
      r := Done;
    }

    /** The part of an update that depends on the tier: puts the new bytes where files of the type
        belong, and gives the row that says so. A failed deletion of the old object is only logged. */
    method Place(file: File, kind: PayloadType, chunks: seq<Bytes>, uploads: bool, deletes: bool) returns (placed: Option<File>)
      requires (file.kind == Lockbox ==> file.bucket.Some?) && InBucket(file)
      modifies this`objects
      ensures SameExcept(old(objects), objects, file.key)
      ensures placed.Some? <==> if kind == Lockbox then uploads else Extracted(chunks).Resolved?
      ensures placed.None? ==> objects == old(objects)
      ensures placed.Some? ==>
        && placed.value.key == file.key && placed.value.kind == kind && placed.value.userId == file.userId
        && InBucket(placed.value) && Holds(placed.value, objects, Concat(chunks))
      // What the row that is still in the table now reads as.
      ensures placed.Some? ==>
        && (Lost(file, objects) <==> file.kind == Lockbox && kind == Content && (deletes || Lost(file, old(objects))))
        && (forall kept :: Agrees(file, old(objects), kept) ==>
              Agrees(file, objects, if file.kind == Lockbox && kind == Lockbox then Concat(chunks) else kept))
    {
      var f := file.(kind := kind);
      if kind == Lockbox {
        if !uploads {
          return None;
        }
        objects := objects[Address(bucketName, file.key) := Concat(chunks)];
        f := f.(bucket := Some(bucketName), etag := Some("etag"), location := Some("location"), data := None);
      } else {
        var promise := ExtractFileFromRequest(Arrival(chunks) + [Finish]);
        ExtractionIsExact(chunks, []);
        assert Arrival(chunks) + [Finish] + [] == Arrival(chunks) + [Finish];
        if !promise.Resolved? {
          return None;
        }
        f := f.(data := Some(promise.bytes));
        if file.kind == Lockbox && deletes {
          objects := objects - {Address(file.bucket.value, file.key)};
        }
        f := f.(etag := None, location := None, bucket := None);
      }
      placed := Some(f);
    }

    /** Replaces a file's bytes, and moves it to the other tier if its type changes. The flags say
        which of the object upload, the object deletion and the row's save succeed. The file is lost
        exactly when its object is deleted and its row then not saved, until it is written again.
        After a failure readers see the new bytes exactly when the row points at the object that was
        overwritten. */
    method Update(userId: Id, id: Id, kind: PayloadType, chunks: seq<Bytes>, uploads: bool, deletes: bool, saves: bool)
      returns (r: Result)
      requires Valid()
      modifies this
      ensures Valid()
      ensures var mine := id in old(files) && old(files)[id].userId == userId;
        var accepted := if kind == Lockbox then uploads else Extracted(chunks).Resolved?;
        && r == (if !mine then NotFound else if accepted && saves then Done else Failed)
        && written == (if r == Done || (mine && accepted && old(files)[id].kind == Lockbox && kind == Lockbox)
                       then old(written)[id := Concat(chunks)] else old(written))
        && (IsLost(id) <==>
              if !mine || !accepted then old(IsLost(id))
              else !saves && old(files)[id].kind == Lockbox && kind == Content && (deletes || old(IsLost(id))))
      ensures r == Done ==>
        && id in files && files[id].userId == userId && files[id].kind == kind && files[id].key == old(files)[id].key
        && files == old(files)[id := files[id]]
      ensures r != Done ==> files == old(files)
      ensures forall other <- files :: other != id ==> (IsLost(other) <==> old(IsLost(other)))
    {
      if id !in files || files[id].userId != userId {
        return NotFound;
      }
      var file := files[id];
      assert Agrees(file, objects, written[id]);
      var placed := Place(file, kind, chunks, uploads, deletes);
      assert files[id := file] == files && written[id := written[id]] == written;
      if placed.None? {
        return Failed;
      }
      HoldsIff(placed.value, objects, Concat(chunks));
      hide Sound, SameExcept, Holds, Agrees, Lost;
      if !saves {
        // Where the row already points at the new object, readers see the new bytes at once.
        ghost var now := if file.kind == Lockbox && kind == Lockbox then Concat(chunks) else written[id];
        WriteOne(files, old(objects), written, id, file, objects, now);
        written := written[id := now];
        return Failed;
      }
      WriteOne(files, old(objects), written, id, placed.value, objects, Concat(chunks));
      files := files[id := placed.value];
      written := written[id := Concat(chunks)];
      r := Done;
    }

    /** Deletes a file of any user: the row is looked up by its id alone. The flags say whether the
        object and the row can be deleted. */
    method Delete(userId: Id, id: Id, deletesObject: bool, deletesRow: bool) returns (r: Result)
      requires Valid()
      modifies this
      ensures Valid()
      ensures var isBox := id in old(files) && old(files)[id].kind == Lockbox;
        && r == (if id !in old(files) then NotFound else if (isBox ==> deletesObject) && deletesRow then Done else Failed)
        && files == (if r == Done then old(files) - {id} else old(files))
        && written == (if r == Done then old(written) - {id} else old(written))
        && (IsLost(id) <==> r != Done && (old(IsLost(id)) || (isBox && deletesObject)))
      ensures forall other <- files :: other != id ==> (IsLost(other) <==> old(IsLost(other)))
    {
      if id !in files {
        return NotFound;
      }
      var file := files[id];
      assert Agrees(file, objects, written[id]);
      ghost var objects0 := objects;
      if file.kind == Lockbox {
        if !deletesObject {
          return Failed;
        }
        objects := objects - {Address(file.bucket.value, file.key)};
      }
      assert Agrees(file, objects, written[id]);
      RemoveOne(files, objects0, written, id, objects);
      hide Sound;
      if !deletesRow {
        return Failed;
      }
      files, written := files - {id}, written - {id};
      r := Done;
    }

    /** Reads a file back. A row is served whole; an object is pulled chunk by chunk. */
    method Get(userId: Id, id: Id) returns (d: Download)
      requires Valid()
      ensures d == if id !in files || files[id].userId != userId then NoFile
                   else if IsLost(id) then ObjectGone
                   else Delivered(written[id], files[id].kind == Content || |written[id]| % (S3_READ_CHUNK_SIZE + 1) != 0)
    {
      if id !in files || files[id].userId != userId {
        return NoFile;
      }
      var file := files[id];
      assert Agrees(file, objects, written[id]);
      if file.kind == Content {
        return Delivered(file.data.value, true);
      }
      if Address(file.bucket.value, file.key) !in objects {
        return ObjectGone;
      }
      var body := objects[Address(file.bucket.value, file.key)];
      d := ReadObject(body);
    }
  }

  /** Pulls an object chunk by chunk until the stream ends or breaks off. */
  method ReadObject(body: Bytes) returns (d: Download)
    ensures d == Delivered(body, |body| % (S3_READ_CHUNK_SIZE + 1) != 0)
  {
    var stream := new InteractiveS3Stream(|body|, S3_READ_CHUNK_SIZE);
    ReaderIsExact(body, S3_READ_CHUNK_SIZE);
    var bytes: Bytes, more := [], true;
    while more
      invariant stream.maxLen == |body| && stream.chunkSize == S3_READ_CHUNK_SIZE
      invariant more ==>
        var rest := Read(body, stream.currPos, S3_READ_CHUNK_SIZE);
        bytes + rest.bytes == body && (rest.complete <==> |body| % (S3_READ_CHUNK_SIZE + 1) != 0)
      invariant !more ==> bytes == body && |body| % (S3_READ_CHUNK_SIZE + 1) != 0
      decreases more, stream.Left()
    {
      var e := stream.ReadNext(body);
      match e {
        case Chunk(chunk) => bytes := bytes + chunk;
        case Unsatisfiable => return Delivered(bytes, false);
        case End => more := false;
      }
    }
    d := Delivered(bytes, true);
  }

  // ----- Read your writes -----

  /** A request to the service, with what succeeds of it. */
  datatype Request =
    | Uploading(userId: Id, kind: PayloadType, chunks: seq<Bytes>, freshId: Id, freshKey: string,
                uploads: bool, saves: bool, publishes: bool)
    | Updating(userId: Id, id: Id, kind: PayloadType, chunks: seq<Bytes>, uploads: bool, deletes: bool, saves: bool)
    | Deleting(userId: Id, id: Id, deletesObject: bool, deletesRow: bool)

  /** The request is about another file. */
  predicate IsAboutAnother(q: Request, id: Id) { q.Uploading? || q.id != id }

  /** One request. An upload whose id or key is not new is none the service can make, and is passed over. */
  method Serve(s: UploadService, q: Request)
    requires s.Valid()
    modifies s
    ensures s.Valid()
    ensures forall id <- old(s.files) | IsAboutAnother(q, id) ::
      id in s.files && s.files[id] == old(s.files)[id] && (s.IsLost(id) <==> old(s.IsLost(id)))
    ensures forall id <- old(s.files) | IsAboutAnother(q, id) :: id in old(s.written) && id in s.written && s.written[id] == old(s.written)[id]
  {
    match q {
      case Uploading(userId, kind, chunks, freshId, freshKey, uploads, saves, publishes) =>
        var taken := freshId in s.files || exists other <- s.files :: s.files[other].key == freshKey;
        if !taken {
          var _ := s.Upload(userId, kind, chunks, freshId, freshKey, uploads, saves, publishes);
        }
      case Updating(userId, other, kind, chunks, uploads, deletes, saves) =>
        var _ := s.Update(userId, other, kind, chunks, uploads, deletes, saves);
      case Deleting(userId, other, deletesObject, deletesRow) =>
        var _ := s.Delete(userId, other, deletesObject, deletesRow);
    }
  }

  /** Whatever requests about other files come and however they fail, a file stays as it was written. */
  method ServeOthers(s: UploadService, id: Id, requests: seq<Request>)
    requires s.Valid() && id in s.files && !s.IsLost(id) && forall q <- requests :: IsAboutAnother(q, id)
    modifies s
    ensures s.Valid() && id in s.files && s.files[id] == old(s.files)[id] && !s.IsLost(id)
    ensures id in old(s.written) && id in s.written && s.written[id] == old(s.written)[id]
  {
    assert id in s.written;
    for i := 0 to |requests|
      invariant s.Valid() && id in s.files && s.files[id] == old(s.files)[id] && !s.IsLost(id)
      invariant id in s.written && s.written[id] == old(s.written)[id]
    {
      assert IsAboutAnother(requests[i], id);
      Serve(s, requests[i]);
    }
  }

  /** A user who has updated a file reads back exactly the bytes of that update, whatever has happened to
      other files in between. */
  method UpdateThenRead(s: UploadService, userId: Id, id: Id, kind: PayloadType, chunks: seq<Bytes>,
                        uploads: bool, deletes: bool, saves: bool, between: seq<Request>) returns (r: Result, d: Download)
    requires s.Valid() && forall q <- between :: IsAboutAnother(q, id)
    modifies s
    ensures r == Done ==> d == Delivered(Concat(chunks), kind == Content || |Concat(chunks)| % (S3_READ_CHUNK_SIZE + 1) != 0)
  {
    r := s.Update(userId, id, kind, chunks, uploads, deletes, saves);
    if r != Done {
      return r, NoFile;
    }
    ServeOthers(s, id, between);
    d := s.Get(userId, id);
  }

  /** So does a user who has uploaded one. */
  method UploadThenRead(s: UploadService, userId: Id, kind: PayloadType, chunks: seq<Bytes>, freshId: Id, freshKey: string,
                        uploads: bool, saves: bool, publishes: bool, between: seq<Request>) returns (r: Result, d: Download)
    requires s.Valid() && freshId !in s.files && forall id <- s.files :: s.files[id].key != freshKey
    requires forall q <- between :: IsAboutAnother(q, freshId)
    modifies s
    ensures r == Done ==> d == Delivered(Concat(chunks), kind == Content || |Concat(chunks)| % (S3_READ_CHUNK_SIZE + 1) != 0)
  {
    r := s.Upload(userId, kind, chunks, freshId, freshKey, uploads, saves, publishes);
    if r != Done {
      return r, NoFile;
    }
    ServeOthers(s, freshId, between);
    d := s.Get(userId, freshId);
  }
}
