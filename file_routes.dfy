/** The decision logic of the files router: which records a delete request
    may act on, what the delete route calls and answers, and the upload
    route's checks, metadata rewrite and failure cleanup.

    Collaborators whose code is not part of this model are parameters:
    `isUuid` stands for `isUUID.safeParse(..).success` / `isUUID.parse`,
    `processDeleteRequest`, `processFileUpload` and `unlink` answer whether
    the call resolved (true) or threw (false). Every collaborator call the
    routes make is recorded as an `Effect`, in order. */
module FileRoutes {
  import opened Wrappers

  // ---------------------------------------------------------------------
  // Record fields and identifiers
  // ---------------------------------------------------------------------

  /** JavaScript truthiness of an optional string property: it is present
      and is not the empty string. */
  predicate Truthy(field: Option<string>) {
    field.Some? && field.value != ""
  }

  /** One object of the delete request's `files` array. `fileId` and
      `filepath` are its `file_id` and `filepath` properties; every other
      property is kept in `others` and travels with the record unchanged. */
  datatype FileRecord = FileRecord(
    fileId: Option<string>,
    filepath: Option<string>,
    others: map<string, string>)

  /** An element of the `files` array: `null`/`undefined`, or an object. */
  datatype Element = Nullish | Entry(record: FileRecord)

  /** Ids issued by the external file provider start with this literal. */
  const ExternalIdPrefix: string := "file-"

  /** `/^file-/.test(id)`: the regular expression is anchored at the start
      of the string only. */
  predicate IsExternalId(id: string) {
    ExternalIdPrefix <= id
  }

  /** How a file id is recognised: issued by the external provider, issued
      locally as a UUID, or neither. */
  datatype IdClass = External | Internal | Invalid

  /** Reference classification of an id: the prefix decides first, and only
      an id without it is judged by the UUID parser. */
  function Classify(id: string, isUuid: string -> bool): (c: IdClass)
    ensures c == External <==> IsExternalId(id)
    ensures c == Internal <==> !IsExternalId(id) && isUuid(id)
    ensures c == Invalid <==> !IsExternalId(id) && !isUuid(id)
  {
    if IsExternalId(id) then External
    else if isUuid(id) then Internal
    else Invalid
  }

  // ---------------------------------------------------------------------
  // DELETE /files: the filter
  // ---------------------------------------------------------------------

  /** The callback given to `_files.filter` by the delete route. A record is
      actionable exactly when both fields are truthy and its id is
      recognised, externally or as a UUID. */
  function KeepForDelete(f: FileRecord, isUuid: string -> bool): (keep: bool)
    ensures keep <==> Truthy(f.fileId) && Truthy(f.filepath)
                      && Classify(f.fileId.value, isUuid) != Invalid
  {
    if !Truthy(f.fileId) then false
    else if !Truthy(f.filepath) then false
    else if IsExternalId(f.fileId.value) then true
    else isUuid(f.fileId.value)
  }

  /** `Array.prototype.filter` with `KeepForDelete`: the kept records, in
      their original order. */
  function FilterDeletable(files: seq<FileRecord>, isUuid: string -> bool): (kept: seq<FileRecord>)
    ensures |kept| <= |files|
    ensures forall k :: k in kept ==> KeepForDelete(k, isUuid)
  {
    if files == [] then []
    else (if KeepForDelete(files[0], isUuid) then [files[0]] else [])
         + FilterDeletable(files[1..], isUuid)
  }

  /** `idx` places every element of `a`, in order, at a position of `b`. */
  ghost predicate Embeds<T>(idx: seq<nat>, a: seq<T>, b: seq<T>) {
    && |idx| == |a|
    && (forall i :: 0 <= i < |idx| ==> idx[i] < |b| && a[i] == b[idx[i]])
    && (forall i, j :: 0 <= i < j < |idx| ==> idx[i] < idx[j])
  }

  /** `a` is an order-preserving subsequence of `b`. */
  ghost predicate IsSubsequence<T>(a: seq<T>, b: seq<T>) {
    exists idx :: Embeds(idx, a, b)
  }

  /** A record survives the filter exactly when it is in the request and
      the predicate accepts it; nothing else is ever passed on. */
  lemma {:induction false} FilterKeepsExactly(files: seq<FileRecord>, isUuid: string -> bool, f: FileRecord)
    ensures f in FilterDeletable(files, isUuid) <==> f in files && KeepForDelete(f, isUuid)
  {
    if files != [] {
      FilterKeepsExactly(files[1..], isUuid, f);
      assert files == [files[0]] + files[1..];
    }
  }

  /** Every position of `idx`, one further along. */
  function Shift(idx: seq<nat>): (r: seq<nat>)
    ensures |r| == |idx| && forall i :: 0 <= i < |idx| ==> r[i] == idx[i] + 1
  {
    seq(|idx|, i requires 0 <= i < |idx| => idx[i] + 1)
  }

  lemma EmbedsSkip<T>(idx: seq<nat>, a: seq<T>, b: seq<T>, x: T)
    requires Embeds(idx, a, b)
    ensures Embeds(Shift(idx), a, [x] + b)
  {
  }

  lemma EmbedsTake<T>(idx: seq<nat>, a: seq<T>, b: seq<T>, x: T)
    requires Embeds(idx, a, b)
    ensures Embeds([0] + Shift(idx), [x] + a, [x] + b)
  {
    var idx' := [0] + Shift(idx);
    forall i | 0 <= i < |idx'|
      ensures idx'[i] < |[x] + b| && ([x] + a)[i] == ([x] + b)[idx'[i]]
    {
      if i > 0 {
        assert idx'[i] == idx[i - 1] + 1;
      }
    }
  }

  /** The filtered list keeps the request's order. */
  lemma {:induction false} FilterIsSubsequence(files: seq<FileRecord>, isUuid: string -> bool)
    ensures IsSubsequence(FilterDeletable(files, isUuid), files)
  {
    if files == [] {
      assert Embeds([], [], files);
    } else {
      var rest := FilterDeletable(files[1..], isUuid);
      FilterIsSubsequence(files[1..], isUuid);
      var idx :| Embeds(idx, rest, files[1..]);
      assert files == [files[0]] + files[1..];
      if KeepForDelete(files[0], isUuid) {
        EmbedsTake(idx, rest, files[1..], files[0]);
        assert Embeds([0] + Shift(idx), FilterDeletable(files, isUuid), files);
      } else {
        EmbedsSkip(idx, rest, files[1..], files[0]);
        assert Embeds(Shift(idx), FilterDeletable(files, isUuid), files);
      }
    }
  }

  /** Each record occurs in the filtered list as often as in the request
      when the predicate accepts it, and not at all otherwise. */
  lemma {:induction false} FilterCounts(files: seq<FileRecord>, isUuid: string -> bool, f: FileRecord)
    ensures multiset(FilterDeletable(files, isUuid))[f]
            == if KeepForDelete(f, isUuid) then multiset(files)[f] else 0
  {
    if files != [] {
      FilterCounts(files[1..], isUuid, f);
      assert files == [files[0]] + files[1..];
      assert multiset(files) == multiset([files[0]]) + multiset(files[1..]);
    }
  }

  /** Filtering a list whose every record is accepted changes nothing. */
  lemma {:induction false} FilterKeepsAccepted(files: seq<FileRecord>, isUuid: string -> bool)
    requires forall f :: f in files ==> KeepForDelete(f, isUuid)
    ensures FilterDeletable(files, isUuid) == files
  {
    if files != [] {
      FilterKeepsAccepted(files[1..], isUuid);
    }
  }

  /** Filtering the filtered list a second time leaves it unchanged. */
  lemma FilterIdempotent(files: seq<FileRecord>, isUuid: string -> bool)
    ensures FilterDeletable(FilterDeletable(files, isUuid), isUuid) == FilterDeletable(files, isUuid)
  {
    FilterKeepsAccepted(FilterDeletable(files, isUuid), isUuid);
  }

  /** An id with the external prefix is accepted without consulting the UUID
      parser: any two parsers give the same answer. */
  lemma ExternalIdSkipsUuidCheck(f: FileRecord, isUuid: string -> bool, otherIsUuid: string -> bool)
    requires Truthy(f.fileId) && IsExternalId(f.fileId.value)
    ensures KeepForDelete(f, isUuid) == KeepForDelete(f, otherIsUuid) == Truthy(f.filepath)
  {
  }

  /** The records of a `files` array that holds no nullish element. */
  function Records(elements: seq<Element>): (records: seq<FileRecord>)
    requires forall i :: 0 <= i < |elements| ==> elements[i].Entry?
    ensures |records| == |elements|
    ensures forall i :: 0 <= i < |elements| ==> records[i] == elements[i].record
  {
    seq(|elements|, i requires 0 <= i < |elements| && elements[i].Entry? => elements[i].record)
  }

  /** `_files.filter(..)` on the request's `files` property. `None` is a
      property that is missing or is not an array: it has no `filter`
      method and the call throws, as does reading `file_id` of a nullish
      element. */
  function FilterRequest(files: Option<seq<Element>>, isUuid: string -> bool): (r: Result<seq<FileRecord>>)
    ensures r.Ok? <==> files.Some? && forall i :: 0 <= i < |files.value| ==> files.value[i].Entry?
    ensures r.Ok? ==> r.value == FilterDeletable(Records(files.value), isUuid)
  {
    if files.None? then Err("TypeError: files.filter is not a function")
    else if exists i :: 0 <= i < |files.value| && files.value[i].Nullish? then
      Err("TypeError: cannot read properties of a nullish file")
    else Ok(FilterDeletable(Records(files.value), isUuid))
  }

  // ---------------------------------------------------------------------
  // Effects and responses shared by the routes
  // ---------------------------------------------------------------------

  /** The file staged on disk by the multipart middleware. */
  datatype StagedFile = StagedFile(path: string)

  /** A collaborator call made by a route. `Unlink` records the attempt and
      whether it succeeded. */
  datatype Effect =
    | ProcessDeleteRequest(files: seq<FileRecord>)
    | ProcessFileUpload(file: StagedFile, metadata: map<string, string>)
    | Unlink(path: string, succeeded: bool)

  /** A status and the `message` of the JSON body the route itself sends. */
  datatype Response = Response(status: int, message: string)

  /** The calls a route made, in order, and the response it sent. */
  datatype RouteOutcome = RouteOutcome(effects: seq<Effect>, response: Response)

  const NothingToDelete := Response(204, "Nothing provided to delete")
  const FilesDeleted := Response(200, "Files deleted successfully")
  const BadRequest := Response(400, "Error in request")

  // ---------------------------------------------------------------------
  // DELETE /files: the dispatch
  // ---------------------------------------------------------------------

  /** The delete route. An empty filtered list answers 204 without calling
      anything; otherwise `processDeleteRequest` is called once with the
      filtered list and the route answers 200 when it resolves. Every throw,
      from the filter or from the call, answers 400. */
  function DeleteRoute(files: Option<seq<Element>>, isUuid: string -> bool,
                       processDeleteRequest: seq<FileRecord> -> bool): (r: RouteOutcome)
    ensures r.response in {NothingToDelete, FilesDeleted, BadRequest}
    ensures r.response == NothingToDelete <==> FilterRequest(files, isUuid) == Ok([])
    ensures r.response == FilesDeleted <==>
              && FilterRequest(files, isUuid).Ok?
              && FilterRequest(files, isUuid).value != []
              && processDeleteRequest(FilterRequest(files, isUuid).value)
    ensures r.response == BadRequest <==>
              || FilterRequest(files, isUuid).Err?
              || (FilterRequest(files, isUuid).value != []
                  && !processDeleteRequest(FilterRequest(files, isUuid).value))
    ensures r.effects == if FilterRequest(files, isUuid).Ok? && FilterRequest(files, isUuid).value != []
                         then [ProcessDeleteRequest(FilterRequest(files, isUuid).value)]
                         else []
    ensures forall e :: e in r.effects ==>
              && e.ProcessDeleteRequest?
              && forall f :: f in e.files ==> Truthy(f.fileId) && Truthy(f.filepath)
  {
    match FilterRequest(files, isUuid)
    case Err(_) => RouteOutcome([], BadRequest)
    case Ok(kept) =>
      if |kept| == 0 then RouteOutcome([], NothingToDelete)
      else if processDeleteRequest(kept) then RouteOutcome([ProcessDeleteRequest(kept)], FilesDeleted)
      else RouteOutcome([ProcessDeleteRequest(kept)], BadRequest)
  }

  // ---------------------------------------------------------------------
  // POST /files: checks and metadata rewrite
  // ---------------------------------------------------------------------

  const EndpointKey := "endpoint"
  const FileIdKey := "file_id"
  const TempFileIdKey := "temp_file_id"

  /** The value of property `key` of the form fields, if present. */
  function Field(metadata: map<string, string>, key: string): (v: Option<string>)
    ensures v.Some? <==> key in metadata
    ensures v.Some? ==> v.value == metadata[key]
  {
    if key in metadata then Some(metadata[key]) else None
  }

  /** The upload route's checks, each named by the error it raises. */
  datatype UploadCheck = NoFile | NoEndpoint | NoFileId | InvalidFileId

  /** Position of a check in the order the route runs them. */
  function Rank(c: UploadCheck): (position: nat) {
    match c
    case NoFile => 0
    case NoEndpoint => 1
    case NoFileId => 2
    case InvalidFileId => 3
  }

  /** Whether check `c`, taken on its own, is satisfied. */
  predicate Passes(c: UploadCheck, file: Option<StagedFile>, metadata: map<string, string>,
                   isUuid: string -> bool)
  {
    match c
    case NoFile => file.Some?
    case NoEndpoint => Truthy(Field(metadata, EndpointKey))
    case NoFileId => Truthy(Field(metadata, FileIdKey))
    case InvalidFileId => FileIdKey in metadata && isUuid(metadata[FileIdKey])
  }

  /** The check that aborts the upload, if any: the earliest one in the
      route's order that is not satisfied. */
  function FirstFailedCheck(file: Option<StagedFile>, metadata: map<string, string>,
                            isUuid: string -> bool): (failed: Option<UploadCheck>)
    ensures failed.None? <==> forall c: UploadCheck :: Passes(c, file, metadata, isUuid)
    ensures failed.Some? ==>
              && !Passes(failed.value, file, metadata, isUuid)
              && forall c: UploadCheck :: Rank(c) < Rank(failed.value) ==> Passes(c, file, metadata, isUuid)
  {
    if file.None? then
      assert !Passes(NoFile, file, metadata, isUuid);
      Some(NoFile)
    else if !Truthy(Field(metadata, EndpointKey)) then
      assert !Passes(NoEndpoint, file, metadata, isUuid);
      Some(NoEndpoint)
    else if !Truthy(Field(metadata, FileIdKey)) then
      assert !Passes(NoFileId, file, metadata, isUuid);
      Some(NoFileId)
    else if !isUuid(metadata[FileIdKey]) then
      assert !Passes(InvalidFileId, file, metadata, isUuid);
      Some(InvalidFileId)
    else None
  }

  /** The upload route's id rewrite: the client's `file_id` moves to `temp_file_id` and the
      server-generated id becomes `file_id`; no other field changes. */
  function RewriteIds(metadata: map<string, string>, serverFileId: string): (r: map<string, string>)
    requires FileIdKey in metadata
    ensures r.Keys == metadata.Keys + {TempFileIdKey}
    ensures r[TempFileIdKey] == metadata[FileIdKey]
    ensures r[FileIdKey] == serverFileId
    ensures forall k :: k in metadata && k != FileIdKey && k != TempFileIdKey ==> r[k] == metadata[k]
  {
    metadata[TempFileIdKey := metadata[FileIdKey]][FileIdKey := serverFileId]
  }

  /** The paths of the unlink attempts among `effects`, in order. */
  function UnlinkedPaths(effects: seq<Effect>): (paths: seq<string>)
    ensures |paths| <= |effects|
  {
    if effects == [] then []
    else (if effects[0].Unlink? then [effects[0].path] else []) + UnlinkedPaths(effects[1..])
  }

  lemma {:induction false} UnlinkedPathsAppend(a: seq<Effect>, b: seq<Effect>)
    ensures UnlinkedPaths(a + b) == UnlinkedPaths(a) + UnlinkedPaths(b)
  {
    if a != [] {
      assert (a + b)[0] == a[0];
      assert (a + b)[1..] == a[1..] + b;
      UnlinkedPathsAppend(a[1..], b);
    } else {
      assert a + b == b;
    }
  }

  const ProcessingError := Response(500, "Error processing file")

  /** One POST /files request: the form fields (`req.body`, which the route
      rewrites in place), the collaborator calls made so far and the
      response the route itself sent, if any. */
  class UploadExchange {
    var metadata: map<string, string>
    var effects: seq<Effect>
    var response: Option<Response>

    constructor (body: map<string, string>)
      ensures metadata == body && effects == [] && response == None
    {
      metadata := body;
      effects := [];
      response := None;
    }

    /** The upload route. `file` is `req.file`, `serverFileId` is
        `req.file_id`. On success the response is left to
        `processFileUpload`; on any throw the staged file gets exactly one
        unlink attempt (none when there is no file: reading `file.path`
        throws and is swallowed) and the route answers 500, whatever the
        unlink did. */
    method Upload(file: Option<StagedFile>, serverFileId: string, isUuid: string -> bool,
                  processFileUpload: (StagedFile, map<string, string>) -> bool,
                  unlink: string -> bool)
      requires response == None
      modifies this
      ensures FirstFailedCheck(file, old(metadata), isUuid).Some? ==>
                && metadata == old(metadata)
                && effects == old(effects)
                               + (if file.Some? then [Unlink(file.value.path, unlink(file.value.path))] else [])
                && response == Some(ProcessingError)
      ensures FirstFailedCheck(file, old(metadata), isUuid).None? ==>
                && metadata == RewriteIds(old(metadata), serverFileId)
                && metadata[TempFileIdKey] == old(metadata)[FileIdKey]
                && metadata[FileIdKey] == serverFileId
                && (processFileUpload(file.value, metadata) ==>
                      effects == old(effects) + [ProcessFileUpload(file.value, metadata)] && response == None)
                && (!processFileUpload(file.value, metadata) ==>
                      && effects == old(effects) + [ProcessFileUpload(file.value, metadata),
                                                    Unlink(file.value.path, unlink(file.value.path))]
                      && response == Some(ProcessingError))
      ensures response == None || response == Some(ProcessingError)
      ensures UnlinkedPaths(effects) == UnlinkedPaths(old(effects))
                                        + (if response.Some? && file.Some? then [file.value.path] else [])
    {
      if FirstFailedCheck(file, metadata, isUuid).Some? {
        FailWithCleanup(file, unlink);
        return;
      }
      metadata := RewriteIds(metadata, serverFileId);
      var call := ProcessFileUpload(file.value, metadata);
      UnlinkedPathsAppend(effects, [call]);
      effects := effects + [call];
      if !processFileUpload(file.value, metadata) {
        FailWithCleanup(file, unlink);
      }
    }

    /** The upload route's catch block: one best-effort unlink of the staged
        file, whose outcome is only recorded, then the 500 answer. With no
        file, reading `file.path` throws inside the inner `try` and nothing
        is unlinked. */
    method FailWithCleanup(file: Option<StagedFile>, unlink: string -> bool)
      modifies this`effects, this`response
      ensures effects == old(effects)
                         + (if file.Some? then [Unlink(file.value.path, unlink(file.value.path))] else [])
      ensures UnlinkedPaths(effects) == UnlinkedPaths(old(effects))
                                        + (if file.Some? then [file.value.path] else [])
      ensures response == Some(ProcessingError)
    {
      var cleanup: seq<Effect> := [];
      if file.Some? {
        cleanup := [Unlink(file.value.path, unlink(file.value.path))];
      }
      UnlinkedPathsAppend(effects, cleanup);
      effects := effects + cleanup;
      response := Some(ProcessingError);
    }
  }

  // ---------------------------------------------------------------------
  // GET /files/download/:fileId: the one header the route composes
  // ---------------------------------------------------------------------

  const AttachmentPrefix := "attachment; filename=\""

  /** The `Content-Disposition` value set for a download: the upstream
      filename is placed between the prefix and a closing quote as it is,
      without escaping, so it can be read back unchanged. */
  function ContentDisposition(filename: string): (header: string)
    ensures |header| == |AttachmentPrefix| + |filename| + 1
    ensures AttachmentPrefix <= header && header[|header| - 1] == '"'
    ensures header[|AttachmentPrefix|..|header| - 1] == filename
  {
    AttachmentPrefix + filename + "\""
  }
}
