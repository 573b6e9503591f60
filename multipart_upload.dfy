/**
 * The `drive/files/create-multipart-upload` API endpoint: it refuses an
 * upload that would not fit in the caller's drive, normalises the file
 * name, and stores a fresh upload record that expires a day later.
 */
module MultipartUpload {
  import opened Common
  import opened Strings

  /** Milliseconds in 24 hours. */
  const DayMs: int := 24 * 60 * 60 * 1000

  const MaxParts: int := 10000

  /** The request; the schema guarantees `totalSize >= 1` and
      `1 <= totalParts <= 10000`. */
  datatype UploadParams = UploadParams(name: Option<string>, folderId: Option<string>, comment: Option<string>,
                                       isSensitive: bool, force: bool, totalSize: int, totalParts: int)

  /** A stored multipart upload; times are milliseconds since the epoch. */
  datatype Upload = Upload(id: string, userId: string, name: Option<string>, folderId: Option<string>,
                           comment: Option<string>, isSensitive: bool, force: bool,
                           totalSize: int, totalParts: int, completedParts: int,
                           expiresAt: int, createdAt: int)

  datatype CreateResult = Created(id: string, expiresAt: int) | NoFreeSpace

  /** The repository of multipart uploads: inserting appends a record. */
  class UploadStore {
    var records: seq<Upload>

    constructor()
      ensures records == []
    {
      records := [];
    }

    method Insert(upload: Upload)
      modifies this
      ensures records == old(records) + [upload]
    {
      records := records + [upload];
    }
  }

  /** The capacity check passes when the current usage plus the announced
      size fits in the policy's capacity, given in MiB. */
  predicate HasRoom(driveCapacityMb: int, currentUsage: int, totalSize: int)
  {
    !(1024 * 1024 * driveCapacityMb < currentUsage + totalSize)
  }

  /** The stored name: trimmed, with an empty name and `blob` stored as null. */
  function NormalizedName(name: Option<string>): (r: Option<string>)
    ensures r.Some? ==> name.Some? && r.value == Trim(name.value)
    ensures r.None? <==> name.None? || Trim(name.value) == "" || Trim(name.value) == "blob"
  {
    if name.None? then None
    else
      var trimmed := Trim(name.value);
      if trimmed == "" || trimmed == "blob" then None else Some(trimmed)
  }

  /** The handler's treatment of `name`, reassigning it step by step. */
  method NormalizeName(name: Option<string>) returns (r: Option<string>)
    ensures r == NormalizedName(name)
  {
    r := name;
    if r != None {
      r := Some(Trim(r.value));
      if |r.value| == 0 {
        r := None;
      } else if r.value == "blob" {
        r := None;
      }
    }
  }

  /** A stored name is never empty, never `blob`, has no surrounding
      whitespace, and normalising it again leaves it as it is. */
  lemma NormalizedNameShape(name: Option<string>)
    ensures var r := NormalizedName(name);
      && (r.Some? ==> r.value != "" && r.value != "blob" && Trimmed(r.value))
      && NormalizedName(r) == r
  {
    if name.Some? {
      TrimIdempotent(name.value);
    }
  }

  /** The record inserted for a request. */
  function NewUpload(ps: UploadParams, userId: string, id: string, now: int, createdAt: int): Upload
  {
    Upload(id, userId, NormalizedName(ps.name), ps.folderId, ps.comment, ps.isSensitive, ps.force,
           ps.totalSize, ps.totalParts, 0, now + DayMs, createdAt)
  }

  /** What every freshly created upload satisfies. */
  predicate FreshUpload(u: Upload, now: int)
  {
    && u.totalSize >= 1
    && 1 <= u.totalParts <= MaxParts
    && u.completedParts == 0
    && u.expiresAt == now + DayMs
    && (u.name.Some? ==> u.name.value != "" && u.name.value != "blob")
  }

  /** A new upload has no completed part, the announced size and part count
      within their bounds, an expiry 24 hours after `now`, and a normalised
      name. */
  lemma NewUploadFresh(ps: UploadParams, userId: string, id: string, now: int, createdAt: int)
    requires ps.totalSize >= 1 && 1 <= ps.totalParts <= MaxParts
    ensures FreshUpload(NewUpload(ps, userId, id, now, createdAt), now)
    ensures NewUpload(ps, userId, id, now, createdAt).totalSize == ps.totalSize
    ensures NewUpload(ps, userId, id, now, createdAt).totalParts == ps.totalParts
  {
    NormalizedNameShape(ps.name);
  }

  /** The endpoint. The policy's capacity, the drive's current usage, the
      clock (`now` for the expiry, `createdAt` for the second clock read) and
      the generated `id` are inputs. */
  method CreateMultipartUpload(ps: UploadParams, userId: string, driveCapacityMb: int, currentUsage: int,
                               now: int, createdAt: int, id: string, store: UploadStore)
    returns (result: CreateResult)
    requires ps.totalSize >= 1 && 1 <= ps.totalParts <= MaxParts
    modifies store
    ensures result.NoFreeSpace? <==> !HasRoom(driveCapacityMb, currentUsage, ps.totalSize)
    ensures result.NoFreeSpace? ==> unchanged(store)
    ensures result.Created? ==> && result == Created(id, now + DayMs)
                                && store.records == old(store.records) + [NewUpload(ps, userId, id, now, createdAt)]
  {
    var driveCapacity := 1024 * 1024 * driveCapacityMb;
    if driveCapacity < currentUsage + ps.totalSize {
      return NoFreeSpace;
    }
    var name := NormalizeName(ps.name);
    var expiresAt := now + DayMs;
    var upload := Upload(id, userId, name, ps.folderId, ps.comment, ps.isSensitive, ps.force,
                         ps.totalSize, ps.totalParts, 0, expiresAt, createdAt);
    store.Insert(upload);
    return Created(id, expiresAt);
  }

  /** An accepted upload fits: the drive's usage after it does not exceed
      the capacity. A drive already full refuses every upload. */
  lemma AcceptedUploadFits(driveCapacityMb: int, currentUsage: int, totalSize: int)
    requires totalSize >= 1
    ensures HasRoom(driveCapacityMb, currentUsage, totalSize) ==> currentUsage + totalSize <= 1024 * 1024 * driveCapacityMb
    ensures currentUsage >= 1024 * 1024 * driveCapacityMb ==> !HasRoom(driveCapacityMb, currentUsage, totalSize)
  {
  }
}
