/**
 * What each handler answers, given what the document store answered it:
 * the HTTP status, the `success` flag (an `Ok` or `Err` reply), the message,
 * the results, and the code handed to the error-lookup collaborator.
 */
module Replies {
  import opened Js
  import opened Zones

  /** The envelope key under which an error payload is sent. */
  datatype ErrorKey = Errors | Results

  datatype Payload =
    | NoPayload
    | One(zone: Zone)
      /** `results` with `queryInfo: { total, limit, skip }` */
    | Page(zones: seq<Zone>, total: nat, limit: Option<int>, skip: Option<int>)

  datatype Reply =
      /** `res.status(status).json({ success: true, message?, results? })` */
    | Ok(status: nat, message: Option<string>, payload: Payload)
      /** `res.status(status).json({ success: false, <key>: retrieveError(code, …) })` */
    | Err(status: nat, key: ErrorKey, code: nat)
      /** `res.sendError(code, err)`: the status is the collaborator's to choose */
    | SentError(code: nat)

  /** Error codes handed to the error-lookup collaborator. */
  const StoreFailure: nat := 5
  const ZoneNotFound: nat := 34
  const UpdateTargetNotFound: nat := 26

  /** What `findById` passed to its callback. */
  datatype Lookup = LookupFailed | NotFound | Found(zone: Zone)

  /** What `findByIdAndRemove` passed to its callback. */
  datatype Removal = RemoveFailed | Removed(existed: bool)

  /** What the list handler's count and fetch queries passed to their callbacks. */
  datatype Count = CountFailed | Counted(total: nat)
  datatype Fetch = FetchFailed | Fetched(zones: seq<Zone>)

  /**
   * GET /zones: the fetch is issued only after a successful
   * count, and either failure goes through `sendError` with code 5; otherwise
   * 200 with the fetched zones, the count, and the `limit` and `skip` that were used.
   */
  function ListReply(count: Count, fetch: Fetch, limit: Option<int>, skip: Option<int>): (r: Reply)
    ensures r.Ok? <==> count.Counted? && fetch.Fetched?
    ensures !r.Ok? ==> r == SentError(StoreFailure)
    ensures r.Ok? ==> r.status == 200 && r.payload == Page(fetch.zones, count.total, limit, skip)
  {
    match count
    case CountFailed => SentError(StoreFailure)
    case Counted(total) =>
      match fetch
      case FetchFailed => SentError(StoreFailure)
      case Fetched(zones) => Ok(200, None, Page(zones, total, limit, skip))
  }

  /**
   * GET /zones/:id: a store error is a 500 with code 5, a
   * missing zone a 403 with code 34 sent under `results` (not `errors`), and
   * only a found zone a 200.
   */
  function GetByIdReply(found: Lookup): (r: Reply)
    ensures r.Ok? <==> found.Found?
    ensures r.Ok? ==> r.status == 200 && r.payload == One(found.zone)
    ensures r == Err(500, Errors, StoreFailure) <==> found.LookupFailed?
    ensures r == Err(403, Results, ZoneNotFound) <==> found.NotFound?
  {
    match found
    case LookupFailed => Err(500, Errors, StoreFailure)
    case NotFound => Err(403, Results, ZoneNotFound)
    case Found(zone) => Ok(200, None, One(zone))
  }

  /**
   * POST /zones: 201 with the created document when the save
   * succeeds, a 500 with code 5 when it fails.
   */
  function CreateReply(body: ZoneBody, saveFailed: bool): (r: Reply)
    ensures r.Ok? <==> !saveFailed
    ensures !r.Ok? ==> r == Err(500, Errors, StoreFailure)
    ensures r.Ok? ==> r.status == 201 && r.message == Some("Create Zone successful")
    ensures r.Ok? ==> r.payload == One(Created(Blank, body))
  {
    if saveFailed then Err(500, Errors, StoreFailure)
    else Ok(201, Some("Create Zone successful"), One(Created(Blank, body)))
  }

  /**
   * PUT /zones/:id: a lookup error or a failed save is a 500
   * with code 5, a missing zone a 403 with code 26 under `errors`, and a saved
   * update a 202 with the merged document. `saveFailed` is the store's answer
   * to the save, which is issued only when the zone was found.
   */
  function UpdateReply(found: Lookup, body: ZoneBody, now: int, saveFailed: bool): (r: Reply)
    ensures r.Ok? <==> found.Found? && !saveFailed
    ensures r.Ok? ==> r == Ok(202, Some("Update zone successful"), One(Merged(found.zone, body, now)))
    ensures r == Err(403, Errors, UpdateTargetNotFound) <==> found.NotFound?
    ensures r == Err(500, Errors, StoreFailure) <==> found.LookupFailed? || (found.Found? && saveFailed)
  {
    match found
    case LookupFailed => Err(500, Errors, StoreFailure)
    case NotFound => Err(403, Errors, UpdateTargetNotFound)
    case Found(zone) =>
      if saveFailed then Err(500, Errors, StoreFailure)
      else Ok(202, Some("Update zone successful"), One(Merged(zone, body, now)))
  }

  /**
   * DELETE /zones/:id: a 500 with code 5 on a store error,
   * and otherwise 202 with the same message whether or not a zone was removed.
   */
  function DeleteReply(id: string, removal: Removal): (r: Reply)
    ensures r.Ok? <==> removal.Removed?
    ensures !r.Ok? ==> r == Err(500, Errors, StoreFailure)
    ensures r.Ok? ==> r == Ok(202, Some("An Zone with id " + id + " was removed."), NoPayload)
  {
    match removal
    case RemoveFailed => Err(500, Errors, StoreFailure)
    case Removed(_) => Ok(202, Some("An Zone with id " + id + " was removed."), NoPayload)
  }

  /** A missing zone is never reported as a server error, on GET or on PUT. */
  lemma MissingIsNotServerError(body: ZoneBody, now: int, saveFailed: bool)
    ensures GetByIdReply(NotFound).Err? && GetByIdReply(NotFound).status == 403
    ensures UpdateReply(NotFound, body, now, saveFailed).Err? && UpdateReply(NotFound, body, now, saveFailed).status == 403
  {
  }

  /** DELETE answers the same whether or not the zone existed. */
  lemma DeleteIgnoresExistence(id: string)
    ensures DeleteReply(id, Removed(true)) == DeleteReply(id, Removed(false))
  {
  }

  /**
   * The POST handler: `new Zone()`, the assignments from the body, and the
   * reply to the save.
   */
  method HandleCreate(body: ZoneBody, saveFailed: bool) returns (r: Reply)
    ensures r == CreateReply(body, saveFailed)
  {
    var zone := new ZoneDocument();
    zone.FillFromBody(body);
    if saveFailed {
      return Err(500, Errors, StoreFailure);
    }
    return Ok(201, Some("Create Zone successful"), One(zone.Value()));
  }

  /**
   * The PUT handler: the lookup's callback, the in-place update of the found
   * document, and the reply to the save.
   */
  method HandleUpdate(found: Lookup, body: ZoneBody, now: int, saveFailed: bool) returns (r: Reply)
    ensures r == UpdateReply(found, body, now, saveFailed)
  {
    if found.LookupFailed? {
      return Err(500, Errors, StoreFailure);
    }
    if found.NotFound? {
      return Err(403, Errors, UpdateTargetNotFound);
    }
    var zone := new ZoneDocument.Load(found.zone);
    zone.ApplyUpdate(body, now);
    if saveFailed {
      return Err(500, Errors, StoreFailure);
    }
    return Ok(202, Some("Update zone successful"), One(zone.Value()));
  }
}
