/** The tracking-provider adapter (AfterShip): the requests it sends, how it maps a successful
    answer to the data the package store keeps, and how it classifies failures. The HTTP
    exchange itself is an abstract outcome handed in by the caller. */
module AfterShip {
  import opened Common

  const BaseUrl: string := "https://api.aftership.com/v4"
  /** Carrier slug used on delete: the carrier is not stored, so the provider detects it. */
  const Slug: string := "autodetect"
  /** The provider's meta code for an unknown or invalid tracking number. */
  const UnknownTrackingCode: int := 4004

  /** One carrier checkpoint, kept as an opaque JSON object. */
  datatype Checkpoint = Checkpoint(fields: map<string, string>)

  /** What the package store needs from the provider: current status and event history. */
  datatype TrackingData = TrackingData(status: string, timeline: seq<Checkpoint>)

  /** The `data.tracking` object of a successful answer. */
  datatype TrackingObject = TrackingObject(tag: string, checkpoints: Option<seq<Checkpoint>>)

  /** How the HTTP exchange ended: an answer whose body is `body`, or a rejection whose
      `response.data.meta.code` is `metaCode` (None when there was no response or no code). */
  datatype RemoteOutcome<T> = Answered(body: T) | Rejected(metaCode: Option<int>)

  datatype HttpMethod = Post | Delete

  /** Body of the create request: `{tracking: {tracking_number: code}}`. */
  datatype NewTracking = NewTracking(trackingNumber: string)
  datatype CreateBody = CreateBody(tracking: NewTracking)

  datatype Request = Request(verb: HttpMethod, url: string, body: Option<CreateBody>)

  /** The POST that registers `code`; the carrier is left for the provider to detect. */
  function CreateRequest(code: string): (r: Request)
    ensures r.verb == Post && r.url == BaseUrl + "/trackings"
    ensures r.body.Some? && r.body.value.tracking.trackingNumber == code
  {
    Request(Post, BaseUrl + "/trackings", Some(CreateBody(NewTracking(code))))
  }

  const DeletePrefix: string := BaseUrl + "/trackings/" + Slug + "/"

  /** The DELETE that unregisters `code`. */
  function DeleteRequest(code: string): (r: Request)
    ensures r.verb == Delete && r.body.None?
    ensures |r.url| == |DeletePrefix| + |code| && r.url[..|DeletePrefix|] == DeletePrefix
  {
    Request(Delete, DeletePrefix + code, None)
  }

  /** Reads the tracking code back out of a delete URL. */
  function DeletedCode(url: string): (r: Option<string>)
    ensures r.Some? ==> url == DeletePrefix + r.value
  {
    if |url| >= |DeletePrefix| && url[..|DeletePrefix|] == DeletePrefix
    then Some(url[|DeletePrefix|..])
    else None
  }

  /** The delete URL names exactly the code it was built from. */
  lemma DeleteRequestNamesCode(code: string)
    ensures DeletedCode(DeleteRequest(code).url) == Some(code)
  {
    var url := DeleteRequest(code).url;
    assert url[|DeletePrefix|..] == code;
  }

  /** Distinct codes give distinct delete requests. */
  lemma DeleteRequestInjective(a: string, b: string)
    requires DeleteRequest(a) == DeleteRequest(b)
    ensures a == b
  {
    DeleteRequestNamesCode(a);
    DeleteRequestNamesCode(b);
  }

  /** `createTracking`: the result of registering `code`, given how the exchange ended.
      A missing `data.tracking` object fails inside the try block like a transport error. */
  function CreateTracking(code: string, outcome: RemoteOutcome<Option<TrackingObject>>): (r: Result<TrackingData, ApiError>)
    ensures r.Ok? <==> outcome.Answered? && outcome.body.Some?
    ensures r.Ok? ==> r.value.status == outcome.body.value.tag
    ensures r.Ok? && outcome.body.value.checkpoints.Some? ==> r.value.timeline == outcome.body.value.checkpoints.value
    ensures r.Ok? && outcome.body.value.checkpoints.None? ==> r.value.timeline == []
    ensures r.Err? ==> (r.error == NotFound <==> outcome == Rejected(Some(UnknownTrackingCode)))
    ensures r.Err? ==> r.error == NotFound || r.error == InternalServerError
  {
    match outcome
    case Answered(Some(t)) =>
      Ok(TrackingData(t.tag, if t.checkpoints.Some? then t.checkpoints.value else []))
    case Answered(None) => Err(InternalServerError)
    case Rejected(meta) => Err(ClassifyRejection(meta))
  }

  /** The catch block of `createTracking`: only meta code 4004 means "unknown code". */
  function ClassifyRejection(metaCode: Option<int>): (e: ApiError)
    ensures e == NotFound <==> metaCode == Some(UnknownTrackingCode)
    ensures e != NotFound ==> e == InternalServerError
  {
    if metaCode == Some(UnknownTrackingCode) then NotFound else InternalServerError
  }

  /** `deleteTracking`: whatever the provider answers, the call completes normally. */
  function DeleteTracking(code: string, outcome: RemoteOutcome<()>): (r: Completion)
    ensures r == Completed
  {
    match outcome
    case Answered(_) => Completed
    case Rejected(_) => Completed
  }
}
