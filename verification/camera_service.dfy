/**
 * CameraService: the stateless router in front of PMCamera. PerformRequest
 * decides, from the request alone, between a 400, a 405 and one of the three
 * PMCamera handlers; the host's three callbacks (responseReturn, dataReturn,
 * requestComplete) are modelled as the sequence of events they receive.
 */
module CameraService {
  import opened CameraTypes
  import opened CameraOptions
  import opened FileCache
  import opened CameraReplies
  import opened PMCameraModel

  const StatusOK: nat := 200
  const StatusBadRequest: nat := 400
  const StatusMethodNotAllowed: nat := 405

  type Headers = map<string, string>

  const AllowHeader: Headers := map["Allow" := "POST, DELETE, GET"]

  /** The parts of NSURL the service reads. */
  datatype Url = Url(path: Option<string>, query: Option<string>, lastPathComponent: string)

  /** A parsed body: a string-keyed dictionary, or any other JSON value. */
  datatype Json = JsonObject(fields: Options) | JsonOther

  /** HTTPBody as JSONSerialization sees it. */
  datatype Body = Unparsable | Parsed(json: Json)

  datatype Request = Request(url: Option<Url>, httpMethod: Option<string>, body: Option<Body>)

  /** What performRequest does with a request. */
  datatype Dispatch =
    | Reject(status: nat, headers: Headers)
    | CallPOST(options: Options)
    | CallGET(entity: string)
    | CallDELETE(entity: string)

  /** The guard at the top of performRequest. */
  predicate HasUrlPathMethod(req: Request)
  {
    req.url.Some? && req.url.value.path.Some? && req.httpMethod.Some?
  }

  /** handlePOSTRequest's guards: no query, a body, parseable JSON, a dictionary. */
  function HandlePOST(req: Request): (d: Dispatch)
    requires req.url.Some?
    ensures d.Reject? || d.CallPOST?
    ensures d.CallPOST? <==> req.url.value.query.None? && req.body.Some? && req.body.value.Parsed?
                             && req.body.value.json.JsonObject?
    ensures d.Reject? ==> d == Reject(StatusBadRequest, map[])
    ensures d.CallPOST? ==> req.body == Some(Parsed(JsonObject(d.options)))
  {
    if req.url.value.query.Some? then Reject(StatusBadRequest, map[])
    else match req.body
      case None => Reject(StatusBadRequest, map[])
      case Some(Unparsable) => Reject(StatusBadRequest, map[])
      case Some(Parsed(JsonOther)) => Reject(StatusBadRequest, map[])
      case Some(Parsed(JsonObject(fields))) => CallPOST(fields)
  }

  /** performRequest: each request gets exactly one of a 400, a 405 or a handler. */
  function PerformRequest(req: Request): (d: Dispatch)
    ensures !HasUrlPathMethod(req) ==> d == Reject(StatusBadRequest, map[])
    ensures d.Reject? ==> d == Reject(StatusBadRequest, map[]) || d == Reject(StatusMethodNotAllowed, AllowHeader)
    ensures d == Reject(StatusMethodNotAllowed, AllowHeader) <==>
              HasUrlPathMethod(req) && req.httpMethod.value != "POST"
              && req.httpMethod.value != "DELETE" && req.httpMethod.value != "GET"
    ensures d.CallGET? <==> HasUrlPathMethod(req) && req.httpMethod.value == "GET"
    ensures d.CallDELETE? <==> HasUrlPathMethod(req) && req.httpMethod.value == "DELETE"
    ensures d.CallGET? || d.CallDELETE? ==> d.entity == req.url.value.lastPathComponent
    ensures d.CallPOST? <==>
              HasUrlPathMethod(req) && req.httpMethod.value == "POST" && req.url.value.query.None?
              && req.body.Some? && req.body.value.Parsed? && req.body.value.json.JsonObject?
    ensures d.CallPOST? ==> req.body == Some(Parsed(JsonObject(d.options)))
  {
    if !HasUrlPathMethod(req) then Reject(StatusBadRequest, map[])
    else
      var verb := req.httpMethod.value;
      if verb == "POST" then HandlePOST(req)
      else if verb == "DELETE" then CallDELETE(req.url.value.lastPathComponent)
      else if verb == "GET" then CallGET(req.url.value.lastPathComponent)
      else Reject(StatusMethodNotAllowed, AllowHeader)
  }

  /** Method names are matched exactly: a lower-case "get" is not allowed. */
  lemma MethodMatchIsExact(req: Request)
    requires HasUrlPathMethod(req) && req.httpMethod.value in {"get", "post", "delete", "PUT"}
    ensures PerformRequest(req) == Reject(StatusMethodNotAllowed, AllowHeader)
  {
  }

  /** A POST that fails any body check is answered 400 and never reaches PMCamera. */
  lemma PostBodyChecks(req: Request)
    requires HasUrlPathMethod(req) && req.httpMethod.value == "POST"
    requires req.url.value.query.Some? || req.body.None? || req.body == Some(Unparsable)
             || req.body == Some(Parsed(JsonOther))
    ensures PerformRequest(req) == Reject(StatusBadRequest, map[])
  {
  }

  /** What the host's three callbacks receive, in order. */
  datatype Event = Response(status: nat, headers: Headers) | Data(payload: Envelope) | Complete

  /** respondWithErrorStatus: one exchange made of the status response and completion, with no data. */
  function ErrorStatusEvents(status: nat, headers: Headers): (r: seq<Event>)
    ensures OneExchange(r)
    ensures r[0] == Response(status, headers)
    ensures forall e :: e in r ==> !e.Data?
  {
    [Response(status, headers), Complete]
  }

  /**
   * Either closure passed to PMCamera: one exchange made of the default 200
   * response, the payload as its only data, and completion.
   */
  function CallbackEvents(payload: Envelope): (r: seq<Event>)
    ensures OneExchange(r)
    ensures r[0] == Response(StatusOK, map[])
    ensures forall e :: e in r && e.Data? ==> e == Data(payload)
    ensures Data(payload) in r
  {
    [Response(StatusOK, map[]), Data(payload), Complete]
  }

  /** The events a run of callback invocations produces. */
  function DeliveryEvents(ds: seq<Delivery>): seq<Event>
  {
    if ds == [] then [] else CallbackEvents(ds[0].payload) + DeliveryEvents(ds[1..])
  }

  /** One HTTP exchange: one response first, data in between, one completion last. */
  predicate OneExchange(events: seq<Event>)
  {
    && |events| >= 2
    && events[0].Response?
    && events[|events| - 1] == Complete
    && forall i :: 0 < i < |events| - 1 ==> events[i].Data?
  }

  /**
   * The whole service for one request: route it, hand it to PMCamera with a
   * fresh pair of closures, and collect the events those closures emit
   * during the call. A POST's answer normally arrives later, from the picker;
   * a POST whose source type traps gets no answer and halts the service.
   */
  method Serve(camera: PMCamera, req: Request, errorReturn: Callback, successReturn: Callback, cameraAvailable: bool)
    returns (events: seq<Event>, trapped: bool)
    requires camera.Valid() && !camera.halted
    modifies camera
    ensures camera.Valid()
    ensures camera.halted == trapped
    ensures trapped <==> PerformRequest(req).CallPOST? && old(camera.state) == Idle
                         && SourceTypeOf(PerformRequest(req).options).None?
    ensures trapped ==> events == [] && camera.log == old(camera.log)
    ensures |old(camera.log)| <= |camera.log| && camera.log[..|old(camera.log)|] == old(camera.log)
    ensures forall d :: d in camera.log[|old(camera.log)|..] ==> d.target == errorReturn || d.target == successReturn
    ensures PerformRequest(req).Reject? ==>
              && events == ErrorStatusEvents(PerformRequest(req).status, PerformRequest(req).headers)
              && unchanged(camera)
    ensures !PerformRequest(req).Reject? ==> events == DeliveryEvents(camera.log[|old(camera.log)|..])
    ensures PerformRequest(req).CallGET? || PerformRequest(req).CallDELETE? ==>
              |camera.log| == |old(camera.log)| + 1 && OneExchange(events)
    ensures PerformRequest(req).CallPOST? ==>
              |camera.log| <= |old(camera.log)| + 1 && (events == [] || OneExchange(events))
  {
    var before := camera.log;
    var d := PerformRequest(req);
    trapped := false;
    if d.Reject? {
      events := ErrorStatusEvents(d.status, d.headers);
      return;
    }
    if d.CallPOST? {
      trapped := camera.ProcessPOSTRequest(d.options, errorReturn, successReturn, cameraAvailable);
    } else if d.CallGET? {
      camera.ProcessGETRequest(d.entity, errorReturn, successReturn);
    } else {
      camera.ProcessDeleteRequest(d.entity, errorReturn, successReturn);
    }
    assert |camera.log| == |before| || |camera.log| == |before| + 1;
    var added := camera.log[|before|..];
    DeliveryEventsOfAtMostOne(added);
    events := DeliveryEvents(added);
  }

  /** At most one callback invocation makes no events, or exactly one exchange. */
  lemma DeliveryEventsOfAtMostOne(ds: seq<Delivery>)
    requires |ds| <= 1
    ensures ds == [] ==> DeliveryEvents(ds) == []
    ensures |ds| == 1 ==> DeliveryEvents(ds) == CallbackEvents(ds[0].payload) && OneExchange(DeliveryEvents(ds))
  {
    if |ds| == 1 {
      assert ds[1..] == [];
    }
  }

  /**
   * A capture on screen turns away a GET and a DELETE with the busy error,
   * to their own error callbacks; the capture's own callback still fires
   * once when the user cancels, after which a GET is served again.
   */
  method BusyWhileCapturing(options: Options, store: Store) returns (log: seq<Delivery>)
    requires SourceTypeOf(options) == Some(PhotoLibrary)
    requires Photo in store
    ensures log == [ Delivery(Callback(2), BusyEnvelope())
                   , Delivery(Callback(4), BusyEnvelope())
                   , Delivery(Callback(0), MakeEnvelope(Error, "User cancelled"))
                   , Delivery(Callback(7), MakeEnvelope(PhotoLocation, Rendered(store[Photo]))) ]
  {
    var camera := new PMCamera("/Documents/image", "/Documents/video", store);
    var trapped := camera.ProcessPOSTRequest(options, Callback(0), Callback(1), true);
    camera.ProcessGETRequest("image", Callback(2), Callback(3));
    camera.ProcessDeleteRequest("image", Callback(4), Callback(5));
    camera.ImagePickerDidCancel();
    camera.ProcessGETRequest("image", Callback(6), Callback(7));
    log := camera.log;
  }

  /**
   * A POST whose sourceType has no case traps: no callback ever fires and
   * the service is halted, so no later request is served.
   */
  method TrapOnBadSourceType(store: Store) returns (trapped: bool, halted: bool, log: seq<Delivery>)
    ensures trapped && halted && log == []
  {
    var camera := new PMCamera("/Documents/image", "/Documents/video", store);
    var options := map["sourceType" := IntValue(7), "output" := IntValue(0)];
    assert IntOption(options, "sourceType") == Some(7);
    trapped := camera.ProcessPOSTRequest(options, Callback(0), Callback(1), true);
    halted, log := camera.halted, camera.log;
  }

  /** Inline output of a picked photo answers with its base64 text under `image_src`. */
  method InlinePhotoCapture(base64: string, store: Store, guid: string) returns (log: seq<Delivery>)
    ensures log == [Delivery(Callback(1), map["image_src" := base64])]
  {
    var camera := new PMCamera("/Documents/image", "/Documents/video", store);
    var options := map["sourceType" := IntValue(0), "mediaType" := IntValue(0),
                       "output" := IntValue(1), "compression" := IntValue(80)];
    assert SourceTypeOf(options) == Some(PhotoLibrary);
    var trapped := camera.ProcessPOSTRequest(options, Callback(0), Callback(1), true);
    camera.ImagePickerDidFinish(PickedMedia(ImageType, base64), true, guid);
    assert OutputTypeOf(camera.mOptions.value) == PhotoSrc;
    log := camera.log;
  }

  /**
   * Deleting three cached photos empties the directory with a success
   * message, and the next GET reads "No files yet...".
   */
  method DeleteThenList(a: string, b: string, c: string) returns (log: seq<Delivery>)
    ensures log == [ Delivery(Callback(1), map["message" := "Files deleted successfully"])
                   , Delivery(Callback(3), map["image_location" := "No files yet..."]) ]
  {
    var camera := new PMCamera("/Documents/image", "/Documents/video", map[Photo := [a, b, c], Video := []]);
    camera.ProcessDeleteRequest("image", Callback(0), Callback(1));
    assert camera.files[Photo] == [];
    camera.ProcessGETRequest("image", Callback(2), Callback(3));
    log := camera.log;
  }
}
