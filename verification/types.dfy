/**
 * Shared vocabulary of the camera service: response types, the one-key
 * response envelope, the untyped options dictionary, the errors the file
 * handling code throws, and the callbacks a request hands to PMCamera.
 */
module CameraTypes {

  datatype Option<T> = None | Some(value: T)

  datatype Result<T, E> = Success(value: T) | Failure(error: E)

  /** PMCamera.ResponseType: what a reply carries, and so which key it uses. */
  datatype ResponseType = PhotoSrc | PhotoLocation | VideoSrc | VideoLocation | Msg | Error

  /** The two kinds of cached media, each with its own directory. */
  datatype MediaKind = Photo | Video

  /** PMCamera.State: the single-flight guard. */
  datatype State = Idle | Processing

  /**
   * A value of the `[String: Any]` options dictionary as the getters see it:
   * either something Swift's `as? Int` accepts, or anything else.
   */
  datatype OptionValue = IntValue(n: int) | OtherValue

  type Options = map<string, OptionValue>

  /** PMCamera.PMCameraError, plus any other error whose localized description is reported. */
  datatype CameraError =
    | FileHandlingError(msg: string)
    | MaxCacheError(msg: string)
    | PlatformError(description: string)

  /** The text each catch clause turns an error into. */
  function ErrorMessage(e: CameraError): string
  {
    match e
    case FileHandlingError(m) => m
    case MaxCacheError(m) => m
    case PlatformError(d) => d
  }

  /** The dictionary sent back as JSON: key to string value. */
  type Envelope = map<string, string>

  /** The key sendResponse uses for each response type. */
  function ResponseKey(t: ResponseType): string
  {
    match t
    case PhotoSrc => "image_src"
    case PhotoLocation => "image_location"
    case VideoSrc => "video_src"
    case VideoLocation => "video_location"
    case Msg => "message"
    case Error => "error"
  }

  /** Reads a key back to its response type; the partner of ResponseKey. */
  function ResponseTypeOfKey(k: string): (r: Option<ResponseType>)
    ensures r.Some? ==> ResponseKey(r.value) == k
  {
    if k == "image_src" then Some(PhotoSrc)
    else if k == "image_location" then Some(PhotoLocation)
    else if k == "video_src" then Some(VideoSrc)
    else if k == "video_location" then Some(VideoLocation)
    else if k == "message" then Some(Msg)
    else if k == "error" then Some(Error)
    else None
  }

  /** Every response type has its own key: reading the key back gives the type. */
  lemma ResponseKeyRoundTrip(t: ResponseType)
    ensures ResponseTypeOfKey(ResponseKey(t)) == Some(t)
  {
  }

  /** Two response types never share a key. */
  lemma ResponseKeyInjective(t: ResponseType, u: ResponseType)
    requires ResponseKey(t) == ResponseKey(u)
    ensures t == u
  {
  }

  /** The dictionary sendResponse builds: exactly one key, chosen by the type. */
  function MakeEnvelope(t: ResponseType, msg: string): (r: Envelope)
    ensures r.Keys == {ResponseKey(t)}
    ensures |r| == 1
    ensures r[ResponseKey(t)] == msg
  {
    map[ResponseKey(t) := msg]
  }

  const BusyMessage: string := "Already processing a request, Please try again."

  /** The payload of sendBusyResponse. */
  function BusyEnvelope(): (r: Envelope)
    ensures r.Keys == {"error"} && r["error"] == BusyMessage
  {
    MakeEnvelope(Error, BusyMessage)
  }

  /** A closure handed to PMCamera, known only by its identity. */
  datatype Callback = Callback(id: nat)

  /** One invocation of a callback with a JSON payload. */
  datatype Delivery = Delivery(target: Callback, payload: Envelope)

  /** A reply as sendResponse receives it: a message and its type. */
  datatype Reply = Reply(kind: ResponseType, msg: string)

  /** The delivery sendResponse makes for a reply, given the stored callbacks. */
  function Deliver(errorReturn: Callback, successReturn: Callback, reply: Reply): (d: Delivery)
    ensures d.payload.Keys == {ResponseKey(reply.kind)} && d.payload[ResponseKey(reply.kind)] == reply.msg
    ensures reply.kind == Error ==> d.target == errorReturn
    ensures reply.kind != Error ==> d.target == successReturn
    ensures errorReturn != successReturn ==> (d.target == errorReturn <==> reply.kind == Error)
  {
    Delivery(if reply.kind == Error then errorReturn else successReturn, MakeEnvelope(reply.kind, reply.msg))
  }
}
