/**
 * The request executor behind every hook: one asynchronous HTTP call against
 * a fixed base address, tracked by three state cells (`data`, `loading`,
 * `error`), and the four wrappers that fix the path and method for listing,
 * creating, updating and deleting users. The network is not modelled: how a
 * call ends is an input.
 */
module Api {
  import opened Common

  datatype Method = GET | POST | PATCH | DELETE

  const BASE_URL := "http://localhost:4002/api"
  const FALLBACK_ERROR := "Something went wrong"

  /** The arguments a wrapper passes to `fetchData`: a path, a method and an optional payload. */
  datatype Call = Call(path: string, verb: Method, payload: Option<User>)

  /**
   * What `fetch` is asked to send: the absolute URL, the method and the
   * record that is serialized as the JSON body (`None` for a `null` body).
   * The `Content-Type: application/json` header is the same on every request.
   */
  datatype Request = Request(url: string, verb: Method, body: Option<User>)

  /**
   * A value caught by the `catch` block: an `Error` object (which has a
   * `message` property), or any other value, of which only a property
   * spelt `mesage` matters here.
   */
  datatype Thrown = ErrorObject(message: string) | OtherValue(mesage: Option<string>)

  /**
   * How a call ends: a response with `ok` set and a body that parses as `T`,
   * a response without `ok`, or a value thrown by `fetch` or by `json()`.
   */
  datatype Outcome<T> = Ok(body: T) | NotOk(statusText: string) | Threw(thrown: Thrown)

  /** Only POST and PATCH carry a body. */
  predicate SendsBody(m: Method) {
    m == POST || m == PATCH
  }

  /** The request `fetchData` issues for a call (lines 29-36). */
  function RequestFor(call: Call): Request {
    Request(BASE_URL + call.path, call.verb, if SendsBody(call.verb) then call.payload else None)
  }

  /** The part of a URL after the base address, if it starts with it. */
  function StripBase(url: string): Option<string> {
    if |BASE_URL| <= |url| && url[..|BASE_URL|] == BASE_URL then Some(url[|BASE_URL|..]) else None
  }

  /**
   * Every URL is the base address followed by the call's path, and the
   * body is the payload exactly for POST and PATCH.
   */
  lemma RequestForShape(call: Call)
    ensures StripBase(RequestFor(call).url) == Some(call.path)
    ensures RequestFor(call).verb == call.verb
    ensures SendsBody(call.verb) ==> RequestFor(call).body == call.payload
    ensures !SendsBody(call.verb) ==> RequestFor(call).body == None
  {
    var url := RequestFor(call).url;
    assert url[..|BASE_URL|] == BASE_URL;
    assert url[|BASE_URL|..] == call.path;
  }

  /** The value the `catch` block receives for a call that failed. */
  function Caught<T>(outcome: Outcome<T>): Thrown
    requires !outcome.Ok?
  {
    match outcome
    case NotOk(statusText) => ErrorObject("Error: " + statusText)
    case Threw(thrown) => thrown
  }

  /** `error.mesage || 'Something went wrong'`: an `Error` has no `mesage` property. */
  function StoredError(thrown: Thrown): string {
    match thrown
    case ErrorObject(_) => FALLBACK_ERROR
    case OtherValue(mesage) => if mesage.Some? && mesage.value != "" then mesage.value else FALLBACK_ERROR
  }

  /**
   * The stored error is never empty, and for every `Error` (in particular
   * for every response without `ok`, whatever its status text) it is the
   * fallback text: the message the code builds is never shown.
   */
  lemma StoredErrorIsFallbackForErrors<T>(outcome: Outcome<T>)
    requires !outcome.Ok?
    ensures StoredError(Caught(outcome)) != ""
    ensures Caught(outcome).ErrorObject? ==> StoredError(Caught(outcome)) == FALLBACK_ERROR
    ensures outcome.NotOk? ==> StoredError(Caught(outcome)) != Caught(outcome).message
  {
    if outcome.NotOk? {
      var text := "Error: " + outcome.statusText;
      assert text[0] != FALLBACK_ERROR[0];
    }
  }

  // ---------------------------------------------------------------------------
  // The wrappers

  const USERS_PATH := "/users"

  /** `useGet(url).getData()`: the path is fixed; the hook's `url` is ignored. */
  function GetCall(url: string): Call {
    Call(USERS_PATH, GET, None)
  }

  /** `usePost(url).postData(payload)`. */
  function PostCall(url: string, payload: User): Call {
    Call(url, POST, Some(payload))
  }

  /** `usePatch(url).patchData(payload, id)`. */
  function PatchCall(url: string, payload: User, id: string): Call {
    Call(url + "/" + id, PATCH, Some(payload))
  }

  /** `useDelete(url).deletedData(id)`. */
  function DeleteCall(url: string, id: string): Call {
    Call(url + "/" + id, DELETE, None)
  }

  /** The requests the four wrappers put on the wire. */
  lemma WrapperRequests(url: string, other: string, payload: User, id: string)
    ensures RequestFor(GetCall(url)) == RequestFor(GetCall(other)) == Request(BASE_URL + "/users", GET, None)
    ensures RequestFor(PostCall(url, payload)) == Request(BASE_URL + url, POST, Some(payload))
    ensures RequestFor(PatchCall(url, payload, id)) == Request(BASE_URL + url + "/" + id, PATCH, Some(payload))
    ensures RequestFor(DeleteCall(url, id)) == Request(BASE_URL + url + "/" + id, DELETE, None)
  {
    assert BASE_URL + (url + "/" + id) == BASE_URL + url + "/" + id;
  }

  /** The id in a PATCH or DELETE path is what follows the hook's `url` and a slash. */
  lemma ItemPathRecoversId(url: string, id: string)
    ensures var path := DeleteCall(url, id).path;
      path == PatchCall(url, User(None, "", ""), id).path
      && path[..|url| + 1] == url + "/" && path[|url| + 1..] == id
  {
    var path := url + "/" + id;
    assert path[..|url| + 1] == url + "/";
  }

  // ---------------------------------------------------------------------------
  // The executor

  /** The state cells of one `useFetch` instance. */
  class Executor<T> {
    var data: Option<T>
    var loading: bool
    var error: Option<string>

    /** The initial state: no data, not loading, and an empty error text (lines 19-21). */
    constructor ()
      ensures data == None && !loading && error == Some("")
    {
      data := None;
      loading := false;
      error := Some("");
    }

    /**
     * The part of `fetchData` that runs before its first `await`: mark the
     * call as loading, clear the error, and put the request on the wire.
     */
    method Begin(call: Call) returns (req: Request)
      modifies this`loading, this`error
      ensures loading && error == None
      ensures req == RequestFor(call)
    {
      loading := true;
      error := None;
      req := RequestFor(call);
    }

    /**
     * The part that runs once the call has ended: store the parsed body, or
     * keep the old data and store the caught error; in both cases stop loading.
     */
    method Settle(outcome: Outcome<T>)
      modifies this`data, this`error, this`loading
      ensures !loading
      ensures outcome.Ok? ==> data == Some(outcome.body) && error == old(error)
      ensures !outcome.Ok? ==> data == old(data) && error == Some(StoredError(Caught(outcome)))
    {
      match outcome {
        case Ok(body) =>
          data := Some(body);
        case NotOk(_) =>
          error := Some(StoredError(Caught(outcome)));
        case Threw(_) =>
          error := Some(StoredError(Caught(outcome)));
      }
      loading := false;
    }

    /** One whole call of `fetchData` that nothing else overlaps (lines 23-46). */
    method FetchData(call: Call, outcome: Outcome<T>) returns (req: Request)
      modifies this
      ensures req == RequestFor(call)
      ensures !loading
      ensures outcome.Ok? ==> data == Some(outcome.body) && error == None
      ensures !outcome.Ok? ==> data == old(data) && error == Some(StoredError(Caught(outcome)))
    {
      req := Begin(call);
      Settle(outcome);
    }
  }
}
