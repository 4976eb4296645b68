/** The request-building and error-routing core of src/services/ApiService.js:
    how `ApiResource` splits its arguments into a URL path and an axios request
    config, how `get`/`post` tag plain response data with the HTTP status, and how
    `API.get`, `API.post` and `API.delete` route a failed request to the registered
    callbacks and decide between rethrowing and yielding `null`. */
module ApiService {
  import opened Common

  /** A property key: a string name, or the `Status` symbol used to tag responses. */
  datatype PropKey = Name(name: string) | StatusTag

  /** The JavaScript values the arguments and payloads are made of. `PlainObject` is an
      object whose constructor is `Object`; `Instance` is any other object, with the
      text its `toString` gives. */
  datatype JsValue =
    | Undefined
    | Null
    | Bool(b: bool)
    | Number(n: int)
    | Str(s: string)
    | Array(items: seq<JsValue>)
    | PlainObject(props: map<PropKey, JsValue>)
    | Instance(text: string)

  const EmptyObject: JsValue := PlainObject(map[])

  /** JavaScript truthiness. */
  predicate Truthy(v: JsValue) {
    match v
    case Undefined => false
    case Null => false
    case Bool(b) => b
    case Number(n) => n != 0
    case Str(s) => s != ""
    case _ => true
  }

  /** `o[key]`, `undefined` when the property is absent. */
  function Prop(props: map<PropKey, JsValue>, key: string): JsValue {
    if Name(key) in props then props[Name(key)] else Undefined
  }

  /** The string-named keys: what `Object.keys` lists (symbols are left out). */
  function NamedKeys(props: map<PropKey, JsValue>): set<PropKey> {
    set k | k in props && k.Name?
  }

  /** `Object.keys(o).length`. */
  function KeyCount(props: map<PropKey, JsValue>): nat {
    |NamedKeys(props)|
  }

  /** `Array.prototype.flat()` with depth one: array arguments are spliced in. */
  function Flat(args: seq<JsValue>): seq<JsValue> {
    if args == [] then []
    else (if args[0].Array? then args[0].items else [args[0]]) + Flat(args[1..])
  }

  /** Flattening leaves a list without arrays as it is. */
  lemma {:induction false} FlatWithoutArrays(args: seq<JsValue>)
    requires forall i :: 0 <= i < |args| ==> !args[i].Array?
    ensures Flat(args) == args
  {
    if args != [] {
      FlatWithoutArrays(args[1..]);
    }
  }

  /** Flattening distributes over concatenation. */
  lemma {:induction false} FlatAppend(a: seq<JsValue>, b: seq<JsValue>)
    ensures Flat(a + b) == Flat(a) + Flat(b)
  {
    if a != [] {
      assert (a + b)[1..] == a[1..] + b;
      FlatAppend(a[1..], b);
    } else {
      assert a + b == b;
    }
  }

  /** The text `join` gives an element: `undefined` and `null` become empty, arrays
      are joined with commas. */
  function Text(v: JsValue): string {
    match v
    case Undefined => ""
    case Null => ""
    case Bool(b) => if b then "true" else "false"
    case Number(n) => IntToString(n)
    case Str(s) => s
    case Array(items) => Join(seq(|items|, i requires 0 <= i < |items| => Text(items[i])), ",")
    case PlainObject(_) => "[object Object]"
    case Instance(t) => t
  }

  function Texts(args: seq<JsValue>): (r: seq<string>)
    ensures |r| == |args|
  {
    seq(|args|, i requires 0 <= i < |args| => Text(args[i]))
  }

  /** The request config `ApiResource` hands to axios. */
  datatype Config = Config(
    headers: JsValue,
    params: JsValue,
    onUploadProgress: JsValue,
    cancelToken: JsValue,
    responseType: JsValue)

  datatype Resource = Resource(path: string, config: Config)

  /** The transport options moved out of the options object into the config. */
  const TransportKeys: set<PropKey> := {Name("onUploadProgress"), Name("cancelToken"), Name("responseType")}

  /** The trailing options object, when the last flattened argument is a plain object. */
  function Options(arguments: seq<JsValue>): Option<map<PropKey, JsValue>> {
    var args := Flat(arguments);
    if |args| > 0 && args[|args| - 1].PlainObject? then Some(args[|args| - 1].props) else None
  }

  /** The path segments: the flattened arguments without the options object. */
  function Segments(arguments: seq<JsValue>): (r: seq<JsValue>)
    ensures Options(arguments).None? ==> r == Flat(arguments)
    ensures Options(arguments).Some? ==> r + [PlainObject(Options(arguments).value)] == Flat(arguments)
  {
    var args := Flat(arguments);
    if |args| > 0 && args[|args| - 1].PlainObject? then args[..|args| - 1] else args
  }

  /** The headers are kept when they are a plain object and either nothing else is
      left, or exactly one more key is left and `params` is a plain object. */
  predicate HeadersKept(rest: map<PropKey, JsValue>) {
    Prop(rest, "headers").PlainObject? &&
    (KeyCount(rest) == 1 || (KeyCount(rest) == 2 && Prop(rest, "params").PlainObject?))
  }

  /** `new ApiResource(...arguments)`: flatten, pop a trailing plain object as options,
      move the transport options out of it, keep the headers only in the two shapes
      above, and join the remaining arguments into the path. */
  method NewResource(arguments: seq<JsValue>) returns (r: Resource)
    ensures r.path == "/" + Join(Texts(Segments(arguments)), "/")
    ensures Options(arguments).None? ==>
      r.config == Config(EmptyObject, EmptyObject, Undefined, Undefined, Undefined)
    ensures Options(arguments).Some? ==>
      var o := Options(arguments).value;
      var rest := o - TransportKeys;
      r.config.onUploadProgress == Prop(o, "onUploadProgress") &&
      r.config.cancelToken == Prop(o, "cancelToken") &&
      r.config.responseType == Prop(o, "responseType") &&
      (HeadersKept(rest) ==>
        r.config.headers == Prop(rest, "headers") &&
        r.config.params == (if Truthy(Prop(rest, "params")) then Prop(rest, "params") else EmptyObject)) &&
      (!HeadersKept(rest) ==> r.config.headers == EmptyObject && r.config.params == PlainObject(rest))
    ensures Options(arguments).Some? && !HeadersKept(Options(arguments).value - TransportKeys) ==>
      var o := Options(arguments).value;
      (forall k :: k in TransportKeys ==> k !in r.config.params.props) &&
      (forall k :: k in o && k !in TransportKeys ==> k in r.config.params.props && r.config.params.props[k] == o[k])
  {
    var args := Flat(arguments);
    var params := if |args| > 0 then args[|args| - 1] else Undefined;
    var headers := Undefined;
    var onUploadProgress, cancelToken, responseType := Undefined, Undefined, Undefined;
    if params.PlainObject? {
      args := args[..|args| - 1];
      var props := params.props;
      onUploadProgress := Prop(props, "onUploadProgress");
      props := props - {Name("onUploadProgress")};
      cancelToken := Prop(props, "cancelToken");
      props := props - {Name("cancelToken")};
      responseType := Prop(props, "responseType");
      props := props - {Name("responseType")};
      assert props == params.props - TransportKeys;
      headers := Prop(props, "headers");
      var size := KeyCount(props);
      if headers.PlainObject? && (size == 1 || (size == 2 && Prop(props, "params").PlainObject?)) {
        params := if Truthy(Prop(props, "params")) then Prop(props, "params") else EmptyObject;
      } else {
        headers := EmptyObject;
        params := PlainObject(props);
      }
    } else {
      headers, params := EmptyObject, EmptyObject;
    }
    r := Resource("/" + Join(Texts(args), "/"), Config(headers, params, onUploadProgress, cancelToken, responseType));
  }

  /** When the headers are the only property left, the request goes out without params. */
  lemma HeadersOnlyMeansNoParams(rest: map<PropKey, JsValue>)
    requires HeadersKept(rest) && KeyCount(rest) == 1
    ensures Prop(rest, "params") == Undefined
  {
    assert Name("headers") in NamedKeys(rest);
    if Name("params") in rest {
      assert {Name("headers"), Name("params")} <= NamedKeys(rest);
      assert |{Name("headers"), Name("params")}| == 2;
      SubsetCard({Name("headers"), Name("params")}, NamedKeys(rest));
      assert false;
    }
  }

  lemma SubsetCard<T>(a: set<T>, b: set<T>)
    requires a <= b
    ensures |a| <= |b|
  {
    assert b == a + (b - a);
  }

  /** With string and number arguments only and no options, the path is the arguments
      joined by "/" after a leading "/". */
  lemma PathOfPlainSegments(arguments: seq<JsValue>)
    requires forall i :: 0 <= i < |arguments| ==> arguments[i].Str? || arguments[i].Number?
    ensures Options(arguments).None?
    ensures Segments(arguments) == arguments
  {
    FlatWithoutArrays(arguments);
  }

  /** One more path segment appends "/" and its text to the path. */
  lemma PathSnoc(segments: seq<JsValue>, v: JsValue)
    ensures "/" + Join(Texts(segments + [v]), "/") ==
      if segments == [] then "/" + Text(v) else "/" + Join(Texts(segments), "/") + "/" + Text(v)
  {
    assert Texts(segments + [v]) == Texts(segments) + [Text(v)];
    JoinSnoc(Texts(segments), Text(v), "/");
  }

  /** `data[Status] = response.status` on plain-object data; anything else is returned as it is. */
  function TagStatus(data: JsValue, status: int): (r: JsValue)
    ensures r.PlainObject? <==> data.PlainObject?
    ensures !data.PlainObject? ==> r == data
    ensures data.PlainObject? ==> StatusTag in r.props && r.props[StatusTag] == Number(status)
  {
    if data.PlainObject? then PlainObject(data.props[StatusTag := Number(status)]) else data
  }

  /** Tagging touches no named property: `Object.keys` and every named value are unchanged. */
  lemma TagStatusKeepsNamedProperties(data: JsValue, status: int)
    requires data.PlainObject?
    ensures NamedKeys(TagStatus(data, status).props) == NamedKeys(data.props)
    ensures forall k :: k in NamedKeys(data.props) ==> TagStatus(data, status).props[k] == data.props[k]
  {
  }

  /** `API.post(...args, data)`: the last argument is the payload, the others go to
      `ApiResource`. */
  function PostSplit(args: seq<JsValue>): (r: (seq<JsValue>, JsValue))
    ensures args == [] ==> r == ([], Undefined)
    ensures args != [] ==> r.0 + [r.1] == args
  {
    if args == [] then ([], Undefined) else (args[..|args| - 1], args[|args| - 1])
  }

  datatype HttpMethod = Get | Post | Delete

  /** A failed request: an axios cancellation, an error response with its status, or
      no response at all (connection refused, timeout). */
  datatype Failure = Cancel | ErrorResponse(status: int) | NoResponse

  /** Which registered callbacks a failure is fanned out to. */
  datatype Notify = NoCallbacks | ErrorCallbacks | ConnectionRefusedCallbacks

  /** What the observable does after the callbacks: rethrow the error or emit `null`. */
  datatype Outcome = Rethrow | YieldNull

  datatype Route = Route(notify: Notify, outcome: Outcome)

  /** The statuses for which an error response reaches no callback. */
  function SilentStatuses(m: HttpMethod): set<int> {
    match m
    case Get => {404, 403}
    case Post => {404, 403, 422}
    case Delete => {404, 422}
  }

  /** The `catchError` of each method, branch by branch. `post` has no cancellation
      check: a cancelled post has no response and is treated as a refused connection. */
  function CatchError(m: HttpMethod, f: Failure): (r: Route)
    ensures r.notify == ErrorCallbacks <==> f.ErrorResponse? && f.status !in SilentStatuses(m)
    ensures r.notify == ConnectionRefusedCallbacks <==> f.NoResponse? || (f.Cancel? && m == Post)
    ensures r.outcome == YieldNull <==>
      (m == Get && !f.Cancel?) || (m == Post && f.ErrorResponse? && f.status != 403 && f.status != 422)
  {
    match m
    case Get =>
      (match f
       case Cancel => Route(NoCallbacks, Rethrow)
       case ErrorResponse(s) => Route(if s != 404 && s != 403 then ErrorCallbacks else NoCallbacks, YieldNull)
       case NoResponse => Route(ConnectionRefusedCallbacks, YieldNull))
    case Post =>
      (match f
       case ErrorResponse(s) =>
         if s == 404 then Route(NoCallbacks, YieldNull)
         else if s == 403 || s == 422 then Route(NoCallbacks, Rethrow)
         else Route(ErrorCallbacks, YieldNull)
       case _ => Route(ConnectionRefusedCallbacks, Rethrow))
    case Delete =>
      (match f
       case Cancel => Route(NoCallbacks, Rethrow)
       case ErrorResponse(s) => Route(if s == 404 || s == 422 then NoCallbacks else ErrorCallbacks, Rethrow)
       case NoResponse => Route(ConnectionRefusedCallbacks, Rethrow))
  }

  /** Cancellations of `get` and `delete` are silent and rethrown; every `delete` failure is rethrown. */
  lemma CancelAndDeleteRethrow(m: HttpMethod, f: Failure)
    ensures m != Post && f.Cancel? ==> CatchError(m, f) == Route(NoCallbacks, Rethrow)
    ensures m == Delete ==> CatchError(m, f).outcome == Rethrow
  {
  }

  /** The module-level callback arrays registered through `API.onError` and
      `API.onConnectionRefused`. Callbacks are identified by number. */
  class Callbacks {
    var onError: seq<nat>
    var onConnectionRefused: seq<nat>

    constructor ()
      ensures onError == [] && onConnectionRefused == []
    {
      onError := [];
      onConnectionRefused := [];
    }

    method RegisterError(cb: nat)
      modifies this
      ensures onError == old(onError) + [cb] && onConnectionRefused == old(onConnectionRefused)
    {
      onError := onError + [cb];
    }

    method RegisterConnectionRefused(cb: nat)
      modifies this
      ensures onConnectionRefused == old(onConnectionRefused) + [cb] && onError == old(onError)
    {
      onConnectionRefused := onConnectionRefused + [cb];
    }

    /** The callbacks a failure invokes, in registration order (the `forEach`). */
    function Invoked(m: HttpMethod, f: Failure): (r: seq<nat>)
      reads this
      ensures CatchError(m, f).notify == NoCallbacks ==> r == []
      ensures CatchError(m, f).notify == ErrorCallbacks ==> r == onError
      ensures CatchError(m, f).notify == ConnectionRefusedCallbacks ==> r == onConnectionRefused
    {
      match CatchError(m, f).notify
      case NoCallbacks => []
      case ErrorCallbacks => onError
      case ConnectionRefusedCallbacks => onConnectionRefused
    }
  }
}
