/**
 * The probe middleware of lorry's HTTP server: a GET on the bindings route is
 * turned into a POST whose body carries the operation and the query
 * arguments as request metadata.
 */
module ChecksMiddleware {
  import opened Wrappers

  type bytes = seq<bv8>

  const BindingPath: string := "/v1.0/bindings"
  const OperationKey: string := "operation"
  const MethodGet: string := "GET"
  const MethodPost: string := "POST"

  /** The request body before encoding: the operation and its metadata. */
  datatype RequestMeta = RequestMeta(operation: string, metadata: map<string, string>)

  predicate HasPrefix(s: string, prefix: string)
  {
    |prefix| <= |s| && s[..|prefix|] == prefix
  }

  /**
   * Whether a query argument ends up in the metadata: never the operation
   * itself, and a multi-valued (or empty) one only when its list encodes.
   */
  predicate Kept(key: string, values: seq<string>, marshal: seq<string> -> Option<string>)
  {
    key != OperationKey && (|values| == 1 || marshal(values).Some?)
  }

  /** The metadata value of a kept argument. */
  function Value(values: seq<string>, marshal: seq<string> -> Option<string>): string
    requires |values| == 1 || marshal(values).Some?
  {
    if |values| == 1 then values[0] else marshal(values).value
  }

  /** The metadata built from the query arguments; `marshal` is the JSON encoder of a string list. */
  function Metadata(args: map<string, seq<string>>, marshal: seq<string> -> Option<string>): (m: map<string, string>)
    ensures OperationKey !in m
    ensures m.Keys <= args.Keys
    ensures forall k :: k in args && k != OperationKey && |args[k]| == 1 ==> k in m && m[k] == args[k][0]
    ensures forall k :: k in args && k != OperationKey && |args[k]| != 1 ==>
      && (k in m <==> marshal(args[k]).Some?)
      && (k in m ==> m[k] == marshal(args[k]).value)
  {
    map k | k in args && Kept(k, args[k], marshal) :: Value(args[k], marshal)
  }

  /** The value given for the operation key in the query never matters. */
  lemma MetadataIgnoresOperation(args: map<string, seq<string>>, values: seq<string>, marshal: seq<string> -> Option<string>)
    ensures Metadata(args[OperationKey := values], marshal) == Metadata(args - {OperationKey}, marshal)
    ensures Metadata(args, marshal) == Metadata(args - {OperationKey}, marshal)
  {
    var m1, m2 := Metadata(args[OperationKey := values], marshal), Metadata(args - {OperationKey}, marshal);
    assert m1.Keys == m2.Keys;
    var m3 := Metadata(args, marshal);
    assert m3.Keys == m2.Keys;
  }

  /**
   * When every argument has a single value, the metadata is the query
   * without the operation key, whatever the list encoder does.
   */
  lemma MetadataOfSingleValues(args: map<string, seq<string>>, marshal: seq<string> -> Option<string>)
    requires forall k :: k in args ==> |args[k]| == 1
    ensures Metadata(args, marshal) == map k | k in args && k != OperationKey :: args[k][0]
  {
  }

  /**
   * GetRequestBody: walk the query arguments filling the metadata map, then
   * encode the request meta with `encode`, the JSON encoder of the body.
   */
  method GetRequestBody(
    operation: string, args: map<string, seq<string>>,
    marshal: seq<string> -> Option<string>, encode: RequestMeta -> bytes)
    returns (body: bytes)
    ensures body == encode(RequestMeta(operation, Metadata(args, marshal)))
  {
    var metadata: map<string, string> := map[];
    var pending := args.Keys;
    while pending != {}
      invariant pending <= args.Keys
      invariant metadata == map k | k in args.Keys - pending && Kept(k, args[k], marshal) :: Value(args[k], marshal)
      decreases pending
    {
      var key :| key in pending;
      var value := args[key];
      pending := pending - {key};
      if key == OperationKey {
        continue;
      }
      if |value| == 1 {
        metadata := metadata[key := value[0]];
      } else {
        var encoded := marshal(value);
        if encoded.None? {
          continue;
        }
        metadata := metadata[key := encoded.value];
      }
    }
    assert args.Keys - pending == args.Keys;
    body := encode(RequestMeta(operation, metadata));
  }

  /** url.Values.Get: the first value of the key, or "" when there is none. */
  function QueryGet(query: map<string, seq<string>>, key: string): (v: string)
    ensures key in query && |query[key]| > 0 ==> v == query[key][0]
    ensures !(key in query && |query[key]| > 0) ==> v == ""
  {
    if key in query && |query[key]| > 0 then query[key][0] else ""
  }

  /** The operations the probe answers. */
  predicate IsProbeOperation(operation: string)
  {
    HasPrefix(operation, "get") || HasPrefix(operation, "check") || HasPrefix(operation, "list")
  }

  /** Whether the middleware rewrites the request at all: a GET on the bindings route. */
  predicate IsBindingGet(verb: string, path: string)
  {
    verb == MethodGet && HasPrefix(path, BindingPath)
  }

  lemma ProbeOperationExamples()
    ensures IsProbeOperation("getRole") && IsProbeOperation("checkStatus") && IsProbeOperation("listUsers")
    ensures !IsProbeOperation("") && !IsProbeOperation("createUser") && !IsProbeOperation("ge")
  {
    assert "getRole"[..3] == "get";
    assert "checkStatus"[..5] == "check";
    assert "listUsers"[..4] == "list";
    assert "createUser"[..3][0] != "get"[0];
    assert "createUser"[..5][1] != "check"[1];
    assert "createUser"[..4][0] != "list"[0];
  }

  /** The part of an incoming HTTP request the middleware reads and rewrites. */
  class Request {
    var verb: string
    var path: string
    var query: map<string, seq<string>>
    var body: bytes

    constructor (verb: string, path: string, query: map<string, seq<string>>, body: bytes)
      ensures this.verb == verb && this.path == path && this.query == query && this.body == body
    {
      this.verb := verb;
      this.path := path;
      this.query := query;
      this.body := body;
    }
  }

  /**
   * The request rewrite SetMiddleware performs before calling the next
   * handler: a GET on the bindings route becomes a POST, and for a probe
   * operation its body is replaced by the encoded request meta.
   */
  method SetMiddleware(request: Request, marshal: seq<string> -> Option<string>, encode: RequestMeta -> bytes)
    modifies request
    ensures request.path == old(request.path) && request.query == old(request.query)
    ensures request.verb == (if IsBindingGet(old(request.verb), old(request.path)) then MethodPost else old(request.verb))
    ensures var operation := QueryGet(old(request.query), OperationKey);
      request.body == (if IsBindingGet(old(request.verb), old(request.path)) && IsProbeOperation(operation)
                       then encode(RequestMeta(operation, Metadata(old(request.query), marshal)))
                       else old(request.body))
  {
    if request.verb == MethodGet && HasPrefix(request.path, BindingPath) {
      request.verb := MethodPost;
      var operation := QueryGet(request.query, OperationKey);
      if HasPrefix(operation, "get") || HasPrefix(operation, "check") || HasPrefix(operation, "list") {
        var body := GetRequestBody(operation, request.query, marshal, encode);
        request.body := body;
      }
    }
  }
}
