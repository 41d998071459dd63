/**
 * The pure half of the generated service-worker entry (both copies, the
 * rspack one and the rsbuild one): calling the workers, zipping their
 * values into a chunk map, string-mode assembly of the document, the
 * bootstrap and settlement scripts, and the fetch handler's choice between
 * rendering and the network.
 *
 * JSON serialisation and React rendering are opaque: they enter as
 * function-typed parameters and plain inputs.
 */
module Render {
  import opened Wrappers
  import opened Text
  import opened Js
  import Constants

  /** The text node appended after the app so the end of the shell can be recognised. */
  const StreamEnding := "__SWSR_STREAM_ENDING__"

  /** The build-time rendering mode substituted for `{{mode}}`. */
  datatype Mode = StringMode | StreamMode

  /**
   * `JSON.stringify` on each kind of value the worker entry serialises. On
   * the chunk map it gives nothing when it throws (a `BigInt` or a cyclic
   * value inside).
   */
  datatype Serializer<-V> = Serializer(
    value: V -> string,
    text: string -> string,
    names: seq<string> -> string,
    record: map<string, V> -> Option<string>)

  /** What calling one worker function did: it threw, or returned a promise that settled so. */
  datatype Invocation<V> = Threw | Returned(settlement: Settlement<V>)

  /** The argument workers are called with: the request (rspack entry) or none (rsbuild entry). */
  datatype WorkerArg = RequestArg(request: Request) | NoArg

  /** The two request properties the handler reads. */
  datatype Request = Request(mode: string, pathname: string)

  /** One call `worker[key](arg)`. */
  datatype Call = Call(key: string, arg: WorkerArg)

  /** Index of the first worker that throws when called, if any. */
  function FirstThrow<V>(results: seq<Invocation<V>>): (r: Option<nat>)
    ensures r.Some? ==> r.value < |results| && results[r.value].Threw?
    ensures r.Some? ==> forall j :: 0 <= j < r.value ==> results[j].Returned?
    ensures r.None? <==> forall j :: 0 <= j < |results| ==> results[j].Returned?
  {
    if |results| == 0 then None
    else if results[0].Threw? then Some(0)
    else match FirstThrow(results[1..])
      case None => None
      case Some(j) => Some(j + 1)
  }

  /**
   * `keys.map(key => worker[key](arg))`: the calls made, in key order. The
   * map stops at the first worker that throws, after calling it.
   */
  function WorkerCalls<V>(keys: seq<string>, arg: WorkerArg, results: seq<Invocation<V>>): (calls: seq<Call>)
    requires |results| == |keys|
    ensures FirstThrow(results).None? ==> |calls| == |keys|
    ensures FirstThrow(results).Some? ==> |calls| == FirstThrow(results).value + 1
    ensures forall i :: 0 <= i < |calls| ==> calls[i] == Call(keys[i], arg)
  {
    var n := match FirstThrow(results) case None => |keys| case Some(j) => j + 1;
    seq(n, i requires 0 <= i < n => Call(keys[i], arg))
  }

  /** When no worker throws, every key's worker is called exactly once, with `arg`. */
  lemma EachWorkerCalledOnce<V>(keys: seq<string>, arg: WorkerArg, results: seq<Invocation<V>>, k: string)
    requires |results| == |keys|
    requires forall i, j :: 0 <= i < j < |keys| ==> keys[i] != keys[j]
    requires forall i :: 0 <= i < |results| ==> results[i].Returned?
    requires k in keys
    ensures exists i :: 0 <= i < |WorkerCalls(keys, arg, results)| && WorkerCalls(keys, arg, results)[i] == Call(k, arg)
    ensures forall i, j :: 0 <= i < j < |WorkerCalls(keys, arg, results)| ==> WorkerCalls(keys, arg, results)[i].key != WorkerCalls(keys, arg, results)[j].key
  {
    var calls := WorkerCalls(keys, arg, results);
    var i :| 0 <= i < |keys| && keys[i] == k;
    assert calls[i] == Call(k, arg);
  }

  /** Every worker returned a promise and every promise fulfilled. */
  predicate AllFulfilled<V>(results: seq<Invocation<V>>) {
    forall i :: 0 <= i < |results| ==> results[i].Returned? && results[i].settlement.Fulfilled?
  }

  /** The values `Promise.all` fulfils with, in key order. */
  function Values<V>(results: seq<Invocation<V>>): (values: seq<V>)
    requires AllFulfilled(results)
    ensures |values| == |results|
    ensures forall i :: 0 <= i < |values| ==> results[i] == Returned(Fulfilled(values[i]))
  {
    seq(|results|, i requires 0 <= i < |results| && AllFulfilled(results) => results[i].settlement.value)
  }

  /**
   * `values.reduce((chunks, value, i) => { chunks[keys[i]] = value; ... }, {})`:
   * a map whose keys are the keys, each holding the value at its last position.
   */
  function Zip<V>(keys: seq<string>, values: seq<V>): map<string, V>
    requires |keys| == |values|
  {
    if |keys| == 0 then map[]
    else Zip(keys[..|keys| - 1], values[..|keys| - 1])[keys[|keys| - 1] := values[|keys| - 1]]
  }

  /** The zipped map holds exactly the keys. */
  lemma {:induction false} ZipKeys<V>(keys: seq<string>, values: seq<V>)
    requires |keys| == |values|
    ensures Zip(keys, values).Keys == set k | k in keys
  {
    if |keys| > 0 {
      var n := |keys| - 1;
      ZipKeys(keys[..n], values[..n]);
      assert keys == keys[..n] + [keys[n]];
    }
  }

  /** Each key holds the value at its last position. */
  lemma {:induction false} ZipValues<V>(keys: seq<string>, values: seq<V>)
    requires |keys| == |values|
    ensures forall i :: 0 <= i < |keys| && LastOccurrence(keys, i) ==>
      keys[i] in Zip(keys, values) && Zip(keys, values)[keys[i]] == values[i]
  {
    if |keys| > 0 {
      var n := |keys| - 1;
      var m := Zip(keys[..n], values[..n]);
      ZipValues(keys[..n], values[..n]);
      forall i | 0 <= i < |keys| && LastOccurrence(keys, i)
        ensures keys[i] in Zip(keys, values) && Zip(keys, values)[keys[i]] == values[i]
      {
        if i < n {
          assert keys[i] != keys[n];
          assert LastOccurrence(keys[..n], i);
          assert keys[..n][i] == keys[i] && values[..n][i] == values[i];
        }
      }
    }
  }

  /** With distinct keys (as `Object.keys` gives them), every key is paired with its own value. */
  lemma ZipDistinct<V>(keys: seq<string>, values: seq<V>)
    requires |keys| == |values|
    requires forall i, j :: 0 <= i < j < |keys| ==> keys[i] != keys[j]
    ensures forall i :: 0 <= i < |keys| ==> keys[i] in Zip(keys, values) && Zip(keys, values)[keys[i]] == values[i]
  {
    ZipValues(keys, values);
    forall i | 0 <= i < |keys| ensures keys[i] in Zip(keys, values) && Zip(keys, values)[keys[i]] == values[i] {
      assert LastOccurrence(keys, i);
    }
  }

  /**
   * The template with the first content placeholder replaced by the rendered
   * markup, then the first script placeholder replaced by the bootstrap script.
   */
  function MergeDocument(template: string, content: string, scriptPlaceholder: string, script: string): string
  {
    ReplaceFirst(ReplaceFirst(template, Constants.ContentPlaceholder, content), scriptPlaceholder, script)
  }

  /**
   * For a template `a + ContentPlaceholder + b + scriptPlaceholder + c` whose
   * placeholders first occur there (also after the content is in place), the
   * merged document is `a + content + b + script + c`.
   */
  lemma MergeDocumentLayout(a: string, b: string, c: string, content: string, scriptPlaceholder: string, script: string)
    requires FirstAt(a + Constants.ContentPlaceholder + b + scriptPlaceholder + c, Constants.ContentPlaceholder, |a|)
    requires FirstAt(a + content + b + scriptPlaceholder + c, scriptPlaceholder, |a + content + b|)
    ensures MergeDocument(a + Constants.ContentPlaceholder + b + scriptPlaceholder + c, content, scriptPlaceholder, script)
         == a + content + b + script + c
  {
    ReplaceTwice(a, Constants.ContentPlaceholder, b, scriptPlaceholder, c, content, script);
  }

  /** Two successive replace-first steps whose patterns first occur at the given places. */
  lemma ReplaceTwice(a: string, p: string, b: string, q: string, c: string, x: string, y: string)
    requires FirstAt(a + p + b + q + c, p, |a|)
    requires FirstAt(a + x + b + q + c, q, |a + x + b|)
    ensures ReplaceFirst(ReplaceFirst(a + p + b + q + c, p, x), q, y) == a + x + b + y + c
  {
    var s, t := a + p + b + q + c, a + x + b + q + c;
    RegroupTail(a, p, b, q, c);
    ReplaceFirstAt(s, a, p, b + q + c, x);
    RegroupTail(a, x, b, q, c);
    ReplaceFirstAt(t, a + x + b, q, c, y);
  }

  /** Concatenation regrouped around its second piece. */
  lemma RegroupTail(a: string, p: string, b: string, q: string, c: string)
    ensures a + p + b + q + c == a + p + (b + q + c)
  {
  }

  /** A template without either placeholder is sent unchanged. */
  lemma MergeWithoutPlaceholders(template: string, content: string, scriptPlaceholder: string, script: string)
    requires !Contains(template, Constants.ContentPlaceholder) && !Contains(template, scriptPlaceholder)
    ensures MergeDocument(template, content, scriptPlaceholder, script) == template
  {
  }

  /** The string-mode bootstrap: the mode marker, then the chunk map as JSON. */
  function StringBootstrap(chunksJson: string): string
  {
    "<script id=\"swsr-runtime\">window.__SWSR_MODE__='string';window.__SWSR_CHUNKS__=" + chunksJson + ";</script>"
  }

  /**
   * The stream-mode bootstrap: the mode marker, the connection registry's
   * source and a call creating one connection per worker key. The registry
   * source is whatever the build substituted for `{{StreamRuntime}}`; the
   * entry generator puts the minified registry there.
   */
  function StreamBootstrap(streamRuntime: string, keysJson: string): string
  {
    "<script id=\"swsr-runtime\">window.__SWSR_MODE__='stream';" + streamRuntime
      + ";__SWSR_CREATE_CONNECTIONS__(" + keysJson + ");</script>"
  }

  /**
   * The stream bootstrap sets the mode to stream, then carries the registry
   * source and then the call with the keys.
   */
  lemma StreamBootstrapShape(streamRuntime: string, keysJson: string)
    ensures var head := "<script id=\"swsr-runtime\">window.__SWSR_MODE__='stream';";
            |head| <= |StreamBootstrap(streamRuntime, keysJson)| && StreamBootstrap(streamRuntime, keysJson)[..|head|] == head
    ensures OccursAt(StreamBootstrap(streamRuntime, keysJson), streamRuntime,
                     |"<script id=\"swsr-runtime\">window.__SWSR_MODE__='stream';"|)
    ensures EndsWith(StreamBootstrap(streamRuntime, keysJson), ";__SWSR_CREATE_CONNECTIONS__(" + keysJson + ");</script>")
  {
    var head := "<script id=\"swsr-runtime\">window.__SWSR_MODE__='stream';";
    var tail := ";__SWSR_CREATE_CONNECTIONS__(" + keysJson + ");</script>";
    var s := StreamBootstrap(streamRuntime, keysJson);
    assert s == head + streamRuntime + tail;
    assert s[..|head|] == head;
    assert s[|head|..|head| + |streamRuntime|] == streamRuntime;
    assert s[|s| - |tail|..] == tail;
  }

  /** The client-side call a settlement script performs. */
  datatype ClientCall<V> = ResolveCall(key: string, value: V) | RejectCall(key: string, message: Option<string>)

  /** A fulfilled promise resolves its connection; a rejected one rejects it with `reason?.message`. */
  function SettlementCall<V>(key: string, s: Settlement<V>): (c: ClientCall<V>)
    ensures c.key == key
    ensures c.ResolveCall? <==> s.Fulfilled?
    ensures s.Fulfilled? ==> c.value == s.value
    ensures s.RejectedWith? ==> c.message == MessageOf(s.reason)
  {
    match s
    case Fulfilled(v) => ResolveCall(key, v)
    case RejectedWith(r) => RejectCall(key, MessageOf(r))
  }

  /** The connection method a call invokes. */
  function MethodName<V>(c: ClientCall<V>): string
  {
    if c.ResolveCall? then "resolve" else "reject"
  }

  /** The argument text of a call: the value's JSON, the message's JSON, or nothing for a missing message. */
  function ArgText<V>(c: ClientCall<V>, ser: Serializer<V>): string
  {
    match c
    case ResolveCall(_, v) => ser.value(v)
    case RejectCall(_, m) => if m.None? then "" else ser.text(m.value)
  }

  /** The statement inside a settlement script: the call on the key's connection. */
  function CallText<V>(c: ClientCall<V>, ser: Serializer<V>): string
  {
    "window.__SWSR_CHUNK_CONNECTIONS__." + c.key + "." + MethodName(c) + "(" + ArgText(c, ser) + ")"
  }

  /** The script text written for a client call. */
  function ScriptText<V>(c: ClientCall<V>, ser: Serializer<V>): string
  {
    "<script>" + CallText(c, ser) + "</script>"
  }

  /** The script written when the promise for `key` settles. */
  function SettlementScript<V>(key: string, s: Settlement<V>, ser: Serializer<V>): string
  {
    ScriptText(SettlementCall(key, s), ser)
  }

  /**
   * A settlement script addresses the key's connection, calls `resolve` with
   * the value's JSON or `reject` with the message's JSON, and a rejection
   * without a message calls `reject()`.
   */
  lemma SettlementScriptShape<V>(key: string, s: Settlement<V>, ser: Serializer<V>)
    ensures s.Fulfilled? ==>
      SettlementScript(key, s, ser)
      == "<script>" + "window.__SWSR_CHUNK_CONNECTIONS__." + key + ".resolve(" + ser.value(s.value) + ")</script>"
    ensures s.RejectedWith? && MessageOf(s.reason).Some? ==>
      SettlementScript(key, s, ser)
      == "<script>" + "window.__SWSR_CHUNK_CONNECTIONS__." + key + ".reject(" + ser.text(MessageOf(s.reason).value) + ")</script>"
    ensures s.RejectedWith? && MessageOf(s.reason).None? ==>
      SettlementScript(key, s, ser) == "<script>" + "window.__SWSR_CHUNK_CONNECTIONS__." + key + ".reject()</script>"
  {
    var c := SettlementCall(key, s);
    assert ")" + "</script>" == ")</script>";
    Regroup("<script>", "window.__SWSR_CHUNK_CONNECTIONS__.", key, MethodName(c), ArgText(c, ser));
    if s.Fulfilled? {
      assert "." + "resolve" + "(" == ".resolve(";
    } else {
      assert "." + "reject" + "(" == ".reject(";
      if MessageOf(s.reason).None? {
        assert ".reject(" + "" + ")</script>" == ".reject()</script>";
      }
    }
  }

  lemma Regroup(o: string, t: string, key: string, m: string, a: string)
    ensures o + (t + key + "." + m + "(" + a + ")") + "</script>" == o + t + key + ("." + m + "(") + a + (")" + "</script>")
  {
  }

  /** Why a render rejects. */
  datatype RenderError = WorkerThrew | WorkerRejected | AppThrew | SerializeThrew

  /**
   * String mode: call every worker, wait for all of them, render the app
   * over the zipped chunk map (`app` gives `None` when rendering throws),
   * serialise the map, and merge markup and the JSON of the map into the
   * template.
   */
  function RenderString<V>(template: string, keys: seq<string>, results: seq<Invocation<V>>,
                           app: map<string, V> -> Option<string>, scriptPlaceholder: string,
                           ser: Serializer<V>): (r: Result<string, RenderError>)
    requires |results| == |keys|
    ensures r == Failure(WorkerThrew) <==> exists i :: 0 <= i < |results| && results[i].Threw?
    ensures r == Failure(WorkerRejected) <==>
      (forall i :: 0 <= i < |results| ==> results[i].Returned?) && !AllFulfilled(results)
    ensures r == Failure(AppThrew) <==> AllFulfilled(results) && app(Zip(keys, Values(results))).None?
    ensures r == Failure(SerializeThrew) <==>
      AllFulfilled(results) && app(Zip(keys, Values(results))).Some? && ser.record(Zip(keys, Values(results))).None?
    ensures r.Success? ==>
      (AllFulfilled(results) &&
       var chunks := Zip(keys, Values(results));
       app(chunks).Some? && ser.record(chunks).Some? &&
       r.value == MergeDocument(template, app(chunks).value, scriptPlaceholder, StringBootstrap(ser.record(chunks).value)))
  {
    if FirstThrow(results).Some? then Failure(WorkerThrew)
    else if !AllFulfilled(results) then Failure(WorkerRejected)
    else
      var chunks := Zip(keys, Values(results));
      match app(chunks)
      case None => Failure(AppThrew)
      case Some(content) =>
        match ser.record(chunks)
        case None => Failure(SerializeThrew)
        case Some(json) => Success(MergeDocument(template, content, scriptPlaceholder, StringBootstrap(json)))
  }

  /**
   * In a template `a + ContentPlaceholder + b + scriptPlaceholder + c`, a
   * successful string render puts the markup and then the chunk map's JSON
   * in place of the two placeholders.
   */
  lemma StringDocumentLayout<V>(a: string, b: string, c: string, keys: seq<string>, results: seq<Invocation<V>>,
                                app: map<string, V> -> Option<string>, scriptPlaceholder: string, ser: Serializer<V>)
    requires |results| == |keys|
    requires AllFulfilled(results) && app(Zip(keys, Values(results))).Some? && ser.record(Zip(keys, Values(results))).Some?
    requires FirstAt(a + Constants.ContentPlaceholder + b + scriptPlaceholder + c, Constants.ContentPlaceholder, |a|)
    requires FirstAt(a + app(Zip(keys, Values(results))).value + b + scriptPlaceholder + c, scriptPlaceholder,
                     |a + app(Zip(keys, Values(results))).value + b|)
    ensures RenderString(a + Constants.ContentPlaceholder + b + scriptPlaceholder + c, keys, results, app, scriptPlaceholder, ser)
         == Success(a + app(Zip(keys, Values(results))).value + b
                    + StringBootstrap(ser.record(Zip(keys, Values(results))).value) + c)
  {
    var chunks := Zip(keys, Values(results));
    MergeDocumentLayout(a, b, c, app(chunks).value, scriptPlaceholder, StringBootstrap(ser.record(chunks).value));
  }

  /** What the handler receives as a response body. */
  datatype Body = Document(html: string) | Streamed

  /** What calling `render` does: it throws synchronously, or returns a promise that settles so. */
  datatype Outcome = ThrowsSync | Settles(result: Result<Body, RenderError>)

  /**
   * `render`: string mode wraps the string render in a promise (a throw
   * becomes a rejection); stream mode calls the workers directly, so a
   * worker that throws escapes synchronously, and otherwise the promise
   * rejects exactly when the shell fails to render.
   */
  function RenderCall<V>(mode: Mode, template: string, keys: seq<string>, results: seq<Invocation<V>>,
                         app: map<string, V> -> Option<string>, shellFails: bool,
                         scriptPlaceholder: string, ser: Serializer<V>): (o: Outcome)
    requires |results| == |keys|
    ensures mode == StringMode ==> o.Settles?
    ensures mode == StreamMode ==> (o == ThrowsSync <==> FirstThrow(results).Some?)
    ensures mode == StreamMode && FirstThrow(results).None? ==>
      o == (if shellFails then Settles(Failure(AppThrew)) else Settles(Success(Streamed)))
  {
    match mode
    case StringMode =>
      (match RenderString(template, keys, results, app, scriptPlaceholder, ser)
       case Success(html) => Settles(Success(Document(html)))
       case Failure(e) => Settles(Failure(e)))
    case StreamMode =>
      if FirstThrow(results).Some? then ThrowsSync
      else if shellFails then Settles(Failure(AppThrew))
      else Settles(Success(Streamed))
  }

  /** What the fetch listener leaves the browser with. */
  datatype Response =
    | Rendered(status: int, headers: seq<(string, string)>, body: Body)
    | Network         // `fetch(request)` is the response
    | Unhandled       // the listener threw before `respondWith`; the browser fetches by itself
    | NetworkError    // `respondWith` got a rejected promise

  /** Response headers of a rendered page. */
  function Headers(mode: Mode): (h: seq<(string, string)>)
    ensures ("Content-Type", "text/html") in h
    ensures ("Transfer-Encoding", "chunked") in h <==> mode == StreamMode
    ensures forall p :: p in h ==> p.0 in {"Content-Type", "Transfer-Encoding"}
  {
    [("Content-Type", "text/html")] + (if mode == StreamMode then [("Transfer-Encoding", "chunked")] else [])
  }

  /** A settled render becomes a 200 page, or falls back to the network when it rejected. */
  function Settled(mode: Mode, result: Result<Body, RenderError>): (r: Response)
    ensures result.Success? ==> r == Rendered(200, Headers(mode), result.value)
    ensures result.Failure? ==> r == Network
  {
    match result
    case Success(body) => Rendered(200, Headers(mode), body)
    case Failure(_) => Network
  }

  /**
   * The rspack entry's fetch listener: render navigations whose pathname
   * matches the template pattern (`matches` is the pattern's verdict), send
   * everything else to the network.
   */
  function RespondRspack(request: Request, matches: bool, mode: Mode, outcome: Outcome): (r: Response)
    ensures r.Rendered? <==> request.mode == "navigate" && matches && outcome.Settles? && outcome.result.Success?
    ensures r.Rendered? ==> r.status == 200 && r.headers == Headers(mode) && r.body == outcome.result.value
    ensures r == Network <==> !(request.mode == "navigate" && matches) || (outcome.Settles? && outcome.result.Failure?)
    ensures r == Unhandled <==> request.mode == "navigate" && matches && outcome == ThrowsSync
    ensures r != NetworkError
  {
    if request.mode == "navigate" && matches then
      match outcome
      case ThrowsSync => Unhandled
      case Settles(result) => Settled(mode, result)
    else Network
  }

  /** The marker a cached template must carry to be rendered by this build. */
  function VersionMarker(version: string): string
  {
    "<!-- __SWSR_VERSION_" + version + "__ -->"
  }

  /** `!Version || template.includes(marker)`. */
  predicate VersionAccepts(version: string, template: string) {
    version == "" || Contains(template, VersionMarker(version))
  }

  /**
   * The rsbuild entry's fetch listener: render when the cache holds a
   * response for the request and the version gate accepts its text
   * (`render` gives the outcome of rendering a given template), otherwise
   * go to the network. A synchronous throw inside the promise chain rejects
   * the promise handed to `respondWith`.
   */
  function RespondRsbuild(version: string, cached: Option<string>, mode: Mode, render: string -> Outcome): (r: Response)
    ensures r.Rendered? <==>
      (cached.Some? && VersionAccepts(version, cached.value)
       && render(cached.value).Settles? && render(cached.value).result.Success?)
    ensures r.Rendered? ==> r.status == 200 && r.headers == Headers(mode) && r.body == render(cached.value).result.value
    ensures r == Network <==>
      (cached.None? || !VersionAccepts(version, cached.value)
       || (render(cached.value).Settles? && render(cached.value).result.Failure?))
    ensures r == NetworkError <==> cached.Some? && VersionAccepts(version, cached.value) && render(cached.value) == ThrowsSync
    ensures r != Unhandled
  {
    match cached
    case None => Network
    case Some(template) =>
      if VersionAccepts(version, template) then
        match render(template)
        case ThrowsSync => NetworkError
        case Settles(result) => Settled(mode, result)
      else Network
  }

  /** A version gate with a non-empty version refuses a template without its marker, e.g. one from another build. */
  lemma StaleTemplateGoesToNetwork(version: string, template: string, mode: Mode, render: string -> Outcome)
    requires version != "" && !Contains(template, VersionMarker(version))
    ensures RespondRsbuild(version, Some(template), mode, render) == Network
  {
  }

  /** String mode never throws out of `render`: any failing worker or app falls back to the network. */
  lemma {:induction false} StringFailureFallsBack<V>(request: Request, template: string, keys: seq<string>,
                                                     results: seq<Invocation<V>>, app: map<string, V> -> Option<string>,
                                                     scriptPlaceholder: string, ser: Serializer<V>)
    requires |results| == |keys|
    requires request.mode == "navigate"
    requires exists i :: 0 <= i < |results| && !(results[i].Returned? && results[i].settlement.Fulfilled?)
    ensures RespondRspack(request, true, StringMode,
                          RenderCall(StringMode, template, keys, results, app, false, scriptPlaceholder, ser)) == Network
  {
    assert !AllFulfilled(results);
    var r := RenderString(template, keys, results, app, scriptPlaceholder, ser);
    assert r.Failure?;
  }

  /**
   * String mode after every worker fulfilled and the app rendered: a chunk
   * map `JSON.stringify` throws on makes a matching navigation fall back to
   * the network, and one it serialises gives the rendered page.
   */
  lemma SerializeFailureFallsBack<V>(request: Request, template: string, keys: seq<string>,
                                     results: seq<Invocation<V>>, app: map<string, V> -> Option<string>,
                                     scriptPlaceholder: string, ser: Serializer<V>)
    requires |results| == |keys|
    requires request.mode == "navigate"
    requires AllFulfilled(results) && app(Zip(keys, Values(results))).Some?
    ensures var r := RespondRspack(request, true, StringMode,
                                   RenderCall(StringMode, template, keys, results, app, false, scriptPlaceholder, ser));
      (r == Network <==> ser.record(Zip(keys, Values(results))).None?) && (r.Rendered? <==> ser.record(Zip(keys, Values(results))).Some?)
  {
    var chunks := Zip(keys, Values(results));
    var o := RenderCall(StringMode, template, keys, results, app, false, scriptPlaceholder, ser);
    assert o.Settles? && (o.result.Failure? <==> ser.record(chunks).None?);
    NavigationFollowsResult(request, o);
  }

  lemma NavigationFollowsResult(request: Request, o: Outcome)
    requires request.mode == "navigate" && o.Settles?
    ensures RespondRspack(request, true, StringMode, o) == Network <==> o.result.Failure?
    ensures RespondRspack(request, true, StringMode, o).Rendered? <==> o.result.Success?
  {
  }
}
