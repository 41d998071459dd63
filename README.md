# react-swsr in Dafny

react-swsr renders a React application inside a service worker ("service
worker side rendering"). The bundler plugin generates a worker entry from a
template. For a navigation it may answer with a rendered page instead of
going to the network.

The page is rendered in one of two modes, fixed when the entry is built:

- **String mode.** Every data worker is called. Once all of them have
  fulfilled, the app is rendered to a string. The markup and a bootstrap
  script embedding the chunk map as JSON are then substituted into the page
  template.
- **Stream mode.** The app is rendered to a stream. The worker buffers the
  renderer's chunks until one ends with the sentinel `__SWSR_STREAM_ENDING__`.
  At that point it writes the merged document once, with a bootstrap script
  that creates one client "connection" per worker key. After that, each
  chunk is forwarded as it is. Whenever a worker's promise settles, a
  `resolve(...)`/`reject(...)` script for that key goes to the same writer.

On the page:

- The connection registry keeps a status (0 Pending, 1 Resolved, 2 Rejected),
  the data or the error, and a promise for each key.
- `getStreamChunks` projects the registry into chunks: a promise, a value or
  an Error.
- `createReader`/`Read` turn a chunk into a suspending tri-state view.

The model:

| module | file | what it models |
|---|---|---|
| `Wrappers` | wrappers.dfy | `Option` (an absent JavaScript value) and `Result` (the error path) |
| `Text` | text.dfy | replace-first, global replace of fixed text, `includes`, and the anchored "ends with" test |
| `Constants` | constants.dfy | the content placeholder and the minified registry source |
| `Js` | js.dfy | Error objects, rejection reasons, `?.message`, and promises that settle once |
| `Typings` | typings.dfy | `ESwsrChunkStatus` with its numeric codes, the chunk shapes, and the page globals |
| `StreamRuntime` | stream_runtime.dfy | the connection registry, as classes whose fields `resolve`/`reject` update in place |
| `Use` | use.dfy | `createReader` as a class whose fields the promise callbacks update; `Read`; `Use`'s memo slot |
| `Chunks` | chunks.dfy | `getStreamChunks` (a loop that fills a map), the context and string-chunk hooks |
| `Info` | info.dfy | `getSwsrInfo` |
| `Utils` | utils.dfy | `isWebCompiler` |
| `Entry` | entry.dfy | `createEntry`'s chain of replacements |
| `Render` | render.dfy | worker calls, string-mode assembly, settlement scripts, `render`, and both fetch listeners |
| `StreamSession` | session.dfy | stream mode's `onRead` loop and settlement writes, as a class over the shared output |
| `Protocol` | protocol.dfy | settlement scripts delimited as the HTML tokenizer does, read back from their text and run against the registry, as the page's reader sees them |

Some inputs are parameters rather than constants:

- **The script placeholder** is imported from `packages/shared`, which is
  not part of this model. Every member that uses it takes it as a
  parameter.
- **`JSON.stringify`** is a `Serializer` record of functions; on the chunk map it may throw (a `BigInt` or a cyclic value), and then gives nothing.
- **The app's rendering** is a function that gives the markup or reports a
  throw.
- **The template pattern's test** is the boolean `matches`.
- **The cache lookup** is `cached: Option<string>`.
- **The registry source** in the stream bootstrap is a parameter
  `streamRuntime`. The entry generator puts `MinifiedStreamRuntime` there.

The code behaves as follows, and the model with it:

- **The sentinel is looked for in each decoded chunk on its own, not in the
  accumulated text.** A sentinel split across two chunks is never
  recognised (`StreamSession.SplitSentinelNeverSeen`).
- **A connection does not guard against a second `resolve`/`reject`.** Its
  fields are overwritten, while its promise keeps its first settlement
  (`StreamRuntime.Connection.Resolve`/`Reject`). The fields can then
  disagree with the promise.
- **The mode is a build-time constant.** There is no runtime probe, so the
  mode is a parameter.
- **`createEntry` replaces tokens the rspack template does not contain.**
  It replaces `{{routeString}}`/`{{routeRegExp}}`, while the rspack entry
  template uses `{{templatePattern}}` and `{{templateContent}}`. Those
  steps are then no-ops. `Entry.CreateEntry` is modelled as written.

## Model

| member | source | states |
|---|---|---|
| Text.ReplaceFirst | packages/rspack-plugin/src/entry.ts:19-28 | a string pattern replaces only its leftmost occurrence, taking the replacement literally; a template without the pattern comes back unchanged |
| Text.Split | packages/rspack-plugin/src/entry.ts:18 | the pieces between the occurrences of the pattern, joined by it, give the input back, and no piece contains the pattern |
| Text.ReplaceAll | packages/rspack-plugin/src/entry.ts:18 | `replace(/{{mode}}/g, mode)` replaces every occurrence: it is the pieces between occurrences joined by the replacement |
| Text.ReplaceAllSingle | packages/rspack-plugin/src/entry.ts:18-19 | when the pattern occurs once, the global and the first-only replacement agree |
| Text.ReplaceAbsent | packages/rspack-plugin/src/entry.ts:17-28 | a placeholder missing from the template makes its replacement step a no-op, global or not |
| Text.DropSuffix | packages/rspack-plugin/src/entry.template.jsx:177 | removing the anchored sentinel leaves the text that, followed by the sentinel, is the chunk |
| Constants.MinifiedRegistryShape | packages/rspack-plugin/src/constants.ts:7 | the minified literal contains the definitions of both registry functions, the assignment of the global table, and a connection literal with status 0 |
| Constants.MinifiedSettleShape | packages/rspack-plugin/src/constants.ts:7 | the minified literal contains the text `_.status=1,_.data=n,r(n)` and the text of a reject body that sets status 2, names its Error SwsrChunkError and then calls the rejecting function with it |
| Typings.ChunkStatus.Code | packages/runtime/src/typings.ts:21-25 | the enum's values are 0, 1 and 2 |
| Typings.StatusOf | packages/runtime/src/typings.ts:21-25 | exactly the codes 0..2 name a status, and that status has the code |
| Typings.StatusCodeRoundTrip | packages/runtime/src/typings.ts:21-25 | decoding a status's code gives the status back |
| Js.NewError | packages/rsbuild-plugin/src/stream.runtime.js:20 | `new Error(m)` has message m, and the empty message when m is undefined |
| Js.MessageOf | packages/runtime/src/use.tsx:68 | `reason?.message` of an Error is its message |
| Js.Promise.Settle | packages/rsbuild-plugin/src/stream.runtime.js:12-25 | only the first resolve/reject of a promise settles it |
| StreamRuntime.ChunkError | packages/rsbuild-plugin/src/stream.runtime.js:18-22 | the connection's error is named SwsrChunkError and carries `new Error(message)`'s message |
| StreamRuntime.Connection.constructor | packages/rsbuild-plugin/src/stream.runtime.js:9-10 | a new connection has status 0, no data, no error, and a fresh unsettled promise |
| StreamRuntime.Connection.Resolve | packages/rsbuild-plugin/src/stream.runtime.js:13-17 | status 1 and data v; the promise is fulfilled with v if it was unsettled, and otherwise keeps its settlement, so after an earlier reject the fields disagree with the promise |
| StreamRuntime.Connection.Reject | packages/rsbuild-plugin/src/stream.runtime.js:18-24 | status 2 and the SwsrChunkError; the promise is rejected with that error if unsettled, and otherwise keeps its settlement |
| StreamRuntime.Registry.constructor | packages/runtime/src/chunks.ts:21-23 | before the bootstrap has run, the page has no connection table |
| StreamRuntime.Registry.CreateConnections | packages/rsbuild-plugin/src/stream.runtime.js:2-7 | the table has exactly the given names; for a repeated name the last connection created wins; every connection is fresh, Pending, without data or error, and unsettled |
| StreamRuntime.Registry.Resolve | packages/rsbuild-plugin/src/stream.runtime.js:9-28 | the script throws exactly when there is no table or no such name, and then changes nothing; otherwise it resolves that connection and leaves every other one untouched |
| StreamRuntime.Registry.Reject | packages/rsbuild-plugin/src/stream.runtime.js:9-28 | likewise for reject: it throws iff the name is missing, and otherwise sets status 2 and the error on that connection only |
| Use.ChunkState.Status | packages/runtime/src/use.tsx:41-53 | each view carries its own status |
| Use.Reader.constructor | packages/runtime/src/use.tsx:55-77 | a value chunk reads Resolved with the value, an Error chunk reads Rejected with its message, and a promise chunk reads Pending |
| Use.Reader.OnSettled | packages/runtime/src/use.tsx:62-70 | once the promise fulfils, the reader reads Resolved with the value; once it rejects, Rejected with the reason's message (possibly absent); the status leaves Pending |
| Use.Reader.Read | packages/runtime/src/use.tsx:79-89 | the view has the reader's status, and a Pending view returns the chunk's own promise |
| Use.PendingOnlyBeforeDelivery | packages/runtime/src/use.tsx:59-77 | a reader is Pending exactly for a promise chunk whose settlement has not been delivered, and it then holds that promise |
| Use.ReadElement | packages/runtime/src/use.tsx:27-39 | Pending suspends on the promise; Resolved renders `children(data)` or nothing; Rejected renders `rejected(error)` for a function, the node itself otherwise, or nothing |
| Use.UseSlot.constructor | packages/runtime/src/use.tsx:12 | the memo starts empty |
| Use.UseSlot.ReaderFor | packages/runtime/src/use.tsx:12 | the same chunk keeps its reader; a different chunk gets a fresh reader over it |
| Chunks.GetStreamChunks | packages/runtime/src/chunks.ts:19-41 | undefined exactly when there is no table; otherwise the same keys, each mapped by status to the promise, the data or the error |
| Chunks.UseStreamChunks | packages/runtime/src/chunks.ts:5-10 | without a window, the context's chunks (undefined without a provider); in a browser, the projected table |
| Chunks.UseStringChunks | packages/runtime/src/chunks.ts:12-17 | without a window, the context's chunks; in a browser, `window.__SWSR_CHUNKS__` |
| Info.GetSwsrInfo | packages/runtime/src/info.ts:4-19 | fails outside a browser; `hit` iff the mode marker is truthy; `enabled` iff hit or the body still shows the script placeholder; the mode is passed through |
| Utils.IsWebCompiler | packages/rspack-plugin/src/utils.ts:4-19 | falsy targets are web; a string target is web iff it is "web" (or empty, hence falsy); an array iff it includes "web"; anything else is not |
| Entry.RouteStringText | packages/rspack-plugin/src/entry.ts:21 | a string route is inserted as is, a regular expression gives the empty string |
| Entry.RouteRegExpText | packages/rspack-plugin/src/entry.ts:22-25 | a regular expression gives its source, a string route gives `^ $` |
| Entry.CreateEntryWithoutPlaceholders | packages/rspack-plugin/src/entry.ts:17-28 | a template holding none of the eight tokens comes back unchanged |
| Render.FirstThrow | packages/rspack-plugin/src/entry.template.jsx:86 | the first worker that throws on being called, with every earlier one returning |
| Render.WorkerCalls | packages/rspack-plugin/src/entry.template.jsx:115-117 | the calls made are `worker[keys[i]](request)` in key order, stopping right after a worker that throws; the rsbuild entry (packages/rsbuild-plugin/src/entry.template.jsx:128-130) makes the same calls with no argument |
| Render.EachWorkerCalledOnce | packages/rspack-plugin/src/entry.template.jsx:85-86 | when no worker throws, every key's worker is called exactly once, with the request |
| Render.Values | packages/rspack-plugin/src/entry.template.jsx:87 | `Promise.all` fulfils with the workers' values in key order |
| Render.ZipKeys | packages/rspack-plugin/src/entry.template.jsx:88-91 | the chunk map has exactly the worker keys |
| Render.ZipValues | packages/rspack-plugin/src/entry.template.jsx:88-91 | each key holds the value at its last position |
| Render.ZipDistinct | packages/rspack-plugin/src/entry.template.jsx:88-91 | with distinct keys, `keys[i]` holds `values[i]` for every i |
| Render.MergeDocumentLayout | packages/rspack-plugin/src/entry.template.jsx:179-186 | in a template `a + ContentPlaceholder + b + ScriptPlaceholder + c`, the merged document is `a + shell + b + script + c` |
| Render.MergeWithoutPlaceholders | packages/rspack-plugin/src/entry.template.jsx:97-104 | a template without either placeholder is sent unchanged |
| Render.StreamBootstrapShape | packages/rspack-plugin/src/entry.template.jsx:183-185 | the stream bootstrap begins with the `swsr-runtime` script tag setting `__SWSR_MODE__` to `'stream'`, carries the registry source, and ends by creating the connections for the keys' JSON |
| Render.SettlementCall | packages/rspack-plugin/src/entry.template.jsx:126-146 | a fulfilled promise resolves its key's connection with the value; a rejected one rejects it with `reason?.message` |
| Render.SettlementScriptShape | packages/rspack-plugin/src/entry.template.jsx:126-146 | the script is `…<key>.resolve(JSON(value))`, `…<key>.reject(JSON(message))`, or `…<key>.reject()` when the reason has no message; the rsbuild entry (packages/rsbuild-plugin/src/entry.template.jsx:139-160) does the same |
| Render.RenderString | packages/rspack-plugin/src/entry.template.jsx:84-106 | the render fails because a worker threw, iff some worker threw; because of a rejection, iff all returned but not all fulfilled; because the app threw, iff all fulfilled and the app threw; because `JSON.stringify` threw on the chunk map, iff all fulfilled, the app rendered and the map does not serialise; otherwise it is the template merged with the markup and the chunk map's JSON after the string mode marker; the rsbuild entry (packages/rsbuild-plugin/src/entry.template.jsx:98-120) does the same |
| Render.StringDocumentLayout | packages/rspack-plugin/src/entry.template.jsx:97-104 | a successful string render puts the markup and then the bootstrap with the chunk map's JSON in place of the two placeholders |
| Render.SerializeFailureFallsBack | packages/rspack-plugin/src/entry.template.jsx:47-53 | in string mode, once every worker fulfilled and the app rendered, a matching navigation falls back to the network iff `JSON.stringify` throws on the chunk map (entry.template.jsx:101-103), and gets the rendered page iff it does not |
| Render.RenderCall | packages/rspack-plugin/src/entry.template.jsx:64-76 | string mode always settles (a throw becomes a rejection); stream mode throws synchronously iff a worker throws, and otherwise rejects iff the shell fails; the rsbuild entry (packages/rsbuild-plugin/src/entry.template.jsx:79-91) does the same |
| Render.Headers | packages/rspack-plugin/src/entry.template.jsx:39-44 | Content-Type text/html always; Transfer-Encoding chunked iff stream mode; no other header |
| Render.Settled | packages/rspack-plugin/src/entry.template.jsx:35-53 | a fulfilled render is a 200 page with those headers; a rejected one is `fetch(request)` |
| Render.RespondRspack | packages/rspack-plugin/src/entry.template.jsx:23-56 | rendered iff a navigation matches the pattern and the render fulfils; network iff it does not match or the render rejects; a synchronous throw escapes the listener |
| Render.RespondRsbuild | packages/rsbuild-plugin/src/entry.template.jsx:36-77 | rendered iff the cache holds a template accepted by the version gate and the render fulfils; network iff no cached template, a refused version, or a rejection; a synchronous throw rejects the response promise |
| Render.StaleTemplateGoesToNetwork | packages/rsbuild-plugin/src/entry.template.jsx:43-46 | with a version set, a cached template without `<!-- __SWSR_VERSION_<version>__ -->` goes to the network |
| Render.StringFailureFallsBack | packages/rspack-plugin/src/entry.template.jsx:47-53 | in string mode, any worker that throws or rejects makes a matching navigation fall back to the network |
| StreamSession.SentinelIndex | packages/rspack-plugin/src/entry.template.jsx:174-175 | the first chunk whose text ends with the sentinel, every earlier chunk not ending with it |
| StreamSession.ReadAllBeforeSentinel | packages/rspack-plugin/src/entry.template.jsx:173-191 | until a chunk ends with the sentinel, nothing is written and the shell is all the text read |
| StreamSession.ShellAfterSentinel | packages/rspack-plugin/src/entry.template.jsx:175-178 | from the sentinel chunk on, the shell is ready and, followed by the sentinel, is the text read up to that chunk |
| StreamSession.WritesAfterSentinel | packages/rspack-plugin/src/entry.template.jsx:175-195 | from the sentinel chunk on, the first write is the merged document built from the shell, and every later chunk follows verbatim and in order, even one ending with the sentinel |
| StreamSession.ReadyIffSentinel | packages/rspack-plugin/src/entry.template.jsx:174-178 | the shell is ready exactly when some chunk read ended with the sentinel |
| StreamSession.DocumentAtMostOnce | packages/rspack-plugin/src/entry.template.jsx:178-195 | the merged document is written at most once, and only as the reader's first write |
| StreamSession.SplitSentinelNeverSeen | packages/rspack-plugin/src/entry.template.jsx:173-175 | a sentinel split across two chunks is never recognised, although the text read ends with it |
| StreamSession.ScriptsStep | packages/rspack-plugin/src/entry.template.jsx:126-147 | settling a new key adds its script while the writer is open, and adds nothing once it is closed |
| StreamSession.Session.constructor | packages/rspack-plugin/src/entry.template.jsx:163-166 | the reader starts with no shell, not ready, with nothing written, and with the bootstrap for the keys' JSON |
| StreamSession.Session.OnRead | packages/rspack-plugin/src/entry.template.jsx:167-198 | done closes the writer and stops reading; before the shell is ready a chunk is collected, or completes the shell without the sentinel and writes the merged document; afterwards it is forwarded; the reader's writes stay those of the fold over the chunks read; the rsbuild entry (packages/rsbuild-plugin/src/entry.template.jsx:180-211) does the same |
| StreamSession.Session.CompleteShell | packages/rspack-plugin/src/entry.template.jsx:175-187 | a chunk ending with the sentinel, before the shell is out, adds its text without the sentinel to the shell, marks it ready and writes the merged document built from the whole shell; the session stays in agreement with the fold |
| StreamSession.Session.CollectChunk | packages/rspack-plugin/src/entry.template.jsx:188-191 | any other chunk before the shell is out is appended to the shell and nothing is written |
| StreamSession.Session.ForwardChunk | packages/rspack-plugin/src/entry.template.jsx:192-195 | once the shell is out, a chunk is written as it is and the shell is left alone |
| StreamSession.Session.OnSettled | packages/rspack-plugin/src/entry.template.jsx:126-147 | a settling key appends its resolve/reject script to the output while the writer is open, and nothing after it is closed; the reader's state is unchanged; the rsbuild entry (packages/rsbuild-plugin/src/entry.template.jsx:139-160) does the same |
| StreamSession.Pump | packages/rspack-plugin/src/entry.template.jsx:167-198 | read outcomes are handled in order up to the first done or the first rejected read; every earlier outcome was a chunk; the writer is closed exactly when the last outcome handled was done, and the chain is stalled, with nothing more written and the writer left open, exactly when it was a rejected read; the chunks handled are exactly those read; the rsbuild entry (packages/rsbuild-plugin/src/entry.template.jsx:180-211) does the same |
| StreamSession.PartsPartition | packages/rspack-plugin/src/entry.template.jsx:126-195 | every write to the shared writer is in exactly one of the reader's part and the settlement part: none is lost or duplicated |
| StreamSession.OneScriptPerSettledKey | packages/rspack-plugin/src/entry.template.jsx:126-147 | while the writer is open, every settled key has exactly one script in the output, carrying its settlement |
| Protocol.SettledView | packages/rsbuild-plugin/src/stream.runtime.js:13-24 | a resolved connection reads Resolved with the value; a rejected one reads Rejected with the message, or the empty message for `reject()` |
| Protocol.DeliveryGivesSettledView | packages/runtime/src/use.tsx:62-70 | a reader that waited on the connection's promise reads, once it settles, what a reader built after the script reads |
| Protocol.WorkerSettlementReachesReader | packages/rspack-plugin/src/entry.template.jsx:126-146 | the call a settlement script is written for gives a reader the value the worker fulfilled with, or the message of the Error it rejected with, and the empty message for a reason without one |
| Protocol.PageRunsScript | packages/rspack-plugin/src/entry.template.jsx:131-143 | for an identifier key and an argument text holding neither `</script>` nor `<!--`, the HTML tokenizer ends the element right after the call, and running the script calls the same method on the same key with what the argument text evaluates to, and throws when it does not evaluate; `reject()` gives no message |
| Protocol.ClosingTagEndsScript | packages/rspack-plugin/src/entry.template.jsx:131-143 | a value or message whose JSON holds `</script>`, with no `<!--` ahead of it, ends the script element inside the argument, so the page's script is the call cut off there, without its closing parenthesis |
| Protocol.CommentOpenRunsOn | packages/rspack-plugin/src/entry.template.jsx:131-143 | a value or message whose JSON holds `<!--<script>` (the JSON of that very string, say) puts the HTML tokenizer in its double-escaped state: the script's own `</script>` does not end the element, and the script text makes no call |
| Protocol.ScriptReadsBack | packages/rspack-plugin/src/entry.template.jsx:131-143 | when evaluating the argument text gives back what was serialised and the text holds neither `</script>` nor `<!--`, the page makes exactly the call the script was written for |
| Protocol.SettlementScriptReachesReader | packages/rspack-plugin/src/entry.template.jsx:126-146 | for an identifier key and a settlement whose serialisation reads back, running the written script text makes the settlement's call, and a reader then shows the value, the Error's message, or the empty message |
| Protocol.RunScriptText | packages/rsbuild-plugin/src/stream.runtime.js:9-28 | running a script's text throws when it does not read as a call, or when the table or the key is missing, and then changes nothing; otherwise the named connection projects to the settled view of the call read, and no other connection changes |
| Protocol.RunScript | packages/rspack-plugin/src/entry.template.jsx:131-143 | running a settlement script throws iff the table or the key is missing; otherwise its connection projects to the settled view, and no other connection changes |
| Protocol.SettledChunkReachesReader | packages/runtime/src/chunks.ts:34-35 | a connection settled by a script, projected and read, gives the settled view: Rejected with message m for `reject(m)` |
| Protocol.PendingChunkSettlesLater | packages/runtime/src/chunks.ts:26-27 | a Pending connection's chunk first suspends on its promise, and after the script the same reader gives the settled view |
| Protocol.BootstrapThenScript | packages/rspack-plugin/src/entry.template.jsx:183-185 | after the bootstrap has created the connections for the worker keys, the script of any of those keys finds its connection |
| Protocol.ReadBeforeSentinel | packages/rspack-plugin/src/entry.template.jsx:167-198 | renderer chunks none of which ends with the sentinel are all collected into the shell, in order, and nothing is written |
| Protocol.EarlySettlementThrows | packages/rspack-plugin/src/entry.template.jsx:126-198 | a key that settles before the shell is complete, after any number of renderer chunks without the sentinel, has its script written first, ahead of the bootstrap, and a page running that script text then throws |

## Left out

- Service-worker plumbing is not modelled: the install and activate listeners, `skipWaiting`, the cache API, the template download on activation, `fetch` and `Response` objects, and `TransformStream` with its backpressure. The rsbuild activate handler only fills the cache, which is an input `cached` here.
- `TextEncoder`/`TextDecoder` are taken to be the identity, so renderer chunks are strings. A multi-byte character split across chunks is not modelled.
- React is foreign code and is represented by its results:
  - `renderToString` is a function giving markup or reporting a throw.
  - `renderToReadableStream` is the sequence of read outcomes (a chunk, done, or a rejected read when the rendered stream errors), plus a flag for a shell that fails.
  - Suspense, the contexts and `useMemo` are not modelled; `Read`'s throw of the promise is the `Suspend` element.
- `JSON.stringify` is an opaque serializer, and so is the template pattern's regular expression. The page's evaluation of a script argument is an `Evaluator`, so what a value reads back as is a parameter too.
- Protocol.WorkerSettlementReachesReader: speaks of the call the script is written for, not of what the page gets from the text. That is `PageRunsScript`, and it is lossy. `JSON.stringify` turns `NaN` into `null`, a `Date` into a string and a `Map` into `{}`. A `</script>` in the JSON ends the element early (`ClosingTagEndsScript`). A key that is not an identifier gives a script the page cannot run. `SettlementScriptReachesReader` states the full path under exactly these conditions.
- Render.SettlementScript: the serializer is total on values and messages (only the chunk map's serialisation, in string mode, may throw). `JSON.stringify` throws for a `BigInt` or a cyclic value; then no script is written and that key's reader stays Pending for good. This is not modelled.
- Protocol.ParseCall: only identifier keys are read, up to the first `.`. Every character beyond ASCII counts as an identifier character, while JavaScript accepts only the Unicode identifier letters (ID_Start/ID_Continue), so a key such as `café` or `数据` reads as it should but a key holding, say, an emoji is read where the page would throw.
- Protocol.ScriptEnd: the HTML tokenizer's script states are modelled for the exact lower-case tags `<!--`, `-->`, `<script>` and `</script>`. Tags in other letter cases (`</SCRIPT>`) and tags ended by a space or `/` instead of `>` (`</script `, `<script/`) are not recognised, so text holding them may be modelled as ending where the page does not, or the other way round.
- Protocol.PageRunsScript: covers only argument texts without `<!--`; with one, whether the element ends after the call depends on what follows it (`CommentOpenRunsOn` shows a case where it does not), and that general case is not stated.
- Protocol.ScriptReadsBack: `ReadsBack` asks for no `<!--` in the argument text, a stronger hypothesis than the page needs, and for identifier keys as `Protocol.ParseCall` reads them.
- Protocol.SettlementScriptReachesReader: holds under `ReadsBack`, so argument texts holding `<!--` or `</script>` are not covered; `ClosingTagEndsScript` and `CommentOpenRunsOn` state what happens to some of them.
- Protocol.RunScriptText: reads the script element as `ScriptBody` does, so it inherits the limits named for `Protocol.ScriptEnd` and `Protocol.ParseCall`.
- `String.prototype.replace` interprets `$&`-style patterns in its replacement. The model takes replacements literally.
- The order in which settlement writes and reader writes reach the writer is whatever order the events happen in. The model tags each write with its source rather than fixing an interleaving.
- StreamSession.Session.OnSettled: a write after `writer.close()` is modelled as dropped; the real write rejects, and that rejection goes unhandled.
- Constants.MinifiedRegistryShape: states only what the minified text contains; what it does when run is modelled by `StreamRuntime`, and that the minified text behaves like it is not proved.
- Constants.MinifiedSettleShape: likewise states only what the minified text contains; the settle behaviour is `StreamRuntime.Connection.Resolve`/`Reject`, not proved to match the minified text.
- StreamSession.Session.OnRead: a `done` result ends the session; the source never issues another read after it, so OnRead is not called on a closed session.
- Text.ReplaceAll: needs a non-empty pattern; its only use is the fixed `{{mode}}`.
- The script placeholder is defined in `packages/shared`, which is not part of this model.
- `StreamContext`'s promise map, built on the worker during a stream render, is not modelled separately. It is the map of the workers' promises that `useStreamChunks` returns without a window.
- Chunks.GetStringChunks and Entry.CreateEntry carry no contract of their own:
  - the first returns the embedded map, which `Chunks.UseStringChunks` states;
  - the second is covered by the lemmas on its replacement steps.
- Bundler machinery is not modelled: both plugins' `index.ts`, `html.ts`, `getInheritedOptions`, the playground configuration and pages, logging (`internal.ts`, `inspect.ts`), `rendering-target.ts`, and `register` in `index.ts`. None of these is part of the render pipeline or the chunk protocol.
