# figma-persisted-store, modelled in Dafny

This project models the core of figma-persisted-store. The library lets code in a Figma plugin's UI iframe run functions on the plugin's main thread, where the `figma` API lives. On top of that bridge it offers `FigmaStore`, a value that the UI caches and that is mirrored in `figma.clientStorage` under a key.

The model covers three parts:

- `Caller` (src/figmaAPI.ts) is the UI half of the bridge. The class `FigmaAPI` keeps the correlation-id counter, the set of ids whose reply listener is still registered, and how each call's promise settled. `Run` takes an id, registers the listener and posts `{type: "EVAL", code, id, params}` when `figmaScopedRun` lets it through. `RunFromUI` is the same call with the scope check corrected (see "## Findings"). `Deliver` hands one window message to the listeners: a reply of type EVAL_RESULT or EVAL_REJECT carrying a call's id settles that call. `Replace` is the `JSON.stringify` replacer, which turns functions into their source text.
- `Executor` (scr/listenerOnMain.js) is the main-thread `onmessage` handler. `Reconstruct` is the reviver's test for strings that hold function source. `ReviveTree` is `JSON.parse` with that reviver. `ErrorText` extracts the error text sent back. `Handle` builds the one reply an EVAL message gets.
- `Store` (src/figmaStore.ts) contains the class `FigmaStore` with its fields `state` and `isInitialized`, and a `ClientStorage` object holding the durable `map<string, Value>`. Each remote call the store makes is modelled as a synchronous step on that map. The steps are the pure functions `LoadCall`, `SaveCall` and `UpdateCall`, one per function the store ships to the main thread. Whether a call was posted and settled with a result, or rejected (and was caught), is the parameter `rpcSucceeds`. The scenarios obtain it by sending the call through `FigmaAPI.Run` (as written) or `FigmaAPI.RunFromUI` (corrected) from the store's own context. For a posted call, they deliver the main thread's reply to the listeners; the call succeeds when that reply settles it (`Scenarios.StoreCall`, `Scenarios.AwaitReply`).

`Values` holds the JavaScript values that cross the bridge (undefined, null, booleans, numbers, strings, arrays, plain objects and functions known by their source) and their truthiness. `Bridge` connects the two halves of the bridge: parameters survive the replacer and the reviver, and a reply settles exactly its own call. `Scenarios` contains client methods that derive typical call sequences from the contracts alone.

Where the code differs from the behaviour one would expect of the library, the model follows the code. As written, `figmaScopedRun` lets a call through only where the `figma` global is defined. A store can only be created where that global is absent. So every call a store makes rejects, and the store never loads or persists anything (`RemountAsWritten`). This is recorded under "## Findings". The remaining points describe the store with the corrected check (`RunFromUI`):

- `update` stores the updater's result in `state` even when it is `undefined`. It only skips publishing and persisting in that case.
- When nothing is stored, `updateAsync` falls back to the current cached value, not to the value the store was created with.
- The persist step skips every falsy value (`0`, `""`, `false`, `null`), not only `undefined`. So `set(0)` is never written (`FalsySetScenario`).
- `updateAsync` caches its result only when it is truthy. A falsy result is written to storage but not cached (`UpdateAsyncFalsyScenario`).
- `figmaScopedRun` throws when the `figma` global is absent. The store's constructor throws when that global is present. So from any one context, a constructed store and a posted call never go together (`SameContextScenario`). With the corrected check they always go together (`SameContextFromUI`).
- `getNodeTarget` passes the `figma` global to the resolver itself. In the context where a store exists, that global is absent, so with a resolver the call throws before the resolver runs (`NodeTargetScenario`).
- A call without truthy parameters posts `params: undefined`. The main thread's `JSON.parse(undefined)` then throws, so such a call always rejects (`RunWithoutParamsThrows`).

## Model

| member | source | states |
|---|---|---|
| `Caller.Replace` | src/figmaAPI.ts:59-64 | the replacer leaves no function anywhere in the parameters, turns a function into its source text, and leaves function-free values unchanged |
| `Caller.WireParams` | src/figmaAPI.ts:59-71 | the posted `params` is defined exactly when the given parameters are truthy, and it holds no functions |
| `Caller.ScopedRun` | src/figmaAPI.ts:8-19 | the source text is returned exactly when the host API global is present; otherwise the call throws |
| `Caller.UIScopedRun` | src/figmaAPI.ts:8-19 | the corrected check: the source text is returned exactly when the host API global is absent, which is the UI context where `run` is called |
| `Caller.RejectionMessage` | src/figmaAPI.ts:45-51 | a string `error` becomes the rejection text; anything else becomes "An error occurred in FigmaAPI.run()" |
| `Caller.Message` | src/figmaAPI.ts:66-72 | the posted `pluginMessage` has type EVAL and carries the code, the call's id and the wire parameters |
| `Caller.Addressee` | src/figmaAPI.ts:35-43 | a window message is a reply to some call exactly when its `pluginMessage` has type EVAL_RESULT or EVAL_REJECT and its `id` is a call id; it is then a reply to the call with that id |
| `Caller.Settle` | src/figmaAPI.ts:34-55 | a call's listener acts only on an EVAL_RESULT or EVAL_REJECT carrying its own id; it resolves with exactly the reply's `result`, or rejects with the `error` string or else "An error occurred in FigmaAPI.run()" |
| `Caller.SettleOneCall` | src/figmaAPI.ts:34-55 | no window message is acted on by the listeners of two different calls |
| `Caller.FigmaAPI.constructor` | src/figmaAPI.ts:1-2 | a new instance starts at id 0 with no listeners and nothing settled |
| `Caller.FigmaAPI.Run` | src/figmaAPI.ts:27-78 | the call takes the current id, which was never used before, and increments it; the call's listener is registered; with the host API global present, `{EVAL, id, source, params}` is posted and nothing settles; without it nothing is posted, the promise rejects with "Figma environment not available." and the listener stays registered |
| `Caller.FigmaAPI.RunFromUI` | src/figmaAPI.ts:27-78 | as `Run`, except that the call is posted exactly when the host API global is absent, and otherwise rejects with "Figma environment not available." |
| `Caller.FigmaAPI.Post` | src/figmaAPI.ts:31-77 | the part of `run` after the scope check: a fresh id, the listener registered, and the request posted with the replaced parameters; or, when the check threw, nothing posted and the call rejected |
| `Caller.FigmaAPI.Deliver` | src/figmaAPI.ts:34-56 | the addressed call's listener is removed; the call settles as `Settle` says only if it had not settled yet; other listeners and earlier settlements are unchanged; every issued id keeps a listener or a settlement |
| `Executor.Reconstruct` | scr/listenerOnMain.js:11-24 | a string starting with "function" is evaluated in parentheses as a regular function; otherwise one starting with "(" or containing "=>" is evaluated as an arrow function; every other string is left alone |
| `Executor.Revive` | scr/listenerOnMain.js:11-24 | the reviver turns a string that looks like function source into that function and returns every other value as it is; no string it returns looks like function source |
| `Executor.ReviveTree` | scr/listenerOnMain.js:11-24 | after parsing, no string that looks like function source remains; a single string is revived as the reviver says; a tree with no such string comes back unchanged |
| `Executor.Execute` | scr/listenerOnMain.js:10-26 | undefined parameters throw at `JSON.parse`; otherwise the function is called with parameters in which no string looks like function source, and with the parameters themselves when none did |
| `Executor.Reply` | scr/listenerOnMain.js:27-38 | the reply echoes the id; a result gives EVAL_RESULT with that result; a throw gives EVAL_REJECT with `ErrorText` of what was thrown |
| `Executor.ErrorText` | scr/listenerOnMain.js:32-39 | the reject reply's `error` is a thrown string itself, else the `message` of a thrown object that has one, else null |
| `Executor.Handle` | scr/listenerOnMain.js:1-44 | exactly one reply for an EVAL message whose code evaluates, and none otherwise; the reply echoes the message id and is EVAL_RESULT with the result or EVAL_REJECT with the error text |
| `Executor.NoArrowWithoutEquals` | scr/listenerOnMain.js:19 | a string with no '=' character never passes the "=>" test |
| `Executor.AsyncFunctionNotReconstructed` | scr/listenerOnMain.js:14-21 | the source of an `async function` is not recognised and stays a string |
| `Executor.ParenthesisedTextReconstructed` | scr/listenerOnMain.js:19-21 | an ordinary string parameter that starts with "(" is taken for an arrow function |
| `Store.Base` | src/figmaStore.ts:135-140 | `updateAsync` starts from the stored value when it is defined, otherwise from the fallback |
| `Store.LoadCall` | src/figmaStore.ts:61-69 | the loaded value is defined only for a non-empty key that holds it, and it is then that stored value |
| `Store.SaveCall` | src/figmaStore.ts:190-201 | the persist writes the value under the key when the key is non-empty and the value truthy, and otherwise leaves the storage unchanged |
| `Store.UpdateCall` | src/figmaStore.ts:124-150 | without key or updater nothing is written and undefined is returned; otherwise the updater is applied to the stored value or the fallback; a defined result is written under the key and returned; an undefined result leaves the storage unchanged |
| `Store.LoadParams` | src/figmaStore.ts:70 | the load is sent a truthy parameter object carrying the storage key and the resolver's parameters |
| `Store.SaveParams` | src/figmaStore.ts:185-189 | the persist is sent a truthy parameter object carrying the storage key, the value and the resolver's parameters |
| `Store.UpdateParams` | src/figmaStore.ts:151-156 | the read-modify-write is sent a truthy parameter object carrying the storage key, the updater, the cached value and the resolver's parameters |
| `Store.SaveParamsArrive` | src/figmaStore.ts:185-201 | when the key and the value survive the replacer and the reviver, the persist's function on the main thread sees exactly the key and the value the store sent |
| `Store.ParenthesisedValueArrivesAsFunction` | src/figmaStore.ts:185-190 | a cached string that looks like an arrow function reaches the persist's function as a function, not as that string |
| `Store.WritesAreDefined` | src/figmaStore.ts:145-149 | neither remote write of the store puts `undefined` into storage |
| `Store.SaveThenLoad` | src/figmaStore.ts:183-201 | a persisted truthy value is what the next load reads |
| `Store.FalsySaveReadsStale` | src/figmaStore.ts:198 | after persisting a falsy value, the next load reads what was stored before |
| `Store.UpdateThenLoad` | src/figmaStore.ts:145-149 | a defined result of the read-modify-write is what the next load reads |
| `Store.Target` | src/figmaStore.ts:171-177 | an empty array becomes undefined; a non-empty array or any other value is returned as it is |
| `Store.FigmaStore.constructor` | src/figmaStore.ts:32-37 | a new store holds the initial value, is not initialized, and has published the initial value once |
| `Store.FigmaStore.Construct` | src/figmaStore.ts:16-38 | construction fails exactly when the host API global is present; otherwise the store is as the constructor leaves it |
| `Store.FigmaStore.Create` | src/figmaStore.ts:41-53 | `create` fails exactly when construction does; otherwise the store holds the defined stored value if the load succeeded, else the initial value, and is initialized exactly when the load succeeded |
| `Store.FigmaStore.Initialize` | src/figmaStore.ts:56-86 | a no-op once initialized; after a successful load the state is the defined stored value or stays unchanged, the store is initialized and the state is published; after a failed load both fields are unchanged |
| `Store.FigmaStore.Get` | src/figmaStore.ts:96-98 | returns the cached state and changes nothing |
| `Store.FigmaStore.SaveToStorage` | src/figmaStore.ts:183-208 | one persist is started; if it succeeds, storage becomes the `SaveCall` result for the current state; if it fails, storage is unchanged |
| `Store.FigmaStore.Set` | src/figmaStore.ts:101-106 | the state becomes the value and is published; storage gets the value under the key when the persist succeeds, the key is non-empty and the value truthy; otherwise storage is unchanged |
| `Store.FigmaStore.Update` | src/figmaStore.ts:109-116 | the state always becomes the updater's result; only a defined result is published and persisted |
| `Store.FigmaStore.UpdateAsync` | src/figmaStore.ts:119-164 | on success, storage is the result of the remote read-modify-write (fallback: the current state); the state becomes the returned value when truthy and stays unchanged otherwise; it is published; on failure nothing changes |
| `Store.FigmaStore.GetNodeTarget` | src/figmaStore.ts:167-180 | undefined without a resolver; with one, the read of the host API global throws where that global is absent; otherwise undefined when the resolver returns an empty array, else what it returns for the parameters (or `{}`) |
| `Bridge.CallerSees` | src/figmaAPI.ts:42-53 | a result resolves the call with that result; a thrown string, or the string `message` of a thrown object, becomes the rejection text; anything else becomes the fixed fallback text |
| `Bridge.ParamsRoundTrip` | scr/listenerOnMain.js:11-24 | replacing functions by their source and reviving gives back any parameters whose functions are recognised and whose strings are not mistaken for functions |
| `Bridge.HostReceivesParams` | scr/listenerOnMain.js:11-26 | the main thread calls the function with exactly the parameters given to `run`, when those are truthy and transferable |
| `Bridge.RunWithoutParamsThrows` | scr/listenerOnMain.js:10-11 | a call posted without parameters throws at `JSON.parse` before the function runs |
| `Bridge.ReplyCorrelation` | scr/listenerOnMain.js:26-39 | the reply to a request settles that request as `CallerSees` says, and no other id |
| `Bridge.CallRoundTrip` | src/figmaAPI.ts:27-78 | `run(fn, params)` with transferable parameters settles with what `fn(params)` produced on the main thread |
| `Scenarios.AwaitReply` | src/figmaAPI.ts:34-56 | when a call was posted, the main thread's reply to it is delivered to the listeners and settles that call with the function's result, so the call succeeds exactly when it was posted |
| `Scenarios.StoreCall` | src/figmaStore.ts:59-85 | a store call takes exactly one correlation id; from the store's own context, where the host API global is absent, it succeeds with the corrected `run` and rejects with `run` as written |
| `Scenarios.InitializeStore` | src/figmaStore.ts:56-79 | on an initialized store it sends nothing (the id counter is unchanged) and changes neither state nor what was published; otherwise it sends exactly one load, and the store becomes initialized exactly when that load succeeds, taking the defined stored value; it never sends a persist |
| `Scenarios.SetStore` | src/figmaStore.ts:101-106 | the state becomes the value and is published, one persist is sent and the initialized flag is kept; storage is the `SaveCall` result when the persist succeeds, and unchanged otherwise |
| `Scenarios.UpdateStore` | src/figmaStore.ts:109-116 | the state becomes the updater's result and the initialized flag is kept; for an undefined result no call is sent and nothing is published or persisted; for a defined one exactly one persist is sent and the result published, and only a successful persist changes storage |
| `Scenarios.UpdateAsyncStore` | src/figmaStore.ts:119-164 | exactly one call is sent, no persist, and the initialized flag is kept; on success, storage and state follow `UpdateCall` with the truthy-only refresh and the state is published; on rejection nothing changes |
| `Scenarios.RemountAsWritten` | src/figmaStore.ts:41-164 | as written, in either environment: either no store is created, or, with 5 stored, the store reads 0, `updateAsync(x => x + 1)` changes nothing, `set(7)` reads 7 without being persisted, a remount reads 0 and the storage still holds 5 |
| `Scenarios.RemountScenario` | src/figmaStore.ts:41-106 | with calls through the corrected `run`: `create("count", 0)` reads 0; `set(5)` reads 5; a remounted store over the same storage reads 5 |
| `Scenarios.FalsySetScenario` | src/figmaStore.ts:183-201 | with calls through the corrected `run`: `set(0)` after `set(5)` reads 0 locally, but a remounted store reads 5 |
| `Scenarios.UpdateAsyncScenario` | src/figmaStore.ts:119-164 | with calls through the corrected `run` and 5 stored, `updateAsync(x => x + 1)` stores 6 and caches 6 |
| `Scenarios.UpdateAsyncFalsyScenario` | src/figmaStore.ts:159 | with calls through the corrected `run` and 1 stored, `updateAsync(x => x - 1)` stores 0 but the store keeps 1 |
| `Scenarios.ReinitializeScenario` | src/figmaStore.ts:56-57 | with calls through the corrected `run`: after another store over the same key persists 5, initializing an already initialized store again sends no call and keeps the value it loaded |
| `Scenarios.UpdateScenario` | src/figmaStore.ts:109-116 | with calls through the corrected `run`: `update(x => x)` keeps and persists the value; `update(() => undefined)` caches undefined and leaves storage alone |
| `Scenarios.SameContextScenario` | src/figmaAPI.ts:8-19 | as written, in either environment, exactly one of "a store can be constructed" and "a call is posted" holds |
| `Scenarios.SameContextFromUI` | src/figmaStore.ts:26 | with the corrected check, a call is posted exactly where a store can be constructed, which is where the host API global is absent |
| `Scenarios.NodeTargetScenario` | src/figmaStore.ts:167-169 | in either environment, either no store is created, or its `getNodeTarget` with a resolver throws in the context where it was created |
| `Scenarios.CorrelationScenario` | src/figmaAPI.ts:31-56 | for calls A then B posted from the UI through the corrected `run`, whose replies arrive B then A, each call gets its own result, and a duplicate reply settles nothing |
| `Scenarios.Answer` | scr/listenerOnMain.js:26-31 | the success reply to a request addresses that request and resolves it with the result |

## Left out

- Dynamic evaluation (`eval`, `Function.prototype.toString`) is not modelled. A function is its source text, and evaluating the reconstructed text is assumed to give back that function. In the source, a string that is mistaken for a function either evaluates to some other value (`"(0)"` gives 0) or fails to evaluate and makes the call reject. In `ReviveTree` it becomes a function value.
- Store.LoadCall, Store.SaveCall and Store.UpdateCall: these take the key, the value and the updater the store sent as exactly what the function on the main thread receives. So they assume that these are transferable: the reviver recognises the updater's source and takes no key or value for a function. `Store.SaveParamsArrive` proves that such parameters arrive unchanged. For other parameters, the source revives the value or rejects the call (`Store.ParenthesisedValueArrivesAsFunction`), while the model writes the string as it was sent.
- JSON text is represented by the value tree it encodes. So the model does not capture `JSON.stringify` dropping `undefined` members, non-serialisable values, or cycles.
- The transport (`window.addEventListener`, `parent.postMessage`, `figma.ui.postMessage`) is not modelled. `Deliver` receives the window event's data, and `Handle` returns the reply it would post.
- The Svelte writable and `subscribe` are external. The model only records the values handed to the writable's `set`, as the ghost sequence `published`.
- Concurrency: every remote call completes before the method returns. Overlapping persists and races between writers are not modelled.
- Remote failures of every kind (transport, storage, an updater that throws) are folded into `rpcSucceeds`. A failure after the storage write has happened is not modelled.
- A synchronous updater of `update` or a node-target resolver that throws is not modelled. The resolver is a total function of the parameters.
- Store.FigmaStore.GetNodeTarget: the `ReferenceError` that reading the absent `figma` global raises is the result `None`. The model does not say what the resolver does with the global when it is present.
- Numbers are reals. NaN and negative zero (both falsy in JavaScript) are not modelled.
- Property reads see only the own fields of plain objects, not properties of arrays or strings such as `length`.
- The `inputParams || {...}` fallbacks in the functions the store ships are not modelled, because the store always passes a parameter object. The resolver parameters the store forwards in that object (`LoadParams`, `SaveParams`, `UpdateParams`) are ignored by the shipped functions. If the reviver mistakes one of them for function source, the call can reject inside the main thread's `try`. The model folds that into `rpcSucceeds`.
- Logging (`console.log`, `console.error`) is not modelled.
- The older copies and experiments (scr/index.ts, dist/figmaStore.js, archive/experiments.ts, archive/index-old.ts, index-copy.ts, archive/messenger/index.ts) and the declaration files are not part of this model.

## Findings

| source | as written | input that shows it | evidently intended | confidence | as-written member | corrected member |
|---|---|---|---|---|---|---|
| src/figmaAPI.ts:13-18 | `figmaScopedRun` lets a call through only where the `figma` global is defined. `run` is called from the UI context, and the store that calls it can only be created where that global is absent (src/figmaStore.ts:26). So every store call rejects and is caught. | `create("count", 0)` over a storage holding 5, then `updateAsync(x => x + 1)`, `set(7)`, and `create("count", 0)` again: the stores read 0, 0, 7 and 0, and the storage still holds 5 | the source text is posted from the UI context, where the global is absent, and the call fails only outside it | not executed; high | `Scenarios.RemountAsWritten` | `Caller.FigmaAPI.RunFromUI` (used by `Scenarios.RemountScenario`, `FalsySetScenario`, `UpdateAsyncScenario`, `UpdateAsyncFalsyScenario`, `UpdateScenario` and `CorrelationScenario`; `Scenarios.SameContextFromUI` proves that a call is posted exactly where a store can exist) |
