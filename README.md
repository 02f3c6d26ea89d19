# React essentials hooks, modelled in Dafny

This project models the stateful hooks of a small React utility library and
proves what they promise. Each hook is a Dafny module with a class standing for
one hook instance. React does not appear in the model. The class constructor is
the first render. The methods are the effects, the effect cleanups, the setters
the hook returns, and the delivery of browser events. Browser objects the hooks
touch are modelled too: the document's `<script>` elements, `localStorage`,
and the DOM's parent relation.

- `UseScript` (`useScript`): the status machine `idle | loading | ready | error`.
  The document's script elements form a registry, a sequence in document order.
  Mounting looks a URL up by `src` property or `src` attribute. A match is
  reused with no listener attached. Otherwise one async element is appended and
  listened on. Load and error events set the status and invoke the latest
  callback from the callback ref. Teardown detaches the listeners and, when
  `removeOnUnmount` holds and the element is still attached, removes it.
- `UseLocalStorage` (`useLocalStorage`): a state cell mirrored into
  `localStorage` under one key, with a fallback to the initial value on
  absence, parse failure or a throwing store. It offers `setValue` (a value or
  an updater) and `removeValue`.
- `UseTheme` (`useTheme`): a theme string and a mounted flag. `setMode` writes
  under `theme` and then sets state. The toggler and the mount effect build on
  it. Storage exceptions are not caught.
- `UseToggle`, `UseSafeState`, `UseSafeFetch`, `UsePrevious`: a boolean with
  three setters; a setter gated by a one-way mounted flag; abort-the-previous
  `AbortController` bookkeeping; a ref that lags its input by one render.
- `UseClickOutside` (`useClickOutside`): the listener predicate over a parent
  map. `Contains` is proved equal to the inclusive-descendant relation of
  `Node.contains` (section 4.4 of the WHATWG DOM Living Standard). The
  listener is registered for `mousedown` and `touchstart` and unregistered on
  teardown.
- `Common` and `BrowserStorage`: `Option`, a thrown-or-returned `Result`, React's
  setter argument (`SetStateAction`), and `window.localStorage` as a class whose
  operations can each be set to throw.

Methods whose names read like test titles (`LoadFreshUrl`, `ToggleTwice`,
`ThrowingStorage`, …) build fresh hook instances and carry out the scenarios of
the test files, and a few more that the source's behaviour implies. Their postconditions give the outcome of each
scenario, proved from the class contracts.

The code is followed where the tests expect otherwise:
- `useTheme` adopts any non-empty stored string as the theme
  (src/hooks/useTheme.tsx:15). The test at src/hooks/useTheme.test.tsx:63-70
  expects `light` for an invalid value. See `UseTheme.StoredThemeAdopted`.
- A throwing `setItem` in `setMode` (src/hooks/useTheme.tsx:7) skips `setTheme`.
  The test at src/hooks/useTheme.test.tsx:72-90 expects the theme to change.
  See `UseTheme.ThrowingStorage`.

The load and error handlers of `useScript` (src/hooks/useScript.tsx:75-83)
have no guard, so a second event on the element sets the status again. See
`UseScript.ScriptLoader.HandleEvent`.

## Model

| member | source | states |
|---|---|---|
| `UseScript.Find` | src/hooks/useScript.tsx:55-57 | The lookup returns the index of the first element whose `src` property or `src` attribute equals the URL; it returns none exactly when no element matches. |
| `UseScript.StatusOf` | src/hooks/useScript.tsx:60-65 | A reused element gives `ready` iff its `readyState` is `complete` or `loaded`, and `loading` otherwise; nothing else is possible. |
| `UseScript.CountAppend` | src/hooks/useScript.tsx:71-88 | Appending an element raises the number of matches for a URL by one exactly when the element matches that URL. |
| `UseScript.FindNoneIffCountZero` | src/hooks/useScript.tsx:55-59 | The lookup fails exactly when the registry holds no entry for the URL, so the hook appends only when no entry exists. |
| `UseScript.RemoveIdMembers` | src/hooks/useScript.tsx:94-95 | Removing an element keeps exactly the elements with another identity. |
| `UseScript.RemoveIdAbsent` | src/hooks/useScript.tsx:94-95 | Removing an element that is no longer attached leaves the registry unchanged. |
| `UseScript.RemoveIdUnique` | src/hooks/useScript.tsx:94-95 | Removal keeps element identities unique. |
| `UseScript.AppendFreshKeepsAtMostOnePerUrl` | src/hooks/useScript.tsx:55-88 | Appending the hook's element for a URL no element matches keeps every URL matched by at most one element. |
| `UseScript.CountRemoveId` | src/hooks/useScript.tsx:94-95 | Removing an element never raises the number of matches for any URL. |
| `UseScript.RemoveIdKeepsAtMostOnePerUrl` | src/hooks/useScript.tsx:94-95 | Removal keeps every URL matched by at most one element. |
| `UseScript.RemoveIdAt` | src/hooks/useScript.tsx:94-95 | With unique identities, removal takes out exactly that one element and keeps the others in order. |
| `UseScript.ScriptLoader.constructor` | src/hooks/useScript.tsx:43-46 | The status starts `idle`, the callback ref holds the given callbacks, `removeOnUnmount` defaults to true, and no listener is attached. |
| `UseScript.ScriptLoader.UpdateCallbacks` | src/hooks/useScript.tsx:49-51 | A re-render overwrites the callback ref with the latest `onLoad`/`onError` and attaches nothing. |
| `UseScript.ScriptLoader.Mount` | src/hooks/useScript.tsx:53-88 | On a match the registry is unchanged, no listener is attached, and the status comes from the element's `readyState`. With no match it is `loading`, exactly one element (`src = url`, `async`) is appended with earlier ones unchanged, and it is listened on. Afterwards the URL's entry count is one if it was zero, and unchanged otherwise. Every other URL's count is unchanged, and a registry with at most one element per URL keeps that property. |
| `UseScript.ScriptLoader.HandleEvent` | src/hooks/useScript.tsx:75-83 | A load event on the element listened on sets `ready` and invokes the current `onLoad`; an error event sets `error` and invokes the current `onError`; events on any other element, or after reuse or teardown, change nothing. |
| `UseScript.ScriptLoader.Teardown` | src/hooks/useScript.tsx:90-97 | Both listeners are detached. The element is removed iff `removeOnUnmount` holds and it is still attached; otherwise the registry is unchanged. After a reuse there is no cleanup at all. No URL's count grows, and a registry with at most one element per URL keeps that property. |
| `UseScript.LoadFreshUrl` | src/hooks/useScript.tsx:69-88 | For an unseen URL: `loading`, one new async element for the URL, then after a load event `ready` with `onLoad` invoked once and `onError` never. |
| `UseScript.FailWithLatestCallback` | src/hooks/useScript.tsx:46-83 | An error event gives `error` and invokes the `onError` of the latest render, not the first. |
| `UseScript.ReuseCompletedScript` | src/hooks/useScript.tsx:59-66 | A completed element already present gives `ready` at once, nothing is appended, and a later event changes neither the status nor the callbacks. |
| `UseScript.SameUrlTwice` | src/hooks/useScript.tsx:55-88 | Two instances for one URL before it resolves leave a single element, and both report `loading`. When the element then loads, only the instance that created it becomes `ready`; the other, which attached no listener, stays `loading`. |
| `UseScript.TeardownKeepsOrRemoves` | src/hooks/useScript.tsx:90-97 | Teardown removes the element by default and keeps it with `removeOnUnmount: false`; a later instance then reuses the kept element. |
| `UseClickOutside.ContainsSound` | src/hooks/useClickOutside.tsx:31 | Every node `Contains` accepts has a parent chain up to the element. |
| `UseClickOutside.ContainsComplete` | src/hooks/useClickOutside.tsx:31 | Every node with a parent chain up to the element is accepted by `Contains`, even if the chain loops. |
| `UseClickOutside.ContainsIffInclusiveDescendant` | src/hooks/useClickOutside.tsx:31 | `element.contains(target)` holds iff the target is the element or one of its descendants. |
| `UseClickOutside.ShouldHandleIff` | src/hooks/useClickOutside.tsx:29-35 | The handler runs iff `ref.current` is non-null and the target is not an inclusive descendant of it. |
| `UseClickOutside.ClickOutside.constructor` | src/hooks/useClickOutside.tsx:24-28 | Before the effect runs, nothing is subscribed and the handler has not run. |
| `UseClickOutside.ClickOutside.Mount` | src/hooks/useClickOutside.tsx:37-38 | The one listener is subscribed to both `mousedown` and `touchstart`. |
| `UseClickOutside.ClickOutside.Dispatch` | src/hooks/useClickOutside.tsx:29-35 | An event of a subscribed type calls the handler exactly once with that event when the predicate holds; otherwise the handler is not called. |
| `UseClickOutside.ClickOutside.Teardown` | src/hooks/useClickOutside.tsx:40-43 | Both subscriptions are removed, after which no event reaches the handler. |
| `UseClickOutside.PressInsideAndOutside` | src/hooks/useClickOutside.tsx:29-43 | Mouse and touch presses outside call the handler once each. Presses on the element or its child do not. After teardown nothing does. |
| `UseClickOutside.NullRefIgnored` | src/hooks/useClickOutside.tsx:30-33 | With `ref.current` null, the handler is never called. |
| `UsePrevious.LaggedAppend` | src/hooks/usePrevious.tsx:25-29 | One more render extends the reference output by the last input so far (`undefined` at first). |
| `UsePrevious.ReplayIsLagged` | src/hooks/usePrevious.tsx:22-29 | Rendering from mount answers `[undefined] ++ inputs[..n-1]`: render k > 1 returns the value of render k - 1. |
| `UsePrevious.ReplayFrom` | src/hooks/usePrevious.tsx:25-29 | From any ref contents, each render answers the ref and then holds the value just rendered. |
| `UsePrevious.Previous.constructor` | src/hooks/usePrevious.tsx:23 | The ref starts `undefined`. |
| `UsePrevious.Previous.Render` | src/hooks/usePrevious.tsx:25-29 | A render returns the old ref and leaves it holding the value just rendered, also when the effect is skipped for an equal value. The outputs so far are always the lagged inputs, and equal the render-by-render replay `Replay(None, inputs)`. |
| `UsePrevious.RenderCounter` | src/hooks/usePrevious.tsx:25-29 | Renders with 0, 1, 2, 3 return `undefined`, 0, 1, 2. |
| `UsePrevious.RenderRepeated` | src/hooks/usePrevious.tsx:25-27 | Equal consecutive inputs still lag: x, x, y, y give `undefined`, x, x, y. |
| `UsePrevious.ReturnsSameObject` | src/hooks/usePrevious.tsx:26 | The value returned is the identical object passed at the previous render. |
| `UseToggle.ToggleState.constructor` | src/hooks/useToggle.tsx:25-27 | The value starts at the given initial value, `false` by default. |
| `UseToggle.ToggleState.Toggle` | src/hooks/useToggle.tsx:29-31 | `toggle` negates the value. |
| `UseToggle.ToggleState.SetTrue` | src/hooks/useToggle.tsx:33-35 | `setTrue` gives `true` whatever came before. |
| `UseToggle.ToggleState.SetFalse` | src/hooks/useToggle.tsx:37-39 | `setFalse` gives `false` whatever came before. |
| `UseToggle.InitialValues` | src/hooks/useToggle.tsx:25-27 | Without an argument the value is `false`; with one it is that value. |
| `UseToggle.ToggleTwice` | src/hooks/useToggle.tsx:29-31 | One toggle negates; two toggles restore the original value. |
| `UseToggle.SettersIdempotent` | src/hooks/useToggle.tsx:33-39 | `setTrue` and `setFalse` give their value from any prior value, and repeating them changes nothing. |
| `UseSafeState.SafeState.constructor` | src/hooks/useSafeState.tsx:3-5 | The state starts at the initial value, `null` by default, and the mounted flag is true. |
| `UseSafeState.SafeState.SetStateSafe` | src/hooks/useSafeState.tsx:13-17 | While mounted the value, or the updater applied to the previous state, becomes the state. After unmount the state is unchanged. The flag is never touched. |
| `UseSafeState.SafeState.Unmount` | src/hooks/useSafeState.tsx:7-11 | The mounted flag becomes false. No member sets it back. |
| `UseSafeState.DefaultIsNull` | src/hooks/useSafeState.tsx:3-5 | With no argument the state is `null`. |
| `UseSafeState.SetWhileMounted` | src/hooks/useSafeState.tsx:13-16 | While mounted a value is stored and a function updater is applied to the previous state. |
| `UseSafeState.SetAfterUnmount` | src/hooks/useSafeState.tsx:8-16 | After unmount, setter calls leave the state unchanged and the flag stays false. |
| `UseSafeFetch.WithSignal` | src/hooks/useSafeFetch.tsx:43-48 | The request's `signal` is the new controller's. A caller-supplied `signal` is discarded. Every other option passes through unchanged. |
| `UseSafeFetch.AfterCallsShape` | src/hooks/useSafeFetch.tsx:38-40 | After n calls there are n controllers and the ref holds the last, still live. Each earlier controller has been aborted exactly once. |
| `UseSafeFetch.EveryControllerAbortedOnce` | src/hooks/useSafeFetch.tsx:31-40 | After n >= 1 calls and an unmount, every controller has been aborted exactly once. |
| `UseSafeFetch.SafeFetch.constructor` | src/hooks/useSafeFetch.tsx:29 | The controller ref starts `null`. |
| `UseSafeFetch.SafeFetch.Fetch` | src/hooks/useSafeFetch.tsx:37-49 | A call aborts the stored controller, if any, then creates and stores a fresh one. It hands `fetch` the URL and the options rewritten to carry the fresh controller's signal. |
| `UseSafeFetch.SafeFetch.Unmount` | src/hooks/useSafeFetch.tsx:31-35 | Unmount aborts the stored controller if there is one, and does nothing otherwise. |
| `UseSafeFetch.TwoCallsThenUnmount` | src/hooks/useSafeFetch.tsx:31-40 | Two calls abort exactly the first controller, once; unmounting then aborts the second. |
| `UseSafeFetch.UnmountWithoutCall` | src/hooks/useSafeFetch.tsx:31-35 | Unmounting without a call aborts nothing. |
| `UseSafeFetch.OptionsPassThrough` | src/hooks/useSafeFetch.tsx:43-48 | `method` and `headers` pass through, and a caller's `signal` is replaced by the controller's. |
| `UseLocalStorage.InitialState` | src/hooks/useLocalStorage.tsx:28-38 | The initial state is either `initialValue` or a value parsed from the stored item. It is the parsed value whenever an item is stored and parses. |
| `UseLocalStorage.ReadAfterWrite` | src/hooks/useLocalStorage.tsx:33-45 | Provided parse undoes serialise, a later initial read of the key returns the value last written. |
| `UseLocalStorage.LocalStorageState.constructor` | src/hooks/useLocalStorage.tsx:28-38 | The lazy initial read: `initialValue` without a window; otherwise the initial state from what `getItem` returned or threw. |
| `UseLocalStorage.LocalStorageState.SetValue` | src/hooks/useLocalStorage.tsx:40-53 | The state becomes the value, or the updater applied to the previous state. The store then holds its serialisation under `key` and no other key changes. If `setItem` throws, the store is unchanged and the state still updates. |
| `UseLocalStorage.LocalStorageState.RemoveValue` | src/hooks/useLocalStorage.tsx:55-62 | The key is deleted from the store unless `removeItem` throws, and the state resets to `initialValue` either way. |
| `UseLocalStorage.InitialReads` | src/hooks/useLocalStorage.tsx:28-38 | The initial value when the key is absent, when the item does not parse, without a window and when `getItem` throws; the stored value when it parses. |
| `UseLocalStorage.SetThenRemount` | src/hooks/useLocalStorage.tsx:40-53 | A value set is the state and is stored serialised under the key. Other keys are untouched. A later instance reads the value back. |
| `UseLocalStorage.UpdaterStoresResult` | src/hooks/useLocalStorage.tsx:43 | `setValue(prev => prev + 1)` from 0 makes the state 1 and stores the serialisation of 1. |
| `UseLocalStorage.FailingWriteStillUpdates` | src/hooks/useLocalStorage.tsx:44-49 | When `setItem` throws, the state still becomes the new value and the store is unchanged. |
| `UseLocalStorage.RemoveResets` | src/hooks/useLocalStorage.tsx:55-62 | `removeValue` deletes the key and resets the state to the initial value. |
| `UseTheme.ToggleTwice` | src/hooks/useTheme.tsx:10-12 | The toggler asks for `dark` from `light` and for `light` from anything else, never the current theme. Two toggles restore a theme iff it is `light` or `dark`. |
| `UseTheme.ThemeState.constructor` | src/hooks/useTheme.tsx:4-5 | Before the effect runs the theme is `light` and the component is not mounted. |
| `UseTheme.ThemeState.SetMode` | src/hooks/useTheme.tsx:6-9 | The mode is written under `theme` and then becomes the state. A throwing write leaves both the store and the state unchanged. |
| `UseTheme.ThemeState.ThemeToggler` | src/hooks/useTheme.tsx:10-12 | A completed toggle sets the toggled mode, and afterwards the store and the state agree. A throwing write changes nothing. |
| `UseTheme.ThemeState.MountEffect` | src/hooks/useTheme.tsx:13-17 | A truthy stored theme becomes the state unchecked; otherwise `light` is written and used. Then the component is mounted. A throwing `getItem` or `setItem` stops the effect before the flag is set. |
| `UseTheme.DefaultThenToggleTwice` | src/hooks/useTheme.tsx:4-17 | From an empty store: `light` and not mounted before the effect, mounted after. Toggles give `dark`, stored under `theme`, then `light`. |
| `UseTheme.StoredThemeAdopted` | src/hooks/useTheme.tsx:14-15 | Any non-empty stored string becomes the theme, valid mode or not. |
| `UseTheme.ThrowingStorage` | src/hooks/useTheme.tsx:6-16 | With a throwing `setItem`, the mount effect stops before mounting, and the toggle leaves the theme `light`. |

## Left out

- React itself: render scheduling, batching, StrictMode double invocation, effect ordering and `useCallback` identity. Each hook is an object with explicit render, effect, event and cleanup methods.
- Changes of effect dependencies: `url`/`removeOnUnmount` for `useScript` and `ref`/`handler` for `useClickOutside`. React runs the cleanup and then the effect again. The model expresses this as `Teardown` followed by a fresh instance's `Mount`. For `useScript` this is not exact: the render with the new URL still returns the previous URL's status (src/hooks/useScript.tsx:45, 100) until the new effect sets it, while the fresh instance starts at `idle`.
- `UseLocalStorage.LocalStorageState`: `key` and `initialValue` are constants of an instance. In the hook, the lazy initial read (src/hooks/useLocalStorage.tsx:28-38) runs only once, so after a change of `key` the state keeps the first key's value while `setValue` and `removeValue` use the new key (dependency lists at src/hooks/useLocalStorage.tsx:52 and 62). That mix of keys is not modelled.
- URL resolution: a `<script>`'s `src` property is the resolved absolute URL. In the model the hook's own element has property and attribute both equal to the given string.
- Callbacks, `fetch` and the network: callbacks are opaque identities, and the model records which ones were invoked. `fetch` is not called; `Fetch` returns the request it would be handed. `AbortController` internals are reduced to a count of `abort()` calls per controller.
- JSON: `JSON.stringify`/`JSON.parse` are an uninterpreted pair. The round trip is the assumption `RoundTrips`, stated where it is used. The runtime check `value instanceof Function` is a typed choice between value and updater. A stored state that is itself a function is not modelled.
- `useSafeState`'s untyped state is `Option<T>`, where `None` is `null`. In JavaScript a function passed to `setStateSafe` always reaches React as an updater. In the model, a `SafeState<T>` whose `T` is a function type stores `Value(Some(f))` as the state; that case is not modelled.
- `UseSafeState.SafeState.constructor`: stores the initial value as given. `useState` calls a function-valued initial value once and keeps its result (src/hooks/useSafeState.tsx:5); that lazy initialiser is not modelled.
- Event targets are DOM nodes given by identity. A null or non-node target is not modelled.
- `useWindowDimensions`, `useMediaQuery` and `useDimensions` are thin listeners over browser APIs with no logic of their own. `useDimensions`' cleanup re-adds the `load` listener instead of removing it (src/hooks/useDimensions.tsx:24).
- `ConditionnalWrapper` is rendering only, a single conditional over opaque React nodes. The source of `useDebounce` is not part of this model, and its behaviour is timer-driven.
