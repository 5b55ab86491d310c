# Lazy component definitions (react-loosely-lazy, `src/lazy/index.tsx`)

This project models what happens when a lazy component is *defined* with
`lazyForPaint`, `lazyAfterPaint` or `lazy`:

- **Option resolution** (`lazy_options.dfy`, module `LazyOptions`).
  - Each entry point spreads the caller's options over its preset from
    `DEFAULT_OPTIONS`.
  - `lazyProxy`'s parameter destructuring then gives every key still
    `undefined` its default: `defer` = PAINT, `getCacheId` = a function
    returning `''`, `moduleId` = `''`, `ssr` = true.
  - A JavaScript key is a `Slot`: `Absent`, `Undefined` or `Given(v)`.
    - Spread keeps a key the caller sets to `undefined`.
    - The destructuring default replaces both `Absent` and `Undefined`.
    - So `lazy(loader, {ssr: undefined})` resolves to `ssr = true`, not to the
      preset's `false`.
- **Wiring** (`lazy_index.dfy`, module `LazyIndex`).
  - `LazyProxy` is a method that goes step by step through the resolved
    options:
    - it asks whether it runs in Node;
    - it calls `getCacheId` once and `hash(moduleId)` once;
    - it hands both identities to the server factory or, after creating one
      Deferred around the loader, to the client factory;
    - it sets the display name.
  - The collaborators it calls are not shown.
    - A `Host` supplies the Boolean result of the one `isNodeEnvironment()`
      call, and `hash` and `displayNameFromId` as function values.
    - Every call into code outside the file goes into a call log, which the
      method returns next to the component.
    - The components the factories produce, and the Deferred, are identified
      by the arguments they were built from.
  - `Wired` states everything the wiring promises:
    - the identities and flags each branch passes;
    - the order of the calls;
    - how often each collaborator is called.
- **Attached methods.**
  - `LazyComponent.GetBundleUrl` looks up the component's module in a manifest,
    which is modelled as a finite map.
  - `LazyComponent.Preload` models the guard of `preload`. It does nothing when
    `tryRequire(cacheId)` holds or when the document has no head. Otherwise it
    appends a preload link.

## Model

| member | source | states |
|---|---|---|
| `LazyOptions.Spread` | src/lazy/index.tsx:114-130 | `{...preset, ...opts}`: every key the caller has, even as `undefined`, comes from the caller; every key it lacks is kept from the preset; spreading `{}` changes nothing |
| `LazyOptions.Resolve` | src/lazy/index.tsx:43-48 | a key given a value keeps it; a missing or `undefined` key becomes PAINT, a getter returning `''`, `''` or `true` respectively |
| `LazyOptions.PresetsExact` | src/lazy/index.tsx:106-112 | DEFAULT_OPTIONS has exactly the keys lazyForPaint, lazyAfterPaint, lazy, with {ssr: true, defer: PAINT}, {ssr: true, defer: AFTER_PAINT}, {ssr: false, defer: LAZY} |
| `LazyOptions.Entry.Key` | src/lazy/index.tsx:114-130 | the key an entry point reads its preset under is always present in the presets; which key each entry point reads is stated by `EntryPresetsByName` |
| `LazyOptions.EntryPresetsByName` | src/lazy/index.tsx:106-130 | each entry point reads the preset under its own name: without options `lazyForPaint` resolves to ssr true and PAINT, `lazyAfterPaint` to ssr true and AFTER_PAINT, `lazy` to ssr false and LAZY |
| `LazyOptions.OmittedOptionsAreEmpty` | src/lazy/index.tsx:114-118 | calling an entry point without options gives the same merged options as passing `{}` |
| `LazyOptions.EntryResolution` | src/lazy/index.tsx:114-130 | per key, for every entry point and every caller options: a caller's value wins; a caller's `undefined` gives lazyProxy's default; an omitted key gives the preset's value for ssr and defer and lazyProxy's default for getCacheId and moduleId |
| `LazyOptions.EntryDefaults` | src/lazy/index.tsx:106-130 | without options each entry point resolves to its preset's ssr and defer, moduleId `''` and a cache id `''` |
| `LazyOptions.ExplicitUndefinedSsr` | src/lazy/index.tsx:126-130 | `lazy(loader, {ssr: undefined})` resolves to ssr true while `lazy(loader)` resolves to ssr false |
| `LazyIndex.LazyProxy` | src/lazy/index.tsx:41-104 | the component and call log satisfy `Wired`: cache id is `getCacheId()`, data-lazy-id is `hash(moduleId)`, the server factory gets {cacheId, dataLazyId, loader, ssr} exactly when in Node, otherwise one Deferred of the loader is created and the client factory gets {cacheId, dataLazyId, defer, deferred, ssr}; each collaborator is called the stated number of times and in order; displayName is `Lazy(` + displayNameFromId(moduleId) + `)` |
| `LazyIndex.LazyForPaint` | src/lazy/index.tsx:114-118 | the definition is `Wired` for the resolution of the lazyForPaint preset spread under the caller's options (`EntryOptions`, which reads the preset through `Entry.Key`) |
| `LazyIndex.LazyAfterPaint` | src/lazy/index.tsx:120-124 | the definition is `Wired` for the resolution of the lazyAfterPaint preset spread under the caller's options (`EntryOptions`, which reads the preset through `Entry.Key`) |
| `LazyIndex.Lazy` | src/lazy/index.tsx:126-130 | the definition is `Wired` for the resolution of the lazy preset spread under the caller's options (`EntryOptions`, which reads the preset through `Entry.Key`) |
| `LazyIndex.LogCounts` | src/lazy/index.tsx:50-69 | a log of lazyProxy's shape calls isNodeEnvironment, getCacheId, hash and displayNameFromId once each, and on the server the server factory once and nothing else, on the client createDeferred and the client factory once each |
| `LazyIndex.WiredDeterministic` | src/lazy/index.tsx:50-69 | up to the identity of the object the factory returns, the defined component and the call log are a function of the environment, the loader and the resolved options (each call in the source returns a new object) |
| `LazyIndex.IdentityIndependentOfEnvironment` | src/lazy/index.tsx:51-67 | the same moduleId yields the same data-lazy-id, and the same getter the same cache id, whichever factory is chosen |
| `LazyIndex.ServerBranchNeverDefers` | src/lazy/index.tsx:54-60 | in Node no Deferred is created and the client factory is never called |
| `LazyIndex.DisplayNameWraps` | src/lazy/index.tsx:69 | the display name is `Lazy(`, then displayNameFromId(moduleId), then `)`, and the middle reads back to that name |
| `LazyIndex.LazyComponent.GetBundleUrl` | src/lazy/index.tsx:95-101 | the result is absent exactly when the manifest has no entry for moduleId, and otherwise is that entry's publicPath |
| `LazyIndex.EmptyManifestHasNoUrl` | src/lazy/index.tsx:95-98 | the empty manifest gives no URL |
| `LazyIndex.BundleUrlReadsOwnEntry` | src/lazy/index.tsx:95-101 | two manifests that agree on moduleId's entry give the same answer, so other entries do not matter |
| `LazyIndex.BundleUrlExample` | src/lazy/index.tsx:99-100 | a manifest mapping 'mod-a' to publicPath '/static/a.js' gives '/static/a.js' for module 'mod-a' |
| `LazyIndex.LazyComponent.Preload` | src/lazy/index.tsx:76-93 | a preload link is appended exactly when `tryRequire(cacheId)` is false and the document has a head |

## Left out

- The DOM work of `preload` is not modelled. This covers querying `head`,
  creating the `link` element and appending it. `Preload` returns which outcome
  the two guards select and does not build an element.
- The code does not make `preload` idempotent. Each call that passes both
  guards appends another link. The model follows the code.
- The component factories (`./components/server`, `./components/client`) are
  not part of this model, and neither is `createDeferred` (`./deferred`).
  - Their outputs are known only by the props they receive.
  - So the rendering behaviour is not modelled: ssr on the server, phase
    gating on the client, and the pending/resolved/rejected state machine of
    the Deferred.
  - Whether the loader is ever invoked is not modelled either.
- `hash`, `tryRequire`, `displayNameFromId` and `isNodeEnvironment`
  (`../utils`) are not part of this model.
  - `hash`, `displayNameFromId` and `tryRequire` are treated as arbitrary
    functions. `isNodeEnvironment` is represented only by the Boolean its one
    call returns.
  - `hash` is assumed to return a string. Its number-or-string result type is
    not modelled.
- The `PHASE` values (`../constants`) are not part of this model.
  - Phase is an opaque three-valued type with no numeric order.
  - A caller-supplied `defer` number that is not one of the three constants
    cannot be expressed.
- `getCacheId` is modelled as a pure function value. A getter whose result
  changes between calls cannot be expressed. The call log still records that it
  is called exactly once.
- `LoaderError` and `isLoaderError` are only re-exported from
  `./errors/loader-error`, which is not part of this model.
- Indexing a plain object also reaches inherited properties such as
  `manifest["toString"]`. The manifest is a finite map, so this is not
  modelled.
- Manifest values that are themselves `null` or `undefined` are not modelled.
  The declared type rules them out, and for every `Bundle` object the
  truthiness test at line 96 is the same as "the key is present".
- `Bundle.id` numbers are modelled as integers.
- React rendering, paint scheduling and asynchronous loader resolution are
  framework and concurrency concerns and are not modelled.
- LazyComponent.GetBundleUrl: the manifest is always a map, so the model
  cannot express a call with no manifest.
  - `getBundleUrl(undefined)` or `getBundleUrl(null)` throws a TypeError when
    `manifest[moduleId]` is read (line 96).
  - So the source does not treat a missing manifest as "no bundle": it throws.
    Neither the throw nor an `undefined` result is modelled.
- LazyProxy: every collaborator is a total function, so the model cannot
  express an exception that stops `lazyProxy` part-way.
  - Such an exception can come from the caller's `getCacheId` (line 51),
    `hash`, `createDeferred`, either factory or `displayNameFromId`.
  - In the source it would leave no component and only part of the call log.
    That outcome is not modelled.
- LazyComponent.Preload: `hasHead` only covers a document without a head.
  - Outside a browser, a `preload` call whose `tryRequire(cacheId)` is false
    reaches `document.querySelector` (line 81) and throws a ReferenceError,
    because `document` does not exist.
  - That throw is not modelled.
- LazyOptions.PresetsExact: the model takes `DEFAULT_OPTIONS` as it is
  initialised (lines 106-112) and treats it as constant.
  - In the source it is an exported, mutable object. Each entry point reads it
    again on every call (lines 116, 122, 128).
  - So a consumer who changes or deletes an entry changes what every later
    call resolves to. After a delete, spreading `undefined` adds nothing.
  - The model cannot express such changes. `PresetsExact` describes the
    initial value only.
