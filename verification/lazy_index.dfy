/**
 * The definition-time wiring of src/lazy/index.tsx: lazyProxy derives the
 * cache id and the data-lazy-id once, hands them to the server or the client
 * component factory depending on the environment, names the component, and
 * attaches preload and getBundleUrl to it. The entry points lazyForPaint,
 * lazyAfterPaint and lazy call lazyProxy with a preset spread under the
 * caller's options.
 *
 * The collaborators this file imports (isNodeEnvironment, hash,
 * displayNameFromId, tryRequire, createDeferred and the two component
 * factories) are not part of this model: a Host supplies the Boolean result
 * of the one isNodeEnvironment() call and the function values hash and
 * displayNameFromId, tryRequire is a parameter of preload, and every call into
 * them is written to a call log, so that the log records what each one was given.
 */
module LazyIndex {
  import opened LazyOptions

  /** The caller's loader, as an opaque reference: nothing here invokes it. */
  datatype Loader = Loader(ref: nat)

  /** The handle createDeferred returns, known by the loader it wraps. */
  datatype Deferred = Deferred(loader: Loader)

  /** The argument of createComponentServer. */
  datatype ServerProps = ServerProps(cacheId: string, dataLazyId: string, loader: Loader, ssr: bool)

  /** The argument of createComponentClient. */
  datatype ClientProps = ClientProps(cacheId: string, dataLazyId: string, defer: Phase, deferred: Deferred, ssr: bool)

  /** The component a factory returns, known by the props it was built from. */
  datatype Base = ServerComponent(server: ServerProps) | ClientComponent(client: ClientProps)
  {
    function CacheId(): (id: string)
    {
      if ServerComponent? then server.cacheId else client.cacheId
    }

    function DataLazyId(): (id: string)
    {
      if ServerComponent? then server.dataLazyId else client.dataLazyId
    }

    function Ssr(): (ssr: bool)
    {
      if ServerComponent? then server.ssr else client.ssr
    }
  }

  /** The helpers of ../utils that lazyProxy consults at definition time. */
  datatype Host = Host(isNodeEnvironment: bool, hash: string -> string, displayNameFromId: string -> string)

  /** A call lazyProxy makes into code outside this file, with what it passes. */
  datatype Call =
    | IsNodeEnvironment
    | GetCacheId
    | Hash(moduleId: string)
    | CreateDeferred(loader: Loader)
    | CreateComponentServer(server: ServerProps)
    | CreateComponentClient(client: ClientProps)
    | DisplayNameFromId(moduleId: string)
  {
    function Callee(): (callee: Callee)
    {
      match this
      case IsNodeEnvironment => NodeCheck
      case GetCacheId => CacheIdGetter
      case Hash(_) => Hasher
      case CreateDeferred(_) => DeferredFactory
      case CreateComponentServer(_) => ServerFactory
      case CreateComponentClient(_) => ClientFactory
      case DisplayNameFromId(_) => Namer
    }
  }

  datatype Callee = NodeCheck | CacheIdGetter | Hasher | DeferredFactory | ServerFactory | ClientFactory | Namer

  /** How many calls of the log go to `callee`. */
  function Count(calls: seq<Call>, callee: Callee): (n: nat)
  {
    if calls == [] then 0
    else (if calls[0].Callee() == callee then 1 else 0) + Count(calls[1..], callee)
  }

  /** Counting distributes over concatenation of logs. */
  lemma {:induction false} CountConcat(a: seq<Call>, b: seq<Call>, callee: Callee)
    ensures Count(a + b, callee) == Count(a, callee) + Count(b, callee)
  {
    if a == [] {
      assert a + b == b;
    } else {
      assert (a + b)[1..] == a[1..] + b;
      CountConcat(a[1..], b, callee);
    }
  }

  lemma CountOne(c: Call, callee: Callee)
    ensures Count([c], callee) == if c.Callee() == callee then 1 else 0
  {
  }

  /** A bundle of the manifest. */
  datatype BundleId = NumberId(n: int) | StringId(s: string) | NullId
  datatype Bundle = Bundle(id: BundleId, name: Option<string>, file: string, publicPath: string)
  type Manifest = map<string, Bundle>

  /** What a call to preload does to the document. */
  datatype PreloadEffect = NoEffect | AppendPreloadLink

  /** The object lazyProxy returns: the factory's component with displayName, preload and getBundleUrl attached. */
  datatype LazyComponent = LazyComponent(base: Base, displayName: string, cacheId: string, moduleId: string)
  {
    /** The public path of this component's bundle, or nothing when the manifest has no entry for its module. */
    function GetBundleUrl(manifest: Manifest): (url: Option<string>)
      ensures url.None? <==> moduleId !in manifest
      ensures url.Some? ==> url.value == manifest[moduleId].publicPath
    {
      if moduleId !in manifest then None else Some(manifest[moduleId].publicPath)
    }

    /**
     * The guard of preload: nothing happens when `tryRequire(cacheId)` reports
     * the module as already available, or when the document has no head.
     */
    function Preload(tryRequire: string -> bool, hasHead: bool): (effect: PreloadEffect)
      ensures effect == AppendPreloadLink <==> !tryRequire(cacheId) && hasHead
    {
      if tryRequire(cacheId) then NoEffect
      else if !hasHead then NoEffect
      else AppendPreloadLink
    }
  }

  /**
   * What lazyProxy promises for resolved options `r`: the cache id is
   * `r.getCacheId()`, asked for exactly once; the data-lazy-id is
   * `hash(r.moduleId)`, computed exactly once; on the server only the server
   * factory is called, with the loader, and no Deferred is created; on the
   * client exactly one Deferred wrapping the loader is created, before the
   * client factory is called with it; both factories get the same cache id,
   * data-lazy-id and ssr; the display name wraps displayNameFromId(moduleId).
   */
  ghost predicate Wired(host: Host, loader: Loader, r: Resolved, c: LazyComponent, calls: seq<Call>)
  {
    var dataLazyId := host.hash(r.moduleId);
    && c.cacheId == r.getCacheId()
    && c.moduleId == r.moduleId
    && c.base.CacheId() == c.cacheId
    && c.base.DataLazyId() == dataLazyId
    && c.base.Ssr() == r.ssr
    && (c.base.ServerComponent? <==> host.isNodeEnvironment)
    && (c.base.ServerComponent? ==> c.base.server.loader == loader)
    && (c.base.ClientComponent? ==> c.base.client.defer == r.defer && c.base.client.deferred == Deferred(loader))
    && c.displayName == "Lazy(" + host.displayNameFromId(r.moduleId) + ")"
    && |calls| == (if host.isNodeEnvironment then 5 else 6)
    && calls[0] == IsNodeEnvironment
    && calls[1] == GetCacheId
    && calls[2] == Hash(r.moduleId)
    && calls[|calls| - 1] == DisplayNameFromId(r.moduleId)
    && (forall callee: Callee :: Count(calls, callee) == ExpectedCount(host.isNodeEnvironment, callee))
    && (c.base.ServerComponent? ==> calls[3] == CreateComponentServer(c.base.server))
    && (c.base.ClientComponent? ==> calls[3] == CreateDeferred(loader) && calls[4] == CreateComponentClient(c.base.client))
  }

  /** lazyProxy: `opts` is None when the argument is omitted, which the `= {}` default turns into `{}`. */
  method LazyProxy(host: Host, loader: Loader, opts: Option<Options>) returns (c: LazyComponent, calls: seq<Call>)
    ensures Wired(host, loader, Resolve(if opts.Some? then opts.value else NoOptions), c, calls)
  {
    var r := Resolve(if opts.Some? then opts.value else NoOptions);
    calls := [IsNodeEnvironment];
    var isServer := host.isNodeEnvironment;
    calls := calls + [GetCacheId];
    var cacheId := r.getCacheId();
    calls := calls + [Hash(r.moduleId)];
    var dataLazyId := host.hash(r.moduleId);
    var base: Base;
    if isServer {
      var props := ServerProps(cacheId, dataLazyId, loader, r.ssr);
      calls := calls + [CreateComponentServer(props)];
      base := ServerComponent(props);
    } else {
      var deferred := Deferred(loader);
      calls := calls + [CreateDeferred(loader)];
      var props := ClientProps(cacheId, dataLazyId, r.defer, deferred, r.ssr);
      calls := calls + [CreateComponentClient(props)];
      base := ClientComponent(props);
    }
    calls := calls + [DisplayNameFromId(r.moduleId)];
    c := LazyComponent(base, "Lazy(" + host.displayNameFromId(r.moduleId) + ")", cacheId, r.moduleId);
    forall callee: Callee
      ensures Count(calls, callee) == ExpectedCount(isServer, callee)
    {
      LogCounts(calls, isServer, callee);
    }
  }

  /** How many calls lazyProxy makes to each collaborator, on the server and on the client. */
  function ExpectedCount(isServer: bool, callee: Callee): (n: nat)
  {
    match callee
    case NodeCheck => 1
    case CacheIdGetter => 1
    case Hasher => 1
    case Namer => 1
    case ServerFactory => if isServer then 1 else 0
    case ClientFactory => if isServer then 0 else 1
    case DeferredFactory => if isServer then 0 else 1
  }

  /** A log of lazyProxy's shape, read off position by position, calls each collaborator as often as ExpectedCount says. */
  lemma LogCounts(calls: seq<Call>, isServer: bool, callee: Callee)
    requires |calls| == if isServer then 5 else 6
    requires calls[0].IsNodeEnvironment? && calls[1].GetCacheId? && calls[2].Hash? && calls[|calls| - 1].DisplayNameFromId?
    requires isServer ==> calls[3].CreateComponentServer?
    requires !isServer ==> calls[3].CreateDeferred? && calls[4].CreateComponentClient?
    ensures Count(calls, callee) == ExpectedCount(isServer, callee)
  {
    var prefix, factoryCalls, suffix := calls[..3], calls[3..|calls| - 1], calls[|calls| - 1..];
    assert calls == prefix + factoryCalls + suffix;
    CountConcat(prefix + factoryCalls, suffix, callee);
    CountConcat(prefix, factoryCalls, callee);
    assert prefix == [calls[0]] + [calls[1]] + [calls[2]];
    CountConcat([calls[0]] + [calls[1]], [calls[2]], callee);
    CountConcat([calls[0]], [calls[1]], callee);
    CountOne(calls[0], callee);
    CountOne(calls[1], callee);
    CountOne(calls[2], callee);
    assert suffix == [calls[|calls| - 1]];
    CountOne(calls[|calls| - 1], callee);
    if isServer {
      assert factoryCalls == [calls[3]];
      CountOne(calls[3], callee);
    } else {
      assert factoryCalls == [calls[3]] + [calls[4]];
      CountConcat([calls[3]], [calls[4]], callee);
      CountOne(calls[3], callee);
      CountOne(calls[4], callee);
    }
  }

  /** `lazyForPaint(loader, opts)`: lazyProxy over `{...DEFAULT_OPTIONS.lazyForPaint, ...(opts || {})}`. */
  method LazyForPaint(host: Host, loader: Loader, opts: Option<Options>) returns (c: LazyComponent, calls: seq<Call>)
    ensures Wired(host, loader, Resolve(EntryOptions(LazyForPaintEntry, opts)), c, calls)
  {
    c, calls := LazyProxy(host, loader, Some(EntryOptions(LazyForPaintEntry, opts)));
  }

  /** `lazyAfterPaint(loader, opts)`: lazyProxy over `{...DEFAULT_OPTIONS.lazyAfterPaint, ...(opts || {})}`. */
  method LazyAfterPaint(host: Host, loader: Loader, opts: Option<Options>) returns (c: LazyComponent, calls: seq<Call>)
    ensures Wired(host, loader, Resolve(EntryOptions(LazyAfterPaintEntry, opts)), c, calls)
  {
    c, calls := LazyProxy(host, loader, Some(EntryOptions(LazyAfterPaintEntry, opts)));
  }

  /** `lazy(loader, opts)`: lazyProxy over `{...DEFAULT_OPTIONS.lazy, ...(opts || {})}`. */
  method Lazy(host: Host, loader: Loader, opts: Option<Options>) returns (c: LazyComponent, calls: seq<Call>)
    ensures Wired(host, loader, Resolve(EntryOptions(LazyEntry, opts)), c, calls)
  {
    c, calls := LazyProxy(host, loader, Some(EntryOptions(LazyEntry, opts)));
  }

  /** The component lazyProxy defines, and its call log, are determined by the host, the loader and the resolved options. */
  lemma WiredDeterministic(host: Host, loader: Loader, r: Resolved, c1: LazyComponent, k1: seq<Call>, c2: LazyComponent, k2: seq<Call>)
    requires Wired(host, loader, r, c1, k1) && Wired(host, loader, r, c2, k2)
    ensures c1 == c2
    ensures k1 == k2
  {
  }

  /**
   * The same module id always gives the same data-lazy-id, and the same
   * getCacheId the same cache id, on either branch: the factories of two hosts
   * that share `hash` are handed equal identities.
   */
  lemma IdentityIndependentOfEnvironment(h1: Host, h2: Host, l1: Loader, l2: Loader, r1: Resolved, r2: Resolved,
                                         c1: LazyComponent, k1: seq<Call>, c2: LazyComponent, k2: seq<Call>)
    requires h1.hash == h2.hash && r1.moduleId == r2.moduleId
    requires Wired(h1, l1, r1, c1, k1) && Wired(h2, l2, r2, c2, k2)
    ensures c1.base.DataLazyId() == c2.base.DataLazyId()
    ensures r1.getCacheId == r2.getCacheId ==> c1.base.CacheId() == c2.base.CacheId()
  {
  }

  /** On the server no call in the log creates a Deferred or reaches the client factory. */
  lemma ServerBranchNeverDefers(host: Host, loader: Loader, r: Resolved, c: LazyComponent, calls: seq<Call>)
    requires Wired(host, loader, r, c, calls) && host.isNodeEnvironment
    ensures forall i :: 0 <= i < |calls| ==> !calls[i].CreateDeferred? && !calls[i].CreateComponentClient?
  {
  }

  /** The display name reads back to displayNameFromId(moduleId) between "Lazy(" and ")". */
  lemma DisplayNameWraps(host: Host, loader: Loader, r: Resolved, c: LazyComponent, calls: seq<Call>)
    requires Wired(host, loader, r, c, calls)
    ensures |c.displayName| >= 6
    ensures c.displayName[..5] == "Lazy(" && c.displayName[|c.displayName| - 1] == ')'
    ensures c.displayName[5..|c.displayName| - 1] == host.displayNameFromId(r.moduleId)
  {
  }

  /** An empty manifest gives no bundle URL. */
  lemma EmptyManifestHasNoUrl(c: LazyComponent)
    ensures c.GetBundleUrl(map[]).None?
  {
  }

  /** getBundleUrl reads only the entry for the component's own module. */
  lemma BundleUrlReadsOwnEntry(c: LazyComponent, m1: Manifest, m2: Manifest)
    requires c.moduleId in m1 <==> c.moduleId in m2
    requires c.moduleId in m1 ==> m1[c.moduleId].publicPath == m2[c.moduleId].publicPath
    ensures c.GetBundleUrl(m1) == c.GetBundleUrl(m2)
  {
  }

  /** The manifest example: module 'mod-a' resolves to '/static/a.js'. */
  lemma BundleUrlExample(c: LazyComponent)
    requires c.moduleId == "mod-a"
    ensures c.GetBundleUrl(map["mod-a" := Bundle(NumberId(1), Some("A"), "a.js", "/static/a.js")]) == Some("/static/a.js")
  {
  }
}
