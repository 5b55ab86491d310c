/**
 * Option resolution for the lazy component definitions of src/lazy/index.tsx:
 * the three presets of DEFAULT_OPTIONS, the object spread that lays the
 * caller's options over a preset, and the defaults that lazyProxy's parameter
 * destructuring fills in for every key that is still undefined.
 */
module LazyOptions {

  datatype Option<T> = None | Some(value: T)

  /** The PHASE constants. Their numeric values live elsewhere and are not modelled. */
  datatype Phase = PaintPhase | AfterPaintPhase | LazyPhase

  /**
   * One optional key of a JavaScript object: missing altogether, present with
   * the value `undefined`, or present with a value. Spread tells the first two
   * apart; a destructuring default does not.
   */
  datatype Slot<T> = Absent | Undefined | Given(value: T)

  /** The `Options` type: every key optional. */
  datatype Options = Options(
    ssr: Slot<bool>,
    defer: Slot<Phase>,
    getCacheId: Slot<() -> string>,
    moduleId: Slot<string>)

  /** The object literal `{}`. */
  const NoOptions: Options := Options(Absent, Absent, Absent, Absent)

  /** Options as lazyProxy sees them after destructuring: no key is undefined. */
  datatype Resolved = Resolved(defer: Phase, getCacheId: () -> string, moduleId: string, ssr: bool)

  /** One entry of DEFAULT_OPTIONS. */
  datatype Preset = Preset(ssr: bool, defer: Phase)

  const DefaultOptions: map<string, Preset> := map[
    "lazyForPaint" := Preset(true, PaintPhase),
    "lazyAfterPaint" := Preset(true, AfterPaintPhase),
    "lazy" := Preset(false, LazyPhase)]

  /** The three exported entry points; each reads its preset under its own name. */
  datatype Entry = LazyForPaintEntry | LazyAfterPaintEntry | LazyEntry
  {
    function Key(): (k: string)
      ensures k in DefaultOptions
    {
      match this
      case LazyForPaintEntry => "lazyForPaint"
      case LazyAfterPaintEntry => "lazyAfterPaint"
      case LazyEntry => "lazy"
    }
  }

  /** A preset as an object literal: `ssr` and `defer` present, the other keys missing. */
  function PresetOptions(p: Preset): (o: Options)
  {
    Options(Given(p.ssr), Given(p.defer), Absent, Absent)
  }

  /** One key of `{...base, ...top}`: the later object wins whenever it has the key at all. */
  function Over<T>(base: Slot<T>, top: Slot<T>): (r: Slot<T>)
  {
    if top.Absent? then base else top
  }

  /**
   * `{...base, ...top}`: a key that `top` has, even with the value
   * `undefined`, comes from `top`; a key `top` lacks is kept from `base`.
   */
  function Spread(base: Options, top: Options): (r: Options)
    ensures !top.ssr.Absent? ==> r.ssr == top.ssr
    ensures top.ssr.Absent? ==> r.ssr == base.ssr
    ensures !top.defer.Absent? ==> r.defer == top.defer
    ensures top.defer.Absent? ==> r.defer == base.defer
    ensures !top.getCacheId.Absent? ==> r.getCacheId == top.getCacheId
    ensures top.getCacheId.Absent? ==> r.getCacheId == base.getCacheId
    ensures !top.moduleId.Absent? ==> r.moduleId == top.moduleId
    ensures top.moduleId.Absent? ==> r.moduleId == base.moduleId
    ensures top == NoOptions ==> r == base
  {
    Options(
      Over(base.ssr, top.ssr),
      Over(base.defer, top.defer),
      Over(base.getCacheId, top.getCacheId),
      Over(base.moduleId, top.moduleId))
  }

  /** A destructuring default: it applies when the key is missing and when it holds `undefined`. */
  function OrDefault<T>(s: Slot<T>, fallback: T): (v: T)
  {
    if s.Given? then s.value else fallback
  }

  /**
   * lazyProxy's parameter destructuring: `defer` falls back to PAINT,
   * `getCacheId` to a function returning '', `moduleId` to '' and `ssr` to true.
   */
  function Resolve(o: Options): (r: Resolved)
    ensures o.ssr.Given? ==> r.ssr == o.ssr.value
    ensures !o.ssr.Given? ==> r.ssr
    ensures o.defer.Given? ==> r.defer == o.defer.value
    ensures !o.defer.Given? ==> r.defer == PaintPhase
    ensures o.getCacheId.Given? ==> r.getCacheId == o.getCacheId.value
    ensures !o.getCacheId.Given? ==> r.getCacheId() == ""
    ensures o.moduleId.Given? ==> r.moduleId == o.moduleId.value
    ensures !o.moduleId.Given? ==> r.moduleId == ""
  {
    Resolved(
      OrDefault(o.defer, PaintPhase),
      OrDefault(o.getCacheId, () => ""),
      OrDefault(o.moduleId, ""),
      OrDefault(o.ssr, true))
  }

  /** `{...DEFAULT_OPTIONS[key], ...(opts || {})}`, the argument each entry point hands to lazyProxy. */
  function EntryOptions(e: Entry, opts: Option<Options>): (o: Options)
  {
    Spread(PresetOptions(DefaultOptions[e.Key()]), if opts.Some? then opts.value else NoOptions)
  }

  /** The presets are exactly these three. */
  lemma PresetsExact()
    ensures DefaultOptions.Keys == {"lazyForPaint", "lazyAfterPaint", "lazy"}
    ensures DefaultOptions["lazyForPaint"] == Preset(true, PaintPhase)
    ensures DefaultOptions["lazyAfterPaint"] == Preset(true, AfterPaintPhase)
    ensures DefaultOptions["lazy"] == Preset(false, LazyPhase)
  {
  }

  /**
   * Each entry point, by name, resolves to its own preset when called without
   * options: lazyForPaint renders on the server at paint, lazyAfterPaint on the
   * server after paint, lazy only on the client and lazily.
   */
  lemma EntryPresetsByName()
    ensures var r := Resolve(EntryOptions(LazyForPaintEntry, None)); r.ssr && r.defer == PaintPhase
    ensures var r := Resolve(EntryOptions(LazyAfterPaintEntry, None)); r.ssr && r.defer == AfterPaintPhase
    ensures var r := Resolve(EntryOptions(LazyEntry, None)); !r.ssr && r.defer == LazyPhase
  {
  }

  /** Calling an entry point without options is the same as passing `{}`. */
  lemma OmittedOptionsAreEmpty(e: Entry)
    ensures EntryOptions(e, None) == EntryOptions(e, Some(NoOptions))
  {
  }

  /**
   * What every key resolves to for a definition made through an entry point:
   * a value the caller gives wins; a key the caller sets to `undefined` gets
   * lazyProxy's default, not the preset; a key the caller leaves out gets the
   * preset's value where the preset has one, and lazyProxy's default otherwise.
   */
  lemma EntryResolution(e: Entry, opts: Option<Options>)
    ensures
      var o := if opts.Some? then opts.value else NoOptions;
      var p := DefaultOptions[e.Key()];
      var r := Resolve(EntryOptions(e, opts));
      && r.ssr == (match o.ssr
                   case Given(b) => b
                   case Undefined => true
                   case Absent => p.ssr)
      && r.defer == (match o.defer
                     case Given(d) => d
                     case Undefined => PaintPhase
                     case Absent => p.defer)
      && r.moduleId == (if o.moduleId.Given? then o.moduleId.value else "")
      && (o.getCacheId.Given? ==> r.getCacheId == o.getCacheId.value)
      && (!o.getCacheId.Given? ==> r.getCacheId() == "")
  {
  }

  /** Without options, each entry point resolves to its preset and lazyProxy's other defaults. */
  lemma EntryDefaults(e: Entry)
    ensures
      var r := Resolve(EntryOptions(e, None));
      && r.ssr == DefaultOptions[e.Key()].ssr
      && r.defer == DefaultOptions[e.Key()].defer
      && r.moduleId == ""
      && r.getCacheId() == ""
  {
  }

  /** `lazy(loader, {ssr: undefined})` renders on the server, whereas `lazy(loader)` does not. */
  lemma ExplicitUndefinedSsr()
    ensures Resolve(EntryOptions(LazyEntry, Some(NoOptions.(ssr := Undefined)))).ssr
    ensures !Resolve(EntryOptions(LazyEntry, None)).ssr
  {
  }
}
