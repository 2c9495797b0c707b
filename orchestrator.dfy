/**
 * The load orchestration of app.js as a sequential state machine: the globals
 * `currentDashboard`, `currentMonth`, `currentYear`, `window._dashboardData`, the cache, and
 * what the page shows, as a log of events (loader, progress bar, render, error, toast).
 *
 * Every operation is a pure function on a `Page` (its specification) and a method of
 * `Dashboard` that performs it step by step and is proved to end in the state that
 * function gives. The network is a function from request URL to the response and the clock
 * reading at which it arrives (within one operation no URL is requested twice); the
 * concurrent callbacks of `Promise.all` run one after another in a given arrival order;
 * `localStorage` failures are given per cache key and access kind.
 */
module Orchestrator {
  import opened Wrappers
  import opened Api
  import opened Keys
  import opened TwoTierCache
  import opened Percent

  /** What the page shows, in the order it is shown. */
  datatype Event =
    | Loader(caption: string, pct: int)                                 // showProgressLoading
    | Progress(pct: int, caption: string)                               // updateProgress
    | Shown(dashboard: string, data: Json)                            // renderDashboard, a known dashboard
    | ResumoShown(vendas: Json, app: Option<Json>, adim: Option<Json>) // renderResumoDashboard
    | Failure(message: string)                                        // showError
    | Toast(message: string)                                          // showToast

  const UPDATED: string := "Dados atualizados ✓"
  const LOAD_FAILED: string := "Erro ao carregar dados"
  const CONNECTION_FAILED: string := "Erro de conexão: "
  const NO_VENDAS: string := "Não foi possível carregar dados de Vendas."
  const UNKNOWN_DASHBOARD: string := "Dashboard não encontrado: "

  /** The dashboards `renderDashboard` knows how to draw. */
  const DASHBOARDS: seq<string> := ["documentacao", "app", "adimplencia", "recorrencia", "recorrencia_vendedor", "refuturiza"]

  /** `renderDashboard()` for `dashboard` with `window._dashboardData == data`. */
  function RenderEvent(dashboard: string, data: Json): (e: Event)
    ensures e.Failure? <==> dashboard !in DASHBOARDS
  {
    if dashboard in DASHBOARDS then Shown(dashboard, data) else Failure(UNKNOWN_DASHBOARD + dashboard)
  }

  /** How app.js reads a response: `await fetch(...)`, `await r.json()`, then `d.status === 'success'`. */
  datatype Outcome = Fetched(data: Json) | Refused(error: Option<string>) | Threw(message: string)

  /**
   * app.js never looks at the HTTP status: a transport failure or an unparseable body
   * throws, and any JSON envelope is judged by its `status` field alone.
   */
  function AppFetch(resp: HttpResponse): (o: Outcome)
    ensures o.Fetched? <==> resp.Http? && resp.body.JsonBody? && resp.body.envelope.status == Some("success")
    ensures o.Threw? <==> resp.NetworkFailure? || resp.body.Unparseable?
  {
    match resp
    case NetworkFailure(message) => Threw(message)
    case Http(_, Unparseable(message)) => Threw(message)
    case Http(_, JsonBody(env)) => if env.status == Some("success") then Fetched(env.data) else Refused(env.error)
  }

  /** The cache keys whose `localStorage` reads, writes and removals throw during an operation. */
  datatype Faults = Faults(readFails: set<string>, writeFails: set<string>, removeFails: set<string>)

  /** The network: each request URL's response, with the clock reading at which it arrives. */
  type Network = string -> Arrival

  function ReadKey(t: Tiers, k: string, now: int, f: Faults): Read
  {
    GetCached(t, k, now, k in f.readFails, k in f.removeFails)
  }

  function WriteKey(t: Tiers, k: string, d: Json, now: int, f: Faults): Tiers
  {
    SetCache(t, k, d, now, k in f.writeFails)
  }

  /** The source's `if (cached)`: a payload counts as cached only when it is present and truthy. */
  predicate IsCached(v: Option<Json>)
  {
    v.Some? && Truthy(v.value)
  }

  /** The whole state: globals, the cache, what has been shown, and whether a debounced load is due. */
  datatype Page = Page(current: string, month: int, year: int, shown: Json, tiers: Tiers, log: seq<Event>, scheduled: bool)

  // ---------------------------------------------------------------------------
  // Single dashboards

  /** `fetchAndUpdate(k)`: revalidates in the background; writes and re-renders only on new data. */
  function FetchAndUpdateSpec(p: Page, k: string, net: Network, f: Faults): Page
  {
    var reply := net(BuildUrl(p.current, p.month, p.year));
    match AppFetch(reply.response)
    case Fetched(d) =>
      var r := ReadKey(p.tiers, k, reply.at, f);
      if d != AsJson(r.value) then
        p.(tiers := WriteKey(r.after, k, d, reply.at, f), shown := d,
           log := p.log + [RenderEvent(p.current, d), Toast(UPDATED)])
      else p.(tiers := r.after)
    case _ => p
  }

  /** `loadDashboard()` for a dashboard other than the summary: stale-while-revalidate. */
  function LoadSingleSpec(p: Page, now: int, net: Network, f: Faults): Page
  {
    var k := CacheKey(p.current, p.month, p.year);
    var r := ReadKey(p.tiers, k, now, f);
    if IsCached(r.value) then
      FetchAndUpdateSpec(p.(tiers := r.after, shown := r.value.value, log := p.log + [RenderEvent(p.current, r.value.value)]), k, net, f)
    else
      var reply := net(BuildUrl(p.current, p.month, p.year));
      var q := p.(tiers := r.after, log := p.log + [Loader("Buscando dados...", 0)]);
      match AppFetch(reply.response)
      case Fetched(d) => q.(tiers := WriteKey(q.tiers, k, d, reply.at, f), shown := d, log := q.log + [RenderEvent(p.current, d)])
      case Refused(e) => q.(log := q.log + [Failure(StringOr(e, LOAD_FAILED))])
      case Threw(m) => q.(log := q.log + [Failure(CONNECTION_FAILED + m)])
  }

  // ---------------------------------------------------------------------------
  // The summary ("resumo"): three endpoints

  /** A position in `['documentacao', 'app', 'adimplencia']`. */
  type Slot = i: int | 0 <= i < 3

  const LABELS: seq<string> := ["Vendas", "App", "Adimplência"]

  function Ep(i: Slot): string
  {
    RESUMO_EPS[i]
  }

  function SlotKey(i: Slot, m: int, y: int): string
  {
    CacheKey(Ep(i), m, y)
  }

  /** `Math.round((loaded / eps.length) * 100)`. */
  function ProgressPct(loaded: int): int
  {
    RoundedPercent(loaded, 3)
  }

  /** A JavaScript object as its keys and values in insertion order. */
  type Object = seq<(string, Json)>

  /** `obj[key]`, `None` for `undefined`. */
  function Field(obj: Object, key: string): Option<Json>
  {
    if obj == [] then None else if obj[0].0 == key then Some(obj[0].1) else Field(obj[1..], key)
  }

  /** An arrival order: every endpoint exactly once. */
  predicate IsArrivalOrder(order: seq<Slot>)
  {
    multiset(order) == multiset{0 as Slot, 1 as Slot, 2 as Slot}
  }

  /** The result of the `eps.every(...)` check, with the tiers its reads leave behind. */
  datatype Check = Check(all: bool, after: Tiers)

  /** `eps.every(ep => !!getCached(...))` from position `i` on; it stops at the first miss. */
  function EveryCached(t: Tiers, i: int, m: int, y: int, now: int, f: Faults): Check
    requires 0 <= i <= 3
    decreases 3 - i
  {
    if i == 3 then Check(true, t)
    else
      var r := ReadKey(t, SlotKey(i, m, y), now, f);
      if IsCached(r.value) then EveryCached(r.after, i + 1, m, y, now, f) else Check(false, r.after)
  }

  /** The results object filled by `eps.forEach(ep => results[ep] = getCached(...))`. */
  datatype Gathered = Gathered(results: Object, after: Tiers)

  function CollectCachedSpec(t: Tiers, i: int, acc: Object, m: int, y: int, now: int, f: Faults): Gathered
    requires 0 <= i <= 3
    decreases 3 - i
  {
    if i == 3 then Gathered(acc, t)
    else
      var r := ReadKey(t, SlotKey(i, m, y), now, f);
      CollectCachedSpec(r.after, i + 1, acc + [(Ep(i), AsJson(r.value))], m, y, now, f)
  }

  /**
   * The state of the fan-out: the cache, the results object, the `loaded` counter, the
   * endpoints whose fetch is still outstanding, the log, and whether a callback threw.
   */
  datatype Fan = Fan(tiers: Tiers, results: Object, loaded: int, pending: set<Slot>, log: seq<Event>, rejected: bool)

  /**
   * The synchronous part of each callback of `loadResumoDashboard`, in endpoint order from
   * position `i` on: a cached endpoint is recorded and counted at once; an uncached one
   * reports "Carregando ..." and starts its fetch.
   */
  function Phase1(fan: Fan, i: int, m: int, y: int, now: int, f: Faults): Fan
    requires 0 <= i <= 3
    decreases 3 - i
  {
    if i == 3 then fan else Phase1(Scan(fan, i, m, y, now, f), i + 1, m, y, now, f)
  }

  /** The synchronous part of the callback of endpoint `i`. */
  function Scan(fan: Fan, i: Slot, m: int, y: int, now: int, f: Faults): Fan
  {
    var r := ReadKey(fan.tiers, SlotKey(i, m, y), now, f);
    if IsCached(r.value) then
      fan.(tiers := r.after, results := fan.results + [(Ep(i), r.value.value)], loaded := fan.loaded + 1,
           log := fan.log + [Progress(ProgressPct(fan.loaded + 1), LABELS[i] + " ✓")])
    else
      fan.(tiers := r.after, pending := fan.pending + {i},
           log := fan.log + [Progress(ProgressPct(fan.loaded), "Carregando " + LABELS[i] + "...")])
  }

  /** The rest of the callback of endpoint `j` once its response has arrived. */
  function Arrive(fan: Fan, j: Slot, m: int, y: int, net: Network, f: Faults): Fan
  {
    var reply := net(BuildUrl(Ep(j), m, y));
    var stored :=
      match AppFetch(reply.response)
      case Fetched(d) => fan.(tiers := WriteKey(fan.tiers, SlotKey(j, m, y), d, reply.at, f), results := fan.results + [(Ep(j), d)])
      case _ => fan;
    stored.(loaded := fan.loaded + 1, pending := fan.pending - {j},
            log := fan.log + [Progress(ProgressPct(fan.loaded + 1), LABELS[j] + " ✓")])
  }

  /** Arrival counts the endpoint, reports it and, when its fetch delivered, caches and records the data. */
  lemma ArriveFields(fan: Fan, j: Slot, m: int, y: int, net: Network, f: Faults)
    ensures var reply := net(BuildUrl(Ep(j), m, y));
      var o := AppFetch(reply.response);
      var a := Arrive(fan, j, m, y, net, f);
      a.loaded == fan.loaded + 1 && a.pending == fan.pending - {j} && a.rejected == fan.rejected &&
      a.log == fan.log + [Progress(ProgressPct(fan.loaded + 1), LABELS[j] + " ✓")] &&
      (o.Fetched? ==> a.tiers == WriteKey(fan.tiers, SlotKey(j, m, y), o.data, reply.at, f) && a.results == fan.results + [(Ep(j), o.data)]) &&
      (!o.Fetched? ==> a.tiers == fan.tiers && a.results == fan.results)
  {
  }

  /** The outstanding callbacks of `loadResumoDashboard`, in arrival order from position `n` on. */
  function Phase2(fan: Fan, order: seq<Slot>, n: int, m: int, y: int, net: Network, f: Faults): Fan
    requires 0 <= n <= |order|
    decreases |order| - n
  {
    if n == |order| then fan
    else Phase2(if order[n] in fan.pending then Arrive(fan, order[n], m, y, net, f) else fan, order, n + 1, m, y, net, f)
  }

  /** One callback of `refreshResumoBackground` / `silentRefresh`: a thrown fetch rejects the join. */
  function RefreshStep(fan: Fan, j: Slot, m: int, y: int, net: Network, f: Faults): Fan
  {
    var reply := net(BuildUrl(Ep(j), m, y));
    match AppFetch(reply.response)
    case Fetched(d) => fan.(tiers := WriteKey(fan.tiers, SlotKey(j, m, y), d, reply.at, f), results := fan.results + [(Ep(j), d)])
    case Refused(_) => fan
    case Threw(_) => fan.(rejected := true)
  }

  /** All callbacks of a background refresh, in arrival order from position `n` on. */
  function RefreshAll(fan: Fan, order: seq<Slot>, n: int, m: int, y: int, net: Network, f: Faults): Fan
    requires 0 <= n <= |order|
    decreases |order| - n
  {
    if n == |order| then fan
    else RefreshAll(RefreshStep(fan, order[n], m, y, net, f), order, n + 1, m, y, net, f)
  }

  /** What the summary renders from a results object. */
  function ResumoEvent(results: Object): Event
  {
    ResumoShown(AsJson(Field(results, "documentacao")), Field(results, "app"), Field(results, "adimplencia"))
  }

  /** The three results of the summary, endpoint by endpoint. */
  function ResumoView(results: Object): seq<Option<Json>>
  {
    [Field(results, Ep(0)), Field(results, Ep(1)), Field(results, Ep(2))]
  }

  /** Whether a background refresh found different data: compared endpoint by endpoint. */
  predicate ResumoChanged(now: Object, before: Object)
  {
    ResumoView(now) != ResumoView(before)
  }

  /**
   * The comparison `refreshResumoBackground` writes: `JSON.stringify` of the two results
   * objects, which sees their keys in insertion order. The new object is filled in arrival
   * order and the old one in endpoint order, so equal data can compare different.
   */
  predicate StringifyChanged(now: Object, before: Object)
  {
    now != before
  }

  /** `refreshResumoBackground` with the comparison as written. */
  function RefreshResumoAsWritten(p: Page, oldResults: Object, order: seq<Slot>, net: Network, f: Faults): (q: Page)
    ensures q == p.(tiers := q.tiers, log := q.log)
    ensures q.log == p.log || (|q.log| == |p.log| + 2 && q.log[..|p.log|] == p.log && q.log[|p.log|].ResumoShown? && q.log[|p.log| + 1] == Toast(UPDATED))
  {
    var fan := RefreshAll(Fan(p.tiers, [], 0, {}, p.log, false), order, 0, p.month, p.year, net, f);
    if !fan.rejected && IsCached(Field(fan.results, "documentacao")) && StringifyChanged(fan.results, oldResults) then
      p.(tiers := fan.tiers, log := p.log + [ResumoEvent(fan.results), Toast(UPDATED)])
    else p.(tiers := fan.tiers)
  }

  /** `refreshResumoBackground(eps, oldResults)`, comparing the results endpoint by endpoint. */
  function RefreshResumoSpec(p: Page, oldResults: Object, order: seq<Slot>, net: Network, f: Faults): Page
  {
    var fan := RefreshAll(Fan(p.tiers, [], 0, {}, p.log, false), order, 0, p.month, p.year, net, f);
    if !fan.rejected && IsCached(Field(fan.results, "documentacao")) && ResumoChanged(fan.results, oldResults) then
      p.(tiers := fan.tiers, log := p.log + [ResumoEvent(fan.results), Toast(UPDATED)])
    else p.(tiers := fan.tiers)
  }

  /** The fan-out of `loadResumoDashboard` when not every endpoint is cached, from tiers `t`. */
  function MissFan(p: Page, t: Tiers, now: int, order: seq<Slot>, net: Network, f: Faults): Fan
  {
    var start := Fan(t, [], 0, {}, p.log + [Loader("Iniciando...", 0)], false);
    Phase2(Phase1(start, 0, p.month, p.year, now, f), order, 0, p.month, p.year, net, f)
  }

  /** `loadResumoDashboard()`. */
  function LoadResumoSpec(p: Page, now: int, order: seq<Slot>, net: Network, f: Faults): Page
  {
    var check := EveryCached(p.tiers, 0, p.month, p.year, now, f);
    if check.all then
      var g := CollectCachedSpec(check.after, 0, [], p.month, p.year, now, f);
      RefreshResumoSpec(p.(tiers := g.after, log := p.log + [ResumoEvent(g.results)]), g.results, order, net, f)
    else
      var fan := MissFan(p, check.after, now, order, net, f);
      var last := if IsCached(Field(fan.results, "documentacao")) then ResumoEvent(fan.results) else Failure(NO_VENDAS);
      p.(tiers := fan.tiers, log := fan.log + [last])
  }

  // ---------------------------------------------------------------------------
  // Entry points

  /** `loadDashboard()`. */
  function LoadDashboardSpec(p: Page, now: int, order: seq<Slot>, net: Network, f: Faults): Page
  {
    if p.current == "resumo" then LoadResumoSpec(p, now, order, net, f) else LoadSingleSpec(p, now, net, f)
  }

  /** `silentRefresh()`: refetches without a loader and renders on success. */
  function SilentRefreshSpec(p: Page, order: seq<Slot>, net: Network, f: Faults): Page
  {
    if p.current == "resumo" then
      var fan := RefreshAll(Fan(p.tiers, [], 0, {}, p.log, false), order, 0, p.month, p.year, net, f);
      if !fan.rejected && IsCached(Field(fan.results, "documentacao")) then
        p.(tiers := fan.tiers, log := p.log + [ResumoEvent(fan.results)])
      else p.(tiers := fan.tiers)
    else
      var k := CacheKey(p.current, p.month, p.year);
      var reply := net(BuildUrl(p.current, p.month, p.year));
      match AppFetch(reply.response)
      case Fetched(d) => p.(tiers := WriteKey(p.tiers, k, d, reply.at, f), shown := d, log := p.log + [RenderEvent(p.current, d)])
      case _ => p
  }

  /** `prefetchDashboard(ep)`: fills the cache for `ep` unless it is already cached; never renders. */
  function PrefetchSpec(p: Page, ep: string, now: int, net: Network, f: Faults): Page
  {
    var k := CacheKey(ep, p.month, p.year);
    var r := ReadKey(p.tiers, k, now, f);
    if IsCached(r.value) then p.(tiers := r.after)
    else
      var reply := net(BuildUrl(ep, p.month, p.year));
      match AppFetch(reply.response)
      case Fetched(d) => p.(tiers := WriteKey(r.after, k, d, reply.at, f))
      case _ => p.(tiers := r.after)
  }

  /** The `mouseenter` handler of a tab: prefetch when the tab's data is not cached. */
  function HoverSpec(p: Page, ep: string, now: int, net: Network, f: Faults): Page
  {
    var r := ReadKey(p.tiers, CacheKey(ep, p.month, p.year), now, f);
    if IsCached(r.value) then p.(tiers := r.after) else PrefetchSpec(p.(tiers := r.after), ep, now, net, f)
  }

  /** The `click` handler of a tab: nothing when it is the current one, else switch and load. */
  function ClickTabSpec(p: Page, ep: string, now: int, order: seq<Slot>, net: Network, f: Faults): Page
  {
    if ep == p.current then p else LoadDashboardSpec(p.(current := ep), now, order, net, f)
  }

  /** The 30-minute interval: invalidate the current key, then refresh silently. */
  function TickSpec(p: Page, order: seq<Slot>, net: Network, f: Faults): Page
  {
    var k := CacheKey(p.current, p.month, p.year);
    SilentRefreshSpec(p.(tiers := InvalidateCache(p.tiers, k, k in f.removeFails)), order, net, f)
  }

  /** The refresh button: invalidate the current key, then load. */
  function RefreshButtonSpec(p: Page, now: int, order: seq<Slot>, net: Network, f: Faults): Page
  {
    var k := CacheKey(p.current, p.month, p.year);
    LoadDashboardSpec(p.(tiers := InvalidateCache(p.tiers, k, k in f.removeFails)), now, order, net, f)
  }

  /** A `change` on the month or the year selector. */
  datatype Selection = PickMonth(month: int) | PickYear(year: int)

  /** The selector's handler: set the global and (re)schedule the debounced load. */
  function SelectSpec(p: Page, s: Selection): Page
  {
    match s
    case PickMonth(m) => p.(month := m, scheduled := true)
    case PickYear(y) => p.(year := y, scheduled := true)
  }

  /** A run of selector changes, first to last, with no debounced load firing in between. */
  function SelectAll(p: Page, sels: seq<Selection>): Page
    decreases |sels|
  {
    if sels == [] then p else SelectAll(SelectSpec(p, sels[0]), sels[1..])
  }

  /** The debounced load fires: one load with the period selected last. */
  function DebounceElapsedSpec(p: Page, now: int, order: seq<Slot>, net: Network, f: Faults): Page
  {
    if p.scheduled then LoadDashboardSpec(p.(scheduled := false), now, order, net, f) else p
  }

  // ---------------------------------------------------------------------------
  // The page

  class Dashboard {
    var current: string
    var month: int
    var year: int
    /** `window._dashboardData`. */
    var shown: Json
    var log: seq<Event>
    /** A debounced `loadDashboard` is waiting to fire. */
    var scheduled: bool
    const cache: Store

    function State(): Page
      reads this, cache
    {
      Page(current, month, year, shown, cache.Value(), log, scheduled)
    }

    /** Page start-up: the summary, the current month and year, and what earlier sessions persisted. */
    constructor (durable: map<string, Entry>, month0: int, year0: int)
      ensures State() == Page("resumo", month0, year0, JNull, Tiers(map[], durable), [], false)
      ensures fresh(cache)
    {
      current := "resumo";
      month := month0;
      year := year0;
      shown := JNull;
      log := [];
      scheduled := false;
      cache := new Store(durable);
    }

    method FetchAndUpdate(k: string, net: Network, f: Faults)
      modifies this, cache
      ensures State() == FetchAndUpdateSpec(old(State()), k, net, f)
    {
      var reply := net(BuildUrl(current, month, year));
      var outcome := AppFetch(reply.response);
      if outcome.Fetched? {
        var d := outcome.data;
        var cached := cache.Get(k, reply.at, k in f.readFails, k in f.removeFails);
        if d != AsJson(cached) {
          cache.Set(k, d, reply.at, k in f.writeFails);
          shown := d;
          log := log + [RenderEvent(current, d), Toast(UPDATED)];
        }
      }
    }

    method LoadSingle(now: int, net: Network, f: Faults)
      modifies this, cache
      ensures State() == LoadSingleSpec(old(State()), now, net, f)
    {
      var k := CacheKey(current, month, year);
      var cached := cache.Get(k, now, k in f.readFails, k in f.removeFails);
      if IsCached(cached) {
        shown := cached.value;
        log := log + [RenderEvent(current, cached.value)];
        FetchAndUpdate(k, net, f);
        return;
      }
      log := log + [Loader("Buscando dados...", 0)];
      var reply := net(BuildUrl(current, month, year));
      match AppFetch(reply.response) {
        case Fetched(d) =>
          cache.Set(k, d, reply.at, k in f.writeFails);
          shown := d;
          log := log + [RenderEvent(current, d)];
        case Refused(e) =>
          log := log + [Failure(StringOr(e, LOAD_FAILED))];
        case Threw(m) =>
          log := log + [Failure(CONNECTION_FAILED + m)];
      }
    }

    /** `eps.every(...)`: reads the three keys until the first miss. */
    method CheckAllCached(now: int, f: Faults) returns (all: bool)
      modifies cache
      ensures Check(all, cache.Value()) == EveryCached(old(cache.Value()), 0, month, year, now, f)
    {
      all := true;
      var i := 0;
      while i < 3 && all
        invariant 0 <= i <= 3
        invariant all ==> EveryCached(cache.Value(), i, month, year, now, f) == EveryCached(old(cache.Value()), 0, month, year, now, f)
        invariant !all ==> Check(false, cache.Value()) == EveryCached(old(cache.Value()), 0, month, year, now, f)
      {
        var k := SlotKey(i, month, year);
        var r := cache.Get(k, now, k in f.readFails, k in f.removeFails);
        if !IsCached(r) {
          all := false;
        }
        i := i + 1;
      }
    }

    /** `eps.forEach(ep => results[ep] = getCached(...))`. */
    method CollectCached(now: int, f: Faults) returns (results: Object)
      modifies cache
      ensures Gathered(results, cache.Value()) == CollectCachedSpec(old(cache.Value()), 0, [], month, year, now, f)
    {
      results := [];
      var i := 0;
      while i < 3
        invariant 0 <= i <= 3
        invariant CollectCachedSpec(cache.Value(), i, results, month, year, now, f) == CollectCachedSpec(old(cache.Value()), 0, [], month, year, now, f)
      {
        var k := SlotKey(i, month, year);
        var r := cache.Get(k, now, k in f.readFails, k in f.removeFails);
        results := results + [(Ep(i), AsJson(r))];
        i := i + 1;
      }
    }

    /** The synchronous part of the three callbacks, in endpoint order. */
    method FanOutCached(fan0: Fan, now: int, f: Faults) returns (fan: Fan)
      requires fan0.tiers == cache.Value()
      modifies cache
      ensures fan.tiers == cache.Value()
      ensures fan == Phase1(fan0, 0, month, year, now, f)
    {
      fan := fan0;
      var i := 0;
      while i < 3
        invariant 0 <= i <= 3
        invariant fan.tiers == cache.Value()
        invariant Phase1(fan, i, month, year, now, f) == Phase1(fan0, 0, month, year, now, f)
      {
        var k := SlotKey(i, month, year);
        var r := cache.Get(k, now, k in f.readFails, k in f.removeFails);
        if IsCached(r) {
          fan := fan.(tiers := cache.Value(), results := fan.results + [(Ep(i), r.value)], loaded := fan.loaded + 1,
                      log := fan.log + [Progress(ProgressPct(fan.loaded + 1), LABELS[i] + " ✓")]);
        } else {
          fan := fan.(tiers := cache.Value(), pending := fan.pending + {i},
                      log := fan.log + [Progress(ProgressPct(fan.loaded), "Carregando " + LABELS[i] + "...")]);
        }
        i := i + 1;
      }
    }

    /** The continuation of one outstanding callback, once its response has arrived. */
    method ArriveOne(fan0: Fan, j: Slot, net: Network, f: Faults) returns (fan: Fan)
      requires fan0.tiers == cache.Value()
      modifies cache
      ensures fan.tiers == cache.Value()
      ensures fan == Arrive(fan0, j, month, year, net, f)
    {
      ArriveFields(fan0, j, month, year, net, f);
      var k := SlotKey(j, month, year);
      var reply := net(BuildUrl(Ep(j), month, year));
      var outcome := AppFetch(reply.response);
      var results := fan0.results;
      if outcome.Fetched? {
        cache.Set(k, outcome.data, reply.at, k in f.writeFails);
        results := results + [(Ep(j), outcome.data)];
      }
      var event := Progress(ProgressPct(fan0.loaded + 1), LABELS[j] + " ✓");
      fan := Fan(cache.Value(), results, fan0.loaded + 1, fan0.pending - {j}, fan0.log + [event], fan0.rejected);
    }

    /** The outstanding callbacks, in arrival order. */
    method FanOutFetch(fan0: Fan, order: seq<Slot>, net: Network, f: Faults) returns (fan: Fan)
      requires IsArrivalOrder(order)
      requires fan0.tiers == cache.Value()
      modifies cache
      ensures fan.tiers == cache.Value()
      ensures fan == Phase2(fan0, order, 0, month, year, net, f)
    {
      fan := fan0;
      var n := 0;
      while n < |order|
        invariant 0 <= n <= |order|
        invariant fan.tiers == cache.Value()
        invariant Phase2(fan, order, n, month, year, net, f) == Phase2(fan0, order, 0, month, year, net, f)
      {
        if order[n] in fan.pending {
          fan := ArriveOne(fan, order[n], net, f);
        }
        n := n + 1;
      }
    }

    /** The callbacks of a background refresh, in arrival order. */
    method RefreshFetches(fan0: Fan, order: seq<Slot>, net: Network, f: Faults) returns (fan: Fan)
      requires IsArrivalOrder(order)
      requires fan0.tiers == cache.Value()
      modifies cache
      ensures fan.tiers == cache.Value()
      ensures fan == RefreshAll(fan0, order, 0, month, year, net, f)
    {
      fan := fan0;
      var n := 0;
      while n < |order|
        invariant 0 <= n <= |order|
        invariant fan.tiers == cache.Value()
        invariant RefreshAll(fan, order, n, month, year, net, f) == RefreshAll(fan0, order, 0, month, year, net, f)
      {
        fan := RefreshOne(fan, order[n], net, f);
        n := n + 1;
      }
    }

    /** One callback of a background refresh, once its response has arrived. */
    method RefreshOne(fan0: Fan, j: Slot, net: Network, f: Faults) returns (fan: Fan)
      requires fan0.tiers == cache.Value()
      modifies cache
      ensures fan.tiers == cache.Value()
      ensures fan == RefreshStep(fan0, j, month, year, net, f)
    {
      var reply := net(BuildUrl(Ep(j), month, year));
      fan := fan0;
      match AppFetch(reply.response) {
        case Fetched(d) =>
          cache.Set(SlotKey(j, month, year), d, reply.at, SlotKey(j, month, year) in f.writeFails);
          fan := fan0.(tiers := cache.Value(), results := fan0.results + [(Ep(j), d)]);
        case Refused(_) =>
        case Threw(_) =>
          fan := fan0.(rejected := true);
      }
    }

    method RefreshResumoBackground(oldResults: Object, order: seq<Slot>, net: Network, f: Faults)
      requires IsArrivalOrder(order)
      modifies this, cache
      ensures State() == RefreshResumoSpec(old(State()), oldResults, order, net, f)
    {
      var fan := RefreshFetches(Fan(cache.Value(), [], 0, {}, log, false), order, net, f);
      if !fan.rejected && IsCached(Field(fan.results, "documentacao")) && ResumoChanged(fan.results, oldResults) {
        log := log + [ResumoEvent(fan.results), Toast(UPDATED)];
      }
    }

    method LoadResumo(now: int, order: seq<Slot>, net: Network, f: Faults)
      requires IsArrivalOrder(order)
      modifies this, cache
      ensures State() == LoadResumoSpec(old(State()), now, order, net, f)
    {
      var all := CheckAllCached(now, f);
      if all {
        var results := CollectCached(now, f);
        log := log + [ResumoEvent(results)];
        RefreshResumoBackground(results, order, net, f);
        return;
      }
      var start := Fan(cache.Value(), [], 0, {}, log + [Loader("Iniciando...", 0)], false);
      var fan := FanOutCached(start, now, f);
      fan := FanOutFetch(fan, order, net, f);
      var vendas := Field(fan.results, "documentacao");
      if !IsCached(vendas) {
        log := fan.log + [Failure(NO_VENDAS)];
        return;
      }
      log := fan.log + [ResumoEvent(fan.results)];
    }

    method LoadDashboard(now: int, order: seq<Slot>, net: Network, f: Faults)
      requires IsArrivalOrder(order)
      modifies this, cache
      ensures State() == LoadDashboardSpec(old(State()), now, order, net, f)
    {
      if current == "resumo" {
        LoadResumo(now, order, net, f);
        return;
      }
      LoadSingle(now, net, f);
    }

    method SilentRefresh(order: seq<Slot>, net: Network, f: Faults)
      requires IsArrivalOrder(order)
      modifies this, cache
      ensures State() == SilentRefreshSpec(old(State()), order, net, f)
    {
      if current == "resumo" {
        var fan := RefreshFetches(Fan(cache.Value(), [], 0, {}, log, false), order, net, f);
        if !fan.rejected && IsCached(Field(fan.results, "documentacao")) {
          log := log + [ResumoEvent(fan.results)];
        }
        return;
      }
      var k := CacheKey(current, month, year);
      var reply := net(BuildUrl(current, month, year));
      match AppFetch(reply.response) {
        case Fetched(d) =>
          cache.Set(k, d, reply.at, k in f.writeFails);
          shown := d;
          log := log + [RenderEvent(current, d)];
        case _ =>
      }
    }

    method Prefetch(ep: string, now: int, net: Network, f: Faults)
      modifies cache
      ensures State() == PrefetchSpec(old(State()), ep, now, net, f)
    {
      var k := CacheKey(ep, month, year);
      var cached := cache.Get(k, now, k in f.readFails, k in f.removeFails);
      if IsCached(cached) {
        return;
      }
      var reply := net(BuildUrl(ep, month, year));
      match AppFetch(reply.response) {
        case Fetched(d) =>
          cache.Set(k, d, reply.at, k in f.writeFails);
        case _ =>
      }
    }

    method HoverTab(ep: string, now: int, net: Network, f: Faults)
      modifies cache
      ensures State() == HoverSpec(old(State()), ep, now, net, f)
    {
      var k := CacheKey(ep, month, year);
      var cached := cache.Get(k, now, k in f.readFails, k in f.removeFails);
      if !IsCached(cached) {
        Prefetch(ep, now, net, f);
      }
    }

    method ClickTab(ep: string, now: int, order: seq<Slot>, net: Network, f: Faults)
      requires IsArrivalOrder(order)
      modifies this, cache
      ensures State() == ClickTabSpec(old(State()), ep, now, order, net, f)
    {
      if ep == current {
        return;
      }
      current := ep;
      LoadDashboard(now, order, net, f);
    }

    method Tick(order: seq<Slot>, net: Network, f: Faults)
      requires IsArrivalOrder(order)
      modifies this, cache
      ensures State() == TickSpec(old(State()), order, net, f)
    {
      var k := CacheKey(current, month, year);
      cache.Invalidate(k, k in f.removeFails);
      SilentRefresh(order, net, f);
    }

    method RefreshButton(now: int, order: seq<Slot>, net: Network, f: Faults)
      requires IsArrivalOrder(order)
      modifies this, cache
      ensures State() == RefreshButtonSpec(old(State()), now, order, net, f)
    {
      var k := CacheKey(current, month, year);
      cache.Invalidate(k, k in f.removeFails);
      LoadDashboard(now, order, net, f);
    }

    /** The month selector's `change` handler: the debounced load is (re)scheduled. */
    method SelectMonth(m: int)
      modifies this
      ensures State() == SelectSpec(old(State()), PickMonth(m))
    {
      month := m;
      scheduled := true;
    }

    /** The year selector's `change` handler. */
    method SelectYear(y: int)
      modifies this
      ensures State() == SelectSpec(old(State()), PickYear(y))
    {
      year := y;
      scheduled := true;
    }

    method DebounceElapsed(now: int, order: seq<Slot>, net: Network, f: Faults)
      requires IsArrivalOrder(order)
      modifies this, cache
      ensures State() == DebounceElapsedSpec(old(State()), now, order, net, f)
    {
      if scheduled {
        scheduled := false;
        LoadDashboard(now, order, net, f);
      }
    }
  }
}
