/**
 * Properties of the load orchestration: what a load shows and caches, the summary's
 * fan-out and progress bar, background revalidation, prefetching, the refresh paths and
 * the debounced selectors.
 */
module OrchestratorFacts {
  import opened Wrappers
  import opened Api
  import opened Keys
  import opened TwoTierCache
  import opened Percent
  import opened Orchestrator

  /** The payload a request for `ep` delivers, `None` when it is refused or throws. */
  function FetchedData(ep: string, m: int, y: int, net: Network): (r: Option<Json>)
    ensures r.Some? <==> AppFetch(net(BuildUrl(ep, m, y)).response).Fetched?
  {
    match AppFetch(net(BuildUrl(ep, m, y)).response)
    case Fetched(d) => Some(d)
    case _ => None
  }

  /** Whether the request for `ep` throws (transport failure or unparseable body). */
  predicate Throws(ep: string, m: int, y: int, net: Network)
  {
    AppFetch(net(BuildUrl(ep, m, y)).response).Threw?
  }

  // ---------------------------------------------------------------------------
  // The cache as the orchestration uses it

  /** Reading one key, then any key, gives for the second what reading it alone gives. */
  lemma ReadKeepsReads(t: Tiers, k: string, j: string, now: int, f: Faults)
    ensures ReadKey(ReadKey(t, k, now, f).after, j, now, f).value == ReadKey(t, j, now, f).value
  {
    if j == k {
      GetTwice(t, k, now, k in f.readFails, k in f.removeFails);
    } else {
      GetElsewhere(t, k, now, k in f.readFails, k in f.removeFails, j, j in f.readFails, j in f.removeFails);
    }
  }

  /** The `eps.every(...)` check changes what no read returns. */
  lemma {:induction false} EveryCachedKeepsReads(t: Tiers, i: int, m: int, y: int, now: int, f: Faults, j: string)
    requires 0 <= i <= 3
    ensures ReadKey(EveryCached(t, i, m, y, now, f).after, j, now, f).value == ReadKey(t, j, now, f).value
    decreases 3 - i
  {
    if i < 3 {
      var r := ReadKey(t, SlotKey(i, m, y), now, f);
      ReadKeepsReads(t, SlotKey(i, m, y), j, now, f);
      if IsCached(r.value) {
        EveryCachedKeepsReads(r.after, i + 1, m, y, now, f, j);
      }
    }
  }

  // ---------------------------------------------------------------------------
  // Objects

  /** Appending a key to an object changes what a lookup finds only when the key was absent. */
  lemma {:induction false} FieldAppend(obj: Object, e: string, v: Json, key: string)
    ensures Field(obj + [(e, v)], key) ==
      if Field(obj, key).Some? then Field(obj, key) else if e == key then Some(v) else None
  {
    if obj != [] {
      assert (obj + [(e, v)])[1..] == obj[1..] + [(e, v)];
      FieldAppend(obj[1..], e, v, key);
    }
  }

  /** An arrival order delivers every endpoint. */
  lemma ArrivalOrderCovers(order: seq<Slot>)
    requires IsArrivalOrder(order)
    ensures forall s: Slot :: s in order
  {
    forall s: Slot
      ensures s in order
    {
      assert s in multiset{0 as Slot, 1 as Slot, 2 as Slot};
      assert s in multiset(order);
    }
  }

  lemma SlotsHaveDistinctEndpoints(s: Slot, j: Slot)
    ensures Ep(s) == Ep(j) <==> s == j
  {
  }

  // ---------------------------------------------------------------------------
  // Single dashboards

  /**
   * A cache hit renders the cached payload at once; its revalidation never shows the loader
   * or an error, and at most re-renders once with a toast.
   */
  lemma LoadSingleHit(p: Page, now: int, net: Network, f: Faults)
    requires IsCached(ReadKey(p.tiers, CacheKey(p.current, p.month, p.year), now, f).value)
    ensures var v := ReadKey(p.tiers, CacheKey(p.current, p.month, p.year), now, f).value.value;
      var q := LoadSingleSpec(p, now, net, f);
      |q.log| > |p.log| && q.log[..|p.log| + 1] == p.log + [RenderEvent(p.current, v)] &&
      (|q.log| == |p.log| + 1 || (|q.log| == |p.log| + 3 && q.log[|p.log| + 2] == Toast(UPDATED))) &&
      (forall i :: |p.log| <= i < |q.log| ==> !q.log[i].Loader?) &&
      (forall i :: |p.log| <= i < |q.log| && q.log[i].Failure? ==> p.current !in DASHBOARDS)
  {
    var k := CacheKey(p.current, p.month, p.year);
    var r := ReadKey(p.tiers, k, now, f);
    var v := r.value.value;
    var p1 := p.(tiers := r.after, shown := v, log := p.log + [RenderEvent(p.current, v)]);
    assert LoadSingleSpec(p, now, net, f) == FetchAndUpdateSpec(p1, k, net, f);
    RevalidationLog(p1, k, net, f);
  }

  /** The revalidation either adds nothing to the log or adds one render and the toast. */
  lemma RevalidationLog(p: Page, k: string, net: Network, f: Faults)
    ensures var q := FetchAndUpdateSpec(p, k, net, f);
      var o := AppFetch(net(BuildUrl(p.current, p.month, p.year)).response);
      q.log == p.log || (o.Fetched? && q.log == p.log + [RenderEvent(p.current, o.data), Toast(UPDATED)])
  {
  }

  /**
   * A cache miss shows the loader, then either renders and caches the fetched payload or
   * reports the failure: the API's own message (or a default) when it refused, the thrown
   * message when the request or parsing failed.
   */
  lemma LoadSingleMiss(p: Page, now: int, net: Network, f: Faults)
    requires !IsCached(ReadKey(p.tiers, CacheKey(p.current, p.month, p.year), now, f).value)
    ensures var k := CacheKey(p.current, p.month, p.year);
      var reply := net(BuildUrl(p.current, p.month, p.year));
      var q := LoadSingleSpec(p, now, net, f);
      q.log[..|p.log| + 1] == p.log + [Loader("Buscando dados...", 0)] && |q.log| == |p.log| + 2 &&
      (q.log[|p.log| + 1].Failure? <==> !AppFetch(reply.response).Fetched? || p.current !in DASHBOARDS) &&
      match AppFetch(reply.response)
      case Fetched(d) =>
        q.log[|p.log| + 1] == RenderEvent(p.current, d) && q.shown == d &&
        forall later :: later - reply.at < CACHE_TTL ==> Lookup(q.tiers, k, later) == Some(d)
      case Refused(e) => q.log[|p.log| + 1] == Failure(StringOr(e, LOAD_FAILED)) && q.shown == p.shown
      case Threw(msg) => q.log[|p.log| + 1] == Failure(CONNECTION_FAILED + msg) && q.shown == p.shown
  {
  }

  /** Revalidation that fails, for whatever reason, leaves the page exactly as it was. */
  lemma RevalidationFailureIsSilent(p: Page, k: string, net: Network, f: Faults)
    requires !AppFetch(net(BuildUrl(p.current, p.month, p.year)).response).Fetched?
    ensures FetchAndUpdateSpec(p, k, net, f) == p
  {
  }

  /**
   * Revalidation that delivers what the cache already holds renders nothing and changes
   * what no key of the cache yields.
   */
  lemma RevalidationOfSameDataIsSilent(p: Page, k: string, net: Network, f: Faults, j: string, later: int)
    requires AppFetch(net(BuildUrl(p.current, p.month, p.year)).response).Fetched?
    requires var reply := net(BuildUrl(p.current, p.month, p.year));
      AppFetch(reply.response).data == AsJson(ReadKey(p.tiers, k, reply.at, f).value)
    requires net(BuildUrl(p.current, p.month, p.year)).at <= later
    ensures var q := FetchAndUpdateSpec(p, k, net, f);
      q.log == p.log && q.shown == p.shown && Lookup(q.tiers, j, later) == Lookup(p.tiers, j, later)
  {
    var reply := net(BuildUrl(p.current, p.month, p.year));
    GetPreservesLookup(p.tiers, k, reply.at, k in f.readFails, k in f.removeFails, j, later);
  }

  /** Revalidation that delivers new data re-renders it with a toast and caches it. */
  lemma RevalidationOfNewData(p: Page, k: string, net: Network, f: Faults, later: int)
    requires AppFetch(net(BuildUrl(p.current, p.month, p.year)).response).Fetched?
    requires var reply := net(BuildUrl(p.current, p.month, p.year));
      AppFetch(reply.response).data != AsJson(ReadKey(p.tiers, k, reply.at, f).value)
    requires later - net(BuildUrl(p.current, p.month, p.year)).at < CACHE_TTL
    ensures var d := AppFetch(net(BuildUrl(p.current, p.month, p.year)).response).data;
      var q := FetchAndUpdateSpec(p, k, net, f);
      q.log == p.log + [RenderEvent(p.current, d), Toast(UPDATED)] && q.shown == d && Lookup(q.tiers, k, later) == Some(d)
  {
  }

  // ---------------------------------------------------------------------------
  // The summary's fan-out

  /** The progress events of `es` never go down and lie between 0 and `cap`. */
  predicate Climbs(es: seq<Event>, cap: int)
  {
    (forall a, b :: 0 <= a < b < |es| && es[a].Progress? && es[b].Progress? ==> es[a].pct <= es[b].pct) &&
    (forall a :: 0 <= a < |es| && es[a].Progress? ==> 0 <= es[a].pct <= cap)
  }

  /** The last event of `log` is a progress event at `pct`. */
  predicate EndsAt(log: seq<Event>, pct: int)
  {
    |log| > 0 && log[|log| - 1].Progress? && log[|log| - 1].pct == pct
  }

  lemma ClimbsAppend(es: seq<Event>, cap: int, e: Event, cap2: int)
    requires Climbs(es, cap) && cap <= cap2
    requires e.Progress? ==> cap <= e.pct <= cap2 && 0 <= e.pct
    ensures Climbs(es + [e], cap2)
  {
  }

  /** The progress percentage grows with the counter, from 0 up to 100 at 3. */
  lemma ProgressPctFacts(l1: int, l2: int)
    requires 0 <= l1 <= l2
    ensures 0 <= ProgressPct(l1) <= ProgressPct(l2)
    ensures ProgressPct(3) == 100
  {
    PercentMonotone(0, l1, 3);
    PercentMonotone(l1, l2, 3);
    PercentEndpoints(3);
  }

  /**
   * Phase 1 counts every endpoint once, as loaded or as pending; if the last endpoint was
   * cached, the progress bar last showed the counter.
   */
  lemma {:induction false} Phase1Counts(fan: Fan, i: int, m: int, y: int, now: int, f: Faults)
    requires 0 <= i <= 3
    requires 0 <= fan.loaded && fan.loaded + |fan.pending| == i
    requires forall s :: s in fan.pending ==> s < i
    requires i == 0 || (i - 1) in fan.pending || EndsAt(fan.log, ProgressPct(fan.loaded))
    ensures var r := Phase1(fan, i, m, y, now, f);
      0 <= r.loaded && r.loaded + |r.pending| == 3 && (2 in r.pending || EndsAt(r.log, ProgressPct(r.loaded)))
    decreases 3 - i
  {
    if i < 3 {
      var next := Scan(fan, i, m, y, now, f);
      ScanFacts(fan, i, m, y, now, f);
      if next.loaded != fan.loaded + 1 {
        assert i !in fan.pending;
        assert |next.pending| == |fan.pending| + 1;
      }
      Phase1Counts(next, i + 1, m, y, now, f);
    }
  }

  /** Phase 1 only raises the progress bar, never above the counter's percentage. */
  lemma {:induction false} Phase1Climbs(fan: Fan, i: int, m: int, y: int, now: int, f: Faults, mark: int)
    requires 0 <= i <= 3 && 0 <= mark <= |fan.log| && 0 <= fan.loaded
    requires Climbs(fan.log[mark..], ProgressPct(fan.loaded))
    ensures var r := Phase1(fan, i, m, y, now, f);
      fan.log <= r.log && Climbs(r.log[mark..], ProgressPct(r.loaded))
    decreases 3 - i
  {
    if i < 3 {
      var next := Scan(fan, i, m, y, now, f);
      ScanClimbs(fan, i, m, y, now, f, mark);
      Phase1Climbs(next, i + 1, m, y, now, f, mark);
    }
  }

  /** One step of phase 1 appends one progress event, at most the counter's new percentage. */
  lemma ScanClimbs(fan: Fan, i: Slot, m: int, y: int, now: int, f: Faults, mark: int)
    requires 0 <= mark <= |fan.log| && 0 <= fan.loaded
    requires Climbs(fan.log[mark..], ProgressPct(fan.loaded))
    ensures var next := Scan(fan, i, m, y, now, f);
      fan.log <= next.log && 0 <= next.loaded && Climbs(next.log[mark..], ProgressPct(next.loaded))
  {
    var next := Scan(fan, i, m, y, now, f);
    ScanFacts(fan, i, m, y, now, f);
    ProgressPctFacts(fan.loaded, fan.loaded + 1);
    var e := next.log[|fan.log|];
    assert next.log == fan.log + [e];
    assert next.log[mark..] == fan.log[mark..] + [e];
    ClimbsAppend(fan.log[mark..], ProgressPct(fan.loaded), e, ProgressPct(next.loaded));
  }

  /** One step of phase 1 counts its endpoint as loaded or as pending and reports it. */
  lemma ScanFacts(fan: Fan, i: Slot, m: int, y: int, now: int, f: Faults)
    ensures var next := Scan(fan, i, m, y, now, f);
      |next.log| == |fan.log| + 1 && next.log[..|fan.log|] == fan.log && next.log[|fan.log|].Progress? &&
      ((next.loaded == fan.loaded + 1 && next.pending == fan.pending && next.log[|fan.log|].pct == ProgressPct(next.loaded)) ||
       (next.loaded == fan.loaded && next.pending == fan.pending + {i} && next.log[|fan.log|].pct == ProgressPct(fan.loaded)))
  {
  }

  /**
   * Phase 2 completes exactly the pending endpoints that arrive, one count each, and only
   * raises the progress bar; once nothing is pending the bar last showed the counter.
   */
  lemma {:induction false} Phase2Counts(fan: Fan, order: seq<Slot>, n: int, m: int, y: int, net: Network, f: Faults, mark: int)
    requires 0 <= n <= |order| && 0 <= mark <= |fan.log|
    requires 0 <= fan.loaded && fan.loaded + |fan.pending| == 3
    requires Climbs(fan.log[mark..], ProgressPct(fan.loaded))
    requires fan.pending != {} || EndsAt(fan.log, ProgressPct(fan.loaded))
    ensures var r := Phase2(fan, order, n, m, y, net, f);
      0 <= r.loaded && r.loaded + |r.pending| == 3 && fan.log <= r.log &&
      (forall s :: s in r.pending <==> s in fan.pending && s !in order[n..]) &&
      Climbs(r.log[mark..], ProgressPct(r.loaded)) && (r.pending != {} || EndsAt(r.log, ProgressPct(r.loaded)))
    decreases |order| - n
  {
    Phase2Tally(fan, order, n, m, y, net, f);
    Phase2Climbs(fan, order, n, m, y, net, f, mark);
  }

  lemma {:induction false} Phase2Tally(fan: Fan, order: seq<Slot>, n: int, m: int, y: int, net: Network, f: Faults)
    requires 0 <= n <= |order|
    requires 0 <= fan.loaded && fan.loaded + |fan.pending| == 3
    requires fan.pending != {} || EndsAt(fan.log, ProgressPct(fan.loaded))
    ensures var r := Phase2(fan, order, n, m, y, net, f);
      0 <= r.loaded && r.loaded + |r.pending| == 3 &&
      (forall s :: s in r.pending <==> s in fan.pending && s !in order[n..]) &&
      (r.pending != {} || EndsAt(r.log, ProgressPct(r.loaded)))
    decreases |order| - n
  {
    if n < |order| {
      var j := order[n];
      assert order[n..] == [j] + order[n + 1..];
      if j in fan.pending {
        var next := Arrive(fan, j, m, y, net, f);
        ArriveFields(fan, j, m, y, net, f);
        assert fan.pending == (fan.pending - {j}) + {j};
        Phase2Tally(next, order, n + 1, m, y, net, f);
      } else {
        Phase2Tally(fan, order, n + 1, m, y, net, f);
      }
    }
  }

  lemma {:induction false} Phase2Climbs(fan: Fan, order: seq<Slot>, n: int, m: int, y: int, net: Network, f: Faults, mark: int)
    requires 0 <= n <= |order| && 0 <= mark <= |fan.log| && 0 <= fan.loaded
    requires Climbs(fan.log[mark..], ProgressPct(fan.loaded))
    ensures var r := Phase2(fan, order, n, m, y, net, f);
      fan.log <= r.log && Climbs(r.log[mark..], ProgressPct(r.loaded))
    decreases |order| - n
  {
    if n < |order| {
      var j := order[n];
      if j in fan.pending {
        var next := Arrive(fan, j, m, y, net, f);
        ArriveFields(fan, j, m, y, net, f);
        var e := Progress(ProgressPct(fan.loaded + 1), LABELS[j] + " ✓");
        ProgressPctFacts(fan.loaded, fan.loaded + 1);
        ClimbsAppend(fan.log[mark..], ProgressPct(fan.loaded), e, ProgressPct(fan.loaded + 1));
        assert next.log[mark..] == fan.log[mark..] + [e];
        Phase2Climbs(next, order, n + 1, m, y, net, f, mark);
      } else {
        Phase2Climbs(fan, order, n + 1, m, y, net, f, mark);
      }
    }
  }

  /**
   * The fan-out for a summary that is not wholly cached starts with the loader, counts all
   * three endpoints, moves its bar only upwards and ends the bar at 100 %.
   */
  lemma MissFanCompletes(p: Page, t: Tiers, now: int, order: seq<Slot>, net: Network, f: Faults)
    requires IsArrivalOrder(order)
    ensures var fan := MissFan(p, t, now, order, net, f);
      fan.loaded == 3 && fan.pending == {} &&
      |fan.log| > |p.log| && fan.log[|p.log|] == Loader("Iniciando...", 0) &&
      Climbs(fan.log[|p.log|..], 100) && EndsAt(fan.log, 100)
  {
    var start := Fan(t, [], 0, {}, p.log + [Loader("Iniciando...", 0)], false);
    var mark := |p.log|;
    assert start.log[mark..] == [Loader("Iniciando...", 0)];
    ProgressPctFacts(0, 0);
    Phase1Counts(start, 0, p.month, p.year, now, f);
    Phase1Climbs(start, 0, p.month, p.year, now, f, mark);
    var fan1 := Phase1(start, 0, p.month, p.year, now, f);
    assert start.log <= fan1.log;
    Phase2Counts(fan1, order, 0, p.month, p.year, net, f, mark);
    var fan := Phase2(fan1, order, 0, p.month, p.year, net, f);
    assert fan1.log <= fan.log;
    ArrivalOrderCovers(order);
    assert order[0..] == order;
    assert forall s :: s !in fan.pending;
    ProgressPctFacts(3, 3);
    assert fan.log[mark] == start.log[mark];
  }

  /**
   * When not every endpoint is cached, the summary's fan-out always completes, and then
   * the summary either renders or reports the missing sales data; the progress bar stood at
   * 100 % just before.
   */
  lemma ResumoFanOutCompletes(p: Page, now: int, order: seq<Slot>, net: Network, f: Faults)
    requires IsArrivalOrder(order)
    requires !EveryCached(p.tiers, 0, p.month, p.year, now, f).all
    ensures var q := LoadResumoSpec(p, now, order, net, f);
      |q.log| >= |p.log| + 3 && q.log[|p.log|] == Loader("Iniciando...", 0) &&
      Climbs(q.log[|p.log|..], 100) && EndsAt(q.log[..|q.log| - 1], 100) &&
      (q.log[|q.log| - 1].ResumoShown? || q.log[|q.log| - 1] == Failure(NO_VENDAS))
  {
    var t := EveryCached(p.tiers, 0, p.month, p.year, now, f).after;
    var fan := MissFan(p, t, now, order, net, f);
    MissFanCompletes(p, t, now, order, net, f);
    var last := if IsCached(Field(fan.results, "documentacao")) then ResumoEvent(fan.results) else Failure(NO_VENDAS);
    assert LoadResumoSpec(p, now, order, net, f).log == fan.log + [last];
    CloseLog(|p.log|, fan.log, last);
  }

  /** Appending the final render or error to a completed fan-out log keeps the bar's history. */
  lemma CloseLog(mark: nat, log: seq<Event>, last: Event)
    requires |log| > mark && log[mark] == Loader("Iniciando...", 0)
    requires Climbs(log[mark..], 100) && EndsAt(log, 100)
    requires !last.Progress?
    ensures var q := log + [last];
      |q| >= mark + 3 && q[mark] == Loader("Iniciando...", 0) &&
      Climbs(q[mark..], 100) && EndsAt(q[..|q| - 1], 100)
  {
    var q := log + [last];
    assert q[..|q| - 1] == log;
    assert q[mark..] == log[mark..] + [last];
    ClimbsAppend(log[mark..], 100, last, 100);
  }

  /** Phase 1 after `documentacao` neither finds nor leaves pending anything for it. */
  lemma {:induction false} Phase1KeepsVendas(fan: Fan, i: int, m: int, y: int, now: int, f: Faults)
    requires 1 <= i <= 3
    ensures Field(Phase1(fan, i, m, y, now, f).results, Ep(0)) == Field(fan.results, Ep(0))
    ensures 0 in Phase1(fan, i, m, y, now, f).pending <==> 0 in fan.pending
    decreases 3 - i
  {
    if i < 3 {
      var r := ReadKey(fan.tiers, SlotKey(i, m, y), now, f);
      if IsCached(r.value) {
        FieldAppend(fan.results, Ep(i), r.value.value, Ep(0));
      }
      Phase1KeepsVendas(Scan(fan, i, m, y, now, f), i + 1, m, y, now, f);
    }
  }

  /**
   * Phase 2 fills in an endpoint's result exactly when it was pending, arrives, and its
   * request delivers; results already present stay.
   */
  lemma {:induction false} Phase2Field(fan: Fan, order: seq<Slot>, n: int, m: int, y: int, net: Network, f: Faults, s: Slot)
    requires 0 <= n <= |order|
    ensures Field(Phase2(fan, order, n, m, y, net, f).results, Ep(s)) ==
      if Field(fan.results, Ep(s)).Some? then Field(fan.results, Ep(s))
      else if s in fan.pending && s in order[n..] then FetchedData(Ep(s), m, y, net)
      else None
    decreases |order| - n
  {
    if n < |order| {
      var j := order[n];
      assert order[n..] == [j] + order[n + 1..];
      SlotsHaveDistinctEndpoints(s, j);
      if j in fan.pending {
        var next := Arrive(fan, j, m, y, net, f);
        var reply := net(BuildUrl(Ep(j), m, y));
        if AppFetch(reply.response).Fetched? {
          FieldAppend(fan.results, Ep(j), AppFetch(reply.response).data, Ep(s));
        }
        Phase2Field(next, order, n + 1, m, y, net, f, s);
      } else {
        Phase2Field(fan, order, n + 1, m, y, net, f, s);
      }
    }
  }

  /**
   * The summary fails with "Não foi possível carregar dados de Vendas." exactly when the
   * `documentacao` payload is neither cached (truthy) nor delivered truthy by its request;
   * otherwise it renders that payload, whatever happened to the other two endpoints.
   */
  lemma ResumoNeedsVendas(p: Page, now: int, order: seq<Slot>, net: Network, f: Faults)
    requires IsArrivalOrder(order)
    requires !EveryCached(p.tiers, 0, p.month, p.year, now, f).all
    ensures var r0 := ReadKey(p.tiers, SlotKey(0, p.month, p.year), now, f).value;
      var vendas := if IsCached(r0) then r0 else FetchedData("documentacao", p.month, p.year, net);
      var q := LoadResumoSpec(p, now, order, net, f);
      |q.log| > 0 &&
      (q.log[|q.log| - 1] == Failure(NO_VENDAS) <==> !IsCached(vendas)) &&
      (IsCached(vendas) ==> q.log[|q.log| - 1].ResumoShown? && q.log[|q.log| - 1].vendas == vendas.value)
  {
    var check := EveryCached(p.tiers, 0, p.month, p.year, now, f);
    var key0 := SlotKey(0, p.month, p.year);
    EveryCachedKeepsReads(p.tiers, 0, p.month, p.year, now, f, key0);
    var start := Fan(check.after, [], 0, {}, p.log + [Loader("Iniciando...", 0)], false);
    var r := ReadKey(check.after, key0, now, f);
    var next := Scan(start, 0, p.month, p.year, now, f);
    assert Phase1(start, 0, p.month, p.year, now, f) == Phase1(next, 1, p.month, p.year, now, f);
    assert Field(next.results, Ep(0)) == if IsCached(r.value) then r.value else None;
    assert 0 in next.pending <==> !IsCached(r.value);
    Phase1KeepsVendas(next, 1, p.month, p.year, now, f);
    var fan1 := Phase1(next, 1, p.month, p.year, now, f);
    Phase2Field(fan1, order, 0, p.month, p.year, net, f, 0);
    ArrivalOrderCovers(order);
    assert order[0..] == order;
  }

  // ---------------------------------------------------------------------------
  // Background refresh of the summary

  /** After the refresh callbacks, each endpoint's result is what its request delivered. */
  lemma {:induction false} RefreshAllField(fan: Fan, order: seq<Slot>, n: int, m: int, y: int, net: Network, f: Faults, s: Slot)
    requires 0 <= n <= |order|
    ensures Field(RefreshAll(fan, order, n, m, y, net, f).results, Ep(s)) ==
      if Field(fan.results, Ep(s)).Some? then Field(fan.results, Ep(s))
      else if s in order[n..] then FetchedData(Ep(s), m, y, net)
      else None
    decreases |order| - n
  {
    if n < |order| {
      var j := order[n];
      assert order[n..] == [j] + order[n + 1..];
      SlotsHaveDistinctEndpoints(s, j);
      var reply := net(BuildUrl(Ep(j), m, y));
      if AppFetch(reply.response).Fetched? {
        FieldAppend(fan.results, Ep(j), AppFetch(reply.response).data, Ep(s));
      }
      RefreshAllField(RefreshStep(fan, j, m, y, net, f), order, n + 1, m, y, net, f, s);
    }
  }

  /** The join rejects exactly when one of the arriving requests throws. */
  lemma {:induction false} RefreshAllRejects(fan: Fan, order: seq<Slot>, n: int, m: int, y: int, net: Network, f: Faults)
    requires 0 <= n <= |order|
    ensures RefreshAll(fan, order, n, m, y, net, f).rejected <==>
      fan.rejected || exists s: Slot :: s in order[n..] && Throws(Ep(s), m, y, net)
    decreases |order| - n
  {
    if n < |order| {
      var j := order[n];
      assert order[n..] == [j] + order[n + 1..];
      RefreshAllRejects(RefreshStep(fan, j, m, y, net, f), order, n + 1, m, y, net, f);
    }
  }

  /**
   * For every arrival order, the refresh re-renders the summary, with a toast, exactly when
   * no request throws, `documentacao` delivers a truthy payload and some endpoint delivers
   * something other than its old result; otherwise nothing is shown.
   */
  lemma RefreshResumoOutcome(p: Page, oldResults: Object, order: seq<Slot>, net: Network, f: Faults)
    requires IsArrivalOrder(order)
    ensures var fetched := [FetchedData(Ep(0), p.month, p.year, net), FetchedData(Ep(1), p.month, p.year, net), FetchedData(Ep(2), p.month, p.year, net)];
      var renders := (forall s: Slot :: !Throws(Ep(s), p.month, p.year, net)) && IsCached(fetched[0]) && fetched != ResumoView(oldResults);
      var q := RefreshResumoSpec(p, oldResults, order, net, f);
      (renders ==> q.log == p.log + [ResumoShown(fetched[0].value, fetched[1], fetched[2]), Toast(UPDATED)]) &&
      (!renders ==> q.log == p.log)
  {
    var fan := RefreshAll(Fan(p.tiers, [], 0, {}, p.log, false), order, 0, p.month, p.year, net, f);
    ArrivalOrderCovers(order);
    assert order[0..] == order;
    RefreshAllField(Fan(p.tiers, [], 0, {}, p.log, false), order, 0, p.month, p.year, net, f, 0);
    RefreshAllField(Fan(p.tiers, [], 0, {}, p.log, false), order, 0, p.month, p.year, net, f, 1);
    RefreshAllField(Fan(p.tiers, [], 0, {}, p.log, false), order, 0, p.month, p.year, net, f, 2);
    RefreshAllRejects(Fan(p.tiers, [], 0, {}, p.log, false), order, 0, p.month, p.year, net, f);
  }

  /** What the refresh shows does not depend on the order in which the responses arrive. */
  lemma RefreshIgnoresArrivalOrder(p: Page, oldResults: Object, o1: seq<Slot>, o2: seq<Slot>, net: Network, f: Faults)
    requires IsArrivalOrder(o1) && IsArrivalOrder(o2)
    ensures RefreshResumoSpec(p, oldResults, o1, net, f).log == RefreshResumoSpec(p, oldResults, o2, net, f).log
  {
    RefreshResumoOutcome(p, oldResults, o1, net, f);
    RefreshResumoOutcome(p, oldResults, o2, net, f);
  }

  /** The `eps.every(...)` check passes exactly when each of the three reads finds a truthy payload. */
  lemma {:induction false} EveryCachedAllHit(t: Tiers, i: int, m: int, y: int, now: int, f: Faults)
    requires 0 <= i <= 3
    ensures EveryCached(t, i, m, y, now, f).all <==>
      forall s: Slot :: i <= s ==> IsCached(ReadKey(t, SlotKey(s, m, y), now, f).value)
    decreases 3 - i
  {
    if i < 3 {
      var r := ReadKey(t, SlotKey(i, m, y), now, f);
      EveryCachedAllHit(r.after, i + 1, m, y, now, f);
      forall s: Slot | i < s
        ensures ReadKey(r.after, SlotKey(s, m, y), now, f).value == ReadKey(t, SlotKey(s, m, y), now, f).value
      {
        ReadKeepsReads(t, SlotKey(i, m, y), SlotKey(s, m, y), now, f);
      }
    }
  }

  /** The `forEach` gathering the cached results records, under each endpoint, what its read returns. */
  lemma CollectCachedFields(t: Tiers, m: int, y: int, now: int, f: Faults)
    ensures var g := CollectCachedSpec(t, 0, [], m, y, now, f);
      forall s: Slot :: Field(g.results, Ep(s)) == Some(AsJson(ReadKey(t, SlotKey(s, m, y), now, f).value))
  {
    var r0 := ReadKey(t, SlotKey(0, m, y), now, f);
    var r1 := ReadKey(r0.after, SlotKey(1, m, y), now, f);
    var r2 := ReadKey(r1.after, SlotKey(2, m, y), now, f);
    var o := [(Ep(0), AsJson(r0.value)), (Ep(1), AsJson(r1.value)), (Ep(2), AsJson(r2.value))];
    assert CollectCachedSpec(t, 0, [], m, y, now, f) == CollectCachedSpec(r0.after, 1, [(Ep(0), AsJson(r0.value))], m, y, now, f);
    assert CollectCachedSpec(r0.after, 1, [(Ep(0), AsJson(r0.value))], m, y, now, f) ==
      CollectCachedSpec(r1.after, 2, [(Ep(0), AsJson(r0.value)), (Ep(1), AsJson(r1.value))], m, y, now, f);
    assert CollectCachedSpec(t, 0, [], m, y, now, f).results == o;
    EndpointOrderFields(AsJson(r0.value), AsJson(r1.value), AsJson(r2.value));
    ReadKeepsReads(t, SlotKey(0, m, y), SlotKey(1, m, y), now, f);
    ReadKeepsReads(t, SlotKey(0, m, y), SlotKey(2, m, y), now, f);
    ReadKeepsReads(r0.after, SlotKey(1, m, y), SlotKey(2, m, y), now, f);
    assert Ep(0) == "documentacao" && Ep(1) == "app" && Ep(2) == "adimplencia";
  }

  /**
   * The summary when all three endpoints are cached: the cached payloads are rendered at
   * once, with no loader and no error, and the background refresh then renders again, with
   * a toast, exactly when no request throws, `documentacao` delivers a truthy payload and
   * the delivered payloads differ from the cached ones.
   */
  lemma AllCachedResumo(p: Page, now: int, order: seq<Slot>, net: Network, f: Faults)
    requires IsArrivalOrder(order)
    requires EveryCached(p.tiers, 0, p.month, p.year, now, f).all
    ensures var c := [ReadKey(p.tiers, SlotKey(0, p.month, p.year), now, f).value,
                      ReadKey(p.tiers, SlotKey(1, p.month, p.year), now, f).value,
                      ReadKey(p.tiers, SlotKey(2, p.month, p.year), now, f).value];
      var fetched := [FetchedData(Ep(0), p.month, p.year, net), FetchedData(Ep(1), p.month, p.year, net), FetchedData(Ep(2), p.month, p.year, net)];
      var renders := (forall s: Slot :: !Throws(Ep(s), p.month, p.year, net)) && IsCached(fetched[0]) && fetched != c;
      var q := LoadResumoSpec(p, now, order, net, f);
      IsCached(c[0]) && IsCached(c[1]) && IsCached(c[2]) &&
      (renders ==> q.log == p.log + [ResumoShown(c[0].value, c[1], c[2]), ResumoShown(fetched[0].value, fetched[1], fetched[2]), Toast(UPDATED)]) &&
      (!renders ==> q.log == p.log + [ResumoShown(c[0].value, c[1], c[2])])
  {
    AllCachedView(p.tiers, p.month, p.year, now, f);
    var g := CollectCachedSpec(EveryCached(p.tiers, 0, p.month, p.year, now, f).after, 0, [], p.month, p.year, now, f);
    var p1 := p.(tiers := g.after, log := p.log + [ResumoEvent(g.results)]);
    assert LoadResumoSpec(p, now, order, net, f) == RefreshResumoSpec(p1, g.results, order, net, f);
    RefreshResumoOutcome(p1, g.results, order, net, f);
  }

  /**
   * When every key of the summary is cached, the gathered results are the three cached
   * reads, endpoint by endpoint, and all three are cached.
   */
  lemma AllCachedView(t: Tiers, m: int, y: int, now: int, f: Faults)
    requires EveryCached(t, 0, m, y, now, f).all
    ensures var c := [ReadKey(t, SlotKey(0, m, y), now, f).value,
                      ReadKey(t, SlotKey(1, m, y), now, f).value,
                      ReadKey(t, SlotKey(2, m, y), now, f).value];
      var g := CollectCachedSpec(EveryCached(t, 0, m, y, now, f).after, 0, [], m, y, now, f);
      IsCached(c[0]) && IsCached(c[1]) && IsCached(c[2]) &&
      ResumoView(g.results) == c && ResumoEvent(g.results) == ResumoShown(c[0].value, c[1], c[2])
  {
    var check := EveryCached(t, 0, m, y, now, f);
    EveryCachedAllHit(t, 0, m, y, now, f);
    EveryCachedKeepsReads(t, 0, m, y, now, f, SlotKey(0, m, y));
    EveryCachedKeepsReads(t, 0, m, y, now, f, SlotKey(1, m, y));
    EveryCachedKeepsReads(t, 0, m, y, now, f, SlotKey(2, m, y));
    CollectCachedFields(check.after, m, y, now, f);
    assert Ep(0) == "documentacao" && Ep(1) == "app" && Ep(2) == "adimplencia";
  }

  /** The three endpoints of the summary are cached under three distinct keys. */
  lemma SlotKeysDistinct(s: Slot, j: Slot, m: int, y: int)
    requires s != j
    ensures SlotKey(s, m, y) != SlotKey(j, m, y)
  {
    ResumoKeysDistinct(m, y);
  }

  /**
   * The refresh callbacks cache what each arriving request delivers, under its own key:
   * it is read back for the TTL after its arrival, and a key whose request delivered
   * nothing keeps what it held.
   */
  lemma {:induction false} RefreshAllLookup(fan: Fan, order: seq<Slot>, n: int, m: int, y: int, net: Network, f: Faults, s: Slot, later: int)
    requires 0 <= n <= |order| && multiset(order[n..])[s] <= 1
    ensures var t := RefreshAll(fan, order, n, m, y, net, f).tiers;
      var reply := net(BuildUrl(Ep(s), m, y));
      (s in order[n..] && FetchedData(Ep(s), m, y, net).Some? && later - reply.at < CACHE_TTL ==>
        Lookup(t, SlotKey(s, m, y), later) == FetchedData(Ep(s), m, y, net)) &&
      (s !in order[n..] || FetchedData(Ep(s), m, y, net).None? ==>
        Lookup(t, SlotKey(s, m, y), later) == Lookup(fan.tiers, SlotKey(s, m, y), later))
    decreases |order| - n
  {
    if n < |order| {
      var j := order[n];
      assert order[n..] == [j] + order[n + 1..];
      var next := RefreshStep(fan, j, m, y, net, f);
      var reply := net(BuildUrl(Ep(j), m, y));
      RefreshAllLookup(next, order, n + 1, m, y, net, f, s, later);
      if AppFetch(reply.response).Fetched? {
        var d := AppFetch(reply.response).data;
        assert next.tiers == SetCache(fan.tiers, SlotKey(j, m, y), d, reply.at, SlotKey(j, m, y) in f.writeFails);
        if j == s {
          assert s !in order[n + 1..];
          if later - reply.at < CACHE_TTL {
            SetThenGet(fan.tiers, SlotKey(j, m, y), d, reply.at, SlotKey(j, m, y) in f.writeFails, later, false, false);
          }
        } else {
          SlotKeysDistinct(s, j, m, y);
          SetElsewhere(fan.tiers, SlotKey(j, m, y), d, reply.at, SlotKey(j, m, y) in f.writeFails, SlotKey(s, m, y), later);
        }
      } else {
        assert next.tiers == fan.tiers;
      }
    }
  }

  /** Refresh callbacks whose requests deliver nothing leave the cache exactly as it was. */
  lemma {:induction false} RefreshAllKeepsTiers(fan: Fan, order: seq<Slot>, n: int, m: int, y: int, net: Network, f: Faults)
    requires 0 <= n <= |order|
    requires forall j: Slot :: j in order[n..] ==> FetchedData(Ep(j), m, y, net).None?
    ensures RefreshAll(fan, order, n, m, y, net, f).tiers == fan.tiers
    decreases |order| - n
  {
    if n < |order| {
      assert order[n..] == [order[n]] + order[n + 1..];
      RefreshAllKeepsTiers(RefreshStep(fan, order[n], m, y, net, f), order, n + 1, m, y, net, f);
    }
  }

  /**
   * What `refreshResumoBackground` does to the cache, whichever comparison it makes: each
   * delivered payload is read back for the TTL after its arrival, an endpoint that delivered
   * nothing keeps its entry, and when nothing is delivered the cache is untouched.
   */
  lemma RefreshResumoCaches(p: Page, oldResults: Object, order: seq<Slot>, net: Network, f: Faults, s: Slot, later: int)
    requires IsArrivalOrder(order)
    ensures var q := RefreshResumoSpec(p, oldResults, order, net, f);
      var k := SlotKey(s, p.month, p.year);
      var got := FetchedData(Ep(s), p.month, p.year, net);
      q.tiers == RefreshResumoAsWritten(p, oldResults, order, net, f).tiers &&
      (got.Some? && later - net(BuildUrl(Ep(s), p.month, p.year)).at < CACHE_TTL ==> Lookup(q.tiers, k, later) == got) &&
      (got.None? ==> Lookup(q.tiers, k, later) == Lookup(p.tiers, k, later)) &&
      ((forall j: Slot :: FetchedData(Ep(j), p.month, p.year, net).None?) ==> q.tiers == p.tiers)
  {
    var fan0 := Fan(p.tiers, [], 0, {}, p.log, false);
    assert order[0..] == order;
    ArrivalOrderCovers(order);
    RefreshAllLookup(fan0, order, 0, p.month, p.year, net, f, s, later);
    if forall j: Slot :: FetchedData(Ep(j), p.month, p.year, net).None? {
      RefreshAllKeepsTiers(fan0, order, 0, p.month, p.year, net, f);
    }
  }

  /**
   * `silentRefresh` on the summary: no loader and no error; the summary is rendered from
   * the new payloads exactly when no request throws and `documentacao` delivers a truthy
   * payload; only the cache and the log change.
   */
  lemma SilentRefreshResumo(p: Page, order: seq<Slot>, net: Network, f: Faults)
    requires p.current == "resumo" && IsArrivalOrder(order)
    ensures var fetched := [FetchedData(Ep(0), p.month, p.year, net), FetchedData(Ep(1), p.month, p.year, net), FetchedData(Ep(2), p.month, p.year, net)];
      var renders := (forall s: Slot :: !Throws(Ep(s), p.month, p.year, net)) && IsCached(fetched[0]);
      var q := SilentRefreshSpec(p, order, net, f);
      q == p.(tiers := q.tiers, log := q.log) &&
      (renders ==> q.log == p.log + [ResumoShown(fetched[0].value, fetched[1], fetched[2])]) &&
      (!renders ==> q.log == p.log)
  {
    var fan0 := Fan(p.tiers, [], 0, {}, p.log, false);
    ArrivalOrderCovers(order);
    assert order[0..] == order;
    RefreshAllField(fan0, order, 0, p.month, p.year, net, f, 0);
    RefreshAllField(fan0, order, 0, p.month, p.year, net, f, 1);
    RefreshAllField(fan0, order, 0, p.month, p.year, net, f, 2);
    RefreshAllRejects(fan0, order, 0, p.month, p.year, net, f);
  }

  /** The cache after `silentRefresh` on the summary: each delivered payload, the rest kept. */
  lemma SilentRefreshResumoCaches(p: Page, order: seq<Slot>, net: Network, f: Faults, s: Slot, later: int)
    requires p.current == "resumo" && IsArrivalOrder(order)
    ensures var q := SilentRefreshSpec(p, order, net, f);
      var k := SlotKey(s, p.month, p.year);
      var got := FetchedData(Ep(s), p.month, p.year, net);
      (got.Some? && later - net(BuildUrl(Ep(s), p.month, p.year)).at < CACHE_TTL ==> Lookup(q.tiers, k, later) == got) &&
      (got.None? ==> Lookup(q.tiers, k, later) == Lookup(p.tiers, k, later))
  {
    var fan0 := Fan(p.tiers, [], 0, {}, p.log, false);
    assert order[0..] == order;
    ArrivalOrderCovers(order);
    RefreshAllLookup(fan0, order, 0, p.month, p.year, net, f, s, later);
  }

  /** A refresh callback whose request delivers appends that payload and leaves the rejection flag alone. */
  lemma RefreshStepDelivers(fan: Fan, j: Slot, m: int, y: int, net: Network, f: Faults)
    requires FetchedData(Ep(j), m, y, net).Some?
    ensures RefreshStep(fan, j, m, y, net, f).results == fan.results + [(Ep(j), FetchedData(Ep(j), m, y, net).value)]
    ensures RefreshStep(fan, j, m, y, net, f).rejected == fan.rejected
  {
  }

  /** When every request delivers and `app` arrives first, the new object starts with `app`. */
  lemma AppArrivesFirst(fan0: Fan, m: int, y: int, net: Network, f: Faults)
    requires fan0.results == [] && !fan0.rejected
    requires forall s: Slot :: FetchedData(Ep(s), m, y, net).Some?
    ensures var d0 := FetchedData(Ep(0), m, y, net).value;
      var d1 := FetchedData(Ep(1), m, y, net).value;
      var d2 := FetchedData(Ep(2), m, y, net).value;
      var fan := RefreshAll(fan0, [1, 0, 2], 0, m, y, net, f);
      fan.results == [(Ep(1), d1), (Ep(0), d0), (Ep(2), d2)] && !fan.rejected &&
      Field(fan.results, "documentacao") == Some(d0) && Field(fan.results, "app") == Some(d1) &&
      Field(fan.results, "adimplencia") == Some(d2)
  {
    var d0 := FetchedData(Ep(0), m, y, net).value;
    var d1 := FetchedData(Ep(1), m, y, net).value;
    var d2 := FetchedData(Ep(2), m, y, net).value;
    var fan1 := RefreshStep(fan0, 1, m, y, net, f);
    RefreshStepDelivers(fan0, 1, m, y, net, f);
    var fan2 := RefreshStep(fan1, 0, m, y, net, f);
    RefreshStepDelivers(fan1, 0, m, y, net, f);
    var fan3 := RefreshStep(fan2, 2, m, y, net, f);
    RefreshStepDelivers(fan2, 2, m, y, net, f);
    assert fan3.results == [(Ep(1), d1), (Ep(0), d0), (Ep(2), d2)] && !fan3.rejected;
    assert RefreshAll(fan0, [1, 0, 2], 0, m, y, net, f) == RefreshAll(fan1, [1, 0, 2], 1, m, y, net, f);
    assert RefreshAll(fan1, [1, 0, 2], 1, m, y, net, f) == RefreshAll(fan2, [1, 0, 2], 2, m, y, net, f);
    assert RefreshAll(fan0, [1, 0, 2], 0, m, y, net, f) == fan3;
    AppFirstFields(d0, d1, d2);
  }

  /** The results object with `app` first still yields each endpoint's data under its key. */
  lemma AppFirstFields(d0: Json, d1: Json, d2: Json)
    ensures var o := [(Ep(1), d1), (Ep(0), d0), (Ep(2), d2)];
      Field(o, "documentacao") == Some(d0) && Field(o, "app") == Some(d1) && Field(o, "adimplencia") == Some(d2)
  {
    var o := [(Ep(1), d1), (Ep(0), d0), (Ep(2), d2)];
    assert Ep(0) == "documentacao" && Ep(1) == "app" && Ep(2) == "adimplencia";
    var front := [(Ep(1), d1), (Ep(0), d0)];
    assert o == front + [(Ep(2), d2)];
    assert Field(front, "adimplencia") == None by {
      assert [(Ep(0), d0)][1..] == [];
      assert Field([(Ep(0), d0)], "adimplencia") == None;
      assert front[1..] == [(Ep(0), d0)];
    }
    FieldAppend(front, Ep(2), d2, "adimplencia");
    FieldAppend(front, Ep(2), d2, "documentacao");
    FieldAppend(front, Ep(2), d2, "app");
  }

  /**
   * The comparison as written re-renders and toasts unchanged data: the cached results
   * were gathered in endpoint order, and when `app` answers before `documentacao` the new
   * object lists its keys in another order, so the two texts differ.
   */
  lemma StringifyFlagsReorderedArrivals(p: Page, net: Network, f: Faults)
    requires forall s: Slot :: FetchedData(Ep(s), p.month, p.year, net).Some?
    requires IsCached(FetchedData(Ep(0), p.month, p.year, net))
    ensures var d0 := FetchedData(Ep(0), p.month, p.year, net).value;
      var d1 := FetchedData(Ep(1), p.month, p.year, net).value;
      var d2 := FetchedData(Ep(2), p.month, p.year, net).value;
      var oldResults := [(Ep(0), d0), (Ep(1), d1), (Ep(2), d2)];
      var order: seq<Slot> := [1, 0, 2];
      IsArrivalOrder(order) && ResumoView(oldResults) == [Some(d0), Some(d1), Some(d2)] &&
      RefreshResumoAsWritten(p, oldResults, order, net, f).log == p.log + [ResumoShown(d0, Some(d1), Some(d2)), Toast(UPDATED)] &&
      RefreshResumoSpec(p, oldResults, order, net, f).log == p.log
  {
    var d0 := FetchedData(Ep(0), p.month, p.year, net).value;
    var d1 := FetchedData(Ep(1), p.month, p.year, net).value;
    var d2 := FetchedData(Ep(2), p.month, p.year, net).value;
    var order: seq<Slot> := [1, 0, 2];
    assert multiset(order) == multiset{0 as Slot, 1 as Slot, 2 as Slot};
    EndpointOrderFields(d0, d1, d2);
    ReorderedAsWrittenToasts(p, net, f);
    ReorderedSpecStaysSilent(p, net, f);
  }

  /** The results object gathered from the cache, in endpoint order, yields each endpoint's data. */
  lemma EndpointOrderFields(d0: Json, d1: Json, d2: Json)
    ensures var o := [(Ep(0), d0), (Ep(1), d1), (Ep(2), d2)];
      Field(o, "documentacao") == Some(d0) && Field(o, "app") == Some(d1) && Field(o, "adimplencia") == Some(d2)
  {
    var o := [(Ep(0), d0), (Ep(1), d1), (Ep(2), d2)];
    assert Ep(0) == "documentacao" && Ep(1) == "app" && Ep(2) == "adimplencia";
    var front := [(Ep(0), d0), (Ep(1), d1)];
    assert o == front + [(Ep(2), d2)];
    assert Field(front, "adimplencia") == None by {
      assert [(Ep(1), d1)][1..] == [];
      assert Field([(Ep(1), d1)], "adimplencia") == None;
      assert front[1..] == [(Ep(1), d1)];
    }
    FieldAppend([(Ep(0), d0), (Ep(1), d1)], Ep(2), d2, "adimplencia");
  }

  /** With `app` first, the comparison as written sees a different object and toasts. */
  lemma ReorderedAsWrittenToasts(p: Page, net: Network, f: Faults)
    requires forall s: Slot :: FetchedData(Ep(s), p.month, p.year, net).Some?
    requires IsCached(FetchedData(Ep(0), p.month, p.year, net))
    ensures var d0 := FetchedData(Ep(0), p.month, p.year, net).value;
      var d1 := FetchedData(Ep(1), p.month, p.year, net).value;
      var d2 := FetchedData(Ep(2), p.month, p.year, net).value;
      RefreshResumoAsWritten(p, [(Ep(0), d0), (Ep(1), d1), (Ep(2), d2)], [1, 0, 2], net, f).log ==
        p.log + [ResumoShown(d0, Some(d1), Some(d2)), Toast(UPDATED)]
  {
    var d0 := FetchedData(Ep(0), p.month, p.year, net).value;
    var d1 := FetchedData(Ep(1), p.month, p.year, net).value;
    var d2 := FetchedData(Ep(2), p.month, p.year, net).value;
    var oldResults := [(Ep(0), d0), (Ep(1), d1), (Ep(2), d2)];
    var fan0 := Fan(p.tiers, [], 0, {}, p.log, false);
    AppArrivesFirst(fan0, p.month, p.year, net, f);
    var arrived := RefreshAll(fan0, [1, 0, 2], 0, p.month, p.year, net, f).results;
    assert arrived != oldResults by {
      assert arrived[0].0 == "app" && oldResults[0].0 == "documentacao";
    }
    assert ResumoEvent(arrived) == ResumoShown(d0, Some(d1), Some(d2));
  }

  /** With `app` first, the endpoint-by-endpoint comparison sees the same data and shows nothing. */
  lemma ReorderedSpecStaysSilent(p: Page, net: Network, f: Faults)
    requires forall s: Slot :: FetchedData(Ep(s), p.month, p.year, net).Some?
    ensures var d0 := FetchedData(Ep(0), p.month, p.year, net).value;
      var d1 := FetchedData(Ep(1), p.month, p.year, net).value;
      var d2 := FetchedData(Ep(2), p.month, p.year, net).value;
      RefreshResumoSpec(p, [(Ep(0), d0), (Ep(1), d1), (Ep(2), d2)], [1, 0, 2], net, f).log == p.log
  {
    var d0 := FetchedData(Ep(0), p.month, p.year, net).value;
    var d1 := FetchedData(Ep(1), p.month, p.year, net).value;
    var d2 := FetchedData(Ep(2), p.month, p.year, net).value;
    var oldResults := [(Ep(0), d0), (Ep(1), d1), (Ep(2), d2)];
    var fan0 := Fan(p.tiers, [], 0, {}, p.log, false);
    AppArrivesFirst(fan0, p.month, p.year, net, f);
    EndpointOrderFields(d0, d1, d2);
    var arrived := RefreshAll(fan0, [1, 0, 2], 0, p.month, p.year, net, f).results;
    assert Ep(0) == "documentacao" && Ep(1) == "app" && Ep(2) == "adimplencia";
    assert ResumoView(arrived) == ResumoView(oldResults);
  }

  // ---------------------------------------------------------------------------
  // Tabs, prefetching, refresh paths, selectors

  /** Prefetching only ever changes the cache: nothing is rendered and no global moves. */
  lemma PrefetchOnlyTouchesCache(p: Page, ep: string, now: int, net: Network, f: Faults)
    ensures var q := PrefetchSpec(p, ep, now, net, f);
      q == p.(tiers := q.tiers)
  {
  }

  /**
   * A prefetch of cached data requests nothing and changes what no key yields; one of
   * uncached data that the API delivers caches it.
   */
  lemma PrefetchFills(p: Page, ep: string, now: int, net: Network, f: Faults, j: string, later: int)
    requires now <= later
    ensures var k := CacheKey(ep, p.month, p.year);
      var reply := net(BuildUrl(ep, p.month, p.year));
      var q := PrefetchSpec(p, ep, now, net, f);
      (IsCached(ReadKey(p.tiers, k, now, f).value) ==> Lookup(q.tiers, j, later) == Lookup(p.tiers, j, later)) &&
      (!IsCached(ReadKey(p.tiers, k, now, f).value) && AppFetch(reply.response).Fetched? && later - reply.at < CACHE_TTL ==>
        Lookup(q.tiers, k, later) == Some(AppFetch(reply.response).data))
  {
    var k := CacheKey(ep, p.month, p.year);
    GetPreservesLookup(p.tiers, k, now, k in f.readFails, k in f.removeFails, j, later);
  }

  /** Hovering a tab is exactly a prefetch: the hover's own check repeats the prefetch's first read. */
  lemma HoverIsPrefetch(p: Page, ep: string, now: int, net: Network, f: Faults)
    ensures HoverSpec(p, ep, now, net, f) == PrefetchSpec(p, ep, now, net, f)
  {
    var k := CacheKey(ep, p.month, p.year);
    GetTwice(p.tiers, k, now, k in f.readFails, k in f.removeFails);
  }

  /** Clicking the current tab does nothing; clicking another switches to it before loading. */
  lemma ClickTab(p: Page, ep: string, now: int, order: seq<Slot>, net: Network, f: Faults)
    ensures ep == p.current ==> ClickTabSpec(p, ep, now, order, net, f) == p
    ensures ep != p.current ==> ClickTabSpec(p, ep, now, order, net, f) == LoadDashboardSpec(p.(current := ep), now, order, net, f)
  {
  }

  /**
   * The periodic tick on a single dashboard drops its entry and refetches: success renders
   * and re-caches the payload; failure renders nothing and leaves the entry dropped.
   */
  lemma TickRefetches(p: Page, order: seq<Slot>, net: Network, f: Faults, now: int)
    requires p.current != "resumo"
    ensures var k := CacheKey(p.current, p.month, p.year);
      var reply := net(BuildUrl(p.current, p.month, p.year));
      var q := TickSpec(p, order, net, f);
      match AppFetch(reply.response)
      case Fetched(d) =>
        q.log == p.log + [RenderEvent(p.current, d)] && q.shown == d &&
        (now - reply.at < CACHE_TTL ==> Lookup(q.tiers, k, now) == Some(d))
      case _ =>
        q.log == p.log && q.shown == p.shown &&
        (k !in f.removeFails ==> ReadKey(q.tiers, k, now, f).value == None)
  {
    var k := CacheKey(p.current, p.month, p.year);
    InvalidateThenGet(p.tiers, k, now, k in f.readFails, k in f.removeFails);
  }

  /**
   * On the summary, the tick and the refresh button invalidate the key `resumo:m:y`, which
   * only a hover prefetch writes, and only if the service accepts `endpoint=resumo`: whether
   * or not the durable removal throws, the three endpoint entries the summary reads stay.
   */
  lemma ResumoInvalidationMissesItsData(p: Page, f: Faults, s: Slot, now: int)
    requires p.current == "resumo"
    ensures var k := CacheKey(p.current, p.month, p.year);
      Lookup(InvalidateCache(p.tiers, k, k in f.removeFails), SlotKey(s, p.month, p.year), now) == Lookup(p.tiers, SlotKey(s, p.month, p.year), now)
  {
    var k := CacheKey(p.current, p.month, p.year);
    ResumoKeysDistinct(p.month, p.year);
    InvalidateElsewhere(p.tiers, k, k in f.removeFails, SlotKey(s, p.month, p.year), now);
  }

  /**
   * The periodic tick on the summary: no loader and no error; the summary is rendered from
   * the new payloads exactly when no request throws and `documentacao` delivers a truthy
   * payload; each delivered payload is cached for the TTL, and an endpoint that delivered
   * nothing keeps the entry it had before the tick.
   */
  lemma TickOnResumo(p: Page, order: seq<Slot>, net: Network, f: Faults, s: Slot, later: int)
    requires p.current == "resumo" && IsArrivalOrder(order)
    ensures var fetched := [FetchedData(Ep(0), p.month, p.year, net), FetchedData(Ep(1), p.month, p.year, net), FetchedData(Ep(2), p.month, p.year, net)];
      var renders := (forall j: Slot :: !Throws(Ep(j), p.month, p.year, net)) && IsCached(fetched[0]);
      var q := TickSpec(p, order, net, f);
      var k := SlotKey(s, p.month, p.year);
      q == p.(tiers := q.tiers, log := q.log) &&
      (renders ==> q.log == p.log + [ResumoShown(fetched[0].value, fetched[1], fetched[2])]) &&
      (!renders ==> q.log == p.log) &&
      (fetched[s].Some? && later - net(BuildUrl(Ep(s), p.month, p.year)).at < CACHE_TTL ==> Lookup(q.tiers, k, later) == fetched[s]) &&
      (fetched[s].None? ==> Lookup(q.tiers, k, later) == Lookup(p.tiers, k, later))
  {
    var k := CacheKey(p.current, p.month, p.year);
    var p1 := p.(tiers := InvalidateCache(p.tiers, k, k in f.removeFails));
    SilentRefreshResumo(p1, order, net, f);
    SilentRefreshResumoCaches(p1, order, net, f, s, later);
    ResumoInvalidationMissesItsData(p, f, s, later);
  }

  /** The month a run of selections leaves selected: that of its last month change. */
  function LastMonth(sels: seq<Selection>, m: int): int
  {
    if sels == [] then m
    else if sels[|sels| - 1].PickMonth? then sels[|sels| - 1].month
    else LastMonth(sels[..|sels| - 1], m)
  }

  /** The year a run of selections leaves selected: that of its last year change. */
  function LastYear(sels: seq<Selection>, y: int): int
  {
    if sels == [] then y
    else if sels[|sels| - 1].PickYear? then sels[|sels| - 1].year
    else LastYear(sels[..|sels| - 1], y)
  }

  lemma {:induction false} SelectAllSnoc(p: Page, sels: seq<Selection>, s: Selection)
    ensures SelectAll(p, sels + [s]) == SelectSpec(SelectAll(p, sels), s)
    decreases |sels|
  {
    if sels != [] {
      assert (sels + [s])[1..] == sels[1..] + [s];
      SelectAllSnoc(SelectSpec(p, sels[0]), sels[1..], s);
    }
  }

  /** A run of selections sets the last month and year chosen and schedules the load. */
  lemma {:induction false} SelectAllState(p: Page, sels: seq<Selection>)
    ensures SelectAll(p, sels) ==
      p.(month := LastMonth(sels, p.month), year := LastYear(sels, p.year), scheduled := p.scheduled || sels != [])
    decreases |sels|
  {
    if sels != [] {
      var init := sels[..|sels| - 1];
      assert sels == init + [sels[|sels| - 1]];
      SelectAllSnoc(p, init, sels[|sels| - 1]);
      SelectAllState(p, init);
    }
  }

  /**
   * Debouncing: however many selector changes come before the timer fires, exactly one
   * load runs, for the month and the year chosen last.
   */
  lemma DebounceLastCallWins(p: Page, sels: seq<Selection>, now: int, order: seq<Slot>, net: Network, f: Faults)
    requires sels != []
    ensures DebounceElapsedSpec(SelectAll(p, sels), now, order, net, f) ==
      LoadDashboardSpec(p.(month := LastMonth(sels, p.month), year := LastYear(sels, p.year), scheduled := false), now, order, net, f)
  {
    SelectAllState(p, sels);
  }
}
