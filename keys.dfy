/**
 * Cache-key derivation and request URLs of the dashboard (app.js): `cacheKey` and
 * `buildUrl`, with the period-insensitive endpoints of `SEM_FILTRO`.
 */
module Keys {
  import opened Wrappers
  import opened Text

  const API_URL: string := "https://script.google.com/macros/s/AKfycby7E_l1q-sgkJV9oPYIdsOwjF3rJUnNjPwzSrf-jOhCwTRbk5NNLPtdF9S2320ngiI_Hw/exec"

  /** The endpoints whose data does not depend on month and year. */
  const SEM_FILTRO: seq<string> := ["recorrencia", "recorrencia_vendedor"]

  /** The three endpoints the summary ("resumo") view is assembled from, in this order. */
  const RESUMO_EPS: seq<string> := ["documentacao", "app", "adimplencia"]

  /** The text `${m}:${y}` and `${m}&ano=${y}` are built from: month, separator, year. */
  function PeriodText(m: int, sep: string, y: int): string
  {
    IntToString(m) + sep + IntToString(y)
  }

  /** `cacheKey(ep, m, y)`: the endpoint alone when it is period-insensitive, else `ep:m:y`. */
  function CacheKey(ep: string, m: int, y: int): (k: string)
    ensures ep in SEM_FILTRO ==> k == ep
    ensures ep !in SEM_FILTRO ==> |k| > |ep| && k[..|ep|] == ep && k[|ep|] == ':'
  {
    if ep in SEM_FILTRO then ep else ep + ":" + PeriodText(m, ":", y)
  }

  /** The part of every request URL that names the endpoint: `${API_URL}?endpoint=${ep}`. */
  function EndpointQuery(ep: string): string
  {
    API_URL + "?endpoint=" + ep
  }

  /** `buildUrl(ep, m, y)`: the endpoint query, plus `&mes=m&ano=y` unless the endpoint is period-insensitive. */
  function BuildUrl(ep: string, m: int, y: int): (u: string)
    ensures ep in SEM_FILTRO ==> u == EndpointQuery(ep)
  {
    var u := EndpointQuery(ep);
    if ep !in SEM_FILTRO then u + "&mes=" + PeriodText(m, "&ano=", y) else u
  }

  /** A month and a year written around a separator that does not start with a digit can be read back. */
  lemma PeriodTextInjective(m1: int, y1: int, m2: int, y2: int, sep: string)
    requires sep != [] && !IsDigit(sep[0])
    requires PeriodText(m1, sep, y1) == PeriodText(m2, sep, y2)
    ensures m1 == m2 && y1 == y2
  {
    var t1 := sep + IntToString(y1);
    var t2 := sep + IntToString(y2);
    ReadPeriod(m1, sep, y1);
    ReadPeriod(m2, sep, y2);
    DropPrefix(sep, IntToString(y1), IntToString(y2));
    IntToStringInjective(y1, y2);
  }

  /** The month of a period text reads back, leaving the separator and the year. */
  lemma ReadPeriod(m: int, sep: string, y: int)
    requires sep != [] && !IsDigit(sep[0])
    ensures ParseIntPrefix(PeriodText(m, sep, y)) == Some((m, sep + IntToString(y)))
  {
    var t := sep + IntToString(y);
    assert PeriodText(m, sep, y) == IntToString(m) + t;
    assert t[0] == sep[0];
    IntToStringRoundTrip(m, t);
  }

  /** Equal texts with the same prefix agree after it. */
  lemma DropPrefix(p: string, a: string, b: string)
    requires p + a == p + b
    ensures a == b
  {
    assert a == (p + a)[|p|..];
    assert b == (p + b)[|p|..];
  }

  /** For a period-sensitive endpoint, different periods give different keys. */
  lemma KeyDistinguishesPeriods(ep: string, m1: int, y1: int, m2: int, y2: int)
    requires ep !in SEM_FILTRO
    ensures CacheKey(ep, m1, y1) == CacheKey(ep, m2, y2) <==> m1 == m2 && y1 == y2
  {
    if CacheKey(ep, m1, y1) == CacheKey(ep, m2, y2) {
      DropPrefix(ep + ":", PeriodText(m1, ":", y1), PeriodText(m2, ":", y2));
      PeriodTextInjective(m1, y1, m2, y2, ":");
    }
  }

  /** For a period-insensitive endpoint every period gives the same key. */
  lemma KeyIgnoresPeriod(ep: string, m1: int, y1: int, m2: int, y2: int)
    requires ep in SEM_FILTRO
    ensures CacheKey(ep, m1, y1) == CacheKey(ep, m2, y2) == ep
  {
  }

  /** Endpoint names never contain the key separator `:`. */
  predicate IsEndpointName(ep: string)
  {
    ':' !in ep
  }

  /** Keys of two different endpoints (names without `:`) never collide, whatever the periods. */
  lemma KeyDistinguishesEndpoints(ep1: string, m1: int, y1: int, ep2: string, m2: int, y2: int)
    requires IsEndpointName(ep1) && IsEndpointName(ep2)
    requires CacheKey(ep1, m1, y1) == CacheKey(ep2, m2, y2)
    ensures ep1 == ep2
  {
  }

  /** The summary's three sub-keys differ from one another and from the unused key of "resumo" itself. */
  lemma ResumoKeysDistinct(m: int, y: int)
    ensures CacheKey(RESUMO_EPS[0], m, y) != CacheKey(RESUMO_EPS[1], m, y)
    ensures CacheKey(RESUMO_EPS[0], m, y) != CacheKey(RESUMO_EPS[2], m, y)
    ensures CacheKey(RESUMO_EPS[1], m, y) != CacheKey(RESUMO_EPS[2], m, y)
    ensures forall i :: 0 <= i < 3 ==> CacheKey(RESUMO_EPS[i], m, y) != CacheKey("resumo", m, y)
  {
  }

  /** The text after `?endpoint=ep` in a period-sensitive request. */
  function PeriodQuery(m: int, y: int): string
  {
    "&mes=" + IntToString(m) + "&ano=" + IntToString(y)
  }

  /** A request URL carries `&mes=…&ano=…` exactly when its endpoint is period-sensitive. */
  lemma UrlCarriesPeriod(ep: string, m: int, y: int)
    ensures ep !in SEM_FILTRO ==> BuildUrl(ep, m, y) == EndpointQuery(ep) + PeriodQuery(m, y)
    ensures ep in SEM_FILTRO ==> BuildUrl(ep, m, y) != EndpointQuery(ep) + PeriodQuery(m, y)
  {
    if ep !in SEM_FILTRO {
      SensitiveUrl(ep, m, y);
    } else {
      assert |EndpointQuery(ep) + PeriodQuery(m, y)| != |EndpointQuery(ep)|;
    }
  }

  lemma SensitiveUrl(ep: string, m: int, y: int)
    requires ep !in SEM_FILTRO
    ensures BuildUrl(ep, m, y) == EndpointQuery(ep) + PeriodQuery(m, y)
  {
    QueryShape(EndpointQuery(ep), m, y);
  }

  lemma QueryShape(base: string, m: int, y: int)
    ensures base + "&mes=" + PeriodText(m, "&ano=", y) == base + PeriodQuery(m, y)
  {
    assert "&mes=" + PeriodText(m, "&ano=", y) == PeriodQuery(m, y);
  }

  /** Two requests for one endpoint share a cache key exactly when they are the same request. */
  lemma KeyCollapsesSameRequests(ep: string, m1: int, y1: int, m2: int, y2: int)
    ensures BuildUrl(ep, m1, y1) == BuildUrl(ep, m2, y2) <==> CacheKey(ep, m1, y1) == CacheKey(ep, m2, y2)
  {
    if ep !in SEM_FILTRO {
      KeyDistinguishesPeriods(ep, m1, y1, m2, y2);
      if BuildUrl(ep, m1, y1) == BuildUrl(ep, m2, y2) {
        DropPrefix(EndpointQuery(ep) + "&mes=", PeriodText(m1, "&ano=", y1), PeriodText(m2, "&ano=", y2));
        PeriodTextInjective(m1, y1, m2, y2, "&ano=");
      }
    }
  }
}
