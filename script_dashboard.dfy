/**
 * The standalone dashboard page of script.js: `carregarDados`, which builds the request
 * URL, classifies the response and keeps the payload in the global `dadosAtuais`, and
 * `exportarParaExcel`, which assembles the CSV export from what the page shows.
 *
 * The select boxes, the KPI cards and the detail table are inputs; what the page shows is
 * a log of events (loading modal, interface update, error modal).
 */
module ScriptDashboard {
  import opened Wrappers
  import opened Api
  import opened Text
  import opened Keys
  import opened Csv
  import opened Sectors
  import Orchestrator

  /** `API_BASE_URL`, the initial value of `apiURL`. */
  const API_BASE_URL: string := "https://script.google.com/macros/s/AKfycbwMISyxH0g_Qku9R0JjTUaR998yZIPDYdOViiUm3l7MJbl_WqowErW4GhwLLEYwgjLI9g/exec"

  const CONNECTING: string := "Conectando com a API..."
  const HTTP_ERROR: string := "Erro HTTP: "
  const UNKNOWN_API_ERROR: string := "Erro desconhecido na API"

  /** `apiURL + ?endpoint=…&mes=…&ano=…`: every request carries the period. */
  function RequestUrl(api: string, dashboard: string, mes: int, ano: int): (r: string)
    ensures api + "?endpoint=" + dashboard + "&mes=" <= r
  {
    api + "?endpoint=" + dashboard + "&mes=" + PeriodText(mes, "&ano=", ano)
  }

  /**
   * How `carregarDados` judges a response: a status outside 2xx fails before the body is
   * read; an unparseable body or a transport failure fails with its own message; an
   * envelope whose status is `"error"` fails with its error text or a default; anything
   * else is accepted with its `data`.
   */
  function Classify(resp: HttpResponse): (r: Result<Json, string>)
    ensures r.Ok? <==> resp.Http? && IsOk(resp.status) && resp.body.JsonBody? && resp.body.envelope.status != Some("error")
    ensures r.Ok? ==> r.value == resp.body.envelope.data
    ensures resp.Http? && !IsOk(resp.status) ==> r == Err(HTTP_ERROR + IntToString(resp.status))
    ensures resp.Http? && IsOk(resp.status) && resp.body.JsonBody? && resp.body.envelope.status == Some("error") ==>
      r == Err(StringOr(resp.body.envelope.error, UNKNOWN_API_ERROR))
  {
    match resp
    case NetworkFailure(message) => Err(message)
    case Http(code, body) =>
      if !IsOk(code) then Err(HTTP_ERROR + IntToString(code))
      else
        match body
        case Unparseable(message) => Err(message)
        case JsonBody(env) =>
          if env.status == Some("error") then Err(StringOr(env.error, UNKNOWN_API_ERROR)) else Ok(env.data)
  }

  /** What the page shows. */
  datatype ScriptEvent =
    | Loading(message: string)          // mostrarLoading
    | Interface(tipo: string, dados: Json) // atualizarInterface
    | ErrorModal(message: string)       // mostrarErro

  /** The page's globals and what it has shown. */
  datatype ScriptState = ScriptState(dadosAtuais: Json, apiUrl: string, log: seq<ScriptEvent>)

  /** `carregarDados()` with the selected dashboard, month and year. */
  function LoadSpec(s: ScriptState, dashboard: string, mes: int, ano: int, net: string -> HttpResponse): ScriptState
  {
    match Classify(net(RequestUrl(s.apiUrl, dashboard, mes, ano)))
    case Ok(d) => s.(dadosAtuais := d, log := s.log + [Loading(CONNECTING), Interface(dashboard, d)])
    case Err(m) => s.(log := s.log + [Loading(CONNECTING), ErrorModal("Erro: " + m)])
  }

  /** The title line of the export: `Dashboard TIPO - Mês ano`, with `undefined` for a month outside 1..12. */
  function ExportTitle(tipo: string, mes: int, ano: int): string
  {
    var month := if MonthName(mes).Some? then MonthName(mes).value else "undefined";
    "Dashboard " + Upper(tipo) + " - " + month + " " + IntToString(ano)
  }

  /** The download's file name. */
  function ExportFileName(tipo: string, mes: int, ano: int): string
  {
    "dashboard_" + tipo + "_" + IntToString(mes) + "_" + IntToString(ano) + ".csv"
  }

  /** A file offered for download. */
  datatype Export = Export(fileName: string, content: string)

  class ScriptPage {
    var dadosAtuais: Json
    var apiUrl: string
    var log: seq<ScriptEvent>

    function State(): ScriptState
      reads this
    {
      ScriptState(dadosAtuais, apiUrl, log)
    }

    constructor ()
      ensures State() == ScriptState(JNull, API_BASE_URL, [])
    {
      dadosAtuais := JNull;
      apiUrl := API_BASE_URL;
      log := [];
    }

    method CarregarDados(dashboard: string, mes: int, ano: int, net: string -> HttpResponse)
      modifies this
      ensures State() == LoadSpec(old(State()), dashboard, mes, ano, net)
    {
      log := log + [Loading(CONNECTING)];
      var url := RequestUrl(apiUrl, dashboard, mes, ano);
      var outcome := Classify(net(url));
      if outcome.Err? {
        log := log + [ErrorModal("Erro: " + outcome.error)];
        return;
      }
      dadosAtuais := outcome.value;
      log := log + [Interface(dashboard, dadosAtuais)];
    }

    /**
     * `exportarParaExcel()` given the selections, the KPI cards (title and value texts) and
     * the rows of the detail table: nothing when no data is loaded.
     */
    method ExportarParaExcel(tipo: string, mes: int, ano: int, kpis: seq<(string, string)>, table: seq<seq<string>>)
      returns (r: Option<Export>)
      ensures r.None? <==> !Truthy(dadosAtuais)
      ensures r.Some? ==> r.value == Export(ExportFileName(tipo, mes, ano), Document(ExportTitle(tipo, mes, ano), kpis, table))
    {
      if !Truthy(dadosAtuais) {
        return None;
      }
      var kpiText := WriteKpis(kpis);
      var rowText := WriteRows(table);
      var csv := ExportTitle(tipo, mes, ano) + "\n\n";
      csv := csv + "KPIs:\n";
      csv := csv + kpiText;
      csv := csv + "\nDetalhamento:\n";
      csv := csv + rowText;
      return Some(Export(ExportFileName(tipo, mes, ano), csv));
    }
  }

  /** The KPI loop of `exportarParaExcel`: one `title,value` line per card, in order. */
  method WriteKpis(kpis: seq<(string, string)>) returns (text: string)
    ensures text == KpiLines(kpis)
  {
    text := "";
    for i := 0 to |kpis|
      invariant text == KpiLines(kpis[..i])
    {
      KpiLinesSnoc(kpis, i);
      text := text + (kpis[i].0 + "," + kpis[i].1 + "\n");
    }
    assert kpis[..|kpis|] == kpis;
  }

  lemma KpiLinesSnoc(kpis: seq<(string, string)>, i: int)
    requires 0 <= i < |kpis|
    ensures KpiLines(kpis[..i + 1]) == KpiLines(kpis[..i]) + (kpis[i].0 + "," + kpis[i].1 + "\n")
  {
    assert kpis[..i + 1][..i] == kpis[..i];
  }

  /** The row loop of `exportarParaExcel`: each row's cells encoded, joined by `,` and ended by a line feed. */
  method WriteRows(table: seq<seq<string>>) returns (text: string)
    ensures text == EncodeRows(table)
  {
    text := "";
    for n := 0 to |table|
      invariant text == EncodeRows(table[..n])
    {
      var line := WriteRow(table[n]);
      assert table[..n + 1][..n] == table[..n];
      text := text + line;
    }
    assert table[..|table|] == table;
  }

  /** One row: the inner loop that fills `celulas`, then `celulas.join(',') + '\n'`. */
  method WriteRow(row: seq<string>) returns (line: string)
    ensures line == EncodeRow(row)
  {
    var celulas: seq<string> := [];
    for j := 0 to |row|
      invariant celulas == EncodeCells(row[..j])
    {
      assert EncodeCells(row[..j + 1]) == EncodeCells(row[..j]) + [EncodeCell(row[j])];
      celulas := celulas + [EncodeCell(row[j])];
    }
    assert row[..|row|] == row;
    line := Join(celulas, ",") + "\n";
  }

  /** A failed load leaves `dadosAtuais` as it was and shows `Erro: ` and the message. */
  lemma FailedLoadKeepsData(s: ScriptState, dashboard: string, mes: int, ano: int, net: string -> HttpResponse)
    requires Classify(net(RequestUrl(s.apiUrl, dashboard, mes, ano))).Err?
    ensures var q := LoadSpec(s, dashboard, mes, ano, net);
      q.dadosAtuais == s.dadosAtuais &&
      q.log == s.log + [Loading(CONNECTING), ErrorModal("Erro: " + Classify(net(RequestUrl(s.apiUrl, dashboard, mes, ano))).error)]
  {
  }

  /** The HTTP error message names the status code, which can be read back from it. */
  lemma HttpErrorNamesStatus(code: int, body: Body)
    requires !IsOk(code)
    ensures var msg := Classify(Http(code, body)).error;
      |msg| > |HTTP_ERROR| && msg[..|HTTP_ERROR|] == HTTP_ERROR && ParseIntPrefix(msg[|HTTP_ERROR|..]) == Some((code, ""))
  {
    IntToStringRoundTrip(code, "");
    var msg := HTTP_ERROR + IntToString(code);
    assert msg[|HTTP_ERROR|..] == IntToString(code) + "";
  }

  /**
   * Unlike app.js's `buildUrl`, every request carries `&mes=…&ano=…`: with the same base
   * URL the two agree exactly on the period-sensitive endpoints.
   */
  lemma RequestUrlAgreesWithBuildUrl(ep: string, mes: int, ano: int)
    ensures RequestUrl(API_URL, ep, mes, ano) == EndpointQuery(ep) + PeriodQuery(mes, ano)
    ensures RequestUrl(API_URL, ep, mes, ano) == BuildUrl(ep, mes, ano) <==> ep !in SEM_FILTRO
  {
    RequestUrlShape(API_URL, ep, mes, ano);
    UrlCarriesPeriod(ep, mes, ano);
  }

  lemma RequestUrlShape(api: string, ep: string, mes: int, ano: int)
    ensures RequestUrl(api, ep, mes, ano) == (api + "?endpoint=" + ep) + PeriodQuery(mes, ano)
  {
  }

  /** Requests for different periods go to different URLs. */
  lemma RequestUrlDistinguishesPeriods(api: string, ep: string, m1: int, y1: int, m2: int, y2: int)
    requires RequestUrl(api, ep, m1, y1) == RequestUrl(api, ep, m2, y2)
    ensures m1 == m2 && y1 == y2
  {
    var base := api + "?endpoint=" + ep + "&mes=";
    DropPrefix(base, PeriodText(m1, "&ano=", y1), PeriodText(m2, "&ano=", y2));
    PeriodTextInjective(m1, y1, m2, y2, "&ano=");
  }

  /** Loading a month and a year and exporting names that month in the title, or `undefined`. */
  lemma ExportTitleNamesMonth(tipo: string, mes: int, ano: int)
    ensures 1 <= mes <= 12 ==> ExportTitle(tipo, mes, ano) == "Dashboard " + Upper(tipo) + " - " + MONTHS[mes - 1] + " " + IntToString(ano)
    ensures !(1 <= mes <= 12) ==> ExportTitle(tipo, mes, ano) == "Dashboard " + Upper(tipo) + " - undefined " + IntToString(ano)
  {
  }

  /**
   * The two pages judge responses differently: whatever app.js accepts with an OK status,
   * this page accepts with the same data; an envelope app.js accepts is refused when the
   * HTTP status is not 2xx, and an envelope whose status is neither `success` nor `error`
   * is accepted here but refused by app.js.
   */
  lemma ClassifiersCompared(resp: HttpResponse)
    ensures resp.Http? && IsOk(resp.status) && Orchestrator.AppFetch(resp).Fetched? ==>
      Classify(resp) == Ok(Orchestrator.AppFetch(resp).data)
    ensures resp.Http? && !IsOk(resp.status) && Orchestrator.AppFetch(resp).Fetched? ==> Classify(resp).Err?
    ensures (resp.Http? && IsOk(resp.status) && resp.body.JsonBody? &&
             resp.body.envelope.status != Some("success") && resp.body.envelope.status != Some("error")) ==>
      Classify(resp).Ok? && Orchestrator.AppFetch(resp).Refused?
  {
  }
}
