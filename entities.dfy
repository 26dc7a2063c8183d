/** The entities the Query page reads from its state. Only the fields the
    page's handlers look at, plus the ones they pass through, are kept. */
module Entities {
  import opened Wrappers

  /** Execution status of a query. */
  datatype Status = Idle | Working | Success | Failure | Canceled

  /** A configured data source, referenced by `id`. */
  datatype DataSource = DataSource(id: int, dataSourceType: string)

  /** A chart attached to the query `queryId`. */
  datatype Chart = Chart(id: int, queryId: int, chartType: string)

  /** A query as the page sees it. `bdashServerQueryId` is the remote
      identity of the query on Bdash Server once it has been shared. */
  datatype Query = Query(
    id: int,
    title: string,
    body: string,
    dataSourceId: int,
    status: Status,
    bdashServerQueryId: Option<string>)

  datatype GithubSetting = GithubSetting(token: Option<string>)

  datatype BdashServerSetting = BdashServerSetting(token: Option<string>, url: string)

  /** `defaultDataSourceId` is `None` when the setting holds `null`. */
  datatype Setting = Setting(
    defaultDataSourceId: Option<int>,
    github: GithubSetting,
    bdashServer: BdashServerSetting)

  /** The part of the page's state the handlers read; `editorLine` is the
      editor's cursor line, `None` when the editor has not reported one. */
  datatype PageState = PageState(
    setting: Setting,
    dataSources: seq<DataSource>,
    charts: seq<Chart>,
    editorLine: Option<int>)

  /** JavaScript truthiness of an optional string: present and not "". */
  predicate NonEmpty(s: Option<string>) {
    s.Some? && s.value != ""
  }
}
