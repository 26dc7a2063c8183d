/** The Query page's intent handlers. Each handler is a function from the
    page state (and the outcomes of the collaborators it awaits) to the
    ordered list of effects it issues: calls into the query actions, the
    sharing clients, the dialog and the URL opener, and alerts. */
module QueryPage {
  import opened Wrappers
  import opened Entities
  import opened ArrayFind

  const CreateDataSourceMessage := "Please create data source"
  const DataSourceMissingMessage := "DataSource is missing"
  const GithubTokenMessage := "Set your Github token"
  const BdashServerTokenMessage := "Set your Bdash Server's access token"
  const DataSourceNotSelectedMessage := "DataSource is not selected"
  const CancelResponse := "cancel"
  const UpdateResponse := "update"

  /** One outward action of a handler, in the order it is issued. */
  datatype Effect =
    | AddNewQuery(dataSourceId: int)
    | Alert(message: string)
    | ExecuteQuery(query: Query, dataSource: DataSource, line: int)
    | CancelQuery(query: Query)
    | ShareOnGist(query: Query, chart: Option<Chart>, github: GithubSetting, dataSource: DataSource)
    | ShowUpdateQueryDialog
    | ShareOnBdashServer(
        query: Query, chart: Option<Chart>, bdashServer: BdashServerSetting,
        dataSource: DataSource, overwrite: Option<string>)
    | OpenExternal(url: string)
    | UpdateQuery(queryId: int, bdashServerQueryId: string)

  /** The selector `dataSources.find` uses: the data source has id `id`. */
  function IdIs(id: int): DataSource -> bool {
    (ds: DataSource) => ds.id == id
  }

  /** The selector `charts.find` uses: the chart belongs to query `queryId`. */
  function QueryIdIs(queryId: int): Chart -> bool {
    (c: Chart) => c.queryId == queryId
  }

  ghost predicate HasDataSource(dataSources: seq<DataSource>, id: int) {
    exists i :: 0 <= i < |dataSources| && dataSources[i].id == id
  }

  function FindDataSourceById(dataSources: seq<DataSource>, id: int): (r: Option<DataSource>)
    ensures r.None? <==> !HasDataSource(dataSources, id)
    ensures r.Some? ==> r.value.id == id
    ensures r.Some? ==> exists i :: IsFirstMatch(dataSources, IdIs(id), i) && dataSources[i] == r.value
  {
    Find(dataSources, IdIs(id))
  }

  /** The chart the sharing handlers pass along: the first one of the query. */
  function FindChartByQueryId(charts: seq<Chart>, queryId: int): (r: Option<Chart>)
    ensures r.None? <==> forall i :: 0 <= i < |charts| ==> charts[i].queryId != queryId
    ensures r.Some? ==> r.value.queryId == queryId && r.value in charts
    ensures r.Some? ==> exists i :: IsFirstMatch(charts, QueryIdIs(queryId), i) && charts[i] == r.value
  {
    Find(charts, QueryIdIs(queryId))
  }

  /** Adding a query: the default data source when one is configured (and
      no other, even when it is missing), otherwise the first data source. */
  function HandleAddQuery(state: PageState): (effects: seq<Effect>)
    ensures |effects| == 1
    ensures effects[0].AddNewQuery? || effects[0] == Alert(CreateDataSourceMessage)
    ensures effects[0].AddNewQuery? ==> HasDataSource(state.dataSources, effects[0].dataSourceId)
    ensures state.setting.defaultDataSourceId.Some? ==>
      var id := state.setting.defaultDataSourceId.value;
      && (effects[0].AddNewQuery? <==> HasDataSource(state.dataSources, id))
      && (effects[0].AddNewQuery? ==> effects[0].dataSourceId == id)
    ensures state.setting.defaultDataSourceId.None? ==>
      && (effects[0].AddNewQuery? <==> |state.dataSources| > 0)
      && (effects[0].AddNewQuery? ==> effects[0].dataSourceId == state.dataSources[0].id)
  {
    var ds := match state.setting.defaultDataSourceId
      case Some(id) => FindDataSourceById(state.dataSources, id)
      case None => if |state.dataSources| > 0 then Some(state.dataSources[0]) else None;
    if ds.Some? then [AddNewQuery(ds.value.id)] else [Alert(CreateDataSourceMessage)]
  }

  /** Executing: the query's own data source and the editor line, with a
      missing line read as 0 and an explicit line (0 included) kept. */
  function HandleExecute(state: PageState, query: Query): (effects: seq<Effect>)
    ensures |effects| == 1
    ensures effects[0].ExecuteQuery? || effects[0] == Alert(DataSourceMissingMessage)
    ensures effects[0].ExecuteQuery? <==> HasDataSource(state.dataSources, query.dataSourceId)
    ensures effects[0].ExecuteQuery? ==>
      && effects[0].query == query
      && (exists i :: IsFirstMatch(state.dataSources, IdIs(query.dataSourceId), i)
                      && state.dataSources[i] == effects[0].dataSource)
      && (state.editorLine.Some? ==> effects[0].line == state.editorLine.value)
      && (state.editorLine.None? ==> effects[0].line == 0)
  {
    var line := state.editorLine.GetOr(0);
    match FindDataSourceById(state.dataSources, query.dataSourceId)
    case Some(dataSource) => [ExecuteQuery(query, dataSource, line)]
    case None => [Alert(DataSourceMissingMessage)]
  }

  /** Cancelling: forwarded only for a query that is running. */
  function HandleCancel(query: Query): (effects: seq<Effect>)
    ensures effects == [] || effects == [CancelQuery(query)]
    ensures effects != [] <==> query.status == Working
  {
    if query.status == Working then [CancelQuery(query)] else []
  }

  /** The guards both sharing handlers run, in order: the token first,
      then the data source. The result is the alert to raise, if any. */
  function ShareGuard(token: Option<string>, tokenMessage: string, dataSource: Option<DataSource>): (alert: Option<string>)
    ensures alert.None? <==> NonEmpty(token) && dataSource.Some?
    ensures !NonEmpty(token) ==> alert == Some(tokenMessage)
    ensures NonEmpty(token) && dataSource.None? ==> alert == Some(DataSourceNotSelectedMessage)
  {
    if !NonEmpty(token) then Some(tokenMessage)
    else if dataSource.None? then Some(DataSourceNotSelectedMessage)
    else None
  }

  /** An awaited call inside `try`: a rejection becomes an alert with its message. */
  function AlertOnRejection<T>(c: Completion<T>): (effects: seq<Effect>)
    ensures c.Resolved? <==> effects == []
    ensures c.Rejected? ==> effects == [Alert(c.message)]
  {
    match c
    case Resolved(_) => []
    case Rejected(message) => [Alert(message)]
  }

  function HandleShareOnGist(state: PageState, query: Query, shared: Completion<()>): (effects: seq<Effect>)
    ensures 1 <= |effects| <= 2
    ensures !NonEmpty(state.setting.github.token) ==> effects == [Alert(GithubTokenMessage)]
    ensures NonEmpty(state.setting.github.token) && !HasDataSource(state.dataSources, query.dataSourceId) ==>
      effects == [Alert(DataSourceNotSelectedMessage)]
    ensures effects[0].ShareOnGist? <==>
      NonEmpty(state.setting.github.token) && HasDataSource(state.dataSources, query.dataSourceId)
    ensures effects[0].ShareOnGist? ==>
      && effects[0].query == query
      && effects[0].github == state.setting.github
      && effects[0].dataSource.id == query.dataSourceId
      && effects[0].dataSource in state.dataSources
      && Some(effects[0].dataSource) == FindDataSourceById(state.dataSources, query.dataSourceId)
      && effects[0].chart == FindChartByQueryId(state.charts, query.id)
      && effects[1..] == AlertOnRejection(shared)
    ensures forall k :: 1 <= k < |effects| ==> effects[k].Alert?
  {
    var chart := FindChartByQueryId(state.charts, query.id);
    var dataSource := FindDataSourceById(state.dataSources, query.dataSourceId);
    match ShareGuard(state.setting.github.token, GithubTokenMessage, dataSource)
    case Some(message) => [Alert(message)]
    case None => [ShareOnGist(query, chart, state.setting.github, dataSource.value)] + AlertOnRejection(shared)
  }

  /** What the confirmation dialog decides for a query already on Bdash Server. */
  datatype OverwriteDecision = Abort | Proceed(overwrite: Option<string>)

  /** The dialog is consulted only for a query with a remote id; "cancel"
      aborts, "update" overwrites that id, anything else creates anew. */
  function ResolveOverwrite(bdashServerQueryId: Option<string>, response: string): (d: OverwriteDecision)
    ensures !NonEmpty(bdashServerQueryId) ==> d == Proceed(None)
    ensures d.Abort? <==> NonEmpty(bdashServerQueryId) && response == CancelResponse
    ensures d.Proceed? && d.overwrite.Some? <==> NonEmpty(bdashServerQueryId) && response == UpdateResponse
    ensures d.Proceed? && d.overwrite.Some? ==> d.overwrite == bdashServerQueryId
  {
    if NonEmpty(bdashServerQueryId) then
      if response == CancelResponse then Abort
      else if response == UpdateResponse then Proceed(Some(bdashServerQueryId.value))
      else Proceed(None)
    else Proceed(None)
  }

  /** The reply of the Bdash Server client: the remote id (absent or empty
      when the server allocated none) and the page of the shared query. */
  datatype BdashShareResponse = BdashShareResponse(id: Option<string>, htmlUrl: string)

  /** How every collaborator the Bdash handler consults answers. */
  datatype BdashReplies = BdashReplies(
    dialogResponse: string,
    shareResult: Completion<BdashShareResponse>,
    openResult: Completion<()>,
    updateResult: Completion<()>)

  /** After the share call: open the returned page, then record a non-empty
      returned id on the query; the first rejection is alerted and ends it. */
  function AfterBdashShare(queryId: int, replies: BdashReplies): (effects: seq<Effect>)
    ensures 1 <= |effects| <= 3
    ensures forall k :: 0 <= k < |effects| ==>
      effects[k].OpenExternal? || effects[k].UpdateQuery? || effects[k].Alert?
    ensures replies.shareResult.Rejected? ==> effects == [Alert(replies.shareResult.message)]
    ensures replies.shareResult.Resolved? ==> effects[0] == OpenExternal(replies.shareResult.value.htmlUrl)
    ensures replies.shareResult.Resolved? && replies.openResult.Rejected? ==>
      effects == [OpenExternal(replies.shareResult.value.htmlUrl), Alert(replies.openResult.message)]
    ensures replies.shareResult.Resolved? && replies.openResult.Resolved? && !NonEmpty(replies.shareResult.value.id) ==>
      effects == [OpenExternal(replies.shareResult.value.htmlUrl)]
    ensures replies.shareResult.Resolved? && replies.openResult.Resolved? && NonEmpty(replies.shareResult.value.id) ==>
      effects == [OpenExternal(replies.shareResult.value.htmlUrl),
                  UpdateQuery(queryId, replies.shareResult.value.id.value)]
                 + AlertOnRejection(replies.updateResult)
    ensures (exists k :: 0 <= k < |effects| && effects[k].UpdateQuery?) <==>
      replies.shareResult.Resolved? && replies.openResult.Resolved? && NonEmpty(replies.shareResult.value.id)
    ensures forall k :: 0 <= k < |effects| && effects[k].UpdateQuery? ==>
      && k == 1
      && effects[0].OpenExternal?
      && effects[k].queryId == queryId
      && replies.shareResult.Resolved?
      && replies.shareResult.value.id == Some(effects[k].bdashServerQueryId)
  {
    match replies.shareResult
    case Rejected(message) => [Alert(message)]
    case Resolved(response) =>
      var opening := [OpenExternal(response.htmlUrl)];
      match replies.openResult
      case Rejected(message) => opening + [Alert(message)]
      case Resolved(_) =>
        if NonEmpty(response.id) then
          var patched := opening + [UpdateQuery(queryId, response.id.value)] + AlertOnRejection(replies.updateResult);
          assert patched[1].UpdateQuery?;
          patched
        else opening
  }

  /** Both sharing guards pass for `query` with this token. */
  ghost predicate GuardsPass(token: Option<string>, dataSources: seq<DataSource>, query: Query) {
    NonEmpty(token) && HasDataSource(dataSources, query.dataSourceId)
  }

  function HandleShareOnBdashServer(state: PageState, query: Query, replies: BdashReplies): (effects: seq<Effect>)
    ensures effects != []
    ensures !NonEmpty(state.setting.bdashServer.token) ==> effects == [Alert(BdashServerTokenMessage)]
    ensures NonEmpty(state.setting.bdashServer.token) && !HasDataSource(state.dataSources, query.dataSourceId) ==>
      effects == [Alert(DataSourceNotSelectedMessage)]
    ensures (ShowUpdateQueryDialog in effects) <==>
      GuardsPass(state.setting.bdashServer.token, state.dataSources, query) && NonEmpty(query.bdashServerQueryId)
    ensures ShowUpdateQueryDialog in effects ==> effects[0] == ShowUpdateQueryDialog
    ensures (&& GuardsPass(state.setting.bdashServer.token, state.dataSources, query)
             && NonEmpty(query.bdashServerQueryId)
             && replies.dialogResponse == CancelResponse) ==>
      effects == [ShowUpdateQueryDialog]
    ensures (exists k :: 0 <= k < |effects| && effects[k].ShareOnBdashServer?) <==>
      && GuardsPass(state.setting.bdashServer.token, state.dataSources, query)
      && !(NonEmpty(query.bdashServerQueryId) && replies.dialogResponse == CancelResponse)
    ensures forall k :: 0 <= k < |effects| && effects[k].ShareOnBdashServer? ==>
      && effects[k].query == query
      && effects[k].bdashServer == state.setting.bdashServer
      && effects[k].dataSource.id == query.dataSourceId
      && effects[k].dataSource in state.dataSources
      && Some(effects[k].dataSource) == FindDataSourceById(state.dataSources, query.dataSourceId)
      && effects[k].chart == FindChartByQueryId(state.charts, query.id)
      && (effects[k].overwrite.Some? <==>
            NonEmpty(query.bdashServerQueryId) && replies.dialogResponse == UpdateResponse)
      && (effects[k].overwrite.Some? ==> effects[k].overwrite == query.bdashServerQueryId)
      && effects[k + 1..] == AfterBdashShare(query.id, replies)
  {
    var chart := FindChartByQueryId(state.charts, query.id);
    var dataSource := FindDataSourceById(state.dataSources, query.dataSourceId);
    match ShareGuard(state.setting.bdashServer.token, BdashServerTokenMessage, dataSource)
    case Some(message) => [Alert(message)]
    case None =>
      var dialog := if NonEmpty(query.bdashServerQueryId) then [ShowUpdateQueryDialog] else [];
      match ResolveOverwrite(query.bdashServerQueryId, replies.dialogResponse)
      case Abort => dialog
      case Proceed(overwrite) =>
        var effects := dialog
          + [ShareOnBdashServer(query, chart, state.setting.bdashServer, dataSource.value, overwrite)]
          + AfterBdashShare(query.id, replies);
        assert effects[|dialog|].ShareOnBdashServer?;
        effects
  }
}
