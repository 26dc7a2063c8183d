/** Properties of the Query page handlers that relate several calls, or
    follow one effect list from end to end. */
module QueryPageProperties {
  import opened Wrappers
  import opened Entities
  import opened QueryPage

  /** With a default data source configured but absent from the list, adding
      a query alerts instead of falling back to the first data source. */
  lemma AddQueryHasNoFallback(state: PageState)
    requires state.setting.defaultDataSourceId.Some?
    requires !HasDataSource(state.dataSources, state.setting.defaultDataSourceId.value)
    ensures HandleAddQuery(state) == [Alert(CreateDataSourceMessage)]
    ensures forall ds :: ds in state.dataSources ==> AddNewQuery(ds.id) !in HandleAddQuery(state)
  {
  }

  /** Which data source an execution uses does not depend on the settings:
      it is always the query's own. */
  lemma ExecuteIgnoresSetting(state: PageState, query: Query, setting: Setting)
    ensures HandleExecute(state, query) == HandleExecute(state.(setting := setting), query)
  {
  }

  /** When both tokens are set, the two sharing handlers reject a query
      for a missing data source in exactly the same cases. */
  lemma ShareHandlersRejectAlike(state: PageState, query: Query, gistShared: Completion<()>, replies: BdashReplies)
    requires NonEmpty(state.setting.github.token) && NonEmpty(state.setting.bdashServer.token)
    ensures HandleShareOnGist(state, query, gistShared) == [Alert(DataSourceNotSelectedMessage)]
        <==> HandleShareOnBdashServer(state, query, replies) == [Alert(DataSourceNotSelectedMessage)]
  {
  }

  /** Without a remote id the dialog is never shown, so its response has no
      bearing on what the Bdash handler does. */
  lemma DialogIrrelevantWithoutRemoteId(state: PageState, query: Query, replies: BdashReplies, response: string)
    requires !NonEmpty(query.bdashServerQueryId)
    ensures HandleShareOnBdashServer(state, query, replies)
         == HandleShareOnBdashServer(state, query, replies.(dialogResponse := response))
  {
  }

  /** Once both guards pass and the dialog did not cancel, the Bdash
      handler's effects are the optional dialog, the share call, and what
      follows it. */
  lemma BdashShape(state: PageState, query: Query, replies: BdashReplies) returns (dialog: seq<Effect>, share: Effect)
    requires GuardsPass(state.setting.bdashServer.token, state.dataSources, query)
    requires !(NonEmpty(query.bdashServerQueryId) && replies.dialogResponse == CancelResponse)
    ensures dialog == [] || dialog == [ShowUpdateQueryDialog]
    ensures share.ShareOnBdashServer?
    ensures HandleShareOnBdashServer(state, query, replies) == dialog + [share] + AfterBdashShare(query.id, replies)
  {
    dialog := if NonEmpty(query.bdashServerQueryId) then [ShowUpdateQueryDialog] else [];
    share := HandleShareOnBdashServer(state, query, replies)[|dialog|];
  }

  /** A patch in `prefix + suffix` with no patch in `prefix` is a patch in `suffix`. */
  lemma PatchOnlyInSuffix(prefix: seq<Effect>, suffix: seq<Effect>)
    requires forall k :: 0 <= k < |prefix| ==> !prefix[k].UpdateQuery?
    ensures (exists k :: 0 <= k < |prefix + suffix| && (prefix + suffix)[k].UpdateQuery?)
        <==> (exists k :: 0 <= k < |suffix| && suffix[k].UpdateQuery?)
  {
    var effects := prefix + suffix;
    if exists k :: 0 <= k < |suffix| && suffix[k].UpdateQuery? {
      var k :| 0 <= k < |suffix| && suffix[k].UpdateQuery?;
      assert effects[|prefix| + k].UpdateQuery?;
    }
    if exists k :: 0 <= k < |effects| && effects[k].UpdateQuery? {
      var k :| 0 <= k < |effects| && effects[k].UpdateQuery?;
      assert suffix[k - |prefix|].UpdateQuery?;
    }
  }

  /** The query is patched exactly when the share call went out, it and the
      opening of the returned page both succeeded, and the server returned a
      non-empty id. */
  lemma BdashPatchedIff(state: PageState, query: Query, replies: BdashReplies)
    ensures var effects := HandleShareOnBdashServer(state, query, replies);
      (exists k :: 0 <= k < |effects| && effects[k].UpdateQuery?) <==>
        && GuardsPass(state.setting.bdashServer.token, state.dataSources, query)
        && !(NonEmpty(query.bdashServerQueryId) && replies.dialogResponse == CancelResponse)
        && replies.shareResult.Resolved?
        && replies.openResult.Resolved?
        && NonEmpty(replies.shareResult.value.id)
  {
    var effects := HandleShareOnBdashServer(state, query, replies);
    if && GuardsPass(state.setting.bdashServer.token, state.dataSources, query)
       && !(NonEmpty(query.bdashServerQueryId) && replies.dialogResponse == CancelResponse)
    {
      var dialog, share := BdashShape(state, query, replies);
      PatchOnlyInSuffix(dialog + [share], AfterBdashShare(query.id, replies));
    } else {
      assert effects == [Alert(BdashServerTokenMessage)] || effects == [Alert(DataSourceNotSelectedMessage)]
          || effects == [ShowUpdateQueryDialog];
    }
  }

  /** The patch carries the returned id, targets the shared query, and comes
      right after the returned page was opened, which comes right after the
      share call. */
  lemma BdashPatchAfterOpen(state: PageState, query: Query, replies: BdashReplies, k: nat)
    requires k < |HandleShareOnBdashServer(state, query, replies)|
    requires HandleShareOnBdashServer(state, query, replies)[k].UpdateQuery?
    ensures replies.shareResult.Resolved? && NonEmpty(replies.shareResult.value.id)
    ensures var effects := HandleShareOnBdashServer(state, query, replies);
      && effects[k] == UpdateQuery(query.id, replies.shareResult.value.id.value)
      && 2 <= k
      && effects[k - 1] == OpenExternal(replies.shareResult.value.htmlUrl)
      && effects[k - 2].ShareOnBdashServer?
  {
  }

  /** A rejection from the share call or from opening the page ends the
      handler with an alert carrying that error's message, and no patch. */
  lemma BdashRejectionAlerts(state: PageState, query: Query, replies: BdashReplies)
    requires GuardsPass(state.setting.bdashServer.token, state.dataSources, query)
    requires !(NonEmpty(query.bdashServerQueryId) && replies.dialogResponse == CancelResponse)
    requires replies.shareResult.Rejected? || replies.openResult.Rejected?
    ensures var effects := HandleShareOnBdashServer(state, query, replies);
      && (forall k :: 0 <= k < |effects| ==> !effects[k].UpdateQuery?)
      && effects[|effects| - 1]
         == Alert(if replies.shareResult.Rejected? then replies.shareResult.message else replies.openResult.message)
  {
  }

  /** A query already shared as "abc", with "update" chosen in the dialog,
      is shared with the overwrite target "abc". */
  lemma UpdateOverwritesExistingRemoteQuery(state: PageState, query: Query, replies: BdashReplies)
    requires GuardsPass(state.setting.bdashServer.token, state.dataSources, query)
    requires query.bdashServerQueryId == Some("abc") && replies.dialogResponse == UpdateResponse
    ensures var effects := HandleShareOnBdashServer(state, query, replies);
      |effects| >= 2 && effects[0] == ShowUpdateQueryDialog
      && effects[1].ShareOnBdashServer? && effects[1].overwrite == Some("abc")
  {
  }

  /** With no data source configured and no default set, adding a query
      only raises the alert. */
  lemma AddQueryWithoutDataSources(state: PageState)
    requires state.dataSources == [] && state.setting.defaultDataSourceId.None?
    ensures HandleAddQuery(state) == [Alert(CreateDataSourceMessage)]
  {
  }
}
