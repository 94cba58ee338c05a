/** The fixed reports of the menu bar: the two Top-N reports, whose only
    parameter is the `N` the user types, and the two reports that bind
    nothing. Each yields the statement handed to `performSearch`, or none. */
module Reports {
  import opened Sql
  import opened Criteria

  /** What the "Enter top N …" input dialog yields once parsed: an `int`, or
      text that `Integer.parseInt` rejects (including a cancelled dialog). */
  datatype Prompt = Entered(value: int32) | Unparsable

  /** `promptForN`: the parsed number, or -1 when parsing fails. */
  function PromptForN(answer: Prompt): (n: int32)
    ensures answer.Unparsable? ==> n < 1
  {
    match answer
    case Entered(v) => v
    case Unparsable => -1
  }

  // The report templates, each long literal split into shorter literals of
  // the same text. The Top-N templates end in their single marker.
  const TopBlocksSelect := "SELECT b.block, COUNT(*) cnt "
  const TopBlocksFrom := "FROM fact_incident f " + "JOIN dim_block b "
  const TopBlocksOn := "ON f.block=b.block "
  const TopBlocksGroup := "GROUP BY b.block " + "ORDER BY cnt DESC LIMIT "
  const TopBlocksSql := TopBlocksSelect + TopBlocksFrom + TopBlocksOn + TopBlocksGroup + "?"

  const TopOffensesSelect := "SELECT o.offense_code offense, " + "COUNT(*) cnt "
  const TopOffensesFrom := "FROM fact_incident f " + "JOIN dim_offense o "
  const TopOffensesOn := "ON f.offense_code=" + "o.offense_code "
  const TopOffensesGroup := "GROUP BY o.offense_code " + "ORDER BY cnt DESC LIMIT "
  const TopOffensesSql := TopOffensesSelect + TopOffensesFrom + TopOffensesOn + TopOffensesGroup + "?"

  const AvgSelect := "SELECT o.offense_code offense, "
  const AvgRound := "ROUND(AVG(TIMESTAMPDIFF(" + "MINUTE,f.start_dt,f.end_dt)),2) "
  const AvgAlias := "avg_duration "
  const AvgGroup := "GROUP BY o.offense_code " + "ORDER BY avg_duration DESC"
  const AvgDurationSql := AvgSelect + AvgRound + AvgAlias + TopOffensesFrom + TopOffensesOn + AvgGroup

  const HistorySelect := "SELECT id, sql_text, executed_at "
  const HistoryFrom := "FROM query_history " + "ORDER BY executed_at DESC"
  const QueryHistorySql := HistorySelect + HistoryFrom

  lemma TopBlocksSelectClean() ensures '?' !in TopBlocksSelect {}
  lemma TopBlocksFromClean() ensures '?' !in TopBlocksFrom {}
  lemma TopBlocksOnClean() ensures '?' !in TopBlocksOn {}
  lemma TopBlocksGroupClean() ensures '?' !in TopBlocksGroup {}
  lemma TopOffensesSelectClean() ensures '?' !in TopOffensesSelect {}
  lemma TopOffensesFromClean() ensures '?' !in TopOffensesFrom {}
  lemma TopOffensesOnClean() ensures '?' !in TopOffensesOn {}
  lemma TopOffensesGroupClean() ensures '?' !in TopOffensesGroup {}
  lemma AvgSelectClean() ensures '?' !in AvgSelect {}
  lemma AvgRoundClean() ensures '?' !in AvgRound {}
  lemma AvgAliasClean() ensures '?' !in AvgAlias {}
  lemma AvgGroupClean() ensures '?' !in AvgGroup {}
  lemma HistorySelectClean() ensures '?' !in HistorySelect {}
  lemma HistoryFromClean() ensures '?' !in HistoryFrom {}

  /** A marker-free text followed by one `?` has exactly one marker. */
  lemma OneTrailingMarker(prefix: string)
    requires '?' !in prefix
    ensures Markers(prefix + "?") == 1
  {
    MarkerFree(prefix);
    OneMarker();
    MarkersConcat(prefix, "?");
  }

  /** Each Top-N template has exactly one marker: its `LIMIT ?`. */
  lemma TopNTemplatesHaveOneMarker()
    ensures Markers(TopBlocksSql) == 1 && Markers(TopOffensesSql) == 1
  {
    TopBlocksSelectClean(); TopBlocksFromClean(); TopBlocksOnClean(); TopBlocksGroupClean();
    OneTrailingMarker(TopBlocksSelect + TopBlocksFrom + TopBlocksOn + TopBlocksGroup);
    TopOffensesSelectClean(); TopOffensesFromClean(); TopOffensesOnClean(); TopOffensesGroupClean();
    OneTrailingMarker(TopOffensesSelect + TopOffensesFrom + TopOffensesOn + TopOffensesGroup);
  }

  /** The guard shared by both Top-N reports: no query unless `n >= 1`;
      otherwise the template, prepared, with `n` as its only parameter. */
  function TopN(template: string, n: int32): Option<Statement>
  {
    if n < 1 then None else Some(Statement(template, [IntParam(n)], true))
  }

  /** The guard runs a query exactly when `n >= 1`, binds exactly `[n]`, and
      so binds one value per marker of a one-marker template. */
  lemma TopNGuard(template: string, n: int32)
    ensures TopN(template, n).None? <==> n < 1
    ensures TopN(template, n).Some? ==>
              var st := TopN(template, n).value;
              st.sql == template && st.params == [IntParam(n)] && st.prepared &&
              (Markers(template) == 1 ==> WellBound(st))
  {
  }

  /** `fetchTopNBlocks`: the most frequent blocks, `N` of them. */
  function FetchTopNBlocks(answer: Prompt): (st: Option<Statement>)
    ensures st.None? <==> PromptForN(answer) < 1
    ensures answer.Unparsable? ==> st.None?
    ensures st.Some? ==> st.value.params == [IntParam(PromptForN(answer))] && WellBound(st.value)
  {
    TopNTemplatesHaveOneMarker();
    TopN(TopBlocksSql, PromptForN(answer))
  }

  /** `fetchTopNOffenses`: the most frequent offenses, `N` of them. */
  function FetchTopNOffenses(answer: Prompt): (st: Option<Statement>)
    ensures st.None? <==> PromptForN(answer) < 1
    ensures answer.Unparsable? ==> st.None?
    ensures st.Some? ==> st.value.params == [IntParam(PromptForN(answer))] && WellBound(st.value)
  {
    TopNTemplatesHaveOneMarker();
    TopN(TopOffensesSql, PromptForN(answer))
  }

  /** `fetchAvgDuration`: run as a plain statement, with no parameters. */
  const AvgDurationReport := Statement(AvgDurationSql, [], false)

  /** `fetchQueryHistory`: run as a plain statement, with no parameters. */
  const QueryHistoryReport := Statement(QueryHistorySql, [], false)

  /** The plain reports have no marker left unbound. */
  lemma PlainReportsWellBound()
    ensures WellBound(AvgDurationReport) && WellBound(QueryHistoryReport)
  {
    AvgSelectClean(); AvgRoundClean(); AvgAliasClean();
    TopOffensesFromClean(); TopOffensesOnClean(); AvgGroupClean();
    assert '?' !in AvgDurationSql;
    MarkerFree(AvgDurationSql);
    HistorySelectClean(); HistoryFromClean();
    assert '?' !in QueryHistorySql;
    MarkerFree(QueryHistorySql);
  }
}
