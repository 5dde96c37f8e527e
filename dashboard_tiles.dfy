/**
 * The tile-derived values of the dashboard provider: the saved charts whose
 * available filters are fetched, and whether the dashboard has any chart tile.
 */
module DashboardTiles {
  import opened Wrappers

  /** A dashboard tile; only saved-chart tiles carry a chart reference. */
  datatype DashboardTile =
    | SavedChartTile(uuid: string, savedChartUuid: Option<string>)
    | MarkdownTile(uuid: string)
    | LoomTile(uuid: string)

  /** An entry of `savedChartUuidsAndTileUuids`. */
  datatype SavedChartInfo = SavedChartInfo(tileUuid: string, savedChartUuid: string)

  /** A chart tile whose `savedChartUuid` is truthy (present and non-empty). */
  predicate HasSavedChart(tile: DashboardTile)
  {
    tile.SavedChartTile? && tile.savedChartUuid.Some? && tile.savedChartUuid.value != ""
  }

  function InfoOf(tile: DashboardTile): SavedChartInfo
    requires HasSavedChart(tile)
  {
    SavedChartInfo(tile.uuid, tile.savedChartUuid.value)
  }

  /** The chart-tile filter followed by the reduce that pushes one entry per saved chart. */
  function CollectSavedCharts(tiles: seq<DashboardTile>): (infos: seq<SavedChartInfo>)
    ensures |infos| <= |tiles|
    ensures forall info :: info in infos ==> exists t :: t in tiles && HasSavedChart(t) && InfoOf(t) == info
    ensures forall i :: 0 <= i < |tiles| && HasSavedChart(tiles[i]) ==> InfoOf(tiles[i]) in infos
  {
    if tiles == [] then []
    else
      var init, tile := tiles[..|tiles| - 1], tiles[|tiles| - 1];
      var acc := CollectSavedCharts(init);
      assert tiles == init + [tile];
      if HasSavedChart(tile) then acc + [InfoOf(tile)] else acc
  }

  /** `savedChartUuidsAndTileUuids`: undefined while the tiles are. */
  function SavedChartUuidsAndTileUuids(dashboardTiles: Option<seq<DashboardTile>>): (r: Option<seq<SavedChartInfo>>)
    ensures r.Some? <==> dashboardTiles.Some?
    ensures dashboardTiles.Some? ==> r.value == CollectSavedCharts(dashboardTiles.value)
  {
    match dashboardTiles
    case None => None
    case Some(tiles) => Some(CollectSavedCharts(tiles))
  }

  /** The entries keep tile order: collecting over two runs of tiles is collecting each in turn. */
  lemma {:induction false} CollectSavedChartsDistributes(front: seq<DashboardTile>, back: seq<DashboardTile>)
    ensures CollectSavedCharts(front + back) == CollectSavedCharts(front) + CollectSavedCharts(back)
    decreases |back|
  {
    if back == [] {
      assert front + back == front;
    } else {
      var init, last := back[..|back| - 1], back[|back| - 1];
      assert (front + back)[..|front + back| - 1] == front + init;
      assert (front + back)[|front + back| - 1] == last;
      CollectSavedChartsDistributes(front, init);
    }
  }

  /** A tile without a saved chart contributes nothing. */
  lemma CollectSkipsTile(tiles: seq<DashboardTile>, tile: DashboardTile)
    requires !HasSavedChart(tile)
    ensures CollectSavedCharts(tiles + [tile]) == CollectSavedCharts(tiles)
  {
  }

  /** The chart-tile filter. */
  function ChartTiles(tiles: seq<DashboardTile>): (charts: seq<DashboardTile>)
    ensures |charts| <= |tiles|
    ensures forall k :: 0 <= k < |charts| ==> charts[k].SavedChartTile? && charts[k] in tiles
    ensures forall i :: 0 <= i < |tiles| && tiles[i].SavedChartTile? ==> tiles[i] in charts
  {
    if tiles == [] then []
    else
      var rest := ChartTiles(tiles[1..]);
      if tiles[0].SavedChartTile? then [tiles[0]] + rest else rest
  }

  /** `hasChartTiles`: the tiles are known and at least one is a chart tile. */
  function HasChartTiles(dashboardTiles: Option<seq<DashboardTile>>): (has: bool)
    ensures has <==> dashboardTiles.Some? &&
                     exists i :: 0 <= i < |dashboardTiles.value| && dashboardTiles.value[i].SavedChartTile?
  {
    match dashboardTiles
    case None => false
    case Some(tiles) =>
      var charts := ChartTiles(tiles);
      assert |charts| >= 1 ==> exists i :: 0 <= i < |tiles| && tiles[i] == charts[0];
      |charts| >= 1
  }
}
