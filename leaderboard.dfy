/** The Leaderboard view: fetches `/api/leaderboard/`, shows a podium of the
    first three entries and a ranking table of all entries, in the order the
    backend sent them. Ranks are positions; nothing is sorted here. */
module Leaderboard {
  import opened Wrappers
  import opened Json
  import opened Text
  import opened Lists
  import opened Display
  import Endpoint
  import opened RemoteList

  const Resource := "leaderboard"
  const PodiumSize := 3

  /** `getRankBadge`: gold, silver and bronze colours for the first three
      positions, the primary colour for the rest. */
  function RankBadge(index: nat): (r: string)
    ensures r == "bg-warning text-dark" <==> index == 0
    ensures r == "bg-secondary" <==> index == 1
    ensures r == "bg-danger" <==> index == 2
    ensures r == "bg-primary" <==> index >= 3
  {
    if index == 0 then "bg-warning text-dark"
    else if index == 1 then "bg-secondary"
    else if index == 2 then "bg-danger"
    else "bg-primary"
  }

  /** `getRankIcon`: crown, medal, award, then a plain user icon. */
  function RankIcon(index: nat): (r: string)
    ensures r == "fas fa-crown" <==> index == 0
    ensures r == "fas fa-medal" <==> index == 1
    ensures r == "fas fa-award" <==> index == 2
    ensures r == "fas fa-user" <==> index >= 3
  {
    if index == 0 then "fas fa-crown"
    else if index == 1 then "fas fa-medal"
    else if index == 2 then "fas fa-award"
    else "fas fa-user"
  }

  /** Badge and icon follow one partition of positions, 0, 1, 2 and all
      others: two positions share a badge exactly when they share an icon,
      which happens for distinct positions only beyond the podium. */
  lemma RankPartition(i: nat, j: nat)
    ensures RankBadge(i) == RankBadge(j) <==> RankIcon(i) == RankIcon(j)
    ensures i != j && RankBadge(i) == RankBadge(j) ==> i >= PodiumSize && j >= PodiumSize
  {
  }

  /** The podium card's border: `border-warning`, `border-secondary`, then
      `border-danger`. */
  function PodiumBorder(index: nat): (r: string)
    ensures r == "border-warning" <==> index == 0
    ensures r == "border-secondary" <==> index == 1
    ensures r == "border-danger" <==> index >= 2
  {
    if index == 0 then "border-warning" else if index == 1 then "border-secondary" else "border-danger"
  }

  /** The podium icon's colour: `text-warning`, `text-secondary`, then
      `text-danger`. */
  function PodiumColour(index: nat): (r: string)
    ensures r == "text-warning" <==> index == 0
    ensures r == "text-secondary" <==> index == 1
    ensures r == "text-danger" <==> index >= 2
  {
    if index == 0 then "text-warning" else if index == 1 then "text-secondary" else "text-danger"
  }

  /** On the podium, the border and icon colour name the same colour as the
      rank badge of that position. */
  lemma PodiumMatchesRankColours(index: nat)
    requires index < PodiumSize
    ensures var colour := if index == 0 then "warning" else if index == 1 then "secondary" else "danger";
            && StartsWith(RankBadge(index), "bg-" + colour)
            && PodiumBorder(index) == "border-" + colour
            && PodiumColour(index) == "text-" + colour
  {
  }

  /** `index < 3 ? 'table-light' : ''`. */
  function RowClass(index: nat): (c: string)
    ensures c == "table-light" <==> index < PodiumSize
    ensures c != "table-light" ==> c == ""
  {
    if index < 3 then "table-light" else ""
  }

  /** `#${index + 1}`: a hash followed by the 1-based position, which reads
      back from the label. */
  function RankLabel(index: nat): (r: string)
    ensures |r| >= 2 && r[0] == '#'
    ensures AllDigits(r[1..]) && DigitsValue(r[1..]) == index + 1
    ensures Canonical(r[1..]) && r[1] != '0'
  {
    var digits := Decimal(index + 1);
    DecimalRoundTrip(index + 1);
    assert ("#" + digits)[1..] == digits;
    "#" + digits
  }

  /** `entry.user_name || entry.name || 'Unknown'`. */
  function EntryName(e: Value): (r: Value)
    ensures Truthy(r)
    ensures Truthy(Field(e, "user_name")) ==> r == Field(e, "user_name")
    ensures !Truthy(Field(e, "user_name")) && Truthy(Field(e, "name")) ==> r == Field(e, "name")
    ensures !Truthy(Field(e, "user_name")) && !Truthy(Field(e, "name")) ==> r == Str("Unknown")
  {
    Fallback3(Field(e, "user_name"), Field(e, "name"), Str("Unknown"))
  }

  /** `entry.team_name || entry.team || 'No Team'`. */
  function EntryTeam(e: Value): (r: Value)
    ensures Truthy(r)
    ensures Truthy(Field(e, "team_name")) ==> r == Field(e, "team_name")
    ensures !Truthy(Field(e, "team_name")) && Truthy(Field(e, "team")) ==> r == Field(e, "team")
    ensures !Truthy(Field(e, "team_name")) && !Truthy(Field(e, "team")) ==> r == Str("No Team")
  {
    Fallback3(Field(e, "team_name"), Field(e, "team"), Str("No Team"))
  }

  /** `entry.total_points || entry.points || 0`. */
  function EntryPoints(e: Value): (r: Value)
    ensures Truthy(Field(e, "total_points")) ==> r == Field(e, "total_points")
    ensures !Truthy(Field(e, "total_points")) && Truthy(Field(e, "points")) ==> r == Field(e, "points")
    ensures !Truthy(Field(e, "total_points")) && !Truthy(Field(e, "points")) ==> r == Num(0.0)
  {
    Fallback3(Field(e, "total_points"), Field(e, "points"), Num(0.0))
  }

  /** `entry.total_activities || entry.activities || 0`. */
  function EntryActivities(e: Value): (r: Value)
    ensures Truthy(Field(e, "total_activities")) ==> r == Field(e, "total_activities")
    ensures !Truthy(Field(e, "total_activities")) && Truthy(Field(e, "activities")) ==> r == Field(e, "activities")
    ensures !Truthy(Field(e, "total_activities")) && !Truthy(Field(e, "activities")) ==> r == Num(0.0)
  {
    Fallback3(Field(e, "total_activities"), Field(e, "activities"), Num(0.0))
  }

  /** A total of 0 is falsy, so it falls through to `points`: an entry with
      `total_points: 0` and `points: 5` shows 5. */
  lemma ZeroTotalFallsThrough(e: Value)
    requires Field(e, "total_points") == Num(0.0) && Field(e, "points") == Num(5.0)
    ensures EntryPoints(e) == Num(5.0)
  {
  }

  /** One card of the podium. */
  datatype PodiumCard = PodiumCard(
    border: string,
    icon: string,
    colour: string,
    name: Value,
    team: Value,
    points: Value,
    activities: Value)

  /** One row of the ranking table. */
  datatype Row = Row(
    rowClass: string,
    badge: string,
    icon: string,
    rank: string,
    name: Value,
    team: Value,
    points: Value,
    activities: Value)

  datatype Page = Page(podium: seq<PodiumCard>, count: nat, rows: seq<Row>)

  function PodiumCardOf(e: Value, index: nat): PodiumCard
  {
    PodiumCard(
      PodiumBorder(index),
      RankIcon(index),
      PodiumColour(index),
      EntryName(e),
      EntryTeam(e),
      EntryPoints(e),
      EntryActivities(e))
  }

  function RowOf(e: Value, index: nat): Row
  {
    Row(
      RowClass(index),
      RankBadge(index),
      RankIcon(index),
      RankLabel(index),
      EntryName(e),
      EntryTeam(e),
      EntryPoints(e),
      EntryActivities(e))
  }

  /** The podium holds exactly the first min(3, n) entries and the table all
      n entries, both in the order received; the header count is n. */
  function Render(entries: seq<Value>): (p: Page)
    ensures |p.podium| == Min(PodiumSize, |entries|)
    ensures forall i :: 0 <= i < |p.podium| ==> p.podium[i] == PodiumCardOf(entries[i], i)
    ensures |p.rows| == |entries| && p.count == |entries|
    ensures forall i :: 0 <= i < |entries| ==> p.rows[i] == RowOf(entries[i], i)
  {
    Page(MapIndexed(Take(entries, PodiumSize), PodiumCardOf), |entries|, MapIndexed(entries, RowOf))
  }

  /** Entries are never reordered: row i shows entry i with rank text `#(i+1)`,
      the rank badge of position i, and the highlighted class exactly for the
      first three rows. The podium of a non-empty leaderboard is never
      empty. */
  lemma RanksFollowPositions(entries: seq<Value>, i: nat)
    requires i < |entries|
    ensures var row := Render(entries).rows[i];
            && row.name == EntryName(entries[i])
            && row.points == EntryPoints(entries[i])
            && DigitsValue(row.rank[1..]) == i + 1
            && row.badge == RankBadge(i)
            && (row.rowClass == "table-light" <==> i < PodiumSize)
    ensures |Render(entries).podium| >= 1
  {
  }

  /** The screen of the Leaderboard view: the listing has a podium of one to
      three entries and a row for every entry held. */
  function Screen(s: ViewState): (r: Screen<Page>)
    ensures r.EmptyState? <==> !s.loading && !ErrorShown(s.error) && s.items == []
    ensures r.Listing? ==> |s.items| >= 1 && r.page.count == |s.items|
                           && 1 <= |r.page.podium| <= PodiumSize && |r.page.rows| == |s.items|
  {
    Select(s, Render)
  }

  /** Mounting the view: the initial state, then one fetch of the leaderboard
      URL. */
  method Mount(workspace: Option<string>, network: string -> Outcome) returns (view: ListView, url: string)
    ensures fresh(view) && view.resource == Resource
    ensures Endpoint.WorkspaceGiven(workspace) ==>
              url == "https://" + workspace.value + "-8000.app.github.dev/api/leaderboard/"
    ensures !Endpoint.WorkspaceGiven(workspace) ==> url == "http://localhost:8000/api/leaderboard/"
    ensures view.State() == Step(Initial, network(url))
  {
    view := new ListView(Resource);
    url := view.Fetch(workspace, network);
  }
}
