/** The Teams view: fetches `/api/teams/` and shows a card and a table row for
    every team. */
module Teams {
  import opened Wrappers
  import opened Json
  import opened Lists
  import opened Display
  import Endpoint
  import opened RemoteList

  const Resource := "teams"

  /** `team.name || \`Team ${index + 1}\``. */
  function Name(t: Value, index: nat): (r: Value)
    ensures Truthy(r)
    ensures Truthy(Field(t, "name")) ==> r == Field(t, "name")
    ensures !Truthy(Field(t, "name")) ==> r == Placeholder("Team", index)
  {
    Or(Field(t, "name"), Placeholder("Team", index))
  }

  /** `team.description || 'No description available'`. */
  function Description(t: Value): (r: Value)
    ensures Truthy(r)
    ensures Truthy(Field(t, "description")) ==> r == Field(t, "description")
    ensures !Truthy(Field(t, "description")) ==> r == Str("No description available")
  {
    Or(Field(t, "description"), Str("No description available"))
  }

  /** `team.captain || 'N/A'`. */
  function Captain(t: Value): (r: Value)
    ensures Truthy(r)
    ensures Truthy(Field(t, "captain")) ==> r == Field(t, "captain")
    ensures !Truthy(Field(t, "captain")) ==> r == Str("N/A")
  {
    Or(Field(t, "captain"), Str("N/A"))
  }

  /** One team card of the grid; `member_count || 0` appears twice on it (badge
      and statistic), with the same value. */
  datatype Card = Card(
    name: Value,
    members: Value,
    description: Value,
    points: Value,
    captain: Value,
    created: DateCell)

  /** One row of the team statistics table. */
  datatype Row = Row(
    name: Value,
    members: Value,
    points: Value,
    captain: Value,
    created: DateCell)

  datatype Page = Page(cards: seq<Card>, count: nat, rows: seq<Row>)

  function CardOf(t: Value, index: nat): Card
  {
    Card(
      Name(t, index),
      OrZero(Field(t, "member_count")),
      Description(t),
      OrZero(Field(t, "total_points")),
      Captain(t),
      DateOf(Field(t, "created_at")))
  }

  function RowOf(t: Value, index: nat): Row
  {
    Row(
      Name(t, index),
      OrZero(Field(t, "member_count")),
      OrZero(Field(t, "total_points")),
      Captain(t),
      DateOf(Field(t, "created_at")))
  }

  /** Every team appears once in the grid and once in the table, in input
      order, and the header shows the number of teams. */
  function Render(teams: seq<Value>): (p: Page)
    ensures |p.cards| == |teams| && |p.rows| == |teams| && p.count == |teams|
    ensures forall i :: 0 <= i < |teams| ==> p.cards[i] == CardOf(teams[i], i)
    ensures forall i :: 0 <= i < |teams| ==> p.rows[i] == RowOf(teams[i], i)
  {
    Page(MapIndexed(teams, CardOf), |teams|, MapIndexed(teams, RowOf))
  }

  /** Card and row of one team show the same name, member count, points and
      captain; counts and points are 0 when the field is falsy. */
  lemma CardAndRowAgree(t: Value, index: nat)
    ensures var c, r := CardOf(t, index), RowOf(t, index);
            && c.name == r.name && c.members == r.members
            && c.points == r.points && c.captain == r.captain
            && (!Truthy(Field(t, "member_count")) ==> c.members == Num(0.0))
            && (!Truthy(Field(t, "total_points")) ==> c.points == Num(0.0))
  {
  }

  /** The screen of the Teams view: the listing shows one card and one row for
      each of the (at least one) teams held. */
  function Screen(s: ViewState): (r: Screen<Page>)
    ensures r.EmptyState? <==> !s.loading && !ErrorShown(s.error) && s.items == []
    ensures r.Listing? ==> |s.items| >= 1 && r.page.count == |s.items|
                           && |r.page.cards| == |s.items| && |r.page.rows| == |s.items|
  {
    Select(s, Render)
  }

  /** Mounting the view: the initial state, then one fetch of the teams URL. */
  method Mount(workspace: Option<string>, network: string -> Outcome) returns (view: ListView, url: string)
    ensures fresh(view) && view.resource == Resource
    ensures Endpoint.WorkspaceGiven(workspace) ==>
              url == "https://" + workspace.value + "-8000.app.github.dev/api/teams/"
    ensures !Endpoint.WorkspaceGiven(workspace) ==> url == "http://localhost:8000/api/teams/"
    ensures view.State() == Step(Initial, network(url))
  {
    view := new ListView(Resource);
    url := view.Fetch(workspace, network);
  }

  /** `{results: [], count: 0}` normalises to the empty list (an empty array is
      truthy, so it is used), and the view shows the empty state, not the
      table. */
  lemma EmptyPageScenario()
    ensures var body := Obj(map["results" := Arr([]), "count" := Num(0.0)]);
            && Normalise(body) == Success([])
            && Screen(Step(Initial, Responded(200, Success(body)))) == EmptyState
  {
    var body := Obj(map["results" := Arr([]), "count" := Num(0.0)]);
    assert Field(body, "results") == Arr([]);
  }
}
