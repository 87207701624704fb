/** The Users view: fetches `/api/users/`, shows cards for the first six users
    and a table row for every user, with team indicators. */
module Users {
  import opened Wrappers
  import opened Json
  import opened Text
  import opened Lists
  import opened Display
  import Endpoint
  import opened RemoteList

  const Resource := "users"
  const GridSize := 6
  const CheckMark := "\U{2713}"
  const CrossMark := "\U{2717}"

  /** `user.name || user.username || \`User ${index + 1}\``. */
  function DisplayName(u: Value, index: nat): (r: Value)
    ensures Truthy(r)
    ensures Truthy(Field(u, "name")) ==> r == Field(u, "name")
    ensures !Truthy(Field(u, "name")) && Truthy(Field(u, "username")) ==> r == Field(u, "username")
    ensures !Truthy(Field(u, "name")) && !Truthy(Field(u, "username")) ==> r == Placeholder("User", index)
  {
    Fallback3(Field(u, "name"), Field(u, "username"), Placeholder("User", index))
  }

  /** `user.email || placeholder` ("No email" on cards, "N/A" in the table). */
  function Email(u: Value, placeholder: string): (r: Value)
    requires placeholder != ""
    ensures Truthy(r)
    ensures Truthy(Field(u, "email")) ==> r == Field(u, "email")
    ensures !Truthy(Field(u, "email")) ==> r == Str(placeholder)
  {
    Or(Field(u, "email"), Str(placeholder))
  }

  /** `user.team_name || user.team`. */
  function Team(u: Value): (r: Value)
    ensures Truthy(r) <==> Truthy(Field(u, "team_name")) || Truthy(Field(u, "team"))
    ensures Truthy(Field(u, "team_name")) ==> r == Field(u, "team_name")
    ensures !Truthy(Field(u, "team_name")) ==> r == Field(u, "team")
  {
    Or(Field(u, "team_name"), Field(u, "team"))
  }

  /** `user.team_name || user.team ? '✓' : '✗'` on a card. */
  function TeamMark(u: Value): (r: string)
    ensures r == CheckMark <==> Truthy(Team(u))
    ensures r == CrossMark <==> !Truthy(Team(u))
  {
    if Truthy(Team(u)) then CheckMark else CrossMark
  }

  /** `user.team_name || user.team || 'No Team'`, the card's team badge. */
  function TeamLabel(u: Value): (r: Value)
    ensures Truthy(r)
    ensures Truthy(Team(u)) ==> r == Team(u)
    ensures !Truthy(Team(u)) ==> r == Str("No Team")
  {
    Fallback3(Field(u, "team_name"), Field(u, "team"), Str("No Team"))
  }

  /** The table's team cell: a success badge with the team, or the secondary
      "No Team" badge. */
  datatype TeamBadge = OnTeam(team: Value) | NoTeam

  function TeamBadgeOf(u: Value): (b: TeamBadge)
    ensures b.OnTeam? <==> Truthy(Team(u))
    ensures b.OnTeam? ==> Truthy(b.team) && b.team == Team(u)
  {
    if Truthy(Team(u)) then OnTeam(Team(u)) else NoTeam
  }

  /** The check mark, the card's label and the table's badge all agree: a user
      with a truthy `team_name` or `team` gets the mark, that value as label and
      a team badge; any other user gets the cross, "No Team" and the "No Team"
      badge. */
  lemma TeamIndicator(u: Value)
    ensures TeamMark(u) == CheckMark <==> Truthy(Field(u, "team_name")) || Truthy(Field(u, "team"))
    ensures TeamMark(u) == CheckMark ==> TeamLabel(u) == Team(u) && TeamBadgeOf(u) == OnTeam(Team(u))
    ensures TeamMark(u) != CheckMark ==> TeamLabel(u) == Str("No Team") && TeamBadgeOf(u) == NoTeam
  {
    assert CheckMark != CrossMark;
  }

  /** One user card of the grid. */
  datatype Card = Card(
    name: Value,
    email: Value,
    points: Value,
    activities: Value,
    teamMark: string,
    teamLabel: Value)

  /** One row of the users table. */
  datatype Row = Row(
    name: Value,
    email: Value,
    team: TeamBadge,
    points: Value,
    activities: Value,
    joined: DateCell)

  datatype Page = Page(cards: seq<Card>, count: nat, rows: seq<Row>)

  function CardOf(u: Value, index: nat): Card
  {
    Card(
      DisplayName(u, index),
      Email(u, "No email"),
      OrZero(Field(u, "total_points")),
      OrZero(Field(u, "activity_count")),
      TeamMark(u),
      TeamLabel(u))
  }

  function RowOf(u: Value, index: nat): Row
  {
    Row(
      DisplayName(u, index),
      Email(u, "N/A"),
      TeamBadgeOf(u),
      OrZero(Field(u, "total_points")),
      OrZero(Field(u, "activity_count")),
      DateOf(Field(u, "date_joined")))
  }

  /** A missing email shows "No email" on the card and "N/A" in the table;
      points and activity count show 0 when falsy, in both places. */
  lemma CardAndRowFallbacks(u: Value, index: nat)
    ensures var c, r := CardOf(u, index), RowOf(u, index);
            && c.name == r.name && Truthy(c.name)
            && (!Truthy(Field(u, "email")) ==> c.email == Str("No email") && r.email == Str("N/A"))
            && (Truthy(Field(u, "email")) ==> c.email == r.email == Field(u, "email"))
            && c.points == r.points && c.activities == r.activities
            && (!Truthy(Field(u, "total_points")) ==> c.points == Num(0.0))
            && (!Truthy(Field(u, "activity_count")) ==> c.activities == Num(0.0))
            && (r.joined == NotAvailable <==> !Truthy(Field(u, "date_joined")))
  {
  }

  /** The grid shows exactly the first min(6, n) users, the table all n, both
      in input order; the header count is n. */
  function Render(users: seq<Value>): (p: Page)
    ensures |p.cards| == Min(GridSize, |users|)
    ensures forall i :: 0 <= i < |p.cards| ==> p.cards[i] == CardOf(users[i], i)
    ensures |p.rows| == |users| && p.count == |users|
    ensures forall i :: 0 <= i < |users| ==> p.rows[i] == RowOf(users[i], i)
  {
    Page(MapIndexed(Take(users, GridSize), CardOf), |users|, MapIndexed(users, RowOf))
  }

  /** The screen of the Users view: the listing shows at least one and at most
      six cards, and a row for every user held. */
  function Screen(s: ViewState): (r: Screen<Page>)
    ensures r.EmptyState? <==> !s.loading && !ErrorShown(s.error) && s.items == []
    ensures r.Listing? ==> |s.items| >= 1 && r.page.count == |s.items|
                           && 1 <= |r.page.cards| <= GridSize && |r.page.rows| == |s.items|
  {
    Select(s, Render)
  }

  /** Mounting the view: the initial state, then one fetch of the users URL. */
  method Mount(workspace: Option<string>, network: string -> Outcome) returns (view: ListView, url: string)
    ensures fresh(view) && view.resource == Resource
    ensures Endpoint.WorkspaceGiven(workspace) ==>
              url == "https://" + workspace.value + "-8000.app.github.dev/api/users/"
    ensures !Endpoint.WorkspaceGiven(workspace) ==> url == "http://localhost:8000/api/users/"
    ensures view.State() == Step(Initial, network(url))
  {
    view := new ListView(Resource);
    url := view.Fetch(workspace, network);
  }

  /** A status of 500 shows the error notice "HTTP error! status: 500" and no
      table. */
  lemma ServerErrorScenario(body: Result<Value, string>)
    ensures Screen(Step(Initial, Responded(500, body))) == ErrorNotice("HTTP error! status: 500")
  {
    assert Decimal(5) == "5";
    assert Decimal(50) == "50";
    assert Decimal(500) == "500";
  }
}
