/** The Workouts view: fetches `/api/workouts/` and shows a card per workout
    and a table row per workout, with difficulty badges and description
    excerpts. */
module Workouts {
  import opened Wrappers
  import opened Json
  import opened Text
  import opened Lists
  import opened Display
  import Endpoint
  import opened RemoteList

  const Resource := "workouts"
  const CardExcerptLimit := 100
  const TableExcerptLimit := 50

  /** The difficulty as `difficulty?.toLowerCase()` reads it: a string, or
      absent. */
  function DifficultyText(v: Value): (d: Option<string>)
    ensures d.Some? <==> v.Str?
    ensures d.Some? ==> d.value == v.s
  {
    if v.Str? then Some(v.s) else None
  }

  /** The difficulty spells `word` up to letter case. */
  predicate IsLevel(difficulty: Option<string>, word: string)
  {
    difficulty.Some? && EqualsIgnoringCase(difficulty.value, word)
  }

  /** `getDifficultyBadge`: success, warning and danger colours for easy,
      medium and hard in any letter case; the secondary colour for anything
      else, a missing difficulty included. */
  function DifficultyBadge(difficulty: Option<string>): (r: string)
    ensures r == "bg-success" <==> IsLevel(difficulty, "easy")
    ensures r == "bg-warning text-dark" <==> IsLevel(difficulty, "medium")
    ensures r == "bg-danger" <==> IsLevel(difficulty, "hard")
    ensures r == "bg-secondary"
            <==> !IsLevel(difficulty, "easy") && !IsLevel(difficulty, "medium") && !IsLevel(difficulty, "hard")
  {
    match difficulty
    case None => "bg-secondary"
    case Some(d) =>
      LowerEqualsWord(d, "easy");
      LowerEqualsWord(d, "medium");
      LowerEqualsWord(d, "hard");
      var key := Lower(d);
      if key == "easy" then "bg-success"
      else if key == "medium" then "bg-warning text-dark"
      else if key == "hard" then "bg-danger"
      else "bg-secondary"
  }

  /** `getDifficultyIcon`: leaf, fire and bolt for easy, medium and hard in any
      letter case; a plain circle for anything else. */
  function DifficultyIcon(difficulty: Option<string>): (r: string)
    ensures r == "fas fa-leaf" <==> IsLevel(difficulty, "easy")
    ensures r == "fas fa-fire" <==> IsLevel(difficulty, "medium")
    ensures r == "fas fa-bolt" <==> IsLevel(difficulty, "hard")
    ensures r == "fas fa-circle"
            <==> !IsLevel(difficulty, "easy") && !IsLevel(difficulty, "medium") && !IsLevel(difficulty, "hard")
  {
    match difficulty
    case None => "fas fa-circle"
    case Some(d) =>
      LowerEqualsWord(d, "easy");
      LowerEqualsWord(d, "medium");
      LowerEqualsWord(d, "hard");
      var key := Lower(d);
      if key == "easy" then "fas fa-leaf"
      else if key == "medium" then "fas fa-fire"
      else if key == "hard" then "fas fa-bolt"
      else "fas fa-circle"
  }

  /** Badge and icon follow the same partition: two difficulties get the same
      badge exactly when they get the same icon, and each badge comes with the
      icon of its own level. */
  lemma DifficultyPartition(d: Option<string>, e: Option<string>)
    ensures DifficultyBadge(d) == DifficultyBadge(e) <==> DifficultyIcon(d) == DifficultyIcon(e)
    ensures (DifficultyBadge(d), DifficultyIcon(d)) in
              {("bg-success", "fas fa-leaf"), ("bg-warning text-dark", "fas fa-fire"),
               ("bg-danger", "fas fa-bolt"), ("bg-secondary", "fas fa-circle")}
  {
  }

  /** Two spellings that differ only in letter case get the same badge and
      icon. */
  lemma DifficultyIgnoresCase(s: string, t: string)
    requires EqualsIgnoringCase(s, t)
    ensures DifficultyBadge(Some(s)) == DifficultyBadge(Some(t))
    ensures DifficultyIcon(Some(s)) == DifficultyIcon(Some(t))
  {
    assert Lower(s) == Lower(t);
  }

  /** `workout.name || workout.title || \`Workout ${index + 1}\``. */
  function Title(w: Value, index: nat): (r: Value)
    ensures Truthy(r)
    ensures Truthy(Field(w, "name")) ==> r == Field(w, "name")
    ensures !Truthy(Field(w, "name")) && Truthy(Field(w, "title")) ==> r == Field(w, "title")
    ensures !Truthy(Field(w, "name")) && !Truthy(Field(w, "title")) ==> r == Placeholder("Workout", index)
  {
    Fallback3(Field(w, "name"), Field(w, "title"), Placeholder("Workout", index))
  }

  /** `workout.workout_type || workout.type || 'General'`. */
  function Kind(w: Value): (r: Value)
    ensures Truthy(r)
    ensures Truthy(Field(w, "workout_type")) ==> r == Field(w, "workout_type")
    ensures !Truthy(Field(w, "workout_type")) && Truthy(Field(w, "type")) ==> r == Field(w, "type")
    ensures !Truthy(Field(w, "workout_type")) && !Truthy(Field(w, "type")) ==> r == Str("General")
  {
    Fallback3(Field(w, "workout_type"), Field(w, "type"), Str("General"))
  }

  /** `description && (description.length > limit ? ... + '...' : description)`:
      nothing for a falsy description, the truncated text for a string. */
  function Excerpt(description: Value, limit: nat): (r: Option<Value>)
    ensures r.None? <==> !Truthy(description)
    ensures r.Some? && description.Str? ==>
              && r.value.Str?
              && |r.value.s| <= limit + 3
              && (|description.s| <= limit ==> r.value == description)
              && (|description.s| > limit ==>
                    |r.value.s| == limit + 3 && r.value.s[..limit] == description.s[..limit] && r.value.s[limit..] == "...")
    ensures r.Some? && !description.Str? ==> r.value == description
  {
    if !Truthy(description) then None
    else if description.Str? then Some(Str(Truncate(description.s, limit)))
    else Some(description)
  }

  /** The card excerpt and the table excerpt of one description agree: the
      table's is what truncating the card's to the table limit gives. */
  lemma ExcerptsAgree(description: Value)
    requires description.Str? && Truthy(description)
    ensures Excerpt(description, TableExcerptLimit)
            == Some(Str(Truncate(Excerpt(description, CardExcerptLimit).value.s, TableExcerptLimit)))
  {
    TruncateTwice(description.s, CardExcerptLimit, TableExcerptLimit);
  }

  /** One workout card of the grid. */
  datatype Card = Card(
    title: Value,
    badge: string,
    icon: string,
    difficulty: Value,
    duration: Value,
    kind: Value,
    description: Option<Value>,
    created: DateCell)

  /** One row of the workouts table. */
  datatype Row = Row(
    title: Value,
    description: Option<Value>,
    kind: Value,
    duration: Quantity,
    badge: string,
    icon: string,
    difficulty: Value,
    created: DateCell)

  /** The listing: the grid, the header count and the table. */
  datatype Page = Page(cards: seq<Card>, count: nat, rows: seq<Row>)

  function CardOf(w: Value, index: nat): Card
  {
    var difficulty := DifficultyText(Field(w, "difficulty"));
    Card(
      Title(w, index),
      DifficultyBadge(difficulty),
      DifficultyIcon(difficulty),
      Or(Field(w, "difficulty"), Str("N/A")),
      OrZero(Field(w, "duration")),
      Kind(w),
      Excerpt(Field(w, "description"), CardExcerptLimit),
      DateOf(Field(w, "created_at")))
  }

  function RowOf(w: Value, index: nat): Row
  {
    var difficulty := DifficultyText(Field(w, "difficulty"));
    Row(
      Title(w, index),
      Excerpt(Field(w, "description"), TableExcerptLimit),
      Kind(w),
      QuantityOf(Field(w, "duration"), " min"),
      DifficultyBadge(difficulty),
      DifficultyIcon(difficulty),
      Or(Field(w, "difficulty"), Str("N/A")),
      DateOf(Field(w, "created_at")))
  }

  /** Card and row of one workout show the same title, type, badge, icon,
      difficulty and date; the duration is the same amount, in " min" in the
      table; the difficulty cell reads "N/A" when the field is falsy; and the
      table's excerpt is the card's excerpt cut to the table's limit. */
  lemma CardAndRowAgree(w: Value, index: nat)
    ensures var c, r := CardOf(w, index), RowOf(w, index);
            && c.title == r.title && c.kind == r.kind
            && c.badge == r.badge && c.icon == r.icon
            && c.difficulty == r.difficulty && Truthy(c.difficulty)
            && (!Truthy(Field(w, "difficulty")) ==> c.difficulty == Str("N/A"))
            && c.created == r.created
            && r.duration == Quantity(c.duration, " min")
            && (c.description.None? <==> r.description.None?)
            && (c.description.Some? && Field(w, "description").Str? ==>
                  r.description == Some(Str(Truncate(c.description.value.s, TableExcerptLimit))))
  {
    var description := Field(w, "description");
    if Truthy(description) && description.Str? {
      TruncateTwice(description.s, CardExcerptLimit, TableExcerptLimit);
    }
  }

  /** Every workout appears once in the grid and once in the table, in input
      order, and the header count is the number of workouts. */
  function Render(workouts: seq<Value>): (p: Page)
    ensures |p.cards| == |workouts| && |p.rows| == |workouts| && p.count == |workouts|
    ensures forall i :: 0 <= i < |workouts| ==> p.cards[i] == CardOf(workouts[i], i)
    ensures forall i :: 0 <= i < |workouts| ==> p.rows[i] == RowOf(workouts[i], i)
  {
    Page(MapIndexed(workouts, CardOf), |workouts|, MapIndexed(workouts, RowOf))
  }

  /** The screen of the Workouts view: the listing shows one card and one row
      for each of the (at least one) workouts held. */
  function Screen(s: ViewState): (r: Screen<Page>)
    ensures r.EmptyState? <==> !s.loading && !ErrorShown(s.error) && s.items == []
    ensures r.Listing? ==> |s.items| >= 1 && r.page.count == |s.items|
                           && |r.page.cards| == |s.items| && |r.page.rows| == |s.items|
  {
    Select(s, Render)
  }

  /** Mounting the view: the initial state, then one fetch of the workouts
      URL. */
  method Mount(workspace: Option<string>, network: string -> Outcome) returns (view: ListView, url: string)
    ensures fresh(view) && view.resource == Resource
    ensures Endpoint.WorkspaceGiven(workspace) ==>
              url == "https://" + workspace.value + "-8000.app.github.dev/api/workouts/"
    ensures !Endpoint.WorkspaceGiven(workspace) ==> url == "http://localhost:8000/api/workouts/"
    ensures view.State() == Step(Initial, network(url))
  {
    view := new ListView(Resource);
    url := view.Fetch(workspace, network);
  }

  /** "Easy" in any letter case reads as the easy level. */
  lemma EasyBadge()
    ensures DifficultyBadge(Some("Easy")) == "bg-success"
  {
    var lowered := Lower("Easy");
    assert |lowered| == 4 && lowered[0] == 'e';
    assert lowered == "easy";
  }

  /** The card and the row of a record named "Run", lasting 30 and of
      difficulty "Easy". */
  lemma EasyRunCells(run: Value, index: nat)
    requires Field(run, "name") == Str("Run")
    requires Field(run, "duration") == Num(30.0)
    requires Field(run, "difficulty") == Str("Easy")
    ensures var card := CardOf(run, index);
            && card.title == Str("Run") && card.duration == Num(30.0)
            && card.badge == "bg-success" && card.difficulty == Str("Easy")
    ensures var row := RowOf(run, index);
            && row.title == Str("Run") && row.duration == Quantity(Num(30.0), " min")
            && row.badge == "bg-success" && row.difficulty == Str("Easy")
  {
    EasyBadge();
  }

  /** `[{name: "Run", duration: 30, difficulty: "Easy"}]` (whatever other
      fields the record has) shows "Run" with a duration of 30 and a
      success-coloured "Easy" badge in the card and in the table. */
  lemma EasyRunScenario(run: Value)
    requires Field(run, "name") == Str("Run")
    requires Field(run, "duration") == Num(30.0)
    requires Field(run, "difficulty") == Str("Easy")
    ensures Screen(Step(Initial, Responded(200, Success(Arr([run]))))) == Listing(Render([run]))
    ensures var page := Render([run]);
            && page.count == 1
            && page.cards[0].title == Str("Run")
            && page.cards[0].duration == Num(30.0)
            && page.cards[0].badge == "bg-success"
            && page.rows[0].title == Str("Run")
            && page.rows[0].duration == Quantity(Num(30.0), " min")
            && page.rows[0].badge == "bg-success"
  {
    assert Normalise(Arr([run])) == Success([run]);
    EasyRunCells(run, 0);
  }
}
