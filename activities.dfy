/** The Activities view: fetches `/api/activities/` and shows one table row per
    activity. */
module Activities {
  import opened Wrappers
  import opened Json
  import opened Lists
  import opened Display
  import Endpoint
  import opened RemoteList

  const Resource := "activities"

  /** `activity.name || \`Activity ${index + 1}\``. */
  function Name(a: Value, index: nat): (r: Value)
    ensures Truthy(r)
    ensures Truthy(Field(a, "name")) ==> r == Field(a, "name")
    ensures !Truthy(Field(a, "name")) ==> r == Placeholder("Activity", index)
  {
    Or(Field(a, "name"), Placeholder("Activity", index))
  }

  /** `activity.activity_type || 'General'`. */
  function Kind(a: Value): (r: Value)
    ensures Truthy(r)
    ensures Truthy(Field(a, "activity_type")) ==> r == Field(a, "activity_type")
    ensures !Truthy(Field(a, "activity_type")) ==> r == Str("General")
  {
    Or(Field(a, "activity_type"), Str("General"))
  }

  /** One row of the activities table. */
  datatype Row = Row(
    name: Value,
    kind: Value,
    duration: Quantity,
    calories: Quantity,
    date: DateCell)

  datatype Page = Page(count: nat, rows: seq<Row>)

  function RowOf(a: Value, index: nat): Row
  {
    Row(
      Name(a, index),
      Kind(a),
      QuantityOf(Field(a, "duration"), " min"),
      QuantityOf(Field(a, "calories_burned"), " cal"),
      DateOf(Field(a, "created_at")))
  }

  /** Exactly one row per activity, in input order; the header count is the
      number of activities. */
  function Render(activities: seq<Value>): (p: Page)
    ensures |p.rows| == |activities| && p.count == |activities|
    ensures forall i :: 0 <= i < |activities| ==> p.rows[i] == RowOf(activities[i], i)
  {
    Page(|activities|, MapIndexed(activities, RowOf))
  }

  /** A row's cells: the name or `Activity <i+1>`, the type or "General",
      duration in " min" and calories in " cal" defaulting to 0, and "N/A" for
      a missing date. */
  lemma RowFallbacks(a: Value, index: nat)
    ensures var row := RowOf(a, index);
            && Truthy(row.name) && Truthy(row.kind)
            && row.duration.unit == " min" && row.calories.unit == " cal"
            && (!Truthy(Field(a, "duration")) ==> row.duration.amount == Num(0.0))
            && (!Truthy(Field(a, "calories_burned")) ==> row.calories.amount == Num(0.0))
            && (row.date == NotAvailable <==> !Truthy(Field(a, "created_at")))
  {
  }

  /** The screen of the Activities view: the listing shows one row for each of
      the (at least one) activities held. */
  function Screen(s: ViewState): (r: Screen<Page>)
    ensures r.EmptyState? <==> !s.loading && !ErrorShown(s.error) && s.items == []
    ensures r.Listing? ==> |s.items| >= 1 && r.page.count == |s.items| && |r.page.rows| == |s.items|
  {
    Select(s, Render)
  }

  /** Mounting the view: the initial state, then one fetch of the activities
      URL. */
  method Mount(workspace: Option<string>, network: string -> Outcome) returns (view: ListView, url: string)
    ensures fresh(view) && view.resource == Resource
    ensures Endpoint.WorkspaceGiven(workspace) ==>
              url == "https://" + workspace.value + "-8000.app.github.dev/api/activities/"
    ensures !Endpoint.WorkspaceGiven(workspace) ==> url == "http://localhost:8000/api/activities/"
    ensures view.State() == Step(Initial, network(url))
  {
    view := new ListView(Resource);
    url := view.Fetch(workspace, network);
  }

  /** A `null` body throws at `data.results` inside the try block, so the view
      shows the error notice; any other body that is neither an array nor an
      envelope with a truthy array under `results` shows the empty state. */
  lemma BodyShapes(status: nat, data: Value)
    requires IsOk(status)
    ensures data == Null ==> Screen(Step(Initial, Responded(status, Success(data)))).ErrorNotice?
    ensures !Nullish(data) && !data.Arr? && !(Truthy(Field(data, "results")) && Field(data, "results").Arr?)
            ==> Screen(Step(Initial, Responded(status, Success(data)))) == EmptyState
  {
  }
}
