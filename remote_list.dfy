/** The fetch-and-normalise pattern every view repeats: the outcome of the one
    GET request, the normalisation of its body, the loading/error/items state
    the view keeps, and the choice of what the view shows for that state. */
module RemoteList {
  import opened Wrappers
  import opened Json
  import opened Text
  import Endpoint

  /** What the network and `response.json()` produce: a response with its
      status and its parsed body (or the parse failure's message), or a
      rejected request with the failure's message. */
  datatype Outcome =
    | Responded(status: nat, body: Result<Value, string>)
    | Rejected(message: string)

  /** `response.ok`: a status in the range 200 to 299. */
  predicate IsOk(status: nat)
  {
    200 <= status <= 299
  }

  const HttpErrorPrefix := "HTTP error! status: "

  /** The message of the error thrown for a non-ok response. */
  function HttpErrorMessage(status: nat): (m: string)
    ensures |m| > |HttpErrorPrefix| && m[..|HttpErrorPrefix|] == HttpErrorPrefix
    ensures AllDigits(m[|HttpErrorPrefix|..]) && DigitsValue(m[|HttpErrorPrefix|..]) == status
    ensures Canonical(m[|HttpErrorPrefix|..])
    ensures m[|HttpErrorPrefix|] == '0' <==> status == 0
  {
    var digits := Decimal(status);
    DecimalRoundTrip(status);
    assert (HttpErrorPrefix + digits)[|HttpErrorPrefix|..] == digits;
    HttpErrorPrefix + digits
  }

  /** The TypeError message of reading `results` from `null` or `undefined`,
      worded as the V8 engine words it. */
  function NullishReadMessage(data: Value): (m: string)
    requires Nullish(data)
    ensures |m| >= 50 && m[..26] == "Cannot read properties of "
    ensures data.Null? ==> m[26..30] == "null"
    ensures data.Undefined? ==> m[26..35] == "undefined"
  {
    "Cannot read properties of " + (if data.Null? then "null" else "undefined") + " (reading 'results')"
  }

  /** `const list = data.results || data; Array.isArray(list) ? list : []`,
      where the property read throws on a nullish body. */
  function Normalise(data: Value): (r: Result<seq<Value>, string>)
    ensures r.Failure? <==> Nullish(data)
    ensures r.Failure? ==> r.error != ""
  {
    if Nullish(data) then
      Failure(NullishReadMessage(data))
    else
      var list := Or(Field(data, "results"), data);
      if list.Arr? then Success(list.elems) else Success([])
  }

  /** The complete case split of normalisation: a truthy array under `results`
      is used as it is; with a falsy `results`, an array body is used as it is;
      every other non-nullish body gives the empty list. */
  lemma NormaliseCases(data: Value)
    requires !Nullish(data)
    ensures var results := Field(data, "results");
            && (Truthy(results) && results.Arr? ==> Normalise(data) == Success(results.elems))
            && (!Truthy(results) && data.Arr? ==> Normalise(data) == Success(data.elems))
            && (!results.Arr? && Truthy(results) ==> Normalise(data) == Success([]))
            && (!Truthy(results) && !data.Arr? ==> Normalise(data) == Success([]))
  {
  }

  /** A paginated envelope yields its `results` array verbatim, whatever else
      the envelope carries (count, next, previous, ...). */
  lemma NormaliseEnvelope(items: seq<Value>, envelope: map<string, Value>)
    ensures Normalise(Obj(envelope["results" := Arr(items)])) == Success(items)
  {
  }

  /** A bare array body yields its elements verbatim. */
  lemma NormaliseBareArray(items: seq<Value>)
    ensures Normalise(Arr(items)) == Success(items)
  {
  }

  /** What the try block settles to: the normalised list, or the message of
      the error the catch block receives. */
  function Settle(o: Outcome): (r: Result<seq<Value>, string>)
    ensures o.Rejected? ==> r == Failure(o.message)
    ensures o.Responded? && !IsOk(o.status) ==> r == Failure(HttpErrorMessage(o.status))
    ensures o.Responded? && IsOk(o.status) && o.body.Failure? ==> r == Failure(o.body.error)
    ensures o.Responded? && IsOk(o.status) && o.body.Success? ==> r == Normalise(o.body.value)
  {
    match o
    case Rejected(message) => Failure(message)
    case Responded(status, body) =>
      if !IsOk(status) then
        Failure(HttpErrorMessage(status))
      else
        match body
        case Failure(message) => Failure(message)
        case Success(data) => Normalise(data)
  }

  /** The three state cells of a view: `loading`, `error` (null or a message)
      and the list of items. */
  datatype ViewState = ViewState(loading: bool, error: Option<string>, items: seq<Value>)

  /** `useState(true)`, `useState(null)`, `useState([])`. */
  const Initial := ViewState(true, None, [])

  /** One run of the fetch function from state `s`: on success the items are
      replaced and the error kept; on failure the error is set and the items
      kept; in both cases `loading` ends false. */
  function Step(s: ViewState, o: Outcome): (t: ViewState)
    ensures !t.loading
    ensures Settle(o).Success? ==> t.items == Settle(o).value && t.error == s.error
    ensures Settle(o).Failure? ==> t.items == s.items && t.error == Some(Settle(o).error)
  {
    match Settle(o)
    case Success(items) => ViewState(false, s.error, items)
    case Failure(message) => ViewState(false, Some(message), s.items)
  }

  /** A non-ok response sets the status-coded message, keeps the items and
      ends loading; the numeric status can be read back from the message. */
  lemma HttpFailureStep(s: ViewState, status: nat, body: Result<Value, string>)
    requires !IsOk(status)
    ensures var t := Step(s, Responded(status, body));
            && t == ViewState(false, Some(HttpErrorMessage(status)), s.items)
            && DigitsValue(t.error.value[|HttpErrorPrefix|..]) == status
  {
  }

  /** What a view shows: a spinner, the error notice, the empty state, or the
      listing of its (non-empty) items. */
  datatype Screen<P> = Spinner | ErrorNotice(message: string) | EmptyState | Listing(page: P)

  /** `if (error)`: the error cell is shown when it holds a non-empty message. */
  predicate ErrorShown(error: Option<string>)
  {
    error.Some? && error.value != ""
  }

  /** `if (loading) ...; if (error) ...; items.length === 0 ? empty : listing`. */
  function Select<P>(s: ViewState, render: seq<Value> -> P): (r: Screen<P>)
    ensures r.Spinner? <==> s.loading
    ensures r.ErrorNotice? <==> !s.loading && ErrorShown(s.error)
    ensures r.ErrorNotice? ==> r.message == s.error.value
    ensures r.EmptyState? <==> !s.loading && !ErrorShown(s.error) && s.items == []
    ensures r.Listing? ==> r.page == render(s.items) && s.items != []
  {
    if s.loading then Spinner
    else if ErrorShown(s.error) then ErrorNotice(s.error.value)
    else if |s.items| == 0 then EmptyState
    else Listing(render(s.items))
  }

  /** What a freshly mounted view shows once its fetch has settled: never the
      spinner again; the error notice carrying the failure's message when that
      message is non-empty; otherwise the empty state for an empty list (or a
      failure with an empty message) and the listing of the list otherwise. */
  lemma ScreenAfterFetch<P>(o: Outcome, render: seq<Value> -> P)
    ensures var r := Select(Step(Initial, o), render);
            && !r.Spinner?
            && (r.ErrorNotice? <==> Settle(o).Failure? && Settle(o).error != "")
            && (r.ErrorNotice? ==> r.message == Settle(o).error)
            && (r.EmptyState? <==> Settle(o) == Success([]) || Settle(o) == Failure(""))
            && (r.Listing? <==> Settle(o).Success? && Settle(o).value != [])
            && (r.Listing? ==> r.page == render(Settle(o).value))
  {
  }

  /** A null body is a failure, not an empty list: the view shows the error
      notice rather than the empty state. */
  lemma NullBodyShowsError<P>(status: nat, render: seq<Value> -> P)
    requires IsOk(status)
    ensures Select(Step(Initial, Responded(status, Success(Null))), render).ErrorNotice?
  {
  }

  /** Every non-ok status leads to the error notice, never to the table. */
  lemma HttpFailureShowsError<P>(status: nat, body: Result<Value, string>, render: seq<Value> -> P)
    requires !IsOk(status)
    ensures Select(Step(Initial, Responded(status, body)), render)
            == ErrorNotice(HttpErrorMessage(status))
  {
  }

  /** The state one view keeps, updated in place by its fetch. */
  class ListView {
    const resource: string
    var loading: bool
    var error: Option<string>
    var items: seq<Value>

    function State(): ViewState
      reads this
    {
      ViewState(loading, error, items)
    }

    constructor (resource: string)
      ensures this.resource == resource
      ensures State() == Initial
    {
      this.resource := resource;
      loading := true;
      error := None;
      items := [];
    }

    /** The view's fetch function: resolve the URL, hand it to the network,
        then in the try block check the status and normalise the body, in
        the catch block record the message, and in the finally block clear
        `loading`. Returns the URL that was requested. */
    method Fetch(workspace: Option<string>, network: string -> Outcome) returns (url: string)
      modifies this
      ensures url == Endpoint.ApiUrl(workspace, resource)
      ensures State() == Step(old(State()), network(url))
    {
      url := Endpoint.ApiUrl(workspace, resource);
      var outcome := network(url);
      // try
      var thrown: Option<string> := None;
      match outcome {
        case Rejected(message) =>
          thrown := Some(message);
        case Responded(status, body) =>
          if !IsOk(status) {
            thrown := Some(HttpErrorMessage(status));
          } else {
            match body {
              case Failure(message) =>
                thrown := Some(message);
              case Success(data) =>
                if Nullish(data) {
                  thrown := Some(NullishReadMessage(data));
                } else {
                  var list := Or(Field(data, "results"), data);
                  items := if list.Arr? then list.elems else [];
                }
            }
          }
      }
      // catch
      if thrown.Some? {
        error := thrown;
      }
      // finally
      loading := false;
    }
  }
}
