/** The building blocks of the views' defensive rendering: `a || b || c`
    fallback chains, positional placeholders such as `Workout ${index + 1}`,
    the created/joined date cell and the `{x || 0} min` quantities. */
module Display {
  import opened Json
  import opened Text

  /** `vs[0] || vs[1] || ... || vs[n-1]`, grouped to the left as JavaScript
      parses it. */
  function Chain(vs: seq<Value>): (r: Value)
    requires |vs| > 0
    ensures Truthy(r) <==> exists v :: v in vs && Truthy(v)
    decreases |vs|
  {
    if |vs| == 1 then vs[0]
    else
      var init := vs[..|vs| - 1];
      assert vs == init + [vs[|vs| - 1]];
      Or(Chain(init), vs[|vs| - 1])
  }

  /** The reference reading of a fallback chain: the first truthy value, or the
      last value when none is truthy. */
  function FirstTruthy(vs: seq<Value>): Value
    requires |vs| > 0
    decreases |vs|
  {
    if |vs| == 1 || Truthy(vs[0]) then vs[0] else FirstTruthy(vs[1..])
  }

  lemma {:induction false} FirstTruthyThenOr(xs: seq<Value>, y: Value)
    requires |xs| > 0
    ensures Or(FirstTruthy(xs), y) == FirstTruthy(xs + [y])
    decreases |xs|
  {
    if |xs| > 1 && !Truthy(xs[0]) {
      FirstTruthyThenOr(xs[1..], y);
      assert (xs + [y])[1..] == xs[1..] + [y];
    }
  }

  /** A `||` chain picks the first truthy value, or the last one if none is. */
  lemma {:induction false} ChainIsFirstTruthy(vs: seq<Value>)
    requires |vs| > 0
    ensures Chain(vs) == FirstTruthy(vs)
    decreases |vs|
  {
    if |vs| > 1 {
      var init := vs[..|vs| - 1];
      ChainIsFirstTruthy(init);
      FirstTruthyThenOr(init, vs[|vs| - 1]);
      assert init + [vs[|vs| - 1]] == vs;
    }
  }

  /** A three-link chain is `(a || b) || c`. */
  lemma ChainOfThree(a: Value, b: Value, c: Value)
    ensures Chain([a, b, c]) == Or(Or(a, b), c)
  {
    assert [a, b, c][..2] == [a, b];
    assert [a, b][..1] == [a];
    assert Chain([a, b]) == Or(Chain([a]), b);
    assert Chain([a, b, c]) == Or(Chain([a, b]), c);
  }

  /** `a || b || last`, the three-link chain the views use for a field, its
      alternative spelling and a placeholder: the first truthy link, or `last`
      when neither field is truthy. */
  function Fallback3(a: Value, b: Value, last: Value): (r: Value)
    ensures Truthy(a) ==> r == a
    ensures !Truthy(a) && Truthy(b) ==> r == b
    ensures !Truthy(a) && !Truthy(b) ==> r == last
    ensures r == FirstTruthy([a, b, last])
  {
    ChainOfThree(a, b, last);
    ChainIsFirstTruthy([a, b, last]);
    Chain([a, b, last])
  }

  /** A chain whose last value is truthy always yields a truthy value, and that
      value is one of the chain's members. */
  lemma ChainEndingTruthy(vs: seq<Value>)
    requires |vs| > 0 && Truthy(vs[|vs| - 1])
    ensures Truthy(Chain(vs))
    ensures Chain(vs) in vs
  {
    assert vs[|vs| - 1] in vs;
    ChainMember(vs);
  }

  lemma {:induction false} ChainMember(vs: seq<Value>)
    requires |vs| > 0
    ensures Chain(vs) in vs
    decreases |vs|
  {
    if |vs| > 1 {
      ChainMember(vs[..|vs| - 1]);
    }
  }

  /** `${word} ${index + 1}`: a non-empty string that names the 1-based
      position, which can be read back from its digits. */
  function Placeholder(word: string, index: nat): (r: Value)
    ensures r.Str? && Truthy(r)
    ensures |r.s| > |word| + 1 && r.s[..|word| + 1] == word + " "
    ensures AllDigits(r.s[|word| + 1..]) && DigitsValue(r.s[|word| + 1..]) == index + 1
    ensures Canonical(r.s[|word| + 1..]) && r.s[|word| + 1] != '0'
  {
    var digits := Decimal(index + 1);
    DecimalRoundTrip(index + 1);
    assert (word + " " + digits)[|word| + 1..] == digits;
    Str(word + " " + digits)
  }

  /** Different positions get different placeholders. */
  lemma PlaceholdersDistinct(word: string, i: nat, j: nat)
    requires i != j
    ensures Placeholder(word, i) != Placeholder(word, j)
  {
  }

  /** `x || 0`: the value itself when truthy, the number 0 otherwise. */
  function OrZero(v: Value): (r: Value)
    ensures Truthy(v) ==> r == v
    ensures !Truthy(v) ==> r == Num(0.0)
  {
    Or(v, Num(0.0))
  }

  /** `{x || 0} min` and the like: an amount followed by a fixed unit text. */
  datatype Quantity = Quantity(amount: Value, unit: string)

  function QuantityOf(v: Value, unit: string): (q: Quantity)
    ensures q.unit == unit
    ensures Truthy(v) ==> q.amount == v
    ensures !Truthy(v) ==> q.amount == Num(0.0)
  {
    Quantity(OrZero(v), unit)
  }

  /** `x ? new Date(x).toLocaleDateString() : 'N/A'`: the formatted date when
      the field is truthy, the "N/A" placeholder otherwise. The formatting
      itself is locale-dependent and left abstract. */
  datatype DateCell = Formatted(raw: Value) | NotAvailable

  function DateOf(v: Value): (c: DateCell)
    ensures c.NotAvailable? <==> !Truthy(v)
    ensures c.Formatted? ==> c.raw == v
  {
    if Truthy(v) then Formatted(v) else NotAvailable
  }
}
