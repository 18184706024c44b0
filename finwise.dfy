/** `FinWiseClient.get_transactions`: the raw response must be a JSON list; every element is
    validated into a `Transaction`, all or nothing; the records are then kept by the calendar
    date of their `date` field, each bound inclusive and either one optional. */
module FinWise {
  import opened Wrappers
  import opened Json
  import opened Dates
  import opened Models
  import opened Filtering

  /** The two ways the call fails: a response that is not a list (a `ValueError` naming the
      response's type) and an element that does not validate (the validator's error). */
  datatype FetchError = FormatError(message: string) | ValidationFailed(error: ValidationError)

  const FormatErrorPrefix: string := "Unexpected response format from FinWise API: "

  /** Validation of one element of the response. */
  type Validator = Json -> Result<Transaction, ValidationError>

  /** `Transaction.model_validate` under the coercion rules `c`. */
  function ModelValidate(c: Coercion): Validator
  {
    (v: Json) => Validate(v, c)
  }

  /** Element `k` is the first that fails validation. */
  predicate FirstInvalidAt(items: seq<Json>, validate: Validator, k: int)
  {
    && 0 <= k < |items|
    && validate(items[k]).Failure?
    && forall j :: 0 <= j < k ==> validate(items[j]).Success?
  }

  /** The list comprehension that validates every element in order: it stops at, and
      fails with, the first element that does not validate. */
  function ValidateAll(items: seq<Json>, validate: Validator): (r: Result<seq<Transaction>, ValidationError>)
    ensures r.Success? <==> forall i :: 0 <= i < |items| ==> validate(items[i]).Success?
    ensures r.Success? ==>
      && |r.value| == |items|
      && forall i :: 0 <= i < |items| ==> validate(items[i]) == Success(r.value[i])
    ensures r.Failure? ==> exists k :: FirstInvalidAt(items, validate, k) && validate(items[k]) == Failure(r.error)
  {
    if items == [] then Success([])
    else
      match validate(items[0])
      case Failure(e) =>
        assert FirstInvalidAt(items, validate, 0);
        Failure(e)
      case Success(t) =>
        match ValidateAll(items[1..], validate)
        case Failure(e) =>
          var k :| FirstInvalidAt(items[1..], validate, k) && validate(items[1..][k]) == Failure(e);
          assert items[1..][k] == items[k + 1];
          assert forall j :: 1 <= j < k + 1 ==> items[j] == items[1..][j - 1];
          assert FirstInvalidAt(items, validate, k + 1);
          Failure(e)
        case Success(ts) =>
          assert forall i :: 1 <= i < |items| ==> items[i] == items[1..][i - 1];
          Success([t] + ts)
  }

  /** `t.date.date() >= d`. */
  function FromDay(d: Date): Transaction -> bool
  {
    (t: Transaction) => t.date.DatePart() >= d
  }

  /** `t.date.date() <= d`. */
  function UntilDay(d: Date): Transaction -> bool
  {
    (t: Transaction) => t.date.DatePart() <= d
  }

  /** The start-date filter, applied only when a start date is given. */
  function OnOrAfter(ts: seq<Transaction>, start: Option<Date>): (r: seq<Transaction>)
    ensures |r| <= |ts| && forall t :: t in r ==> t in ts
    ensures start.None? ==> r == ts
    ensures start.Some? ==> forall t :: t in r ==> t.date.DatePart() >= start.value
  {
    if start.None? then ts else Filter(ts, FromDay(start.value))
  }

  /** The end-date filter, applied only when an end date is given. */
  function OnOrBefore(ts: seq<Transaction>, end: Option<Date>): (r: seq<Transaction>)
    ensures |r| <= |ts| && forall t :: t in r ==> t in ts
    ensures end.None? ==> r == ts
    ensures end.Some? ==> forall t :: t in r ==> t.date.DatePart() <= end.value
  {
    if end.None? then ts else Filter(ts, UntilDay(end.value))
  }

  /** Both date filters, start first. */
  function ApplyBounds(ts: seq<Transaction>, start: Option<Date>, end: Option<Date>): (r: seq<Transaction>)
    ensures |r| <= |ts| && forall t :: t in r ==> t in ts && InWindow(start, end, t)
  {
    OnOrBefore(OnOrAfter(ts, start), end)
  }

  /** Reference definition: the record's calendar date lies within the given bounds. */
  predicate InWindow(start: Option<Date>, end: Option<Date>, t: Transaction)
  {
    (start.None? || start.value <= t.date.DatePart()) && (end.None? || t.date.DatePart() <= end.value)
  }

  function Window(start: Option<Date>, end: Option<Date>): Transaction -> bool
  {
    (t: Transaction) => InWindow(start, end, t)
  }

  /** `get_transactions` on the decoded response of `GET /transactions`. */
  function GetTransactions(response: Json, start: Option<Date>, end: Option<Date>, c: Coercion): (r: Result<seq<Transaction>, FetchError>)
    ensures r.Failure? && r.error.FormatError? <==> !response.JArr?
    ensures !response.JArr? ==> r.error.message == FormatErrorPrefix + TypeRepr(response)
    ensures r.Failure? && r.error.ValidationFailed? ==> response.JArr? && ValidateAll(response.items, ModelValidate(c)).Failure?
    ensures r.Success? ==> response.JArr? && ValidateAll(response.items, ModelValidate(c)).Success?
  {
    if !response.JArr? then Failure(FormatError(FormatErrorPrefix + TypeRepr(response)))
    else
      match ValidateAll(response.items, ModelValidate(c))
      case Failure(e) => Failure(ValidationFailed(e))
      case Success(ts) => Success(ApplyBounds(ts, start, end))
  }

  /** The two filters in a row keep exactly the records in the window. */
  lemma ApplyBoundsIsWindow(ts: seq<Transaction>, start: Option<Date>, end: Option<Date>)
    ensures ApplyBounds(ts, start, end) == Filter(ts, Window(start, end))
  {
    var w := Window(start, end);
    if start.None? && end.None? {
      FilterKeepsAll(ts, w);
    } else if start.None? {
      FilterExtensional(ts, UntilDay(end.value), w);
    } else if end.None? {
      FilterExtensional(ts, FromDay(start.value), w);
    } else {
      BothBoundsWindow(ts, start.value, end.value);
    }
  }

  /** With both bounds, the start filter followed by the end filter is the window filter. */
  lemma BothBoundsWindow(ts: seq<Transaction>, start: Date, end: Date)
    ensures Filter(Filter(ts, FromDay(start)), UntilDay(end)) == Filter(ts, Window(Some(start), Some(end)))
  {
    var p, q := FromDay(start), UntilDay(end);
    FilterThenFilter(ts, p, q);
    FilterExtensional(ts, x => p(x) && q(x), Window(Some(start), Some(end)));
  }

  /** A response that is not a list fails with a message naming its type, and a list never
      fails that way. */
  lemma NonListRejected(response: Json, start: Option<Date>, end: Option<Date>, c: Coercion)
    ensures var r := GetTransactions(response, start, end, c);
      !response.JArr? <==> r == Failure(FormatError(FormatErrorPrefix + TypeRepr(response)))
  {
  }

  /** One element that does not validate fails the whole call with the error of the first
      such element; no records are returned. */
  lemma InvalidElementFailsAll(items: seq<Json>, start: Option<Date>, end: Option<Date>, c: Coercion, k: nat)
    requires FirstInvalidAt(items, ModelValidate(c), k)
    ensures GetTransactions(JArr(items), start, end, c) == Failure(ValidationFailed(Validate(items[k], c).error))
  {
    var r := ValidateAll(items, ModelValidate(c));
    assert r.Failure?;
    var k' :| FirstInvalidAt(items, ModelValidate(c), k') && ModelValidate(c)(items[k']) == Failure(r.error);
    assert k' == k;
  }

  /** A list whose every element validates yields records. */
  lemma ValidListSucceeds(items: seq<Json>, start: Option<Date>, end: Option<Date>, c: Coercion)
    requires forall i :: 0 <= i < |items| ==> Validate(items[i], c).Success?
    ensures GetTransactions(JArr(items), start, end, c).Success?
  {
  }

  /** Without bounds, there is exactly one record per element, in input order. */
  lemma NoBoundsOnePerElement(items: seq<Json>, c: Coercion)
    ensures var r := GetTransactions(JArr(items), None, None, c);
      r.Success? ==>
        && |r.value| == |items|
        && forall i :: 0 <= i < |items| ==> Validate(items[i], c) == Success(r.value[i])
  {
  }

  /** Every returned record lies within the bounds, both inclusive. */
  lemma ResultsWithinBounds(response: Json, start: Option<Date>, end: Option<Date>, c: Coercion)
    ensures var r := GetTransactions(response, start, end, c);
      r.Success? ==> forall t :: t in r.value ==>
        (start.Some? ==> t.date.DatePart() >= start.value) && (end.Some? ==> t.date.DatePart() <= end.value)
  {
    if response.JArr? && ValidateAll(response.items, ModelValidate(c)).Success? {
      ApplyBoundsIsWindow(ValidateAll(response.items, ModelValidate(c)).value, start, end);
    }
  }

  /** Exactness: the result is the subsequence of the validated records at precisely the
      positions whose date lies in the window, in their original order. */
  lemma ResultIsExactWindow(items: seq<Json>, start: Option<Date>, end: Option<Date>, c: Coercion, ts: seq<Transaction>)
    requires ValidateAll(items, ModelValidate(c)) == Success(ts)
    ensures var r, idx := GetTransactions(JArr(items), start, end, c), SelectedIndices(ts, Window(start, end));
      && r.Success?
      && |idx| == |r.value|
      && (forall k :: 0 <= k < |idx| ==> idx[k] < |ts| && r.value[k] == ts[idx[k]])
      && StrictlyIncreasing(idx)
      && (forall i :: 0 <= i < |ts| ==> (InWindow(start, end, ts[i]) <==> i in idx))
  {
    ApplyBoundsIsWindow(ts, start, end);
    FilterSelectsExactly(ts, Window(start, end));
  }

  /** Only the calendar date counts: two validated records on the same day are both kept or
      both dropped, whatever their times of day. */
  lemma SameDayKeptTogether(items: seq<Json>, start: Option<Date>, end: Option<Date>, c: Coercion,
                            ts: seq<Transaction>, t1: Transaction, t2: Transaction)
    requires ValidateAll(items, ModelValidate(c)) == Success(ts)
    requires t1 in ts && t2 in ts && t1.date.DatePart() == t2.date.DatePart()
    ensures var r := GetTransactions(JArr(items), start, end, c);
      t1 in r.value <==> t2 in r.value
  {
    assert GetTransactions(JArr(items), start, end, c) == Success(ApplyBounds(ts, start, end));
    ApplyBoundsIsWindow(ts, start, end);
    SameDayInWindow(ts, start, end, t1, t2);
  }

  lemma SameDayInWindow(ts: seq<Transaction>, start: Option<Date>, end: Option<Date>, t1: Transaction, t2: Transaction)
    requires t1 in ts && t2 in ts && t1.date.DatePart() == t2.date.DatePart()
    ensures t1 in Filter(ts, Window(start, end)) <==> t2 in Filter(ts, Window(start, end))
  {
    assert InWindow(start, end, t1) == InWindow(start, end, t2);
    FilterMembership(ts, Window(start, end), t1);
    FilterMembership(ts, Window(start, end), t2);
  }

  /** Filtering the result again with the same bounds changes nothing. */
  lemma BoundsIdempotent(ts: seq<Transaction>, start: Option<Date>, end: Option<Date>)
    ensures ApplyBounds(ApplyBounds(ts, start, end), start, end) == ApplyBounds(ts, start, end)
  {
    var w := Window(start, end);
    ApplyBoundsIsWindow(ts, start, end);
    ApplyBoundsIsWindow(Filter(ts, w), start, end);
    FilterIdempotent(ts, w);
  }
}
