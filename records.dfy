/** The search shared by the meta and account collections (alist/meta.py,
    alist/account.py): the first record whose 'id' or a secondary field
    compares equal to the query. */
module Records {
  import opened Values

  /** `r['id'] == x or r[secondary] == x`, evaluated left to right: reading
      an absent 'id' raises KeyError('id') before the secondary field is
      consulted. */
  function IdOrMatches(record: map<string, Value>, secondary: string, x: Value): (r: Result<bool>)
    requires secondary in record
    ensures r.Failure? <==> "id" !in record
    ensures r.Failure? ==> r.error == KeyError(Str("id"))
    ensures r == Success(true) <==> "id" in record && (PyEq(record["id"], x) || PyEq(record[secondary], x))
  {
    if "id" !in record then Failure(KeyError(Str("id")))
    else Success(PyEq(record["id"], x) || PyEq(record[secondary], x))
  }

  predicate Passed(record: map<string, Value>, secondary: string, x: Value)
    requires secondary in record
  {
    IdOrMatches(record, secondary, x) == Success(false)
  }

  /** The loop of get_meta / get_account over the records in order: the
      index of the first match, the KeyError of the first record reached
      without an 'id', or a not-found error naming the query. */
  function FirstMatch(records: seq<map<string, Value>>, secondary: string, x: Value): (r: Result<nat>)
    requires forall i :: 0 <= i < |records| ==> secondary in records[i]
    ensures r.Success? ==>
              r.value < |records| && IdOrMatches(records[r.value], secondary, x) == Success(true) &&
              forall j :: 0 <= j < r.value ==> Passed(records[j], secondary, x)
    ensures r == Failure(NotFound(x)) <==> forall j :: 0 <= j < |records| ==> Passed(records[j], secondary, x)
    ensures r.Failure? && r != Failure(NotFound(x)) ==>
              r.error == KeyError(Str("id")) &&
              exists i :: 0 <= i < |records| && "id" !in records[i] &&
                forall j :: 0 <= j < i ==> Passed(records[j], secondary, x)
  {
    if |records| == 0 then Failure(NotFound(x))
    else match IdOrMatches(records[0], secondary, x)
      case Failure(e) => Failure(e)
      case Success(true) => Success(0)
      case Success(false) =>
        var rest := FirstMatch(records[1..], secondary, x);
        assert forall j :: 1 <= j < |records| ==> records[j] == records[1..][j - 1];
        if rest.Success? then Success(rest.value + 1) else rest
  }

  /** Once the first `n` records are passed over, a match, or a record
      without an 'id', at position `n` decides the search. */
  lemma FirstMatchStopsAt(records: seq<map<string, Value>>, secondary: string, x: Value, n: nat)
    requires forall i :: 0 <= i < |records| ==> secondary in records[i]
    requires n < |records| && !Passed(records[n], secondary, x)
    requires forall j :: 0 <= j < n ==> Passed(records[j], secondary, x)
    ensures FirstMatch(records, secondary, x) ==
              if "id" in records[n] then Success(n) else Failure(KeyError(Str("id")))
  {
  }

  /** The element a search result points at, or the search's error. */
  function Picked<T>(found: Result<nat>, xs: seq<T>): (r: Result<T>)
    requires found.Success? ==> found.value < |xs|
    ensures r.Success? <==> found.Success?
    ensures r.Success? ==> r.value == xs[found.value]
    ensures r.Failure? ==> r.error == found.error
  {
    if found.Success? then Success(xs[found.value]) else Failure(found.error)
  }
}
