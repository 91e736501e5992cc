/** Account creation and the account collection of alist/account.py:
    the required-field check that guards `_create`, and
    AlistAdminAccounts with its lookup. */
module Accounts {
  import opened Values
  import opened Records
  import opened Drivers
  import opened AccountRecord

  // ---------------------------------------------------------------------
  // Account creation

  /** Python's `hash` accepts every value but a list or a dict. */
  predicate Hashable(v: Value) {
    !v.List? && !v.Obj?
  }

  /** `set(required) - set(kwargs.keys())`: the required names that are not
      an argument name. */
  function MissingFields(required: seq<Value>, kwargs: map<string, Value>): (missing: set<Value>)
    ensures forall v :: v in missing <==> v in required && !(v.Str? && v.s in kwargs)
  {
    set v | v in required && !(v.Str? && v.s in kwargs)
  }

  /** The names an account of driver `d` must be given: the driver's
      required attribute names, then 'name'. */
  function RequiredFor(d: Driver): (names: seq<Value>)
    ensures |names| == |RequiredNames(d.attrs)| + 1 && names[|names| - 1] == Str("name")
  {
    RequiredNames(d.attrs) + [Str("name")]
  }

  /** The checks `_create` makes once the driver `d` is known: an
      unhashable required name is a TypeError; missing required names are
      reported all together (a non-str among them cannot be joined into the
      message, which is a TypeError); otherwise the body is the account
      built from the arguments stamped with `timestamp`. */
  function CheckRequired(kwargs: map<string, Value>, d: Driver, timestamp: Value): (r: Result<map<string, Value>>)
    requires "type" in kwargs
    ensures r.Success? <==>
              (forall v :: v in RequiredFor(d) ==> Hashable(v)) && MissingFields(RequiredFor(d), kwargs) == {}
    ensures r.Success? ==>
              r.value == InitialAccount(kwargs["updated_at" := timestamp]) &&
              forall v :: v in RequiredFor(d) ==> v.Str? && v.s in kwargs
    ensures r.Failure? ==> r.error.TypeError? || r.error.MissingRequired?
    ensures (exists v :: v in RequiredFor(d) && !Hashable(v)) ==> r == Failure(TypeError)
    ensures (forall v :: v in RequiredFor(d) ==> Hashable(v)) && MissingFields(RequiredFor(d), kwargs) != {} ==>
              r == Failure(if forall v :: v in MissingFields(RequiredFor(d), kwargs) ==> v.Str?
                           then MissingRequired(kwargs["type"], MissingFields(RequiredFor(d), kwargs))
                           else TypeError)
    ensures r.Failure? && r.error.MissingRequired? ==>
              r.error == MissingRequired(kwargs["type"], MissingFields(RequiredFor(d), kwargs)) &&
              r.error.names != {}
  {
    var required := RequiredFor(d);
    if exists v :: v in required && !Hashable(v) then Failure(TypeError)
    else
      var notSet := MissingFields(required, kwargs);
      if notSet != {} then
        if forall v :: v in notSet ==> v.Str? then Failure(MissingRequired(kwargs["type"], notSet))
        else Failure(TypeError)
      else Success(InitialAccount(kwargs["updated_at" := timestamp]))
  }

  /** What `_create` decides before posting, given the driver lookup's
      outcome `found`: the error it raises, or the account body it posts.
      A missing 'type' argument is a KeyError('type'); any KeyError from the
      lookup becomes "not supported"; other lookup errors pass through;
      then the required names are checked. */
  function CreateBody(kwargs: map<string, Value>, found: Result<Driver>, timestamp: Value): (r: Result<map<string, Value>>)
    ensures "type" !in kwargs ==> r == Failure(KeyError(Str("type")))
    ensures "type" in kwargs && found.Failure? ==>
              r == Failure(if IsKeyError(found.error) then Unsupported(kwargs["type"]) else found.error)
    ensures "type" in kwargs && found.Success? ==> r == CheckRequired(kwargs, found.value, timestamp)
  {
    if "type" !in kwargs then Failure(KeyError(Str("type")))
    else match found
      case Failure(e) =>
        if IsKeyError(e) then Failure(Unsupported(kwargs["type"])) else Failure(e)
      case Success(d) => CheckRequired(kwargs, d, timestamp)
  }

  /** The stamped body keeps the declared fields and carries the timestamp. */
  lemma StampedBody(kwargs: map<string, Value>, d: Driver, timestamp: Value)
    requires "type" in kwargs && CheckRequired(kwargs, d, timestamp).Success?
    ensures var b := CheckRequired(kwargs, d, timestamp).value;
            WellFormed(b) && "updated_at" in b && "type" in b && "name" in b && "name" in kwargs &&
            b["updated_at"] == timestamp && b["type"] == kwargs["type"] && b["name"] == kwargs["name"]
  {
    assert Str("name") in RequiredFor(d);
    assert Str("name").s in kwargs;
    var stamped := kwargs["updated_at" := timestamp];
    assert "name" in stamped && stamped["name"] == kwargs["name"];
    assert "type" in stamped && stamped["type"] == kwargs["type"];
    DeclaredFields(InitialAccount(stamped));
  }
  /** An account body is posted only if it carries a 'name' argument and
      every name the driver marks as required. */
  lemma CreateNeedsRequired(kwargs: map<string, Value>, d: Driver, timestamp: Value, i: nat)
    requires "type" in kwargs && CheckRequired(kwargs, d, timestamp).Success?
    requires i < |d.attrs| && Truthy(d.attrs[i].required)
    ensures "name" in kwargs
    ensures d.attrs[i].name.Str? && d.attrs[i].name.s in kwargs
  {
    assert Str("name") in RequiredFor(d);
    assert d.attrs[i].name in RequiredFor(d);
  }

  /** `_create(**kwargs)`: run the checks, build the account and post it;
      `post` is the POST's reply and `sent` the body posted, if any. */
  method Create(kwargs: map<string, Value>, found: Result<Driver>, timestamp: Value, post: Result<Value>)
    returns (r: Result<Value>, sent: Option<map<string, Value>>)
    ensures var b := CreateBody(kwargs, found, timestamp);
            if b.Success? then sent == Some(b.value) && r == post
            else sent.None? && r == Failure(b.error)
  {
    if "type" !in kwargs {
      return Failure(KeyError(Str("type"))), None;
    }
    if found.Failure? {
      if IsKeyError(found.error) {
        return Failure(Unsupported(kwargs["type"])), None;
      }
      return Failure(found.error), None;
    }
    var required := GetRequired(found.value);
    required := required + [Str("name")];
    if exists v :: v in required && !Hashable(v) {
      return Failure(TypeError), None;
    }
    var notSet := MissingFields(required, kwargs);
    if notSet != {} {
      if forall v :: v in notSet ==> v.Str? {
        return Failure(MissingRequired(kwargs["type"], notSet)), None;
      }
      return Failure(TypeError), None;
    }
    var account := new Account(kwargs["updated_at" := timestamp]);
    sent := Some(account.fields);
    r := post;
  }

  /** `_create` with the driver looked up in the cached driver collection. */
  method CreateWithDrivers(drivers: DriverList, catalogue: Result<seq<Entry>>,
                           kwargs: map<string, Value>, timestamp: Value, post: Result<Value>)
    returns (r: Result<Value>, sent: Option<map<string, Value>>)
    modifies drivers
    ensures "type" !in kwargs ==> drivers.drivers == old(drivers.drivers) && r == Failure(KeyError(Str("type")))
    ensures sent.Some? ==>
              "type" in kwargs && "name" in kwargs && WellFormed(sent.value) &&
              "updated_at" in sent.value && sent.value["updated_at"] == timestamp
  {
    if "type" !in kwargs {
      return Failure(KeyError(Str("type"))), None;
    }
    var found := drivers.GetDriver(catalogue, kwargs["type"]);
    r, sent := Create(kwargs, found, timestamp, post);
    if sent.Some? {
      StampedBody(kwargs, found.value, timestamp);
    }
  }

  // ---------------------------------------------------------------------
  // The account collection

  ghost function AccountFields(accounts: seq<Account>): (fs: seq<map<string, Value>>)
    reads set i | 0 <= i < |accounts| :: accounts[i]
    ensures |fs| == |accounts| && forall i :: 0 <= i < |accounts| ==> fs[i] == accounts[i].fields
  {
    if accounts == [] then [] else [accounts[0].fields] + AccountFields(accounts[1..])
  }

  /** The search of `get_account` over constructed accounts, by 'id' or 'name'. */
  method FindAccount(accounts: seq<Account>, x: Value) returns (r: Result<Account>)
    requires forall i :: 0 <= i < |accounts| ==> "name" in accounts[i].fields
    ensures forall i :: 0 <= i < |accounts| ==> "name" in AccountFields(accounts)[i]
    ensures r == Picked(FirstMatch(AccountFields(accounts), "name", x), accounts)
  {
    ghost var fs := AccountFields(accounts);
    for n := 0 to |accounts|
      invariant forall j :: 0 <= j < n ==> Passed(fs[j], "name", x)
    {
      var a := accounts[n];
      assert fs[n] == a.fields;
      var hit := IdOrMatches(a.fields, "name", x);
      if hit != Success(false) {
        FirstMatchStopsAt(fs, "name", x, n);
        return if hit.Failure? then Failure(hit.error) else Success(a);
      }
    }
    r := Failure(NotFound(x));
  }

  /** The loop of `get`: one account per record, in order. */
  method NewAccounts(records: seq<map<string, Value>>) returns (built: seq<Account>)
    ensures |built| == |records|
    ensures forall i :: 0 <= i < |records| ==> fresh(built[i]) && built[i].fields == InitialAccount(records[i])
  {
    built := [];
    for n := 0 to |records|
      invariant |built| == n
      invariant forall i :: 0 <= i < n ==> fresh(built[i])
      invariant forall i :: 0 <= i < n ==> built[i].fields == InitialAccount(records[i])
    {
      var a := new Account(records[n]);
      built := built + [a];
    }
  }

  /** AlistAdminAccounts: the list of accounts last fetched. */
  class AccountList {
    var accounts: seq<Account>

    constructor ()
      ensures accounts == []
    {
      accounts := [];
    }

    /** The state `get` leaves for the server records: one account per
        record, in order. */
    ghost predicate Loaded(records: seq<map<string, Value>>)
      reads this, set i | 0 <= i < |accounts| :: accounts[i]
    {
      |accounts| == |records| &&
      forall i :: 0 <= i < |records| ==> accounts[i].fields == InitialAccount(records[i])
    }

    /** `get`: clear the list, fetch (`fetched`), and append one account
        per record; the list is returned. A failed fetch leaves it empty. */
    method Get(fetched: Result<seq<map<string, Value>>>) returns (r: Result<seq<Account>>)
      modifies this
      ensures fetched.Failure? ==> accounts == [] && r == Failure(fetched.error)
      ensures fetched.Success? ==>
                Loaded(fetched.value) && r == Success(accounts) &&
                forall i :: 0 <= i < |accounts| ==> fresh(accounts[i])
    {
      accounts := [];
      if fetched.Failure? {
        return Failure(fetched.error);
      }
      var built := NewAccounts(fetched.value);
      accounts := built;
      r := Success(accounts);
    }

    /** `get_account(x)`: refresh the list, then search it. */
    method GetAccount(fetched: Result<seq<map<string, Value>>>, x: Value) returns (r: Result<Account>)
      modifies this
      ensures fetched.Failure? ==> accounts == [] && r == Failure(fetched.error)
      ensures fetched.Success? ==> Loaded(fetched.value)
      ensures fetched.Success? ==> forall i :: 0 <= i < |accounts| ==> "name" in accounts[i].fields
      ensures fetched.Success? ==>
                r == Picked(FirstMatch(AccountFields(accounts), "name", x), accounts)
    {
      var all := Get(fetched);
      if all.Failure? {
        return Failure(all.error);
      }
      forall i | 0 <= i < |all.value| ensures "name" in all.value[i].fields {
        DeclaredFields(all.value[i].fields);
      }
      r := FindAccount(all.value, x);
    }
  }
}
