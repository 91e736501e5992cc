/** Drivers (alist/driver.py): the storage-driver schema the server
    publishes — frozen attribute records, drivers as ordered attribute
    lists, the required-field filter — and the cached driver collection. */
module Drivers {
  import opened Values

  /** The keys an attribute is read from. */
  const AttributeKeys: set<string> := {"name", "label", "type", "default", "values", "required", "description"}

  /** An AlistDriverAttribute: exactly the seven published fields. */
  datatype Attribute = Attribute(
    name: Value, labelValue: Value, kind: Value, defaultValue: Value,
    values: Value, required: Value, description: Value)
  {
    /** The attribute as the dict it is. */
    function AsMap(): (m: map<string, Value>)
      ensures m.Keys == AttributeKeys
    {
      map["name" := name, "label" := labelValue, "type" := kind, "default" := defaultValue,
          "values" := values, "required" := required, "description" := description]
    }

    /** `attr[key] = v`: raising NotImplemented fails with a TypeError. */
    function SetItem(key: Value, v: Value): (r: Outcome)
      ensures r.Fail? && r.error == TypeError
    {
      Fail(TypeError)
    }

    /** `del attr[key]`: likewise a TypeError. */
    function DelItem(key: Value): (r: Outcome)
      ensures r.Fail? && r.error == TypeError
    {
      Fail(TypeError)
    }
  }

  /** `AlistDriverAttribute(**m)`: the seven keys are read in the order
      name, label, type, default, values, required, description, and the
      first one missing is a KeyError naming it; other keys are ignored. */
  function NewAttribute(m: map<string, Value>): (r: Result<Attribute>)
    ensures r.Success? <==> AttributeKeys <= m.Keys
    ensures r.Failure? ==> r.error.KeyError? && r.error.key.Str? &&
                           r.error.key.s in AttributeKeys && r.error.key.s !in m
    ensures r.Success? ==> forall k :: k in AttributeKeys ==> r.value.AsMap()[k] == m[k]
  {
    if "name" !in m then Failure(KeyError(Str("name")))
    else if "label" !in m then Failure(KeyError(Str("label")))
    else if "type" !in m then Failure(KeyError(Str("type")))
    else if "default" !in m then Failure(KeyError(Str("default")))
    else if "values" !in m then Failure(KeyError(Str("values")))
    else if "required" !in m then Failure(KeyError(Str("required")))
    else if "description" !in m then Failure(KeyError(Str("description")))
    else Success(Attribute(m["name"], m["label"], m["type"], m["default"],
                           m["values"], m["required"], m["description"]))
  }

  /** An attribute rebuilt from its own dict is the same attribute, and
      so is one rebuilt from any dict that adds other keys to it. */
  lemma AttributeRoundTrip(a: Attribute, extra: map<string, Value>)
    ensures NewAttribute(a.AsMap()) == Success(a)
    ensures NewAttribute(extra + a.AsMap()) == Success(a)
  {
  }

  predicate AttributeFails(m: map<string, Value>) {
    NewAttribute(m).Failure?
  }

  /** An AlistDriver: its name and its attributes in published order. */
  datatype Driver = Driver(name: string, attrs: seq<Attribute>)

  /** `AlistDriver(name, entries)`: one attribute per entry, in order; the
      first entry that is not a valid attribute fails the construction. */
  function DriverOf(name: string, entries: seq<map<string, Value>>): (r: Result<Driver>)
    ensures r.Success? <==> forall i :: 0 <= i < |entries| ==> NewAttribute(entries[i]).Success?
    ensures var k := FirstIndex(entries, AttributeFails);
            k < |entries| ==> r == Failure(NewAttribute(entries[k]).error)
    ensures r.Success? ==>
              r.value.name == name && |r.value.attrs| == |entries| &&
              forall i :: 0 <= i < |entries| ==> Success(r.value.attrs[i]) == NewAttribute(entries[i])
  {
    var k := FirstIndex(entries, AttributeFails);
    if k < |entries| then Failure(NewAttribute(entries[k]).error)
    else Success(Driver(name, seq(|entries|, i requires 0 <= i < |entries| => NewAttribute(entries[i]).value)))
  }

  /** The constructor's loop, appending attribute by attribute. */
  method NewDriver(name: string, entries: seq<map<string, Value>>) returns (r: Result<Driver>)
    ensures r == DriverOf(name, entries)
  {
    var attrs: seq<Attribute> := [];
    for n := 0 to |entries|
      invariant |attrs| == n
      invariant forall i :: 0 <= i < n ==> Success(attrs[i]) == NewAttribute(entries[i])
    {
      var a := NewAttribute(entries[n]);
      if a.Failure? {
        FirstIndexIs(entries, AttributeFails, n);
        return Failure(a.error);
      }
      attrs := attrs + [a.value];
    }
    FirstIndexNone(entries, AttributeFails);
    assert DriverOf(name, entries).Success?;
    assert DriverOf(name, entries).value.attrs == attrs;
    r := Success(Driver(name, attrs));
  }

  // ---------------------------------------------------------------------
  // get_attr and get_required

  /** `get_attr(x)`: the first attribute whose name equals `x`. */
  method GetAttr(d: Driver, x: Value) returns (r: Result<Attribute>)
    ensures r.Success? ==>
              exists i :: 0 <= i < |d.attrs| && r.value == d.attrs[i] && PyEq(x, d.attrs[i].name) &&
                forall j :: 0 <= j < i ==> !PyEq(x, d.attrs[j].name)
    ensures r.Failure? ==>
              r.error == NotFound(x) && forall i :: 0 <= i < |d.attrs| ==> !PyEq(x, d.attrs[i].name)
  {
    for n := 0 to |d.attrs|
      invariant forall j :: 0 <= j < n ==> !PyEq(x, d.attrs[j].name)
    {
      if PyEq(x, d.attrs[n].name) {
        return Success(d.attrs[n]);
      }
    }
    r := Failure(NotFound(x));
  }

  /** The names of the attributes whose `required` is truthy, in order. */
  function RequiredNames(attrs: seq<Attribute>): (names: seq<Value>)
    ensures |names| <= |attrs|
    ensures forall v :: v in names <==>
              exists i :: 0 <= i < |attrs| && attrs[i].name == v && Truthy(attrs[i].required)
  {
    if attrs == [] then []
    else
      var init := attrs[..|attrs| - 1];
      var last := attrs[|attrs| - 1];
      assert forall i :: 0 <= i < |init| ==> init[i] == attrs[i];
      RequiredNames(init) + (if Truthy(last.required) then [last.name] else [])
  }

  /** The filter distributes over concatenation, so it keeps attribute order. */
  lemma {:induction false} RequiredNamesAppend(a: seq<Attribute>, b: seq<Attribute>)
    ensures RequiredNames(a + b) == RequiredNames(a) + RequiredNames(b)
    decreases |b|
  {
    if b == [] {
      assert a + b == a;
    } else {
      var c := b[..|b| - 1];
      assert (a + b)[..|a + b| - 1] == a + c;
      RequiredNamesAppend(a, c);
    }
  }

  /** `get_required`: a new list built by appending each required name. */
  method GetRequired(d: Driver) returns (names: seq<Value>)
    ensures names == RequiredNames(d.attrs)
  {
    names := [];
    for n := 0 to |d.attrs|
      invariant names == RequiredNames(d.attrs[..n])
    {
      assert d.attrs[..n + 1][..n] == d.attrs[..n];
      if Truthy(d.attrs[n].required) {
        names := names + [d.attrs[n].name];
      }
    }
    assert d.attrs[..|d.attrs|] == d.attrs;
  }

  // ---------------------------------------------------------------------
  // The driver collection

  /** One entry of the server's driver catalogue: a driver name and its
      attribute records, in the catalogue's order. */
  datatype Entry = Entry(name: string, attrs: seq<map<string, Value>>)

  predicate EntryFails(e: Entry) {
    DriverOf(e.name, e.attrs).Failure?
  }

  /** The name under which `get` installs a driver accessor on the client:
      "driver_" and the driver name with every '.' turned into '_'. */
  function AccessorName(name: string): (r: string)
    ensures |r| == 7 + |name| && r[..7] == "driver_"
    ensures forall i :: 0 <= i < |name| ==> r[7 + i] == if name[i] == '.' then '_' else name[i]
    ensures '.' !in r
  {
    "driver_" + seq(|name|, i requires 0 <= i < |name| => if name[i] == '.' then '_' else name[i])
  }

  /** Two drivers whose names differ only in '.' against '_' get the same
      accessor, so the later one replaces the earlier. */
  lemma AccessorNamesCollide(dotted: string, underscored: string)
    requires dotted == "a.b" && underscored == "a_b"
    ensures dotted != underscored && AccessorName(dotted) == AccessorName(underscored)
  {
    var p := AccessorName(dotted);
    var q := AccessorName(underscored);
    assert p[7] == q[7] && p[8] == q[8] && p[9] == q[9];
    assert p[..7] == q[..7];
    assert p == p[..7] + p[7..] && q == q[..7] + q[7..];
  }

  /** AlistAdminDrivers: the cached driver list. */
  class DriverList {
    var drivers: seq<Driver>

    constructor ()
      ensures drivers == []
    {
      drivers := [];
    }

    /** `get`: only while the cache is empty, fetch the catalogue
        (`fetched`) and append one driver per entry; then return the cache.
        A failed fetch leaves it empty; a failed driver leaves the drivers
        built before it, which later calls return without fetching. */
    method Get(fetched: Result<seq<Entry>>) returns (r: Result<seq<Driver>>)
      modifies this
      ensures old(drivers) != [] ==> drivers == old(drivers) && r == Success(drivers)
      ensures old(drivers) == [] && fetched.Failure? ==> drivers == [] && r == Failure(fetched.error)
      ensures old(drivers) == [] && fetched.Success? ==>
                var es := fetched.value;
                var k := FirstIndex(es, EntryFails);
                |drivers| == k &&
                (forall i :: 0 <= i < k ==> Success(drivers[i]) == DriverOf(es[i].name, es[i].attrs)) &&
                r == if k == |es| then Success(drivers) else Failure(DriverOf(es[k].name, es[k].attrs).error)
    {
      if drivers == [] {
        if fetched.Failure? {
          return Failure(fetched.error);
        }
        var es := fetched.value;
        var built: seq<Driver> := [];
        for n := 0 to |es|
          invariant |built| == n
          invariant forall i :: 0 <= i < n ==> Success(built[i]) == DriverOf(es[i].name, es[i].attrs)
        {
          var d := NewDriver(es[n].name, es[n].attrs);
          if d.Failure? {
            FirstIndexIs(es, EntryFails, n);
            drivers := built;
            return Failure(d.error);
          }
          ghost var before := built;
          built := built + [d.value];
          forall i | 0 <= i <= n ensures Success(built[i]) == DriverOf(es[i].name, es[i].attrs) {
            if i < n {
              assert built[i] == before[i];
            }
          }
        }
        FirstIndexNone(es, EntryFails);
        drivers := built;
      }
      r := Success(drivers);
    }

    /** `get_driver(x)`: read the (possibly cached) list, then search it. */
    method GetDriver(fetched: Result<seq<Entry>>, x: Value) returns (r: Result<Driver>)
      modifies this
      ensures old(drivers) != [] ==> drivers == old(drivers)
      ensures old(drivers) == [] && fetched.Failure? ==> drivers == [] && r == Failure(fetched.error)
      ensures old(drivers) == [] && fetched.Success? ==>
                var es := fetched.value;
                var k := FirstIndex(es, EntryFails);
                |drivers| == k &&
                (forall i :: 0 <= i < k ==> Success(drivers[i]) == DriverOf(es[i].name, es[i].attrs)) &&
                (k < |es| ==> r == Failure(DriverOf(es[k].name, es[k].attrs).error))
      ensures old(drivers) != [] || (fetched.Success? && FirstIndex(fetched.value, EntryFails) == |fetched.value|) ==>
                r == FindDriver(drivers, x)
    {
      var all := Get(fetched);
      if all.Failure? {
        return Failure(all.error);
      }
      r := SearchDrivers(all.value, x);
    }
  }

  /** Whether a driver's name compares equal to `x`. */
  function NamedAs(x: Value): Driver -> bool {
    (d: Driver) => PyEq(Str(d.name), x)
  }

  /** The first driver named `x`, or the not-found error. */
  function FindDriver(drivers: seq<Driver>, x: Value): (r: Result<Driver>)
    ensures r.Success? ==>
              exists i :: 0 <= i < |drivers| && r.value == drivers[i] && PyEq(Str(drivers[i].name), x) &&
                forall j :: 0 <= j < i ==> !PyEq(Str(drivers[j].name), x)
    ensures r.Failure? <==> forall i :: 0 <= i < |drivers| ==> !PyEq(Str(drivers[i].name), x)
    ensures r.Failure? ==> r.error == NotFound(x)
  {
    var i := FirstIndex(drivers, NamedAs(x));
    if i < |drivers| then Success(drivers[i]) else Failure(NotFound(x))
  }

  /** The search loop of `get_driver`. */
  method SearchDrivers(drivers: seq<Driver>, x: Value) returns (r: Result<Driver>)
    ensures r == FindDriver(drivers, x)
  {
    for n := 0 to |drivers|
      invariant forall j :: 0 <= j < n ==> !PyEq(Str(drivers[j].name), x)
    {
      if PyEq(Str(drivers[n].name), x) {
        FirstIndexIs(drivers, NamedAs(x), n);
        return Success(drivers[n]);
      }
    }
    r := Failure(NotFound(x));
  }
}
