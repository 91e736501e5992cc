/** Settings (alist/setting.py): a record with eight declared fields of
    which only `value` may be written, coerced by the setting's `type`; the
    list fetched from the server; the lookup by key and the read-or-update
    helper behind every named setting accessor. */
module Settings {
  import opened Values

  /** The eight fields every setting carries. */
  const SettingKeys: set<string> :=
    {"key", "value", "description", "type", "group", "access", "values", "version"}

  predicate WellFormed(c: map<string, Value>) {
    c.Keys == SettingKeys
  }

  /** The content of `AlistSetting(**kwargs)`: each declared field takes the
      supplied argument and defaults to None; undeclared arguments are dropped. */
  function InitialContent(kwargs: map<string, Value>): (c: map<string, Value>)
    ensures WellFormed(c)
    ensures forall k :: k in SettingKeys && k in kwargs ==> c[k] == kwargs[k]
    ensures forall k :: k in SettingKeys && k !in kwargs ==> c[k] == Null
  {
    map k | k in SettingKeys :: if k in kwargs then kwargs[k] else Null
  }

  /** `set_value` on a content map: the new content, or the exception.
      A "bool" setting stores the text "true" or "false" by the truthiness
      of the new value; a "select" setting accepts only one of the
      comma-separated `values` (a `values` that is not a str has no
      `split`); any other type stores the new value as given. */
  function Assigned(c: map<string, Value>, x: Value): (r: Result<map<string, Value>>)
    requires WellFormed(c)
    ensures r.Success? ==> WellFormed(r.value)
    ensures r.Success? ==> forall k :: k in c && k != "value" ==> r.value[k] == c[k]
    ensures c["type"] == Str("bool") ==>
              r.Success? && (r.value["value"] == Str("true") || r.value["value"] == Str("false")) &&
              (r.value["value"] == Str("true") <==> Truthy(x))
    ensures c["type"] == Str("select") ==>
              (r.Success? <==> c["values"].Str? && x.Str? && x.s in Split(c["values"].s, ','))
    ensures c["type"] == Str("select") && r.Success? ==> r.value["value"] == x
    ensures c["type"] == Str("select") && r.Failure? ==>
              r.error == (if c["values"].Str? then NotAnOption(c["values"]) else AttributeError)
    ensures c["type"] != Str("bool") && c["type"] != Str("select") ==> r == Success(c["value" := x])
  {
    if c["type"] == Str("bool") then
      Success(c["value" := if Truthy(x) then Str("true") else Str("false")])
    else if c["type"] == Str("select") then
      if !c["values"].Str? then Failure(AttributeError)
      // `x in list_of_str` compares with ==, which holds only for an equal str
      else if x.Str? && x.s in Split(c["values"].s, ',') then Success(c["value" := x])
      else Failure(NotAnOption(c["values"]))
    else Success(c["value" := x])
  }

  /** `get_value`: a "bool" setting reads as whether the stored text is
      "true"; any other setting reads as its stored value. */
  function ValueOf(c: map<string, Value>): (v: Value)
    requires WellFormed(c)
    ensures c["type"] == Str("bool") ==> v.Bool? && (v.b <==> c["value"] == Str("true"))
    ensures c["type"] != Str("bool") ==> v == c["value"]
  {
    if c["type"] == Str("bool") then Bool(c["value"] == Str("true")) else c["value"]
  }

  /** Writing a bool setting and reading it back gives the truthiness of
      what was written. */
  lemma BoolRoundTrip(c: map<string, Value>, x: Value)
    requires WellFormed(c) && c["type"] == Str("bool")
    ensures Assigned(c, x).Success?
    ensures ValueOf(Assigned(c, x).value) == Bool(Truthy(x))
  {
  }

  /** Writing a select or untyped setting and reading it back, when the
      write succeeds, gives exactly what was written. */
  lemma StoredRoundTrip(c: map<string, Value>, x: Value)
    requires WellFormed(c) && c["type"] != Str("bool")
    requires Assigned(c, x).Success?
    ensures ValueOf(Assigned(c, x).value) == x
  {
  }

  /** When `values` is the comma-join of comma-free options, a select
      setting accepts exactly those options, and rejects everything else
      naming the options in the error. */
  lemma SelectAcceptsExactlyOptions(c: map<string, Value>, options: seq<string>, x: Value)
    requires WellFormed(c) && c["type"] == Str("select")
    requires |options| >= 1 && forall i :: 0 <= i < |options| ==> ',' !in options[i]
    requires c["values"] == Str(Join(options, ','))
    ensures Assigned(c, x).Success? <==> x.Str? && x.s in options
    ensures !(x.Str? && x.s in options) ==> Assigned(c, x) == Failure(NotAnOption(c["values"]))
  {
    SplitJoin(options, ',');
  }

  /** Writing the value it already reads as leaves a select or untyped
      setting unchanged. */
  lemma RewriteSameValue(c: map<string, Value>)
    requires WellFormed(c) && c["type"] != Str("bool")
    requires c["type"] == Str("select") ==> Assigned(c, c["value"]).Success?
    ensures Assigned(c, ValueOf(c)) == Success(c)
  {
    assert c["value" := c["value"]] == c;
  }

  /** The early return of `_get_or_update` compares with Python's `==`, under
      which a bool equals the number it stands for. For a setting that is not
      a bool, a new value equal to the current one in that sense but not
      identical to it would still change the stored value if written. */
  lemma EqualButDifferentRewriteChanges(c: map<string, Value>, x: Value)
    requires WellFormed(c) && c["type"] != Str("bool")
    requires PyEq(x, ValueOf(c)) && x != ValueOf(c)
    requires Assigned(c, x).Success?
    ensures Assigned(c, x).value != c
    ensures ValueOf(Assigned(c, x).value) == x
  {
    assert Assigned(c, x).value["value"] == x;
  }

  /** An untyped setting storing 1 asked to store True: the two compare
      equal, yet the write would store `true` in place of `1`. */
  lemma TrueForOneSkipsChange(c: map<string, Value>)
    requires WellFormed(c) && c["type"] == Str("string") && c["value"] == Int(1)
    ensures PyEq(Bool(true), ValueOf(c))
    ensures Assigned(c, Bool(true)).Success? && Assigned(c, Bool(true)).value != c
  {
    EqualButDifferentRewriteChanges(c, Bool(true));
  }

  /** An AlistSetting object. */
  class Setting {
    var content: map<string, Value>

    ghost predicate Valid()
      reads this
    {
      WellFormed(content)
    }

    /** `AlistSetting(**kwargs)` once "key" is known to be supplied: a fresh
        copy of the template with each supplied declared field overwritten. */
    constructor (kwargs: map<string, Value>)
      requires "key" in kwargs
      ensures Valid() && content == InitialContent(kwargs)
    {
      var c: map<string, Value> := map k | k in SettingKeys :: Null;
      var todo := kwargs.Keys;
      while todo != {}
        invariant todo <= kwargs.Keys
        invariant c.Keys == SettingKeys
        invariant forall k :: k in SettingKeys ==>
                    c[k] == (if k in kwargs && k !in todo then kwargs[k] else Null)
        decreases |todo|
      {
        var k :| k in todo;
        if k in c {
          c := c[k := kwargs[k]];
        }
        todo := todo - {k};
      }
      content := c;
    }

    /** `s[key]`: a declared field's value, or KeyError for any other key. */
    function Get(key: string): (r: Result<Value>)
      reads this
      requires Valid()
      ensures r.Success? <==> key in SettingKeys
      ensures r.Success? ==> r.value == content[key]
      ensures r.Failure? ==> r.error == NotASettingField
    {
      if key in content then Success(content[key]) else Failure(NotASettingField)
    }

    /** `get_value`. */
    function GetValue(): (v: Value)
      reads this
      requires Valid()
      ensures content["type"] == Str("bool") ==> v == Bool(content["value"] == Str("true"))
      ensures content["type"] != Str("bool") ==> v == content["value"]
    {
      ValueOf(content)
    }

    /** `set_value(x)`: coerce and store, returning the stored value; on an
        exception nothing is stored. */
    method SetValue(x: Value) returns (r: Result<Value>)
      requires Valid()
      modifies this
      ensures Valid()
      ensures var a := Assigned(old(content), x);
              if a.Success? then content == a.value && r == Success(content["value"])
              else content == old(content) && r == Failure(a.error)
    {
      var stype := content["type"];
      if stype == Str("bool") {
        content := content["value" := if Truthy(x) then Str("true") else Str("false")];
      } else if stype == Str("select") {
        var values := content["values"];
        if !values.Str? {
          return Failure(AttributeError);
        }
        if x.Str? && x.s in Split(values.s, ',') {
          content := content["value" := x];
        } else {
          return Failure(NotAnOption(values));
        }
      } else {
        content := content["value" := x];
      }
      r := Success(content["value"]);
    }

    /** `s[key] = x`: only "value" may be written, and writing it is set_value. */
    method SetItem(key: string, x: Value) returns (r: Result<Value>)
      requires Valid()
      modifies this
      ensures Valid()
      ensures key != "value" ==> content == old(content) && r == Failure(OnlyValueWritable)
      ensures key == "value" ==>
                var a := Assigned(old(content), x);
                if a.Success? then content == a.value && r == Success(content["value"])
                else content == old(content) && r == Failure(a.error)
    {
      if key != "value" {
        return Failure(OnlyValueWritable);
      }
      r := SetValue(x);
    }

    /** `del s[key]`: deleting is never supported. */
    method DelItem(key: string) returns (r: Outcome)
      ensures r.Fail? && r.error == NotImplementedError
    {
      r := Fail(NotImplementedError);
    }
  }

  /** `AlistSetting(**kwargs)`, with the missing-"key" error. */
  method NewSetting(kwargs: map<string, Value>) returns (r: Result<Setting>)
    ensures r.Failure? <==> "key" !in kwargs
    ensures r.Failure? ==> r.error == MissingSettingKey
    ensures r.Success? ==> fresh(r.value) && r.value.Valid() && r.value.content == InitialContent(kwargs)
  {
    if "key" !in kwargs {
      return Failure(MissingSettingKey);
    }
    var s := new Setting(kwargs);
    r := Success(s);
  }

  // ---------------------------------------------------------------------
  // The settings list and the lookup by key

  /** Whether a record's "key" compares equal to the wanted key. */
  predicate HasKey(record: map<string, Value>, key: Value) {
    "key" in record && PyEq(record["key"], key)
  }

  /** What `get_by_key(key)` finds among the fetched records: the content of
      the first record whose key matches. A failed fetch propagates its
      error; a record without "key" fails construction of the whole list;
      no match is a not-found error naming the key. */
  function Lookup(fetched: Result<seq<map<string, Value>>>, key: Value): (r: Result<map<string, Value>>)
    ensures fetched.Failure? ==> r == Failure(fetched.error)
    ensures fetched.Success? && (exists i :: 0 <= i < |fetched.value| && "key" !in fetched.value[i]) ==>
              r == Failure(MissingSettingKey)
    ensures r.Success? ==> WellFormed(r.value) && PyEq(r.value["key"], key)
    ensures r.Success? ==>
              fetched.Success? &&
              exists i :: 0 <= i < |fetched.value| && r.value == InitialContent(fetched.value[i]) &&
                HasKey(fetched.value[i], key) &&
                forall j :: 0 <= j < i ==> !HasKey(fetched.value[j], key)
    ensures fetched.Success? && (forall i :: 0 <= i < |fetched.value| ==> "key" in fetched.value[i]) ==>
              (r.Failure? <==> forall i :: 0 <= i < |fetched.value| ==> !HasKey(fetched.value[i], key))
    ensures fetched.Success? && r.Failure? && r.error.NotFound? ==> r.error.query == key
  {
    if fetched.Failure? then Failure(fetched.error)
    else
      var records := fetched.value;
      if exists i :: 0 <= i < |records| && "key" !in records[i] then Failure(MissingSettingKey)
      else
        var i := FirstIndex(records, rec => HasKey(rec, key));
        if i == |records| then Failure(NotFound(key))
        else Success(InitialContent(records[i]))
  }

  /** `AlistAaminSettings.get` (and `AlistPublicSettings.get`): one setting
      object per fetched record. */
  method FetchSettings(fetched: Result<seq<map<string, Value>>>) returns (r: Result<seq<Setting>>)
    ensures fetched.Failure? ==> r == Failure(fetched.error)
    ensures fetched.Success? ==>
              (r.Failure? <==> exists i :: 0 <= i < |fetched.value| && "key" !in fetched.value[i])
    ensures r.Failure? && fetched.Success? ==> r.error == MissingSettingKey
    ensures r.Success? ==>
              fetched.Success? && |r.value| == |fetched.value| &&
              forall i :: 0 <= i < |r.value| ==>
                fresh(r.value[i]) && r.value[i].Valid() && r.value[i].content == InitialContent(fetched.value[i])
  {
    if fetched.Failure? {
      return Failure(fetched.error);
    }
    var records := fetched.value;
    var built: seq<Setting> := [];
    for n := 0 to |records|
      invariant |built| == n
      invariant forall i :: 0 <= i < n ==> "key" in records[i]
      invariant forall i :: 0 <= i < n ==>
                  fresh(built[i]) && built[i].Valid() && built[i].content == InitialContent(records[i])
    {
      var s := NewSetting(records[n]);
      if s.Failure? {
        return Failure(s.error);
      }
      built := built + [s.value];
    }
    r := Success(built);
  }

  /** The loop of `get_by_key`: the first setting whose "key" compares equal. */
  method FindByKey(settings: seq<Setting>, key: Value) returns (r: Result<Setting>)
    requires forall i :: 0 <= i < |settings| ==> settings[i].Valid()
    ensures r.Success? ==>
              exists i :: 0 <= i < |settings| && r.value == settings[i] &&
                HasKey(settings[i].content, key) &&
                forall j :: 0 <= j < i ==> !HasKey(settings[j].content, key)
    ensures r.Failure? ==>
              r.error == NotFound(key) &&
              forall i :: 0 <= i < |settings| ==> !HasKey(settings[i].content, key)
  {
    for n := 0 to |settings|
      invariant forall j :: 0 <= j < n ==> !HasKey(settings[j].content, key)
    {
      var k := settings[n].Get("key");
      if PyEq(k.value, key) {
        return Success(settings[n]);
      }
    }
    r := Failure(NotFound(key));
  }

  /** `get_by_key(key)`: fetch the list, then search it. */
  method GetByKey(fetched: Result<seq<map<string, Value>>>, key: Value) returns (r: Result<Setting>)
    ensures Lookup(fetched, key).Failure? <==> r.Failure?
    ensures r.Failure? ==> r.error == Lookup(fetched, key).error
    ensures r.Success? ==> fresh(r.value) && r.value.Valid() && r.value.content == Lookup(fetched, key).value
  {
    var settings := FetchSettings(fetched);
    if settings.Failure? {
      return Failure(settings.error);
    }
    ghost var records := fetched.value;
    var found := FindByKey(settings.value, key);
    if found.Failure? {
      forall j | 0 <= j < |records| ensures !HasKey(InitialContent(records[j]), key) {
        assert settings.value[j].content == InitialContent(records[j]);
      }
      LookupMisses(records, key);
      return Failure(found.error);
    }
    ghost var i :| 0 <= i < |settings.value| && found.value == settings.value[i] &&
                  HasKey(settings.value[i].content, key) &&
                  forall j :: 0 <= j < i ==> !HasKey(settings.value[j].content, key);
    forall j | 0 <= j < i ensures !HasKey(InitialContent(records[j]), key) {
      assert settings.value[j].content == InitialContent(records[j]);
    }
    LookupFinds(records, key, i);
    r := found;
  }

  lemma LookupFinds(records: seq<map<string, Value>>, key: Value, i: nat)
    requires forall j :: 0 <= j < |records| ==> "key" in records[j]
    requires i < |records| && HasKey(InitialContent(records[i]), key)
    requires forall j :: 0 <= j < i ==> !HasKey(InitialContent(records[j]), key)
    ensures Lookup(Success(records), key) == Success(InitialContent(records[i]))
  {
    FirstIndexIs(records, rec => HasKey(rec, key), i);
  }

  lemma LookupMisses(records: seq<map<string, Value>>, key: Value)
    requires forall j :: 0 <= j < |records| ==> "key" in records[j]
    requires forall j :: 0 <= j < |records| ==> !HasKey(InitialContent(records[j]), key)
    ensures Lookup(Success(records), key) == Failure(NotFound(key))
  {
  }

  /** `_get_or_update(key, x)`: read the setting; with no new value, or one
      equal to the current one, return the current value; otherwise assign,
      save the single setting (the POST's outcome is `save`) and return the
      new value as given. `saved` is the content sent to the server, if any. */
  method GetOrUpdate(fetched: Result<seq<map<string, Value>>>, key: Value, x: Value, save: Outcome)
    returns (r: Result<Value>, saved: Option<map<string, Value>>)
    ensures var l := Lookup(fetched, key);
            l.Failure? ==> r == Failure(l.error) && saved.None?
    ensures var l := Lookup(fetched, key);
            l.Success? && (x == Null || PyEq(x, ValueOf(l.value))) ==>
              r == Success(ValueOf(l.value)) && saved.None?
    ensures var l := Lookup(fetched, key);
            l.Success? && x != Null && !PyEq(x, ValueOf(l.value)) && Assigned(l.value, x).Failure? ==>
              r == Failure(Assigned(l.value, x).error) && saved.None?
    ensures var l := Lookup(fetched, key);
            l.Success? && x != Null && !PyEq(x, ValueOf(l.value)) && Assigned(l.value, x).Success? ==>
              saved == Some(Assigned(l.value, x).value) &&
              r == (if save.Pass? then Success(x) else Failure(save.error))
  {
    saved := None;
    var s := GetByKey(fetched, key);
    if s.Failure? {
      return Failure(s.error), None;
    }
    var current := s.value.GetValue();
    if x == Null || PyEq(x, current) {
      return Success(current), None;
    }
    var stored := s.value.SetValue(x);
    if stored.Failure? {
      return Failure(stored.error), None;
    }
    saved := Some(s.value.content);
    if save.Fail? {
      return Failure(save.error), saved;
    }
    r := Success(x);
  }
}
