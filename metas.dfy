/** Metas (alist/meta.py): the per-path meta record with six declared
    fields plus an optional 'id', whose list fields are stored joined with
    ','; the create guard; the meta collection and its lookup. */
module Metas {
  import opened Values
  import opened Records

  /** The six declared fields of a meta. */
  const MetaKeys: set<string> := {"path", "password", "hide", "only_shows", "upload", "readme"}

  /** The fields whose non-None values are stored as a ','-joined str. */
  const JoinedKeys: set<string> := {"hide", "only_shows"}

  /** The template a meta starts from: every declared field None. */
  const EmptyMeta: map<string, Value> := map k | k in MetaKeys :: Null

  /** A meta's key set: the declared fields, and perhaps 'id'. */
  predicate WellFormed(m: map<string, Value>) {
    MetaKeys <= m.Keys <= MetaKeys + {"id"}
  }

  function StrsOf(items: seq<Value>): (strs: seq<string>)
    requires forall i :: 0 <= i < |items| ==> items[i].Str?
    ensures |strs| == |items| && forall i :: 0 <= i < |items| ==> strs[i] == items[i].s
  {
    seq(|items|, i requires 0 <= i < |items| => items[i].s)
  }

  /** The one-character strings of `s`, which is what str.join iterates over. */
  function Chars(s: string): (cs: seq<string>)
    ensures |cs| == |s| && forall i :: 0 <= i < |s| ==> cs[i] == [s[i]]
  {
    seq(|s|, i requires 0 <= i < |s| => [s[i]])
  }

  /** `','.join(v)`: a list of str is joined; a str is joined character by
      character; anything else (a list holding a non-str included) is a
      TypeError. */
  function JoinValue(v: Value): (r: Result<Value>)
    ensures r.Success? ==> r.value.Str?
    ensures r.Failure? ==> r.error == TypeError
    ensures r.Success? <==> v.Str? || (v.List? && forall i :: 0 <= i < |v.items| ==> v.items[i].Str?)
    ensures v.Str? ==> r == Success(Str(Join(Chars(v.s), ',')))
    ensures v.List? && r.Success? ==> r.value == Str(Join(StrsOf(v.items), ','))
    ensures v == List([]) ==> r == Success(Str(""))
  {
    match v
    case List(items) =>
      if forall i :: 0 <= i < |items| ==> items[i].Str? then Success(Str(Join(StrsOf(items), ',')))
      else Failure(TypeError)
    case Str(s) => Success(Str(Join(Chars(s), ',')))
    case _ => Failure(TypeError)
  }

  /** What `__setitem__` stores under `key`: joined for 'hide' and
      'only_shows' unless None, verbatim otherwise. */
  function Stored(key: string, v: Value): (r: Result<Value>)
    ensures key !in JoinedKeys || v == Null ==> r == Success(v)
    ensures key in JoinedKeys && v != Null ==> r == JoinValue(v)
  {
    if key in JoinedKeys && v != Null then JoinValue(v) else Success(v)
  }

  /** `meta[key] = v` on the dict `m`: a key already present, or 'id', is
      written with the stored form of `v`; any other key is a KeyError. */
  function Assign(m: map<string, Value>, key: string, v: Value): (r: Result<map<string, Value>>)
    ensures !(key in m || key == "id") ==> r == Failure(KeyError(Str(key)))
    ensures (key in m || key == "id") ==> (r.Success? <==> Stored(key, v).Success?)
    ensures r.Failure? && (key in m || key == "id") ==> r.error == TypeError
    ensures r.Success? ==>
              r.value.Keys == m.Keys + {key} && r.value[key] == Stored(key, v).value &&
              forall k :: k in m && k != key ==> r.value[k] == m[k]
  {
    if !(key in m || key == "id") then Failure(KeyError(Str(key)))
    else match Stored(key, v)
      case Success(s) => Success(m[key := s])
      case Failure(e) => Failure(e)
  }

  /** An assignment never takes a meta outside its key set. */
  lemma AssignKeepsWellFormed(m: map<string, Value>, key: string, v: Value)
    requires WellFormed(m)
    ensures Assign(m, key, v).Success? ==> WellFormed(Assign(m, key, v).value)
  {
  }

  /** A list of comma-free names written to 'hide' or 'only_shows' is
      recovered by splitting the stored text on ','. */
  lemma JoinedRoundTrip(m: map<string, Value>, key: string, items: seq<Value>)
    requires WellFormed(m) && key in JoinedKeys
    requires |items| >= 1 && forall i :: 0 <= i < |items| ==> items[i].Str? && ',' !in items[i].s
    ensures Assign(m, key, List(items)).Success?
    ensures var stored := Assign(m, key, List(items)).value[key];
            stored.Str? && Split(stored.s, ',') == StrsOf(items)
  {
    SplitJoin(StrsOf(items), ',');
  }

  /** Joining the characters of a non-empty text puts a ',' between each
      pair, so the result has one character fewer than twice as many. */
  lemma {:induction false} JoinCharsLength(s: string)
    requires |s| >= 1
    ensures |Join(Chars(s), ',')| == 2 * |s| - 1
    decreases |s|
  {
    if |s| > 1 {
      assert Chars(s)[1..] == Chars(s[1..]);
      JoinCharsLength(s[1..]);
    }
  }

  /** Keys accepted at construction: the declared ones and 'id'. */
  function Accepted(kwargs: map<string, Value>): set<string> {
    kwargs.Keys * (MetaKeys + {"id"})
  }

  /** The dict `AlistMeta(**kwargs)` builds: the template overlaid with the
      stored form of every accepted argument, other arguments dropped. A
      list field that cannot be joined makes the construction a TypeError. */
  function InitialMeta(kwargs: map<string, Value>): (r: Result<map<string, Value>>)
    ensures r.Failure? ==> r.error == TypeError
    ensures r.Success? ==> WellFormed(r.value)
  {
    if exists k :: k in Accepted(kwargs) && Stored(k, kwargs[k]).Failure? then Failure(TypeError)
    else Success(map k | k in MetaKeys + Accepted(kwargs) :: if k in kwargs then Stored(k, kwargs[k]).value else Null)
  }

  /** Construction fails exactly when an accepted list field cannot be
      joined; otherwise every declared field holds the stored form of its
      argument or None, 'id' is present exactly when supplied, and no other
      key is. */
  lemma InitialMetaContent(kwargs: map<string, Value>)
    ensures var r := InitialMeta(kwargs);
            (r.Failure? <==> exists k :: k in Accepted(kwargs) && Stored(k, kwargs[k]).Failure?) &&
            (r.Success? ==> r.value.Keys == MetaKeys + Accepted(kwargs)) &&
            (r.Success? ==> forall k :: k in r.value ==>
                              r.value[k] == if k in kwargs then Stored(k, kwargs[k]).value else Null)
  {
  }

  /** An AlistMeta object. */
  class Meta {
    var fields: map<string, Value>

    ghost predicate Valid()
      reads this
    {
      WellFormed(fields)
    }

    /** The dict before any argument is applied: a copy of the template. */
    constructor Empty()
      ensures Valid() && fields == EmptyMeta
    {
      fields := EmptyMeta;
    }

    /** `meta[key] = v`. */
    method SetItem(key: string, v: Value) returns (r: Outcome)
      requires Valid()
      modifies this
      ensures Valid()
      ensures var a := Assign(old(fields), key, v);
              if a.Success? then fields == a.value && r == Pass
              else fields == old(fields) && r == Fail(a.error)
    {
      if !(key in fields || key == "id") {
        return Fail(KeyError(Str(key)));
      }
      if key in JoinedKeys && v != Null {
        var joined := JoinValue(v);
        if joined.Failure? {
          return Fail(joined.error);
        }
        fields := fields[key := joined.value];
      } else {
        fields := fields[key := v];
      }
      r := Pass;
    }

    /** `del meta[key]`: raising NotImplemented, which is not an exception
        class, fails with a TypeError for every key. */
    method DelItem(key: string) returns (r: Outcome)
      ensures r.Fail? && r.error == TypeError
    {
      r := Fail(TypeError);
    }
  }

  /** Every accepted argument among `done` has a stored form. */
  predicate Joinable(kwargs: map<string, Value>, done: set<string>) {
    forall k :: k in Accepted(kwargs) && k in done ==> Stored(k, kwargs[k]).Success?
  }

  /** `m` is the dict once the arguments named in `done` have been assigned. */
  ghost predicate Overlaid(kwargs: map<string, Value>, done: set<string>, m: map<string, Value>)
    requires done <= kwargs.Keys && Joinable(kwargs, done)
  {
    m.Keys == MetaKeys + Accepted(kwargs) * done &&
    forall j :: j in m ==> m[j] == if j in done then Stored(j, kwargs[j]).value else Null
  }

  /** Assigning one more argument: an undeclared key is a KeyError that
      changes nothing, a list that cannot be joined is a TypeError, and
      anything else extends the dict. */
  lemma PartialStep(kwargs: map<string, Value>, done: set<string>, k: string, m: map<string, Value>)
    requires done <= kwargs.Keys && Joinable(kwargs, done) && Overlaid(kwargs, done, m)
    requires k in kwargs && k !in done
    ensures var a := Assign(m, k, kwargs[k]);
            a.Success? ==> Joinable(kwargs, done + {k}) && Overlaid(kwargs, done + {k}, a.value)
    ensures var a := Assign(m, k, kwargs[k]);
            a.Failure? && IsKeyError(a.error) ==> Joinable(kwargs, done + {k}) && Overlaid(kwargs, done + {k}, m)
    ensures var a := Assign(m, k, kwargs[k]);
            a.Failure? && !IsKeyError(a.error) ==> k in Accepted(kwargs) && Stored(k, kwargs[k]).Failure?
  {
    if k !in MetaKeys + {"id"} {
      assert k !in m;
      assert Joinable(kwargs, done + {k});
    } else if Stored(k, kwargs[k]).Success? {
      assert Joinable(kwargs, done + {k});
    }
  }

  /** With every argument assigned, the dict is the one InitialMeta describes. */
  lemma PartialAll(kwargs: map<string, Value>, m: map<string, Value>)
    requires Joinable(kwargs, kwargs.Keys) && Overlaid(kwargs, kwargs.Keys, m)
    ensures InitialMeta(kwargs) == Success(m)
  {
    assert Accepted(kwargs) * kwargs.Keys == Accepted(kwargs);
    assert !exists k :: k in Accepted(kwargs) && Stored(k, kwargs[k]).Failure?;
    var built := map k | k in MetaKeys + Accepted(kwargs) :: if k in kwargs then Stored(k, kwargs[k]).value else Null;
    assert built == m;
  }

  /** One accepted argument without a stored form fails the construction. */
  lemma InitialMetaFails(kwargs: map<string, Value>, k: string)
    requires k in Accepted(kwargs) && Stored(k, kwargs[k]).Failure?
    ensures InitialMeta(kwargs) == Failure(TypeError)
  {
  }

  /** A server record stores 'hide' already joined, as a str. Building a
      meta from it joins that str again, character by character, so a
      stored "ab" comes back as "a,b": whenever the text has two or more
      characters, the rebuilt meta's 'hide' differs from the server's. */
  lemma RefetchedHideIsRejoined(record: map<string, Value>, s: string)
    requires "hide" in record && record["hide"] == Str(s) && |s| >= 2
    requires InitialMeta(record).Success?
    ensures InitialMeta(record).value["hide"] == Str(Join(Chars(s), ','))
    ensures InitialMeta(record).value["hide"] != record["hide"]
  {
    JoinCharsLength(s);
  }

  /** `AlistMeta(**kwargs)`: start from the template and assign every
      argument, ignoring the KeyErrors of undeclared keys. */
  method NewMeta(kwargs: map<string, Value>) returns (r: Result<Meta>)
    ensures r.Success? <==> InitialMeta(kwargs).Success?
    ensures r.Failure? ==> r.error == InitialMeta(kwargs).error
    ensures r.Success? ==> fresh(r.value) && r.value.Valid() && r.value.fields == InitialMeta(kwargs).value
  {
    var m := new Meta.Empty();
    ghost var done: set<string> := {};
    var todo := kwargs.Keys;
    while todo != {}
      invariant todo <= kwargs.Keys && done == kwargs.Keys - todo
      invariant Joinable(kwargs, done)
      invariant fresh(m) && m.Valid() && Overlaid(kwargs, done, m.fields)
      decreases |todo|
    {
      var k :| k in todo;
      PartialStep(kwargs, done, k, m.fields);
      var o := m.SetItem(k, kwargs[k]);
      if o.Fail? && !IsKeyError(o.error) {
        InitialMetaFails(kwargs, k);
        return Failure(o.error);
      }
      todo := todo - {k};
      done := done + {k};
    }
    PartialAll(kwargs, m.fields);
    r := Success(m);
  }

  /** `_create(**kwargs)`: without a 'path' argument nothing is posted;
      otherwise the meta built from the arguments is posted, and the POST's
      reply (`post`) is the result. `sent` is the body posted, if any. */
  method Create(kwargs: map<string, Value>, post: Result<Value>)
    returns (r: Result<Value>, sent: Option<map<string, Value>>)
    ensures "path" !in kwargs ==> r == Failure(MissingMetaPath) && sent.None?
    ensures "path" in kwargs && InitialMeta(kwargs).Failure? ==> r == Failure(TypeError) && sent.None?
    ensures "path" in kwargs && InitialMeta(kwargs).Success? ==>
              sent == Some(InitialMeta(kwargs).value) && sent.value["path"] == kwargs["path"] && r == post
  {
    if "path" !in kwargs {
      return Failure(MissingMetaPath), None;
    }
    var m := NewMeta(kwargs);
    if m.Failure? {
      return Failure(m.error), None;
    }
    sent := Some(m.value.fields);
    r := post;
  }

  // ---------------------------------------------------------------------
  // The meta collection

  /** Whether constructing a meta from this server record fails. */
  predicate MetaFails(record: map<string, Value>) {
    InitialMeta(record).Failure?
  }

  /** The field maps of a list of metas. */
  ghost function MetaFields(metas: seq<Meta>): (fs: seq<map<string, Value>>)
    reads set i | 0 <= i < |metas| :: metas[i]
    ensures |fs| == |metas| && forall i :: 0 <= i < |metas| ==> fs[i] == metas[i].fields
  {
    if metas == [] then [] else [metas[0].fields] + MetaFields(metas[1..])
  }

  /** The search of `get_meta` over constructed metas, by 'id' or 'path'. */
  method FindMeta(metas: seq<Meta>, x: Value) returns (r: Result<Meta>)
    requires forall i :: 0 <= i < |metas| ==> "path" in metas[i].fields
    ensures forall i :: 0 <= i < |metas| ==> "path" in MetaFields(metas)[i]
    ensures r == Picked(FirstMatch(MetaFields(metas), "path", x), metas)
  {
    ghost var fs := MetaFields(metas);
    for n := 0 to |metas|
      invariant forall j :: 0 <= j < n ==> Passed(fs[j], "path", x)
    {
      var m := metas[n];
      assert fs[n] == m.fields;
      var hit := IdOrMatches(m.fields, "path", x);
      if hit != Success(false) {
        FirstMatchStopsAt(fs, "path", x, n);
        return if hit.Failure? then Failure(hit.error) else Success(m);
      }
    }
    r := Failure(NotFound(x));
  }

  /** AlistAdminMetas: the list of metas last fetched. */
  class MetaList {
    var metas: seq<Meta>

    constructor ()
      ensures metas == []
    {
      metas := [];
    }

    /** The state `get` leaves for the server records `records`: one meta
        per record, in order, up to the first record whose construction
        fails. */
    ghost predicate Loaded(records: seq<map<string, Value>>)
      reads this, set i | 0 <= i < |metas| :: metas[i]
    {
      var k := FirstIndex(records, MetaFails);
      |metas| == k &&
      forall i :: 0 <= i < k ==> metas[i].fields == InitialMeta(records[i]).value
    }

    /** `get`: clear the list, fetch (`fetched`), and append one meta per
        record; the list is returned. A failed fetch leaves the list empty;
        a failed construction leaves the metas built before it. */
    method Get(fetched: Result<seq<map<string, Value>>>) returns (r: Result<seq<Meta>>)
      modifies this
      ensures fetched.Failure? ==> metas == [] && r == Failure(fetched.error)
      ensures fetched.Success? ==> Loaded(fetched.value) && forall i :: 0 <= i < |metas| ==> fresh(metas[i])
      ensures fetched.Success? ==>
                var k := FirstIndex(fetched.value, MetaFails);
                r == if k == |fetched.value| then Success(metas) else Failure(InitialMeta(fetched.value[k]).error)
    {
      metas := [];
      if fetched.Failure? {
        return Failure(fetched.error);
      }
      var records := fetched.value;
      var built: seq<Meta> := [];
      for n := 0 to |records|
        invariant |built| == n
        invariant forall i :: 0 <= i < n ==> !MetaFails(records[i])
        invariant forall i :: 0 <= i < n ==>
                    fresh(built[i]) && built[i].fields == InitialMeta(records[i]).value
      {
        var m := NewMeta(records[n]);
        if m.Failure? {
          FirstIndexIs(records, MetaFails, n);
          metas := built;
          return Failure(m.error);
        }
        ghost var before := built;
        built := built + [m.value];
        forall i | 0 <= i <= n
          ensures fresh(built[i]) && built[i].fields == InitialMeta(records[i]).value
        {
          if i < n {
            assert built[i] == before[i];
          }
        }
      }
      FirstIndexNone(records, MetaFails);
      metas := built;
      r := Success(metas);
    }

    /** `get_meta(x)`: refresh the list, then search it. */
    method GetMeta(fetched: Result<seq<map<string, Value>>>, x: Value) returns (r: Result<Meta>)
      modifies this
      ensures fetched.Failure? ==> metas == [] && r == Failure(fetched.error)
      ensures fetched.Success? ==> Loaded(fetched.value)
      ensures fetched.Success? && FirstIndex(fetched.value, MetaFails) < |fetched.value| ==>
                r == Failure(TypeError)
      ensures fetched.Success? && FirstIndex(fetched.value, MetaFails) == |fetched.value| ==>
                r == Picked(FirstMatch(MetaFields(metas), "path", x), metas)
    {
      var all := Get(fetched);
      if all.Failure? {
        return Failure(all.error);
      }
      assert "path" in MetaKeys;
      r := FindMeta(all.value, x);
    }
  }
}
