/** The storage-account record of alist/account.py (AlistAccount): a dict
    with the declared fields, plus an 'id' when the server supplies one. */
module AccountRecord {
  import opened Values

  /** The number of fields `empty_account` declares. */
  const FieldCount := 42

  /** The `i`-th key of `empty_account`, in declaration order. */
  function AccountField(i: nat): string
    requires i < FieldCount
  {
    match i
    case 0 => "name"
    case 1 => "index"
    case 2 => "type"
    case 3 => "username"
    case 4 => "password"
    case 5 => "refresh_token"
    case 6 => "access_token"
    case 7 => "root_folder"
    case 8 => "status"
    case 9 => "CronId"
    case 10 => "DriveId"
    case 11 => "limit"
    case 12 => "order_by"
    case 13 => "order_direction"
    case 14 => "updated_at"
    case 15 => "search"
    case 16 => "client_id"
    case 17 => "client_secret"
    case 18 => "zone"
    case 19 => "redirect_uri"
    case 20 => "site_url"
    case 21 => "site_id"
    case 22 => "internal_type"
    case 23 => "webdav_proxy"
    case 24 => "proxy"
    case 25 => "webdav_direct"
    case 26 => "down_proxy_url"
    case 27 => "api_proxy_url"
    case 28 => "bucket"
    case 29 => "endpoint"
    case 30 => "region"
    case 31 => "access_key"
    case 32 => "access_secret"
    case 33 => "custom_host"
    case 34 => "extract_folder"
    case 35 => "bool_1"
    case 36 => "algorithms"
    case 37 => "client_version"
    case 38 => "package_name"
    case 39 => "user_agent"
    case 40 => "captcha_token"
    case 41 => "device_id"
  }

  /** The declared fields of an account. */
  const AccountKeys: set<string> := set i | 0 <= i < FieldCount :: AccountField(i)

  /** 'id' is not a declared field. */
  lemma IdNotDeclared()
    ensures "id" !in AccountKeys
  {
  }

  /** An account's key set: the declared fields, and perhaps 'id'. */
  predicate WellFormed(m: map<string, Value>) {
    AccountKeys <= m.Keys <= AccountKeys + {"id"}
  }

  /** Every account carries the fields the rest of the client reads. */
  lemma DeclaredFields(m: map<string, Value>)
    requires WellFormed(m)
    ensures "name" in m && "type" in m && "updated_at" in m && "index" in m
  {
    assert AccountField(0) == "name" && AccountField(1) == "index";
    assert AccountField(2) == "type" && AccountField(14) == "updated_at";
  }

  /** `account[key] = v` on the dict `m`: a key already present, or 'id',
      is written verbatim; any other key is a KeyError. */
  function Assign(m: map<string, Value>, key: string, v: Value): (r: Result<map<string, Value>>)
    ensures r.Success? <==> key in m || key == "id"
    ensures r.Failure? ==> r.error == KeyError(Str(key))
    ensures r.Success? ==>
              r.value.Keys == m.Keys + {key} && r.value[key] == v &&
              forall k :: k in m && k != key ==> r.value[k] == m[k]
  {
    if key in m || key == "id" then Success(m[key := v]) else Failure(KeyError(Str(key)))
  }

  /** Assignments keep an account within its key set. */
  lemma AssignKeepsWellFormed(m: map<string, Value>, key: string, v: Value)
    requires WellFormed(m)
    ensures Assign(m, key, v).Success? ==> WellFormed(Assign(m, key, v).value)
  {
  }

  /** The dict a record with the declared fields `declared` builds from
      `kwargs`: every declared field holds its argument or None, 'id' is
      kept when supplied, and any other argument is dropped. */
  function Seeded(declared: set<string>, kwargs: map<string, Value>): (m: map<string, Value>)
    requires "id" !in declared
    ensures m.Keys == declared + kwargs.Keys * {"id"}
    ensures forall k :: k in m ==> m[k] == if k in kwargs then kwargs[k] else Null
  {
    map k | k in declared + kwargs.Keys * {"id"} :: if k in kwargs then kwargs[k] else Null
  }

  /** `m` is the dict seeded with the arguments of `kwargs` named in `done`. */
  ghost predicate SeededWith(declared: set<string>, kwargs: map<string, Value>, done: set<string>, m: map<string, Value>)
    requires done <= kwargs.Keys
  {
    m.Keys == declared + done * {"id"} &&
    forall j :: j in m ==> m[j] == if j in done then kwargs[j] else Null
  }

  /** One iteration of the seeding loop: assigning the next argument, or
      having it refused, extends the seeded arguments by one. */
  lemma OverlayStep(declared: set<string>, kwargs: map<string, Value>, done: set<string>, k: string, m: map<string, Value>)
    requires "id" !in declared && done <= kwargs.Keys && k in kwargs && k !in done
    requires SeededWith(declared, kwargs, done, m)
    ensures var a := Assign(m, k, kwargs[k]);
            SeededWith(declared, kwargs, done + {k}, if a.Success? then a.value else m)
  {
  }

  /** The dict `AlistAccount(**kwargs)` builds. */
  function InitialAccount(kwargs: map<string, Value>): (m: map<string, Value>)
    ensures WellFormed(m) && ("id" in m <==> "id" in kwargs)
  {
    IdNotDeclared();
    Seeded(AccountKeys, kwargs)
  }

  /** An AlistAccount object. */
  class Account {
    var fields: map<string, Value>

    ghost predicate Valid()
      reads this
    {
      WellFormed(fields)
    }

    /** `AlistAccount(**kwargs)`: seed every declared field with None, then
        assign every argument, ignoring the KeyErrors of undeclared keys.
        It never fails. */
    constructor (kwargs: map<string, Value>)
      ensures Valid() && fields == InitialAccount(kwargs)
    {
      fields := map k | k in AccountKeys :: Null;
      new;
      IdNotDeclared();
      assert fields.Keys == AccountKeys;
      Overlay(kwargs);
    }

    /** The assignment loop of `__init__`, over a dict whose fields are all
        None and which has no 'id': each argument is assigned, and refused
        ones are skipped. */
    method Overlay(kwargs: map<string, Value>)
      requires "id" !in fields && forall k :: k in fields ==> fields[k] == Null
      modifies this
      ensures "id" !in old(fields) && fields == Seeded(old(fields).Keys, kwargs)
    {
      ghost var declared := fields.Keys;
      ghost var done: set<string> := {};
      var todo := kwargs.Keys;
      while todo != {}
        invariant todo <= kwargs.Keys && done == kwargs.Keys - todo
        invariant SeededWith(declared, kwargs, done, fields)
        decreases |todo|
      {
        var k :| k in todo;
        OverlayStep(declared, kwargs, done, k, fields);
        var o := SetItem(k, kwargs[k]);
        todo := todo - {k};
        done := done + {k};
      }
      assert fields == Seeded(declared, kwargs);
    }

    /** `account[key] = v`. */
    method SetItem(key: string, v: Value) returns (r: Outcome)
      modifies this
      ensures old(Valid()) ==> Valid()
      ensures var a := Assign(old(fields), key, v);
              if a.Success? then fields == a.value && r == Pass
              else fields == old(fields) && r == Fail(a.error)
    {
      if key in fields || key == "id" {
        fields := fields[key := v];
        r := Pass;
      } else {
        r := Fail(KeyError(Str(key)));
      }
    }

    /** `del account[key]`: raising NotImplemented fails with a TypeError. */
    method DelItem(key: string) returns (r: Outcome)
      ensures r.Fail? && r.error == TypeError
    {
      r := Fail(TypeError);
    }
  }
}
