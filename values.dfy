/** Python values as the alist client sees them, the exceptions it raises,
    and the string helpers (str.split, str.join, bytes.strip, str.rstrip)
    that the core relies on. */
module Values {

  datatype Option<+T> = None | Some(value: T)

  /** A JSON-shaped Python value: None, bool, int, str, list or dict. */
  datatype Value =
    | Null
    | Bool(b: bool)
    | Int(i: int)
    | Str(s: string)
    | List(items: seq<Value>)
    | Obj(fields: map<string, Value>)

  /** The exceptions raised by the core, each with the data its message carries. */
  datatype Error =
    | KeyError(key: Value)                  // KeyError(key)
    | NotFound(query: Value)                // KeyError("<query> not found")
    | NotASettingField                      // KeyError("key must be in ...")
    | OnlyValueWritable                     // KeyError("only value allow modify")
    | Unsupported(driverType: Value)        // KeyError("<type> not support")
    | MissingSettingKey                     // ValueError('must set "key"')
    | NotAnOption(options: Value)           // ValueError("for select setting, value must be ...")
    | MissingMetaPath                       // ValueError("meta must set path")
    | MissingRequired(driverType: Value, names: set<Value>) // ValueError("<type> must set ...")
    | InvalidJson(text: string)             // ValueError("Invalid json content: ...")
    | HttpError(code: Value, message: Value) // requests.HTTPError(code, message, response=...)
    | TypeError
    | AttributeError
    | NotImplementedError
    | Transport(detail: string)             // anything the HTTP layer raised

  /** The errors a Python `except KeyError` clause catches. */
  predicate IsKeyError(e: Error) {
    e.KeyError? || e.NotFound? || e.NotASettingField? || e.OnlyValueWritable? || e.Unsupported?
  }

  datatype Result<+T> = Success(value: T) | Failure(error: Error)

  datatype Outcome = Pass | Fail(error: Error)

  /** Python truthiness (`if v:`). */
  predicate Truthy(v: Value) {
    match v
    case Null => false
    case Bool(b) => b
    case Int(i) => i != 0
    case Str(s) => s != ""
    case List(xs) => xs != []
    case Obj(m) => m != map[]
  }

  predicate IsNumber(v: Value) { v.Bool? || v.Int? }

  function NumberOf(v: Value): int
    requires IsNumber(v)
  {
    if v.Int? then v.i else if v.b then 1 else 0
  }

  /** Python `a == b`: booleans compare equal to the integers 0 and 1. */
  predicate PyEq(a: Value, b: Value) {
    if IsNumber(a) && IsNumber(b) then NumberOf(a) == NumberOf(b) else a == b
  }

  /** The index of the first element of `s` satisfying `p`, or |s| when none does. */
  function FirstIndex<T>(s: seq<T>, p: T -> bool): (i: nat)
    ensures i <= |s|
    ensures i < |s| ==> p(s[i])
    ensures forall j :: 0 <= j < i ==> !p(s[j])
  {
    if |s| == 0 then 0
    else if p(s[0]) then 0
    else 1 + FirstIndex(s[1..], p)
  }

  /** FirstIndex is the matching index that no earlier element matches. */
  lemma {:induction false} FirstIndexIs<T>(s: seq<T>, p: T -> bool, i: nat)
    requires i < |s| && p(s[i])
    requires forall j :: 0 <= j < i ==> !p(s[j])
    ensures FirstIndex(s, p) == i
  {
    if i > 0 {
      FirstIndexIs(s[1..], p, i - 1);
    }
  }

  /** FirstIndex is |s| exactly when no element matches. */
  lemma FirstIndexNone<T>(s: seq<T>, p: T -> bool)
    requires forall j :: 0 <= j < |s| ==> !p(s[j])
    ensures FirstIndex(s, p) == |s|
  {
  }

  // ---------------------------------------------------------------------
  // str.join and str.split with a one-character separator

  /** `sep.join(parts)`. */
  function Join(parts: seq<string>, sep: char): (r: string)
    ensures |parts| == 0 ==> r == ""
    ensures |parts| >= 1 ==> |parts[0]| <= |r| && r[..|parts[0]|] == parts[0]
    ensures |parts| >= 2 ==> |parts[0]| < |r| && r[|parts[0]|] == sep
  {
    if |parts| == 0 then ""
    else if |parts| == 1 then parts[0]
    else parts[0] + [sep] + Join(parts[1..], sep)
  }

  /** `s.split(sep)`: the pieces between the occurrences of `sep`. */
  function Split(s: string, sep: char): (parts: seq<string>)
    ensures |parts| >= 1
    ensures forall i :: 0 <= i < |parts| ==> sep !in parts[i]
  {
    if |s| == 0 then [""]
    else
      var rest := Split(s[1..], sep);
      if s[0] == sep then [""] + rest
      else [[s[0]] + rest[0]] + rest[1..]
  }

  lemma JoinCons(c: char, parts: seq<string>, sep: char)
    requires |parts| >= 1
    ensures Join([[c] + parts[0]] + parts[1..], sep) == [c] + Join(parts, sep)
  {
    var ps := [[c] + parts[0]] + parts[1..];
    if |parts| > 1 {
      assert ps[1..] == parts[1..];
    }
  }

  /** Joining the pieces of a split with the same separator gives the string back. */
  lemma {:induction false} JoinSplit(s: string, sep: char)
    ensures Join(Split(s, sep), sep) == s
  {
    if |s| > 0 {
      var rest := Split(s[1..], sep);
      JoinSplit(s[1..], sep);
      if s[0] == sep {
        assert ([""] + rest)[1..] == rest;
      } else {
        JoinCons(s[0], rest, sep);
      }
      assert s == [s[0]] + s[1..];
    }
  }

  lemma {:induction false} SplitNoSep(s: string, sep: char)
    requires sep !in s
    ensures Split(s, sep) == [s]
  {
    if |s| > 0 {
      SplitNoSep(s[1..], sep);
      assert [s[0]] + s[1..] == s;
    }
  }

  lemma {:induction false} SplitAtSep(a: string, sep: char, t: string)
    requires sep !in a
    ensures Split(a + [sep] + t, sep) == [a] + Split(t, sep)
  {
    var s := a + [sep] + t;
    if |a| == 0 {
      assert s[1..] == t;
    } else {
      assert s[1..] == a[1..] + [sep] + t;
      SplitAtSep(a[1..], sep, t);
      assert [a[0]] + a[1..] == a;
    }
  }

  /** Splitting a join of separator-free pieces gives the pieces back. */
  lemma {:induction false} SplitJoin(parts: seq<string>, sep: char)
    requires |parts| >= 1
    requires forall i :: 0 <= i < |parts| ==> sep !in parts[i]
    ensures Split(Join(parts, sep), sep) == parts
  {
    if |parts| == 1 {
      SplitNoSep(parts[0], sep);
    } else {
      SplitJoin(parts[1..], sep);
      SplitAtSep(parts[0], sep, Join(parts[1..], sep));
      assert [parts[0]] + parts[1..] == parts;
    }
  }

  /** The first piece of a split is the prefix before the first separator. */
  lemma FirstPiece(s: string, sep: char)
    ensures var p := Split(s, sep)[0];
            |p| <= |s| && s[..|p|] == p && (|p| == |s| || s[|p|] == sep)
  {
    var parts := Split(s, sep);
    JoinSplit(s, sep);
    if |parts| > 1 {
      assert Join(parts, sep) == parts[0] + [sep] + Join(parts[1..], sep);
    }
  }

  // ---------------------------------------------------------------------
  // bytes.strip() and str.rstrip(c)

  /** The ASCII whitespace that bytes.strip() removes. */
  predicate IsSpace(c: char) {
    c == ' ' || c == '\t' || c == '\n' || c == '\r' || c == '\U{B}' || c == '\U{C}'
  }

  function TrimLeft(s: string): (r: string)
    ensures |r| <= |s| && r == s[|s| - |r|..]
    ensures r == "" || !IsSpace(r[0])
    ensures forall i :: 0 <= i < |s| - |r| ==> IsSpace(s[i])
  {
    if |s| > 0 && IsSpace(s[0]) then TrimLeft(s[1..]) else s
  }

  function TrimRight(s: string): (r: string)
    ensures |r| <= |s| && r == s[..|r|]
    ensures r == "" || !IsSpace(r[|r| - 1])
    ensures forall i :: |r| <= i < |s| ==> IsSpace(s[i])
  {
    if |s| > 0 && IsSpace(s[|s| - 1]) then TrimRight(s[..|s| - 1]) else s
  }

  /** A slice of `s` that follows a blank prefix of a prefix `t` of `s`,
      itself followed in `s` by blanks, lies between two blank pads. */
  lemma SliceBetweenPads(s: string, t: string, r: string)
    requires |t| <= |s| && t == s[..|t|]
    requires forall k :: |t| <= k < |s| ==> IsSpace(s[k])
    requires |r| <= |t| && r == t[|t| - |r|..]
    requires forall k :: 0 <= k < |t| - |r| ==> IsSpace(t[k])
    ensures var i := |t| - |r|;
            r == s[i..i + |r|] && Blank(s[..i]) && Blank(s[i + |r|..])
  {
    var i := |t| - |r|;
    assert s[i..i + |r|] == t[i..];
    forall j | 0 <= j < i
      ensures IsSpace(s[..i][j])
    {
      assert s[..i][j] == t[j];
    }
    forall j | 0 <= j < |s| - |t|
      ensures IsSpace(s[|t|..][j])
    {
      assert s[|t|..][j] == s[|t| + j];
    }
  }

  /** `s.strip()`: leading and trailing whitespace removed. The result is
      the slice of `s` between two blank pads and, unless empty, starts and
      ends with a non-whitespace character. */
  function Strip(s: string): (r: string)
    ensures |r| <= |s|
    ensures r == "" || (!IsSpace(r[0]) && !IsSpace(r[|r| - 1]))
    ensures var i := |TrimRight(s)| - |r|;
            0 <= i && i + |r| <= |s| && r == s[i..i + |r|] && Blank(s[..i]) && Blank(s[i + |r|..])
  {
    var t := TrimRight(s);
    var r := TrimLeft(t);
    SliceBetweenPads(s, t, r);
    if r == "" then r
    else
      assert r == t[|t| - |r|..];
      assert t != "" && !IsSpace(t[|t| - 1]);
      assert r[|r| - 1] == t[|t| - 1];
      r
  }

  /** Stripping leaves nothing exactly when the text is all whitespace. */
  lemma StripEmptyIffBlank(s: string)
    ensures Strip(s) == "" <==> Blank(s)
  {
    var t := TrimRight(s);
    if Strip(s) == "" {
      forall i | 0 <= i < |s| ensures IsSpace(s[i]) {
        if i < |t| { assert t[i] == s[i]; }
      }
    } else {
      var r := Strip(s);
      assert r[0] == t[|t| - |r|];
      assert !IsSpace(s[|t| - |r|]);
    }
  }

  predicate Blank(s: string) {
    forall i :: 0 <= i < |s| ==> IsSpace(s[i])
  }

  lemma {:induction false} TrimRightPadded(w: string, b: string)
    requires w == "" || !IsSpace(w[|w| - 1])
    requires Blank(b)
    ensures TrimRight(w + b) == w
    decreases |b|
  {
    if |b| > 0 {
      assert (w + b)[..|w + b| - 1] == w + b[..|b| - 1];
      TrimRightPadded(w, b[..|b| - 1]);
    } else {
      assert w + b == w;
    }
  }

  lemma {:induction false} TrimLeftPadded(a: string, w: string)
    requires w == "" || !IsSpace(w[0])
    requires Blank(a)
    ensures TrimLeft(a + w) == w
    decreases |a|
  {
    if |a| > 0 {
      assert (a + w)[1..] == a[1..] + w;
      TrimLeftPadded(a[1..], w);
    } else {
      assert a + w == w;
    }
  }

  /** Whitespace around a word is exactly what strip removes. */
  lemma StripPadded(a: string, w: string, b: string)
    requires Blank(a) && Blank(b)
    requires w != "" && !IsSpace(w[0]) && !IsSpace(w[|w| - 1])
    ensures Strip(a + w + b) == w
  {
    var aw := a + w;
    assert aw[|aw| - 1] == w[|w| - 1];
    TrimRightPadded(aw, b);
    TrimLeftPadded(a, w);
    assert a + w + b == aw + b;
  }

  /** `s.rstrip(c)`: every trailing `c` removed. */
  function RStrip(s: string, c: char): (r: string)
    ensures |r| <= |s| && r == s[..|r|]
    ensures r == "" || r[|r| - 1] != c
    ensures forall i :: |r| <= i < |s| ==> s[i] == c
  {
    if |s| > 0 && s[|s| - 1] == c then RStrip(s[..|s| - 1], c) else s
  }

  lemma RStripIdempotent(s: string, c: char)
    ensures RStrip(RStrip(s, c), c) == RStrip(s, c)
  {
  }
}
