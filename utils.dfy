/** The helpers of `pywren_ibm_cloud/utils.py` that decide something: object-URL and
    path splitting, the Python version string, bool-to-string conversion of an
    environment dictionary and the normalisation of map input data. The stream
    wrappers of the same file are in module Streams. */
module Utils {
  import opened Wrappers
  import opened PyStr
  import opened PyValues

  // ---------------------------------------------------------------------------
  // Characters and occurrences

  /** No occurrence of `c` before index `k` means the prefix of length `k` is free of `c`. */
  lemma PrefixFreeOf(s: string, c: char, k: nat)
    requires k <= |s|
    requires forall j: nat :: j < k ==> !OccursAt(s, [c], j)
    ensures c !in s[..k]
  {
    forall j | 0 <= j < k ensures s[..k][j] != c {
      OccursAtChar(s, c, j);
    }
  }

  /** No occurrence of `c` after index `k` means the suffix past `k` is free of `c`. */
  lemma SuffixFreeOf(s: string, c: char, k: nat)
    requires k < |s|
    requires forall j: nat :: k < j ==> !OccursAt(s, [c], j)
    ensures c !in s[k + 1..]
  {
    forall j | k + 1 <= j < |s| ensures s[j] != c {
      OccursAtChar(s, c, j);
    }
  }

  // ---------------------------------------------------------------------------
  // split_object_url

  /** The parts `split_object_url` returns: storage backend, bucket, key prefix and object name. */
  datatype ObjectUrl = ObjectUrl(backend: string, bucket: string, prefix: string, objName: string)

  /** `sb, path = obj_url.split('://')` fails to unpack when "://" occurs more than once. */
  datatype UrlError = TooManySchemeSeparators

  /** Lines 115-121: the storage backend named before "://" ("ibm_cos" when there is none,
      "cos" read as "ibm_cos") and the path after it. */
  function SplitScheme(url: string): (r: Result<(string, string), UrlError>)
    ensures !Contains(url, "://") ==> r == Ok(("ibm_cos", url))
    ensures Contains(url, "://") ==>
      var (scheme, path) := SplitOnce(url, "://").value;
      url == scheme + "://" + path &&
      (r.Ok? <==> !Contains(path, "://")) &&
      (r.Ok? ==> r.value == (if scheme == "cos" then "ibm_cos" else scheme, path))
  {
    match SplitOnce(url, "://")
    case None => Ok(("ibm_cos", url))
    case Some((sb, path)) =>
      if Contains(path, "://") then Err(TooManySchemeSeparators)
      else Ok((if sb == "cos" then "ibm_cos" else sb, path))
  }

  /** Line 123: the bucket is the path up to its first '/', the full key what follows it. */
  function BucketAndKey(path: string): (r: (string, string))
    ensures '/' !in r.0
    ensures '/' in path ==> path == r.0 + "/" + r.1
    ensures '/' !in path ==> r == (path, "")
  {
    match SplitOnce(path, "/")
    case None =>
      forall j | 0 <= j < |path| ensures path[j] != '/' { OccursAtChar(path, '/', j); }
      (path, "")
    case Some((bucket, key)) =>
      PrefixFreeOf(path, '/', |bucket|);
      assert path[..|bucket|] == bucket;
      (bucket, key)
  }

  /** Lines 125-132: a key ending in '/' is all prefix; otherwise the object name is what
      follows the last '/' (the whole key when there is none). */
  function PrefixAndName(key: string): (r: (string, string))
    ensures EndsWith(key, "/") ==> r == (key, "")
    ensures key == "" ==> r == ("", "")
    ensures key != "" && !EndsWith(key, "/") && '/' in key ==>
      r.0 + "/" + r.1 == key && '/' !in r.1 && r.1 != ""
    ensures '/' !in key && key != "" ==> r == ("", key)
  {
    if EndsWith(key, "/") then
      assert key[|key| - 1] == key[|key| - 1..][0] == '/';
      (key, "")
    else if key != "" then
      match RSplitOnce(key, "/")
      case None =>
        forall j | 0 <= j < |key| ensures key[j] != '/' { OccursAtChar(key, '/', j); }
        ("", key)
      case Some((prefix, name)) =>
        SuffixFreeOf(key, '/', |prefix|);
        assert key[|prefix| + 1..] == name;
        assert name != "" by {
          if name == "" { assert false; }
        }
        (prefix, name)
    else ("", "")
  }

  /** `split_object_url(obj_url)`. */
  function SplitObjectUrl(url: string): (r: Result<ObjectUrl, UrlError>)
    ensures r.Ok? <==> SplitScheme(url).Ok?
    ensures r.Ok? ==> r.value.backend == SplitScheme(url).value.0 && '/' !in r.value.bucket
    ensures r.Ok? && !Contains(url, "://") ==> r.value.backend == "ibm_cos"
    ensures r.Ok? ==> r.value.backend != "cos"
    ensures r.Ok? && r.value.objName != "" ==> '/' !in r.value.objName
  {
    match SplitScheme(url)
    case Err(e) => Err(e)
    case Ok((sb, path)) =>
      var (bucket, key) := BucketAndKey(path);
      var (prefix, name) := PrefixAndName(key);
      Ok(ObjectUrl(sb, bucket, prefix, name))
  }

  // ---------------------------------------------------------------------------
  // split_path

  /** Line 139-140: one leading '/' is dropped. */
  function DropLeadingSlash(path: string): (r: string)
    ensures StartsWith(path, "/") ==> "/" + r == path
    ensures !StartsWith(path, "/") ==> r == path
  {
    if StartsWith(path, "/") then path[1..] else path
  }

  /** `split_path(path)`: bucket and key around the first '/', when that '/' is not the
      first character of the (stripped) path; otherwise the whole path and no key. */
  function SplitPath(path: string): (r: (string, Option<string>))
    ensures var p := DropLeadingSlash(path);
      if p != "" && p[0] != '/' && '/' in p then
        r.1.Some? && r.0 + "/" + r.1.value == p && '/' !in r.0 && r.0 != ""
      else
        r == (p, None)
  {
    var p := DropLeadingSlash(path);
    match Find(p, "/")
    case Some(ind) =>
      if ind > 0 then
        PrefixFreeOf(p, '/', ind);
        assert p == p[..ind] + "/" + p[ind + 1..] by { OccursAtChar(p, '/', ind); }
        assert p[0] != '/' by { OccursAtChar(p, '/', 0); }
        (p[..ind], Some(p[ind + 1..]))
      else
        assert p[0] == '/' by { OccursAtChar(p, '/', 0); }
        (p, None)
    case None =>
      forall j | 0 <= j < |p| ensures p[j] != '/' { OccursAtChar(p, '/', j); }
      (p, None)
  }

  // ---------------------------------------------------------------------------
  // version_str

  /** `version_str(version_info)`: "<major>.<minor>", which splits at its first '.'
      into the two numbers' strings. */
  function VersionStr(major: int, minor: int): (v: string)
    ensures SplitOnce(v, ".") == Some((IntToStr(major), IntToStr(minor)))
  {
    var a, b := IntToStr(major), IntToStr(minor);
    var v := a + "." + b;
    NoDotInIntToStr(major);
    assert OccursAt(v, ".", |a|);
    forall j: nat | j < |a| ensures !OccursAt(v, ".", j) {
      OccursAtChar(v, '.', j);
      assert v[j] == a[j];
    }
    assert Find(v, ".") == Some(|a|);
    assert v[..|a|] == a && v[|a| + 1..] == b;
    v
  }

  lemma NoDotInIntToStr(n: int)
    ensures '.' !in IntToStr(n)
  {
    var d := NatToStr(if n < 0 then -n else n);
    assert forall i :: 0 <= i < |d| ==> IsDigit(d[i]);
  }

  /** The two parts of the version string parse back into the two numbers. */
  lemma VersionStrRoundTrip(major: int, minor: int)
    ensures var v := VersionStr(major, minor);
      SplitOnce(v, ".").Some? &&
      ParseInt(SplitOnce(v, ".").value.0) == Some(major) &&
      ParseInt(SplitOnce(v, ".").value.1) == Some(minor)
  {
    ParseIntOfIntToStr(major);
    ParseIntOfIntToStr(minor);
  }

  // ---------------------------------------------------------------------------
  // convert_bools_to_string

  /** The value `convert_bools_to_string` leaves under one key. */
  function BoolAsString(v: Value): Value {
    if v.VBool? then VStr(BoolStr(v.b)) else v
  }

  /** `convert_bools_to_string(extra_env)`: every bool value is replaced by "True" or
      "False"; other values and the set of keys stay as they were. */
  method ConvertBoolsToString(env: map<string, Value>) returns (r: map<string, Value>)
    ensures r.Keys == env.Keys
    ensures forall k :: k in env && env[k].VBool? ==> r[k] == VStr(if env[k].b then "True" else "False")
    ensures forall k :: k in env && !env[k].VBool? ==> r[k] == env[k]
  {
    r := env;
    var todo := env.Keys;
    while todo != {}
      invariant todo <= env.Keys && r.Keys == env.Keys
      invariant forall k :: k in env && k !in todo ==> r[k] == BoolAsString(env[k])
      invariant forall k :: k in todo ==> r[k] == env[k]
      decreases todo
    {
      var k :| k in todo;
      if r[k].VBool? {
        r := r[k := VStr(BoolStr(r[k].b))];
      }
      todo := todo - {k};
    }
  }

  // ---------------------------------------------------------------------------
  // format_data

  /** The three exceptions `format_data` raises. */
  datatype FormatError =
    | ExtraParamsNotListOrDict   // line 171
    | MixedListAndDict           // line 184
    | DictExtraForScalar         // line 194

  predicate IsListOrDict(v: Value) {
    v.VList? || v.VDict?
  }

  /** An element whose type is list or dict but not that of `extra`, or a scalar with
      dict `extra`: the elements `format_data` refuses. */
  predicate Clashes(d: Value, extra: Value) {
    if IsListOrDict(d) then d.VList? != extra.VList? else extra.VDict?
  }

  function RangeItems(lo: int, hi: int): (r: seq<Value>)
    ensures |r| == Max(0, hi - lo)
    ensures forall i :: 0 <= i < |r| ==> r[i] == VInt(lo + i)
    decreases hi - lo
  {
    if lo >= hi then [] else [VInt(lo)] + RangeItems(lo + 1, hi)
  }

  /** Lines 173-178: a range or set becomes a list, a list stays, anything else is wrapped. */
  function AsList(iterdata: Value): (r: seq<Value>)
    ensures iterdata.VList? ==> r == iterdata.items
    ensures iterdata.VSet? ==> r == iterdata.members
    ensures iterdata.VRange? ==> (|r| == Max(0, iterdata.hi - iterdata.lo) &&
      forall i :: 0 <= i < |r| ==> r[i] == VInt(iterdata.lo + i))
    ensures !iterdata.VList? && !iterdata.VSet? && !iterdata.VRange? ==> r == [iterdata]
  {
    match iterdata
    case VList(xs) => xs
    case VSet(xs) => xs
    case VRange(lo, hi) => RangeItems(lo, hi)
    case _ => [iterdata]
  }

  /** A dict element updated with `extra`, or a list element extended by it. */
  function Merged(d: Value, extra: Value): Value {
    if d.VDict? && extra.VDict? then VDict(d.entries + extra.entries)
    else if d.VList? && extra.VList? then VList(d.items + extra.items)
    else d
  }

  /** Every element of `data` merged with `extra`, as the in-place updates leave `data`. */
  function MergedEach(data: seq<Value>, extra: Value): (r: seq<Value>)
    ensures |r| == |data|
    ensures forall i :: 0 <= i < |data| ==> r[i] == Merged(data[i], extra)
  {
    if data == [] then []
    else MergedEach(data[..|data| - 1], extra) + [Merged(data[|data| - 1], extra)]
  }

  lemma MergedEachStep(data: seq<Value>, extra: Value, i: nat)
    requires i < |data|
    ensures MergedEach(data[..i + 1], extra) == MergedEach(data[..i], extra) + [Merged(data[i], extra)]
  {
    assert data[..i + 1][..i] == data[..i];
    assert data[..i + 1][i] == data[i];
  }

  /** The items of a list value; nothing for any other value. */
  function ListItems(v: Value): seq<Value> {
    if v.VList? then v.items else []
  }

  /** The scalars of `data`, each as the list `[x, *extra]`, in order. */
  function Wrapped(data: seq<Value>, extra: Value): seq<Value> {
    if data == [] then []
    else
      var last := data[|data| - 1];
      Wrapped(data[..|data| - 1], extra) +
        (if IsListOrDict(last) then [] else [VList([last] + ListItems(extra))])
  }

  /** Looking at one more element of `data` wraps it when it is a scalar. */
  lemma WrappedStep(data: seq<Value>, extra: Value, i: nat)
    requires i < |data|
    ensures Wrapped(data[..i + 1], extra) ==
              Wrapped(data[..i], extra) + (if IsListOrDict(data[i]) then [] else [VList([data[i]] + ListItems(extra))])
  {
    assert data[..i + 1][..i] == data[..i];
    assert data[..i + 1][i] == data[i];
  }

  /** Something is wrapped exactly when `data` holds a scalar. */
  lemma {:induction false} WrappedEmptyIffNoScalar(data: seq<Value>, extra: Value)
    ensures Wrapped(data, extra) == [] <==> forall i :: 0 <= i < |data| ==> IsListOrDict(data[i])
  {
    if data != [] {
      var init := data[..|data| - 1];
      WrappedEmptyIffNoScalar(init, extra);
      assert forall i :: 0 <= i < |init| ==> init[i] == data[i];
    }
  }

  /** Every wrapped entry is a scalar of `data` followed by the extra parameters. */
  lemma {:induction false} WrappedEntries(data: seq<Value>, extra: Value, k: nat)
    requires k < |Wrapped(data, extra)|
    ensures exists i :: (0 <= i < |data| && !IsListOrDict(data[i]) &&
      Wrapped(data, extra)[k] == VList([data[i]] + ListItems(extra)))
  {
    var init := data[..|data| - 1];
    var last := data[|data| - 1];
    if k < |Wrapped(init, extra)| {
      WrappedEntries(init, extra, k);
      var i :| 0 <= i < |init| && !IsListOrDict(init[i]) &&
        Wrapped(init, extra)[k] == VList([init[i]] + ListItems(extra));
      assert data[i] == init[i];
    } else {
      assert !IsListOrDict(last);
    }
  }

  /** Lines 181-195: the loop over the elements of `data` with a truthy list or dict
      `extra`; on success, the scalars wrapped with `extra` and `data` as the in-place
      updates leave it. */
  method MergeExtra(data: seq<Value>, extra: Value) returns (r: Result<(seq<Value>, seq<Value>), FormatError>)
    requires IsListOrDict(extra)
    ensures r.Err? <==> exists i :: 0 <= i < |data| && Clashes(data[i], extra)
    ensures r.Ok? ==> r.value == (Wrapped(data, extra), MergedEach(data, extra))
  {
    var newIterdata: seq<Value> := [];
    // `data` after its dict and list elements were updated in place.
    var updated: seq<Value> := [];
    var i := 0;
    while i < |data|
      invariant 0 <= i <= |data|
      invariant newIterdata == Wrapped(data[..i], extra)
      invariant updated == MergedEach(data[..i], extra)
      invariant forall j :: 0 <= j < i ==> !Clashes(data[j], extra)
    {
      var d := data[i];
      WrappedStep(data, extra, i);
      MergedEachStep(data, extra, i);
      if IsListOrDict(d) && d.VList? != extra.VList? {
        return Err(MixedListAndDict);
      }
      if d.VDict? {
        updated := updated + [VDict(d.entries + extra.entries)];
      } else if d.VList? {
        updated := updated + [VList(d.items + extra.items)];
      } else if extra.VList? {
        newIterdata := newIterdata + [VList([d] + extra.items)];
        updated := updated + [d];
      } else {
        return Err(DictExtraForScalar);
      }
      i := i + 1;
    }
    assert data[..i] == data;
    return Ok((newIterdata, updated));
  }

  /** `format_data(iterdata, extra_params)`. */
  method FormatData(iterdata: Value, extra: Value) returns (r: Result<seq<Value>, FormatError>)
    ensures Truthy(extra) && !IsListOrDict(extra) ==> r == Err(ExtraParamsNotListOrDict)
    ensures !Truthy(extra) ==> r == Ok(AsList(iterdata))
    ensures Truthy(extra) && IsListOrDict(extra) ==>
      (r.Err? <==> exists i :: 0 <= i < |AsList(iterdata)| && Clashes(AsList(iterdata)[i], extra))
    ensures r.Ok? && Truthy(extra) && Wrapped(AsList(iterdata), extra) != [] ==>
      r.value == Wrapped(AsList(iterdata), extra)
    ensures r.Ok? && Truthy(extra) && Wrapped(AsList(iterdata), extra) == [] ==>
      r.value == MergedEach(AsList(iterdata), extra)
  {
    if Truthy(extra) && !IsListOrDict(extra) {
      return Err(ExtraParamsNotListOrDict);
    }
    var data := AsList(iterdata);
    if !Truthy(extra) {
      return Ok(data);
    }
    var merged := MergeExtra(data, extra);
    if merged.Err? {
      return Err(merged.error);
    }
    var (newIterdata, updated) := merged.value;
    if newIterdata != [] {
      return Ok(newIterdata);
    }
    return Ok(updated);
  }
}
