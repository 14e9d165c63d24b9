/**
 * The pure part of `ResourceClient` (hpOneView/resources/resource.py): the
 * error messages, the list query string of `get_all`, the filter of `get_by`
 * and the resolution of the one target URI each operation addresses.
 * Every function here is total: the client's argument errors are `Err`
 * results, not preconditions.
 */
module ResourceUris {
  import opened Values
  import opened Text
  import opened PercentEncoding

  const RESOURCE_WAS_NOT_PROVIDED := "Resource was not provided"
  const INVALID_FIELD := "Invalid field was provided"
  const INVALID_ID := "Invalid id was provided"
  const UNKNOWN_OBJECT_TYPE := "Unknown object type"
  const UNRECOGNIZED_URI := "Unrecognized URI for this resource"
  const FORCE_FLAG := "?force=True"

  // ---------------------------------------------------------------------------
  // get_all: the list query string

  /** `"&name=" + quote(value)` when the value is non-empty, nothing otherwise. */
  function OptionalParam(name: string, value: string): string
  {
    if value == "" then "" else "&" + name + "=" + Quote(value)
  }

  /** The four parameter prefixes, spelled out as `get_all` writes them. */
  lemma ParamPrefixes()
    ensures "&" + "filter" + "=" == "&filter=" && "&" + "query" + "=" == "&query="
    ensures "&" + "sort" + "=" == "&sort=" && "&" + "view" + "=" == "&view="
  {
  }

  /** The URI `get_all` hands to `get_members`. */
  function GetAllUri(base: string, start: int, count: int,
                     filter: string, query: string, sort: string, view: string): string
  {
    base + "?start=" + IntToDecimal(start) + "&count=" + IntToDecimal(count)
    + OptionalParam("filter", filter) + OptionalParam("query", query)
    + OptionalParam("sort", sort) + OptionalParam("view", view)
  }

  /** With no arguments `get_all` lists everything: start 0, count -1, nothing else. */
  lemma GetAllDefaults(base: string)
    ensures GetAllUri(base, 0, -1, "", "", "", "") == base + "?start=0&count=-1"
  {
    assert IntToDecimal(0) == "0";
    assert NatToDecimal(1) == "1";
    assert IntToDecimal(-1) == "-1";
  }

  /** The optional parameters in the order `get_all` appends them. */
  const PARAM_NAMES: seq<string> := ["filter", "query", "sort", "view"]

  /** The arguments of one `get_all` call, as a reader of its query string sees them. */
  datatype ListArgs = ListArgs(start: int, count: int,
                               filter: string, query: string, sort: string, view: string)

  /** The `name=value` fields contributed by the non-empty optional parameters. */
  function ParamFields(names: seq<string>, values: seq<string>): seq<string>
    requires |names| == |values|
  {
    if names == [] then []
    else
      (if values[0] == "" then [] else [Field(names[0], values[0])])
      + ParamFields(names[1..], values[1..])
  }

  function ParamString(names: seq<string>, values: seq<string>): string
    requires |names| == |values|
  {
    if names == [] then "" else OptionalParam(names[0], values[0]) + ParamString(names[1..], values[1..])
  }

  /**
   * Reads the optional fields back: each name, in order, either owns the next
   * field (`name=` followed by a percent-encoded non-empty value) or is absent
   * (empty). A field `name=` with nothing after it is refused, so a query that
   * reads back never carries a parameter the writer should have left out.
   */
  function ParseParams(fields: seq<string>, names: seq<string>): (r: Option<seq<string>>)
    ensures r.Some? ==> |r.value| == |names|
    decreases |names|
  {
    if names == [] then (if fields == [] then Some([]) else None)
    else if fields != [] && HasPrefix(fields[0], names[0] + "=") then
      match PercentDecode(fields[0][|names[0]| + 1..])
      case None => None
      case Some(v) =>
        if v == "" then None
        else match ParseParams(fields[1..], names[1..])
        case None => None
        case Some(vs) => Some([v] + vs)
    else
      match ParseParams(fields, names[1..])
      case None => None
      case Some(vs) => Some([""] + vs)
  }

  /** A reader of list query strings (`?start=..&count=..[&filter=..]...`). */
  function ParseListQuery(q: string): Option<ListArgs>
  {
    if |q| == 0 || q[0] != '?' then None
    else
      var fields := Split(q[1..], '&');
      if |fields| < 2 || !HasPrefix(fields[0], "start=") || !HasPrefix(fields[1], "count=") then None
      else
        match (ParseInt(fields[0][6..]), ParseInt(fields[1][6..]), ParseParams(fields[2..], PARAM_NAMES))
        case (Some(start), Some(count), Some(vs)) =>
          Some(ListArgs(start, count, vs[0], vs[1], vs[2], vs[3]))
        case _ => None
  }

  predicate WellFormedNames(names: seq<string>)
  {
    (forall j :: 0 <= j < |names| ==> '=' !in names[j] && '&' !in names[j]) &&
    (forall i, j :: 0 <= i < j < |names| ==> names[i] != names[j])
  }

  lemma ParamNamesWellFormed()
    ensures WellFormedNames(PARAM_NAMES)
  {
  }

  /** The field a non-empty parameter contributes. */
  function Field(name: string, value: string): string
  {
    name + "=" + Quote(value)
  }

  lemma OptionalParamField(name: string, value: string)
    requires value != ""
    ensures OptionalParam(name, value) == ['&'] + Field(name, value)
  {
    ConcatAssoc(['&'] + name, "=", Quote(value));
    ConcatAssoc(['&'], name, "=" + Quote(value));
    ConcatAssoc(name, "=", Quote(value));
  }

  lemma ParamFieldsCons(names: seq<string>, values: seq<string>)
    requires |names| == |values| && names != []
    ensures values[0] == "" ==> ParamFields(names, values) == ParamFields(names[1..], values[1..])
    ensures values[0] != "" ==>
            ParamFields(names, values) == [Field(names[0], values[0])] + ParamFields(names[1..], values[1..])
  {
    if values[0] == "" {
      assert [] + ParamFields(names[1..], values[1..]) == ParamFields(names[1..], values[1..]);
    }
  }

  lemma PrefixedCons(f: string, rest: seq<string>, sep: char)
    ensures Prefixed([f] + rest, sep) == ([sep] + f) + Prefixed(rest, sep)
  {
    assert ([f] + rest)[0] == f && ([f] + rest)[1..] == rest;
  }

  /** Each non-empty parameter contributes `&` followed by its field. */
  lemma {:induction false} ParamStringPrefixed(names: seq<string>, values: seq<string>)
    requires |names| == |values|
    ensures ParamString(names, values) == Prefixed(ParamFields(names, values), '&')
    decreases |names|
  {
    if names != [] {
      var tail := ParamString(names[1..], values[1..]);
      ParamStringPrefixed(names[1..], values[1..]);
      ParamFieldsCons(names, values);
      if values[0] == "" {
        assert ParamString(names, values) == "" + tail;
      } else {
        OptionalParamField(names[0], values[0]);
        PrefixedCons(Field(names[0], values[0]), ParamFields(names[1..], values[1..]), '&');
      }
    }
  }

  /** Joining the fixed fields with the optional ones yields the appended parameters. */
  lemma JoinParams(prefix: seq<string>, names: seq<string>, values: seq<string>)
    requires |prefix| >= 1 && |names| == |values|
    ensures Join(prefix + ParamFields(names, values), '&') == Join(prefix, '&') + ParamString(names, values)
  {
    JoinPrefixed(prefix, ParamFields(names, values), '&');
    ParamStringPrefixed(names, values);
  }

  lemma QuoteNoAmpersand(s: string)
    ensures '&' !in Quote(s)
  {
  }

  lemma {:induction false} ParamFieldsNoAmpersand(names: seq<string>, values: seq<string>)
    requires |names| == |values| && WellFormedNames(names)
    ensures NoSep(ParamFields(names, values), '&')
    decreases |names|
  {
    if names != [] {
      assert WellFormedNames(names[1..]);
      ParamFieldsNoAmpersand(names[1..], values[1..]);
      var rest := ParamFields(names[1..], values[1..]);
      if values[0] == "" {
        assert ParamFields(names, values) == rest;
      } else {
        var q := Quote(values[0]);
        QuoteNoAmpersand(values[0]);
        assert '&' !in names[0];
        var f := names[0] + "=" + q;
        assert '&' !in f;
        assert ParamFields(names, values) == [f] + rest;
      }
    }
  }

  /** The first optional field, if any, belongs to some named parameter. */
  lemma {:induction false} ParamFieldsHead(names: seq<string>, values: seq<string>)
    requires |names| == |values| && ParamFields(names, values) != []
    ensures exists j :: 0 <= j < |names| && values[j] != "" &&
                        ParamFields(names, values)[0] == Field(names[j], values[j])
    decreases |names|
  {
    ParamFieldsCons(names, values);
    if values[0] == "" {
      ParamFieldsHead(names[1..], values[1..]);
      var j :| 0 <= j < |names[1..]| && values[1..][j] != "" &&
               ParamFields(names[1..], values[1..])[0] == Field(names[1..][j], values[1..][j]);
      assert names[j + 1] == names[1..][j] && values[j + 1] == values[1..][j];
    } else {
      assert ParamFields(names, values)[0] == Field(names[0], values[0]);
    }
  }

  /** `a=` is never a prefix of `b=...` for distinct names without `=`. */
  lemma NameMismatch(a: string, b: string, x: string)
    requires '=' !in a && '=' !in b && a != b
    ensures !HasPrefix(b + "=" + x, a + "=")
  {
    var s := b + "=" + x;
    var p := a + "=";
    if |p| <= |s| {
      var head := s[..|p|];
      if |a| < |b| {
        assert head[|a|] == b[|a|] && b[|a|] in b;
        assert p[|a|] == '=';
      } else if |a| > |b| {
        assert head[|b|] == '=';
        assert p[|b|] == a[|b|] && a[|b|] in a;
      } else {
        assert head[..|a|] == b && p[..|a|] == a;
      }
    }
  }

  /** A field starts with its name and `=`, and the rest is the quoted value. */
  lemma FieldParts(name: string, value: string)
    ensures HasPrefix(Field(name, value), name + "=")
    ensures Field(name, value)[|name| + 1..] == Quote(value)
  {
    var f := Field(name, value);
    assert f[..|name + "="|] == name + "=";
  }

  /** The reader skips a parameter that is absent: the next field belongs to a later name. */
  lemma SkipAbsent(names: seq<string>, values: seq<string>)
    requires |names| == |values| && names != [] && WellFormedNames(names) && values[0] == ""
    ensures var rest := ParamFields(names[1..], values[1..]);
            rest == [] || !HasPrefix(rest[0], names[0] + "=")
  {
    var rest := ParamFields(names[1..], values[1..]);
    if rest != [] {
      ParamFieldsHead(names[1..], values[1..]);
      var j :| 0 <= j < |names[1..]| && values[1..][j] != "" &&
               rest[0] == Field(names[1..][j], values[1..][j]);
      assert names[1..][j] == names[j + 1];
      NameMismatch(names[0], names[1..][j], Quote(values[1..][j]));
    }
  }

  /** A name that owns the next field takes its decoded value. */
  lemma ParsePresent(fields: seq<string>, names: seq<string>, v: string, vs: seq<string>)
    requires names != [] && fields != [] && HasPrefix(fields[0], names[0] + "=") && v != ""
    requires PercentDecode(fields[0][|names[0]| + 1..]) == Some(v)
    requires ParseParams(fields[1..], names[1..]) == Some(vs)
    ensures ParseParams(fields, names) == Some([v] + vs)
  {
  }

  /** A field that names the next parameter but gives it no value is refused. */
  lemma EmptyFieldRefused(fields: seq<string>, names: seq<string>)
    requires names != [] && fields != [] && fields[0] == names[0] + "="
    ensures ParseParams(fields, names) == None
  {
    assert fields[0][..|names[0] + "="|] == names[0] + "=";
    assert fields[0][|names[0]| + 1..] == [];
  }

  /** A name that does not own the next field reads as empty. */
  lemma ParseAbsent(fields: seq<string>, names: seq<string>, vs: seq<string>)
    requires names != [] && (fields == [] || !HasPrefix(fields[0], names[0] + "="))
    requires ParseParams(fields, names[1..]) == Some(vs)
    ensures ParseParams(fields, names) == Some([""] + vs)
  {
  }

  /** One round-trip step for a parameter left empty. */
  lemma RoundTripAbsent(names: seq<string>, values: seq<string>)
    requires |names| == |values| && names != [] && WellFormedNames(names) && values[0] == ""
    requires ParseParams(ParamFields(names[1..], values[1..]), names[1..]) == Some(values[1..])
    ensures ParseParams(ParamFields(names, values), names) == Some(values)
  {
    var rest := ParamFields(names[1..], values[1..]);
    assert ParamFields(names, values) == rest by {
      ParamFieldsCons(names, values);
    }
    assert ParseParams(rest, names) == Some(values) by {
      SkipAbsent(names, values);
      ParseAbsent(rest, names, values[1..]);
      assert [""] + values[1..] == values;
    }
  }

  /** A field followed by the rest reads back as its value followed by the rest's values. */
  lemma ParseField(names: seq<string>, v: string, rest: seq<string>, vs: seq<string>)
    requires names != [] && v != "" && IsAscii(v)
    requires ParseParams(rest, names[1..]) == Some(vs)
    ensures ParseParams([Field(names[0], v)] + rest, names) == Some([v] + vs)
  {
    var f := Field(names[0], v);
    var fields := [f] + rest;
    assert fields[0] == f && fields[1..] == rest;
    FieldParts(names[0], v);
    QuoteRoundTrip(v);
    ParsePresent(fields, names, v, vs);
  }

  /** One round-trip step for a parameter given a value. */
  lemma RoundTripPresent(names: seq<string>, values: seq<string>)
    requires |names| == |values| && names != [] && values[0] != "" && IsAscii(values[0])
    requires ParseParams(ParamFields(names[1..], values[1..]), names[1..]) == Some(values[1..])
    ensures ParseParams(ParamFields(names, values), names) == Some(values)
  {
    var rest := ParamFields(names[1..], values[1..]);
    assert ParamFields(names, values) == [Field(names[0], values[0])] + rest by {
      ParamFieldsCons(names, values);
    }
    ParseField(names, values[0], rest, values[1..]);
    assert [values[0]] + values[1..] == values;
  }

  lemma {:induction false} ParseParamsRoundTrip(names: seq<string>, values: seq<string>)
    requires |names| == |values| && WellFormedNames(names)
    requires forall j :: 0 <= j < |values| ==> IsAscii(values[j])
    ensures ParseParams(ParamFields(names, values), names) == Some(values)
    decreases |names|
  {
    if names != [] {
      assert WellFormedNames(names[1..]);
      assert forall j :: 0 <= j < |values[1..]| ==> values[1..][j] == values[j + 1];
      ParseParamsRoundTrip(names[1..], values[1..]);
      if values[0] == "" {
        RoundTripAbsent(names, values);
      } else {
        RoundTripPresent(names, values);
      }
    }
  }

  lemma ParamStringAt(names: seq<string>, values: seq<string>, k: nat)
    requires |names| == |values| && k < |names|
    ensures ParamString(names[k..], values[k..]) ==
            OptionalParam(names[k], values[k]) + ParamString(names[k + 1..], values[k + 1..])
  {
    assert names[k..][1..] == names[k + 1..] && values[k..][1..] == values[k + 1..];
  }

  lemma Regroup4(p0: string, p1: string, p2: string, p3: string)
    ensures p0 + (p1 + (p2 + (p3 + ""))) == p0 + p1 + p2 + p3
  {
  }

  lemma ParamStringOfFour(names: seq<string>, values: seq<string>)
    requires |names| == 4 && |values| == 4
    ensures ParamString(names, values) ==
            OptionalParam(names[0], values[0]) + OptionalParam(names[1], values[1])
            + OptionalParam(names[2], values[2]) + OptionalParam(names[3], values[3])
  {
    assert names[0..] == names && values[0..] == values;
    ParamStringAt(names, values, 0);
    ParamStringAt(names, values, 1);
    ParamStringAt(names, values, 2);
    ParamStringAt(names, values, 3);
    Regroup4(OptionalParam(names[0], values[0]), OptionalParam(names[1], values[1]),
             OptionalParam(names[2], values[2]), OptionalParam(names[3], values[3]));
  }

  /** Regrouping of the concatenation `get_all` performs. */
  lemma RegroupListUri(base: string, d1: string, d2: string, p0: string, p1: string, p2: string, p3: string)
    ensures base + "?start=" + d1 + "&count=" + d2 + p0 + p1 + p2 + p3 ==
            base + ("?" + (("start=" + d1) + "&" + ("count=" + d2) + (p0 + p1 + p2 + p3)))
  {
  }

  lemma GetAllUriParams(base: string, start: int, count: int,
                        filter: string, query: string, sort: string, view: string)
    ensures GetAllUri(base, start, count, filter, query, sort, view) ==
            base + ("?" + (("start=" + IntToDecimal(start)) + "&" + ("count=" + IntToDecimal(count))
                           + ParamString(PARAM_NAMES, [filter, query, sort, view])))
  {
    ParamStringOfFour(PARAM_NAMES, [filter, query, sort, view]);
    RegroupListUri(base, IntToDecimal(start), IntToDecimal(count),
                   OptionalParam("filter", filter), OptionalParam("query", query),
                   OptionalParam("sort", sort), OptionalParam("view", view));
  }

  lemma JoinTwo(a: string, b: string, sep: char)
    ensures Join([a, b], sep) == a + [sep] + b
  {
    assert [a, b][1..] == [b];
  }

  /** `GetAllUri` is the base, `?`, and the `&`-joined list of its fields. */
  lemma GetAllUriFields(base: string, start: int, count: int,
                        filter: string, query: string, sort: string, view: string)
    ensures GetAllUri(base, start, count, filter, query, sort, view) ==
            base + ("?" + Join(ListFields(start, count, [filter, query, sort, view]), '&'))
  {
    var values := [filter, query, sort, view];
    var d1, d2 := IntToDecimal(start), IntToDecimal(count);
    var fixed := ["start=" + d1, "count=" + d2];
    JoinParams(fixed, PARAM_NAMES, values);
    JoinTwo("start=" + d1, "count=" + d2, '&');
    GetAllUriParams(base, start, count, filter, query, sort, view);
  }

  lemma FixedFieldNoAmpersand(name: string, i: int)
    requires '&' !in name
    ensures '&' !in name + IntToDecimal(i)
  {
    IntToDecimalAlphabet(i);
    var f := name + IntToDecimal(i);
    forall k | 0 <= k < |f| ensures f[k] != '&' {
      if k >= |name| {
        assert f[k] == IntToDecimal(i)[k - |name|];
      } else {
        assert f[k] == name[k];
      }
    }
  }

  function ListFields(start: int, count: int, values: seq<string>): seq<string>
    requires |values| == 4
  {
    ["start=" + IntToDecimal(start), "count=" + IntToDecimal(count)] + ParamFields(PARAM_NAMES, values)
  }

  lemma ListFieldsNoAmpersand(start: int, count: int, values: seq<string>)
    requires |values| == 4
    ensures |ListFields(start, count, values)| >= 2 && NoSep(ListFields(start, count, values), '&')
  {
    ParamNamesWellFormed();
    ParamFieldsNoAmpersand(PARAM_NAMES, values);
    FixedFieldNoAmpersand("start=", start);
    FixedFieldNoAmpersand("count=", count);
  }

  lemma ParseListFields(start: int, count: int, values: seq<string>)
    requires |values| == 4 && forall j :: 0 <= j < 4 ==> IsAscii(values[j])
    ensures ParseListQuery("?" + Join(ListFields(start, count, values), '&')) ==
            Some(ListArgs(start, count, values[0], values[1], values[2], values[3]))
  {
    var fields := ListFields(start, count, values);
    var q := "?" + Join(fields, '&');
    assert q[1..] == Join(fields, '&');
    ListFieldsNoAmpersand(start, count, values);
    SplitJoin(fields, '&');
    assert fields[0][..6] == "start=" && fields[0][6..] == IntToDecimal(start);
    assert fields[1][..6] == "count=" && fields[1][6..] == IntToDecimal(count);
    assert fields[2..] == ParamFields(PARAM_NAMES, values);
    IntToDecimalRoundTrip(start);
    IntToDecimalRoundTrip(count);
    ParamNamesWellFormed();
    ParseParamsRoundTrip(PARAM_NAMES, values);
  }

  /**
   * The list query string is unambiguous: reading it back recovers start,
   * count and the four optional parameters, so each non-empty parameter is
   * present exactly once, in the order filter, query, sort, view, and an
   * empty one leaves no trace.
   */
  lemma GetAllUriRoundTrip(base: string, start: int, count: int,
                           filter: string, query: string, sort: string, view: string)
    requires IsAscii(filter) && IsAscii(query) && IsAscii(sort) && IsAscii(view)
    ensures HasPrefix(GetAllUri(base, start, count, filter, query, sort, view), base)
    ensures ParseListQuery(GetAllUri(base, start, count, filter, query, sort, view)[|base|..]) ==
            Some(ListArgs(start, count, filter, query, sort, view))
  {
    var values := [filter, query, sort, view];
    var q := "?" + Join(ListFields(start, count, values), '&');
    var uri := GetAllUri(base, start, count, filter, query, sort, view);
    assert uri == base + q by {
      GetAllUriFields(base, start, count, filter, query, sort, view);
    }
    assert HasPrefix(uri, base) && uri[|base|..] == q by {
      SplitAfterPrefix(base, q);
    }
    assert ParseListQuery(q) == Some(ListArgs(start, count, filter, query, sort, view)) by {
      ParseListFields(start, count, values);
    }
  }

  lemma SplitAfterPrefix(base: string, q: string)
    ensures HasPrefix(base + q, base) && (base + q)[|base|..] == q
  {
    assert (base + q)[..|base|] == base;
  }

  // ---------------------------------------------------------------------------
  // get_by

  /** The filter expression `"'field'='value'"`, double quotes included. */
  function GetByFilter(field: string, value: string): string
  {
    "\"'" + field + "'='" + value + "'\""
  }

  /** The list URI `get_by` requests, or its argument error; `None` is Python's `None`. */
  function GetByListUri(base: string, field: Option<string>, value: string): Result<string, Error>
  {
    match field
    case None => Err(ValueError(INVALID_FIELD))
    case Some(f) =>
      if f == "" then Err(ValueError(INVALID_FIELD))
      else Ok(GetAllUri(base, 0, -1, GetByFilter(f, value), "", "", ""))
  }

  /**
   * An empty field is refused; otherwise `get_by` lists from 0 with count -1
   * and the filter as its only optional parameter, which a reader of the query
   * string recovers exactly.
   */
  lemma GetByUriSpec(base: string, field: Option<string>, value: string)
    ensures GetByListUri(base, field, value).Err? <==> field == None || field == Some("")
    ensures GetByListUri(base, field, value).Err? ==>
              GetByListUri(base, field, value).error == ValueError(INVALID_FIELD)
    ensures field.Some? && field.value != "" && IsAscii(field.value) && IsAscii(value) ==>
              ParseListQuery(GetByListUri(base, field, value).value[|base|..]) ==
              Some(ListArgs(0, -1, GetByFilter(field.value, value), "", "", ""))
  {
    if field.Some? && field.value != "" && IsAscii(field.value) && IsAscii(value) {
      var f := GetByFilter(field.value, value);
      IsAsciiAppend("\"'", field.value);
      IsAsciiAppend("\"'" + field.value, "'='");
      IsAsciiAppend("\"'" + field.value + "'='", value);
      IsAsciiAppend("\"'" + field.value + "'='" + value, "'\"");
      GetAllUriRoundTrip(base, 0, -1, f, "", "", "");
    }
  }

  // ---------------------------------------------------------------------------
  // get and get_by_uri

  /** `get_by_uri`: any URI in which the base occurs, as a substring. */
  function ByUriTarget(base: string, uri: string): Result<string, Error>
  {
    if Contains(uri, base) then Ok(uri) else Err(UnknownType(UNRECOGNIZED_URI))
  }

  /** The URI `get` fetches, or its argument error; `None` is Python's `None`. */
  function GetTarget(base: string, idOrUri: Option<string>): Result<string, Error>
  {
    match idOrUri
    case None => Err(ValueError(INVALID_ID))
    case Some(s) =>
      if s == "" then Err(ValueError(INVALID_ID))
      else if '/' in s then ByUriTarget(base, s)
      else Ok(base + "/" + s)
  }

  /**
   * `get` refuses an empty id; an id without `/` names `base/id`; anything
   * with a `/` is taken as a full URI and accepted unchanged exactly when the
   * base occurs in it.
   */
  lemma GetTargetSpec(base: string, idOrUri: Option<string>)
    ensures GetTarget(base, idOrUri) == Err(ValueError(INVALID_ID)) <==>
            idOrUri == None || idOrUri == Some("")
    ensures idOrUri.Some? && idOrUri.value != "" && '/' !in idOrUri.value ==>
            GetTarget(base, idOrUri) == Ok(base + "/" + idOrUri.value)
    ensures idOrUri.Some? && '/' in idOrUri.value ==>
            (GetTarget(base, idOrUri) == Ok(idOrUri.value) <==> Contains(idOrUri.value, base)) &&
            (GetTarget(base, idOrUri) == Err(UnknownType(UNRECOGNIZED_URI)) <==> !Contains(idOrUri.value, base))
  {
  }

  /** Whatever `get` fetches lies inside the collection, in the substring sense. */
  lemma GetTargetInCollection(base: string, idOrUri: Option<string>)
    ensures GetTarget(base, idOrUri).Ok? ==> Contains(GetTarget(base, idOrUri).value, base)
  {
    if idOrUri.Some? && idOrUri.value != "" && '/' !in idOrUri.value {
      ContainsPrefix(base, "/" + idOrUri.value);
      assert base + "/" + idOrUri.value == base + ("/" + idOrUri.value);
    }
  }

  /**
   * The membership test is a substring test: a URI of another collection that
   * merely mentions the base somewhere is accepted although it does not start
   * with the base.
   */
  lemma GetAcceptsUriNotPrefixedByBase()
    ensures var base := "/rest/fake";
            var uri := "/rest/other/rest/fake";
            !HasPrefix(uri, base) && GetTarget(base, Some(uri)) == Ok(uri)
  {
    var base := "/rest/fake";
    var uri := "/rest/other/rest/fake";
    assert uri == "/rest/other" + base + "";
    ContainsInfix("/rest/other", base, "");
    assert uri[..|base|] != base by { assert uri[6] != base[6]; }
  }

  // ---------------------------------------------------------------------------
  // delete, update, get_schema

  function WithForce(uri: string, force: bool): string
  {
    if force then uri + FORCE_FLAG else uri
  }

  /**
   * The URI `delete` addresses. A falsy resource is refused; a mapping must
   * carry a truthy `uri`; a string is an id under the base. A truthy `uri`
   * that is not a string, and a resource that is neither a mapping nor a
   * string, are Python runtime failures.
   */
  function DeleteTarget(base: string, resource: Value, force: bool): Result<string, Error>
  {
    if !Truthy(resource) then Err(ValueError(RESOURCE_WAS_NOT_PROVIDED))
    else
      match resource
      case Dict(m) =>
        if "uri" in m && Truthy(m["uri"]) then
          if m["uri"].Str? then Ok(WithForce(m["uri"].s, force)) else Err(RuntimeFailure("TypeError"))
        else Err(UnknownType(UNKNOWN_OBJECT_TYPE))
      case Str(id) => Ok(WithForce(base + "/" + id, force))
      case _ => Err(RuntimeFailure("TypeError"))
  }

  /** `delete` resolves its target: the argument errors and the two kinds of target. */
  lemma DeleteTargetSpec(base: string, resource: Value, force: bool)
    ensures DeleteTarget(base, resource, force) == Err(ValueError(RESOURCE_WAS_NOT_PROVIDED)) <==>
            !Truthy(resource)
    ensures resource.Dict? && Truthy(resource) ==>
            (DeleteTarget(base, resource, force) == Err(UnknownType(UNKNOWN_OBJECT_TYPE)) <==>
             !("uri" in resource.fields && Truthy(resource.fields["uri"])))
    ensures resource.Dict? && "uri" in resource.fields && resource.fields["uri"].Str? &&
            resource.fields["uri"].s != "" ==>
            DeleteTarget(base, resource, force) == Ok(WithForce(resource.fields["uri"].s, force))
    ensures resource.Str? && resource.s != "" ==>
            DeleteTarget(base, resource, force) == Ok(WithForce(base + "/" + resource.s, force))
  {
  }

  /** `force` appends exactly `?force=True` to the target and changes nothing else. */
  lemma DeleteForceAppendsFlag(base: string, resource: Value)
    ensures DeleteTarget(base, resource, true) ==
            match DeleteTarget(base, resource, false)
            case Ok(u) => Ok(u + "?force=True")
            case Err(e) => Err(e)
  {
  }

  /**
   * The URI `update` addresses: `resource['uri']`. A falsy resource is
   * refused; a missing key (KeyError), a resource that is not a mapping and
   * a `uri` that is not a string (TypeError) are Python runtime failures.
   */
  function UpdateTarget(resource: Value): Result<string, Error>
  {
    if !Truthy(resource) then Err(ValueError(RESOURCE_WAS_NOT_PROVIDED))
    else
      match resource
      case Dict(m) =>
        if "uri" !in m then Err(RuntimeFailure("KeyError"))
        else if m["uri"].Str? then Ok(m["uri"].s)
        else Err(RuntimeFailure("TypeError"))
      case _ => Err(RuntimeFailure("TypeError"))
  }

  /**
   * `update` refuses only a falsy resource by design, and otherwise targets its
   * `uri` verbatim; a truthy resource without one fails at run time (KeyError on
   * a mapping, TypeError on anything else).
   */
  lemma UpdateTargetSpec(resource: Value)
    ensures UpdateTarget(resource) == Err(ValueError(RESOURCE_WAS_NOT_PROVIDED)) <==> !Truthy(resource)
    ensures UpdateTarget(resource).Ok? <==>
            resource.Dict? && "uri" in resource.fields && resource.fields["uri"].Str?
    ensures UpdateTarget(resource).Ok? ==> UpdateTarget(resource).value == resource.fields["uri"].s
    ensures Truthy(resource) && resource.Dict? && "uri" !in resource.fields ==>
            UpdateTarget(resource) == Err(RuntimeFailure("KeyError"))
    ensures Truthy(resource) && !(resource.Dict? && "uri" in resource.fields) ==>
            UpdateTarget(resource).Err? && UpdateTarget(resource).error.RuntimeFailure?
  {
  }

  function SchemaUri(base: string): string
  {
    base + "/schema"
  }
}
