/** The template filters and tags of
    adit_radis_shared/common/templatetags/common_extras.py that hold
    logic: a lookup with a default, the site's base URL, a query string
    with one parameter replaced, joining a value that is a list, and the
    two message-tag tables. */
module TemplateTags {
  import opened Wrappers
  import opened Text

  /** A template value: a string, or a list of strings. */
  datatype TemplateValue = TextValue(text: string) | ListValue(items: seq<string>)

  /** `access_item`: `d.get(key, "")`. */
  function AccessItem(d: map<string, TemplateValue>, key: string): (r: TemplateValue)
    ensures key in d ==> r == d[key]
    ensures key !in d ==> r == TextValue("")
  {
    if key in d then d[key] else TextValue("")
  }

  /** `base_url`: `isSecure` is `request.is_secure()` when the context
      holds a request, `environment` is the ENVIRONMENT setting and
      `domain` the current site's domain. */
  function BaseUrl(isSecure: Option<bool>, environment: string, domain: string): (r: string)
    ensures var https := if isSecure.Some? then isSecure.value else environment == "production";
      r == (if https then "https" else "http") + "://" + domain
  {
    var protocol := if isSecure.Some? then (if isSecure.value then "https" else "http")
                    else if environment == "production" then "https" else "http";
    protocol + "://" + domain
  }

  /** The base URL ends with the domain, behind `http://` or `https://`. */
  lemma BaseUrlShape(isSecure: Option<bool>, environment: string, domain: string)
    ensures var r := BaseUrl(isSecure, environment, domain);
      && |r| >= |domain| && r[|r| - |domain|..] == domain
      && (StartsWith(r, "https://") || StartsWith(r, "http://"))
  {
    var r := BaseUrl(isSecure, environment, domain);
    var p := r[..|r| - |domain|];
    assert r == p + domain;
  }

  /** A query dictionary: each key once, with its list of values. */
  type Query = seq<(string, seq<string>)>

  predicate DistinctKeys(q: Query) {
    forall i, j :: 0 <= i < j < |q| ==> q[i].0 != q[j].0
  }

  /** `dict_[field] = value` on a copy of the query: the field's list
      becomes `[value]`, in its place if the field was there, else at the
      end. */
  function SetParam(q: Query, field: string, value: string): (r: Query)
    requires DistinctKeys(q)
    ensures |r| == |q| || |r| == |q| + 1
    ensures forall i :: 0 <= i < |q| ==> r[i].0 == q[i].0
    ensures forall i :: 0 <= i < |q| && q[i].0 != field ==> r[i] == q[i]
    ensures forall i :: 0 <= i < |q| && q[i].0 == field ==> r[i] == (field, [value])
    ensures |r| == |q| + 1 <==> forall i :: 0 <= i < |q| ==> q[i].0 != field
    ensures |r| == |q| + 1 ==> r[|q|] == (field, [value])
  {
    if q == [] then [(field, [value])]
    else if q[0].0 == field then [(field, [value])] + q[1..]
    else [q[0]] + SetParam(q[1..], field, value)
  }

  /** The copy keeps one entry per key, and the field has `value` as its
      only value. */
  lemma SetParamLookup(q: Query, field: string, value: string)
    requires DistinctKeys(q)
    ensures DistinctKeys(SetParam(q, field, value))
    ensures exists i :: 0 <= i < |SetParam(q, field, value)| && SetParam(q, field, value)[i] == (field, [value])
  {
    var r := SetParam(q, field, value);
    if |r| == |q| {
      var i :| 0 <= i < |q| && q[i].0 == field;
      assert r[i] == (field, [value]);
    } else {
      assert r[|q|] == (field, [value]);
    }
  }

  /** Dropping the first entry keeps the keys distinct. */
  lemma DistinctTail(q: Query)
    requires DistinctKeys(q) && q != []
    ensures DistinctKeys(q[1..])
  {
    forall i, j | 0 <= i < j < |q| - 1
      ensures q[1..][i].0 != q[1..][j].0
    {
      assert q[1..][i] == q[i + 1] && q[1..][j] == q[j + 1];
    }
  }

  /** Replacing a parameter twice with the same value is replacing it once. */
  lemma {:induction false} SetParamIdempotent(q: Query, field: string, value: string)
    requires DistinctKeys(q)
    ensures DistinctKeys(SetParam(q, field, value)) && SetParam(SetParam(q, field, value), field, value) == SetParam(q, field, value)
    decreases |q|
  {
    SetParamLookup(q, field, value);
    var r := SetParam(q, field, value);
    if q != [] && q[0].0 != field {
      DistinctTail(q);
      var rest := SetParam(q[1..], field, value);
      assert r == [q[0]] + rest;
      assert r[0] == q[0] && r[1..] == rest;
      SetParamIdempotent(q[1..], field, value);
      assert SetParam(r, field, value) == [q[0]] + SetParam(rest, field, value);
    }
  }

  /** The `key=value` pairs of one entry, one per value. */
  function EntryPairs(e: (string, seq<string>)): (r: seq<string>)
    ensures |r| == |e.1|
  {
    seq(|e.1|, k requires 0 <= k < |e.1| => e.0 + "=" + e.1[k])
  }

  /** The `key=value` pairs of a query, in order. */
  function Pairs(q: Query): (r: seq<string>)
  {
    if q == [] then [] else EntryPairs(q[0]) + Pairs(q[1..])
  }

  /** The encoded query of the copy ends with `field=value` when the field
      is new. */
  lemma {:induction false} PairsAppended(q: Query, field: string, value: string)
    requires DistinctKeys(q)
    requires forall i :: 0 <= i < |q| ==> q[i].0 != field
    ensures Pairs(SetParam(q, field, value)) == Pairs(q) + [field + "=" + value]
    decreases |q|
  {
    var r := SetParam(q, field, value);
    if q == [] {
      assert EntryPairs((field, [value])) == [field + "=" + value];
      assert r[1..] == [];
    } else {
      var rest := SetParam(q[1..], field, value);
      assert r == [q[0]] + rest;
      assert r[0] == q[0] && r[1..] == rest;
      DistinctTail(q);
      PairsAppended(q[1..], field, value);
      calc {
        Pairs(r);
        EntryPairs(q[0]) + Pairs(rest);
        EntryPairs(q[0]) + (Pairs(q[1..]) + [field + "=" + value]);
        (EntryPairs(q[0]) + Pairs(q[1..])) + [field + "=" + value];
        { assert Pairs(q) == EntryPairs(q[0]) + Pairs(q[1..]); }
        Pairs(q) + [field + "=" + value];
      }
    }
  }

  /** `url_replace`: the request's query with the field set to the value,
      encoded (the percent-quoting of `urlencode` is not part of this
      model): a new field comes last. The request's own query is a value
      and so is left as it was. */
  function UrlReplace(q: Query, field: string, value: string): (r: string)
    requires DistinctKeys(q)
    ensures (forall i :: 0 <= i < |q| ==> q[i].0 != field) ==> r == Join(Pairs(q) + [field + "=" + value], "&")
  {
    if forall i :: 0 <= i < |q| ==> q[i].0 != field then
      PairsAppended(q, field, value);
      Join(Pairs(SetParam(q, field, value)), "&")
    else Join(Pairs(SetParam(q, field, value)), "&")
  }

  /** `join_if_list`: a list is joined with `arg` (the HTML escaping of
      `join` is not part of this model); anything else is returned as it
      is. */
  function JoinIfList(value: TemplateValue, arg: string): (r: TemplateValue)
    ensures value.TextValue? ==> r == value
    ensures value.ListValue? ==> r.TextValue? && r.text == Join(value.items, arg)
  {
    match value
    case ListValue(items) => TextValue(Join(items, arg))
    case TextValue(_) => value
  }

  /** The message tags the two tables know. */
  predicate KnownTag(tag: string) {
    tag == "info" || tag == "success" || tag == "warning" || tag == "error"
  }

  /** `alert_class`: the Bootstrap alert class for a message tag. */
  function AlertClass(tag: string): (r: string)
    ensures KnownTag(tag) && tag != "error" ==> r == "alert-" + tag
    ensures tag == "error" ==> r == "alert-danger"
    ensures !KnownTag(tag) ==> r == "alert-secondary"
  {
    if tag == "info" then "alert-info"
    else if tag == "success" then "alert-success"
    else if tag == "warning" then "alert-warning"
    else if tag == "error" then "alert-danger"
    else "alert-secondary"
  }

  /** `message_symbol`: the icon name for a message tag. */
  function MessageSymbol(tag: string): (r: string)
    ensures KnownTag(tag) ==> r == tag
    ensures !KnownTag(tag) ==> r == "bug"
  {
    if KnownTag(tag) then tag else "bug"
  }

  /** Only a tag the tables know gets an alert class other than the
      fallback, and the symbol is the tag itself exactly for those tags
      (and for "bug"). */
  lemma TagTables(tag: string)
    ensures AlertClass(tag) == "alert-secondary" <==> !KnownTag(tag)
    ensures MessageSymbol(tag) == tag <==> KnownTag(tag) || tag == "bug"
  {
    if KnownTag(tag) {
      var r := AlertClass(tag);
      assert r == "alert-info" || r == "alert-success" || r == "alert-warning" || r == "alert-danger";
      assert |r| < |"alert-secondary"|;
    }
  }
}
