/** The record a lookup with `status: false` is bound to. */
module GenderErrorResponse {
  import opened Wrappers
  import opened Json
  import opened Binding

  /** `errno` and `errmsg` are nullable; the accessors are the getters. */
  datatype ErrorResponse = ErrorResponse(status: bool, errno: Option<Int32>, errmsg: Option<string>)

  const ErrnoKey := "errno"
  const ErrmsgKey := "errmsg"

  /** The keys the record reads; every other key is ignored. */
  const Keys: set<string> := {StatusKey, ErrnoKey, ErrmsgKey}

  predicate Bindable(fields: map<string, Json>) {
    IntegerBindable(fields, ErrnoKey) && StringBindable(fields, ErrmsgKey)
  }

  /** `treeToValue(node, GenderErrorResponse.class)`; a failure names the field that would not bind. */
  function FromJson(fields: map<string, Json>, asBoolean: Json -> bool): (r: Result<ErrorResponse, string>)
    ensures r.Ok? <==> Bindable(fields)
    ensures r.Fail? ==> r.failure in Keys
    ensures r.Ok? ==> && r.value.status == StatusField(fields, StatusKey, asBoolean)
                      && r.value.errno == NumberAt(fields, ErrnoKey)
                      && r.value.errmsg == StringAt(fields, ErrmsgKey)
  {
    var errno :- IntegerField(fields, ErrnoKey);
    var errmsg :- StringField(fields, ErrmsgKey);
    Ok(ErrorResponse(StatusField(fields, StatusKey, asBoolean), errno, errmsg))
  }

  /** The JSON value the service sends under `key` for a record, none for a null field or an unknown key. */
  function ValueAt(e: ErrorResponse, key: string): Option<Json> {
    if key == StatusKey then Some(JBool(e.status))
    else if key == ErrnoKey then NumberValue(e.errno)
    else if key == ErrmsgKey then StringValue(e.errmsg)
    else None
  }

  /** The object the service sends for a record: null fields are left out. */
  function ToJson(e: ErrorResponse): map<string, Json> {
    map k | k in Keys && ValueAt(e, k).Some? :: ValueAt(e, k).value
  }

  /** Binding reads nothing but the known keys. */
  lemma FromJsonReadsOnlyKeys(f: map<string, Json>, g: map<string, Json>, asBoolean: Json -> bool)
    requires AgreeOn(f, g, Keys)
    ensures FromJson(f, asBoolean) == FromJson(g, asBoolean)
  {
    assert StatusField(f, StatusKey, asBoolean) == StatusField(g, StatusKey, asBoolean);
    assert IntegerField(f, ErrnoKey) == IntegerField(g, ErrnoKey);
    assert StringField(f, ErrmsgKey) == StringField(g, ErrmsgKey);
  }

  /** Unknown keys, whatever they hold, change nothing and cause no failure. */
  lemma UnknownKeysIgnored(fields: map<string, Json>, extra: map<string, Json>, asBoolean: Json -> bool)
    requires extra.Keys !! Keys
    ensures FromJson(fields + extra, asBoolean) == FromJson(fields, asBoolean)
  {
    FromJsonReadsOnlyKeys(fields + extra, fields, asBoolean);
  }

  /** A record sent by the service, with any unknown keys beside it, binds back to itself. */
  lemma RoundTrip(e: ErrorResponse, extra: map<string, Json>, asBoolean: Json -> bool)
    requires extra.Keys !! Keys
    ensures FromJson(ToJson(e) + extra, asBoolean) == Ok(e)
  {
    var f := ToJson(e);
    UnknownKeysIgnored(f, extra, asBoolean);
    assert StatusKey in f && f[StatusKey] == JBool(e.status);
    assert NumberAt(f, ErrnoKey) == e.errno;
    assert StringAt(f, ErrmsgKey) == e.errmsg;
  }
}
