/** Properties of the client that relate several calls or several inputs. */
module GenderApiClientProperties {
  import opened Wrappers
  import opened Json
  import opened Binding
  import opened Failures
  import opened GenderApiResult
  import opened GenderApiClient
  import SR = GenderSuccessResponse
  import ER = GenderErrorResponse

  /** A 5xx/408 response fails the same way whatever its body and whatever the parser would make of it. */
  lemma ServerErrorNeverParses(code: int, body1: Option<string>, body2: Option<string>, mapper1: Mapper, mapper2: Mapper)
    requires code in ServerErrorCodes
    ensures Classify(Response(code, body1), mapper1) == Classify(Response(code, body2), mapper2) == Fail(ServerError(code))
  {
  }

  /** Every other code (501 and every 4xx among them) is handled exactly like a 200. */
  lemma OtherCodesAreParsed(code: int, body: Option<string>, mapper: Mapper)
    requires code !in ServerErrorCodes
    ensures Classify(Response(code, body), mapper) == Classify(Response(200, body), mapper)
  {
  }

  /** The variant returned and its `isStatus()` always agree: a Success reports true, an Error false. */
  lemma VariantMatchesStatus(exchange: Exchange, mapper: Mapper)
    requires BooleanFaithful(mapper)
    ensures var r := Classify(exchange, mapper);
            r.Ok? ==> (r.value.Success? <==> r.value.IsStatus())
  {
    var r := Classify(exchange, mapper);
    if r.Ok? {
      var node := mapper.readTree(BodyText(exchange.body)).node;
      StatusFieldAgrees(node.fields, StatusKey, mapper);
    }
  }

  /** Keys neither record knows do not change what a body is classified as, nor make it fail. */
  lemma UnknownKeysIgnored(fields: map<string, Json>, extra: map<string, Json>, asBoolean: Json -> bool)
    requires extra.Keys !! SR.Keys + ER.Keys
    ensures FromTree(JObject(fields + extra), asBoolean) == FromTree(JObject(fields), asBoolean)
  {
    assert StatusKey in SR.Keys;
    assert StatusKey !in extra;
    SR.UnknownKeysIgnored(fields, extra, asBoolean);
    ER.UnknownKeysIgnored(fields, extra, asBoolean);
  }

  /** A success record the service sends with any code but 5xx/408 comes back as exactly that record. */
  lemma SuccessRoundTrip(s: SR.SuccessResponse, extra: map<string, Json>, code: int, body: Option<string>, mapper: Mapper)
    requires s.status && BooleanFaithful(mapper)
    requires extra.Keys !! SR.Keys
    requires code !in ServerErrorCodes
    requires mapper.readTree(BodyText(body)) == Parsed(JObject(SR.ToJson(s) + extra))
    ensures Classify(Response(code, body), mapper) == Ok(Success(s))
  {
    SR.RoundTrip(s, extra, mapper.asBoolean);
    var fields := SR.ToJson(s) + extra;
    assert StatusKey in SR.Keys && SR.ValueAt(s, StatusKey) == Some(JBool(true));
    assert fields[StatusKey] == JBool(true);
  }

  /** An error record the service sends comes back as exactly that record: a normal return, not a failure. */
  lemma ErrorRoundTrip(e: ER.ErrorResponse, extra: map<string, Json>, code: int, body: Option<string>, mapper: Mapper)
    requires !e.status && BooleanFaithful(mapper)
    requires extra.Keys !! ER.Keys
    requires code !in ServerErrorCodes
    requires mapper.readTree(BodyText(body)) == Parsed(JObject(ER.ToJson(e) + extra))
    ensures Classify(Response(code, body), mapper) == Ok(Error(e))
  {
    ER.RoundTrip(e, extra, mapper.asBoolean);
    var fields := ER.ToJson(e) + extra;
    assert StatusKey in ER.Keys && ER.ValueAt(e, StatusKey) == Some(JBool(false));
    assert fields[StatusKey] == JBool(false);
  }

  /** `{"status": true, "name": "Michael", "gender": "male", "probability": 97}` is a Success with that gender and probability. */
  lemma MichaelIsMale(mapper: Mapper)
    requires BooleanFaithful(mapper)
    ensures var r := FromTree(JObject(map["status" := JBool(true), "name" := JString("Michael"),
                                          "gender" := JString("male"), "probability" := JInt(97)]), mapper.asBoolean);
            && r.Ok? && r.value.Success?
            && r.value.success.gender == Some("male") && r.value.success.probability == Some(97)
            && r.value.success.totalNames == None
  {
    var fields := map["status" := JBool(true), "name" := JString("Michael"),
                      "gender" := JString("male"), "probability" := JInt(97)];
    assert fields[StatusKey] == JBool(true);
    assert SR.Bindable(fields);
  }

  /** `{"status": false, "errno": 50, "errmsg": "invalid key"}` is returned as an Error, not thrown. */
  lemma InvalidKeyIsReturned(mapper: Mapper)
    requires BooleanFaithful(mapper)
    ensures var r := FromTree(JObject(map["status" := JBool(false), "errno" := JInt(50),
                                          "errmsg" := JString("invalid key")]), mapper.asBoolean);
            && r.Ok? && r.value.Error?
            && r.value.error.errno == Some(50) && r.value.error.errmsg == Some("invalid key")
  {
    var fields := map["status" := JBool(false), "errno" := JInt(50), "errmsg" := JString("invalid key")];
    assert fields[StatusKey] == JBool(false);
    assert ER.Bindable(fields);
  }

  /** A number beyond 32 bits under `probability` is an IOException of the binder, reported as "Request failed". */
  lemma ProbabilityBeyondInt32Fails(fields: map<string, Json>, asBoolean: Json -> bool)
    requires "status" in fields && asBoolean(fields["status"])
    requires "probability" in fields && fields["probability"] == JInt(0x8000_0000)
    ensures FromTree(JObject(fields), asBoolean).Fail?
    ensures FromTree(JObject(fields), asBoolean).failure.RequestFailed?
  {
    assert !IntegerBindable(fields, SR.ProbabilityKey);
  }

  /** The three lookups post to three different URLs of the same client. */
  lemma EndpointsDistinct(client: Client, p: map<string, Json>)
    ensures Request(client, NameEndpoint, p).url != Request(client, EmailEndpoint, p).url
    ensures Request(client, NameEndpoint, p).url != Request(client, UsernameEndpoint, p).url
    ensures Request(client, EmailEndpoint, p).url != Request(client, UsernameEndpoint, p).url
  {
    var base := JavaText.OrNull(client.baseUrl);
    var n := |base|;
    assert (base + NameEndpoint)[n..] == NameEndpoint;
    assert (base + EmailEndpoint)[n..] == EmailEndpoint;
    assert (base + UsernameEndpoint)[n..] == UsernameEndpoint;
  }
}
