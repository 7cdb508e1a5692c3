/** The record a lookup with `status: true` is bound to. */
module GenderSuccessResponse {
  import opened Wrappers
  import opened Json
  import opened Binding

  /** Every field but `status` is a nullable Java reference; the accessors are the getters. */
  datatype SuccessResponse = SuccessResponse(
    status: bool,
    name: Option<string>,
    gender: Option<string>,
    country: Option<string>,
    totalNames: Option<Int32>,
    probability: Option<Int32>,
    usedCredits: Option<Int32>,
    remainingCredits: Option<Int32>,
    expires: Option<Int64>,
    q: Option<string>,
    duration: Option<string>)

  const NameKey := "name"
  const GenderKey := "gender"
  const CountryKey := "country"
  const TotalNamesKey := "total_names"
  const ProbabilityKey := "probability"
  const UsedCreditsKey := "used_credits"
  const RemainingCreditsKey := "remaining_credits"
  const ExpiresKey := "expires"
  const QKey := "q"
  const DurationKey := "duration"

  /** The keys the record reads; every other key is ignored. */
  const Keys: set<string> := {
    StatusKey, NameKey, GenderKey, CountryKey, TotalNamesKey, ProbabilityKey,
    UsedCreditsKey, RemainingCreditsKey, ExpiresKey, QKey, DurationKey }

  /** Every known key holds a value its field can take. */
  predicate Bindable(fields: map<string, Json>) {
    && StringBindable(fields, NameKey)
    && StringBindable(fields, GenderKey)
    && StringBindable(fields, CountryKey)
    && IntegerBindable(fields, TotalNamesKey)
    && IntegerBindable(fields, ProbabilityKey)
    && IntegerBindable(fields, UsedCreditsKey)
    && IntegerBindable(fields, RemainingCreditsKey)
    && LongBindable(fields, ExpiresKey)
    && StringBindable(fields, QKey)
    && StringBindable(fields, DurationKey)
  }

  /** `treeToValue(node, GenderSuccessResponse.class)`; a failure names the field that would not bind. */
  function FromJson(fields: map<string, Json>, asBoolean: Json -> bool): (r: Result<SuccessResponse, string>)
    ensures r.Ok? <==> Bindable(fields)
    ensures r.Fail? ==> r.failure in Keys
    ensures r.Ok? ==> && r.value.status == StatusField(fields, StatusKey, asBoolean)
                      && r.value.name == StringAt(fields, NameKey)
                      && r.value.gender == StringAt(fields, GenderKey)
                      && r.value.country == StringAt(fields, CountryKey)
                      && r.value.totalNames == NumberAt(fields, TotalNamesKey)
                      && r.value.probability == NumberAt(fields, ProbabilityKey)
                      && r.value.usedCredits == NumberAt(fields, UsedCreditsKey)
                      && r.value.remainingCredits == NumberAt(fields, RemainingCreditsKey)
                      && r.value.expires == NumberAt(fields, ExpiresKey)
                      && r.value.q == StringAt(fields, QKey)
                      && r.value.duration == StringAt(fields, DurationKey)
  {
    var name :- StringField(fields, NameKey);
    var gender :- StringField(fields, GenderKey);
    var country :- StringField(fields, CountryKey);
    var totalNames :- IntegerField(fields, TotalNamesKey);
    var probability :- IntegerField(fields, ProbabilityKey);
    var usedCredits :- IntegerField(fields, UsedCreditsKey);
    var remainingCredits :- IntegerField(fields, RemainingCreditsKey);
    var expires :- LongField(fields, ExpiresKey);
    var q :- StringField(fields, QKey);
    var duration :- StringField(fields, DurationKey);
    Ok(SuccessResponse(StatusField(fields, StatusKey, asBoolean), name, gender, country,
                       totalNames, probability, usedCredits, remainingCredits, expires, q, duration))
  }

  /** The JSON value the service sends under `key` for a record, none for a null field or an unknown key. */
  function ValueAt(s: SuccessResponse, key: string): Option<Json> {
    if key == StatusKey then Some(JBool(s.status))
    else if key == NameKey then StringValue(s.name)
    else if key == GenderKey then StringValue(s.gender)
    else if key == CountryKey then StringValue(s.country)
    else if key == TotalNamesKey then NumberValue(s.totalNames)
    else if key == ProbabilityKey then NumberValue(s.probability)
    else if key == UsedCreditsKey then NumberValue(s.usedCredits)
    else if key == RemainingCreditsKey then NumberValue(s.remainingCredits)
    else if key == ExpiresKey then NumberValue(s.expires)
    else if key == QKey then StringValue(s.q)
    else if key == DurationKey then StringValue(s.duration)
    else None
  }

  /** The object the service sends for a record: null fields are left out. */
  function ToJson(s: SuccessResponse): map<string, Json> {
    map k | k in Keys && ValueAt(s, k).Some? :: ValueAt(s, k).value
  }

  /** Binding reads nothing but the known keys. */
  lemma FromJsonReadsOnlyKeys(f: map<string, Json>, g: map<string, Json>, asBoolean: Json -> bool)
    requires AgreeOn(f, g, Keys)
    ensures FromJson(f, asBoolean) == FromJson(g, asBoolean)
  {
    assert StatusField(f, StatusKey, asBoolean) == StatusField(g, StatusKey, asBoolean);
    assert StringField(f, NameKey) == StringField(g, NameKey);
    assert StringField(f, GenderKey) == StringField(g, GenderKey);
    assert StringField(f, CountryKey) == StringField(g, CountryKey);
    assert IntegerField(f, TotalNamesKey) == IntegerField(g, TotalNamesKey);
    assert IntegerField(f, ProbabilityKey) == IntegerField(g, ProbabilityKey);
    assert IntegerField(f, UsedCreditsKey) == IntegerField(g, UsedCreditsKey);
    assert IntegerField(f, RemainingCreditsKey) == IntegerField(g, RemainingCreditsKey);
    assert LongField(f, ExpiresKey) == LongField(g, ExpiresKey);
    assert StringField(f, QKey) == StringField(g, QKey);
    assert StringField(f, DurationKey) == StringField(g, DurationKey);
  }

  /** Unknown keys, whatever they hold, change nothing and cause no failure. */
  lemma UnknownKeysIgnored(fields: map<string, Json>, extra: map<string, Json>, asBoolean: Json -> bool)
    requires extra.Keys !! Keys
    ensures FromJson(fields + extra, asBoolean) == FromJson(fields, asBoolean)
  {
    FromJsonReadsOnlyKeys(fields + extra, fields, asBoolean);
  }

  /** Each field of a record can be read back from the object the service sends for it. */
  lemma ToJsonHoldsFields(s: SuccessResponse)
    ensures var f := ToJson(s);
            && StatusKey in f && f[StatusKey] == JBool(s.status)
            && StringAt(f, NameKey) == s.name && StringAt(f, GenderKey) == s.gender
            && StringAt(f, CountryKey) == s.country
            && NumberAt(f, TotalNamesKey) == s.totalNames && NumberAt(f, ProbabilityKey) == s.probability
            && NumberAt(f, UsedCreditsKey) == s.usedCredits && NumberAt(f, RemainingCreditsKey) == s.remainingCredits
            && NumberAt(f, ExpiresKey) == s.expires
            && StringAt(f, QKey) == s.q && StringAt(f, DurationKey) == s.duration
            && Bindable(f)
  {
  }

  /** A record sent by the service, with any unknown keys beside it, binds back to itself. */
  lemma RoundTrip(s: SuccessResponse, extra: map<string, Json>, asBoolean: Json -> bool)
    requires extra.Keys !! Keys
    ensures FromJson(ToJson(s) + extra, asBoolean) == Ok(s)
  {
    var f := ToJson(s);
    UnknownKeysIgnored(f, extra, asBoolean);
    ToJsonHoldsFields(s);
    var r := FromJson(f, asBoolean);
    assert r.Ok?;
    assert r.value.status == s.status;
  }

  /** The camel-case spelling `totalNames` is not the key of the totalNames field. */
  lemma TotalNamesReadFromSnakeCase(fields: map<string, Json>, v: Json, asBoolean: Json -> bool)
    ensures FromJson(fields["totalNames" := v], asBoolean) == FromJson(fields - {"totalNames"}, asBoolean)
  {
    FromJsonReadsOnlyKeys(fields["totalNames" := v], fields - {"totalNames"}, asBoolean);
  }
}
