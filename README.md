# GenderAPI Java client — a Dafny model

This project models the decision logic of the GenderAPI.io Java client. It covers four things:

- What the client checks before it sends anything. A null or empty API key, name, email or username is rejected.
- The JSON body each lookup posts, the URL it posts to and the headers it adds.
- How the outcome of the HTTP call is classified. There are four failures: an IOException turned into "Request failed", a 5xx/408 server error, a body without `status`, or a value that cannot be bound. Otherwise the body is a normal return of one of two result records, chosen by `status`.
- How a JSON object is bound to the success record and to the error record.

Java `null` is `Wrappers.Option.None`. A Java call that can throw returns `Wrappers.Result`. Three parts are parameters rather than code:

- the HTTP call, a function `PostRequest -> Exchange`. An exchange is an IOException (with its message) or a response (a code and a body that may be absent);
- the parser `readTree`, a field of `Json.Mapper`;
- `JsonNode.asBoolean`, a field of `Json.Mapper`.

Lemmas that need `asBoolean` to map a JSON boolean to itself require `Json.BooleanFaithful`.

Modules, one per source file or concern:

- `Wrappers`: Option and Result.
- `Json`: the JSON tree, `has`, and the library oracle.
- `JavaText`: Java's rendering of `null` and of `int` inside string concatenation.
- `Failures`: everything a lookup throws, and its message.
- `Binding`: how one JSON value is bound to a `String`, `Integer`, `Long` or `boolean` field.
- `GenderSuccessResponse` and `GenderErrorResponse`: the two records, their keys, binding from JSON, and the JSON the service sends for a record.
- `GenderApiResult`: the closed sum `Success | Error`. `IsStatus()` is the `isStatus()` getter of whichever record it holds.
- `GenderApiClient`: the constructors, the payloads and the methods that build them, the request, the classification (`Classify`, `FromTree`) and the three lookup methods.
- `GenderApiClientProperties`: lemmas that relate several calls.

The record getters are the datatype's field accessors, so they return the stored value unchanged.

## Model

| member | source | states |
|---|---|---|
| GenderApiClient.New | src/main/java/io/genderapi/GenderApiClient.java:58-67 | Fails with IllegalArgument "API key must not be null or empty." exactly when the key is null or empty. Otherwise it keeps the key and the base URL as given; a null base URL is accepted. |
| GenderApiClient.NewWithDefaultUrl | src/main/java/io/genderapi/GenderApiClient.java:48-50 | The same key check; on success the base URL is `https://api.genderapi.io`. |
| GenderApiClient.NamePayload | src/main/java/io/genderapi/GenderApiClient.java:86-90 | The name body has exactly the keys `name`, `askToAI` and `forceToGenderize`, plus `country` iff country is non-null (so an empty country is sent). Each key holds the value passed in. |
| GenderApiClient.EmailPayload | src/main/java/io/genderapi/GenderApiClient.java:111-114 | The email body has exactly `email` and `askToAI`, plus `country` iff non-null. It never has `forceToGenderize`. |
| GenderApiClient.UsernamePayload | src/main/java/io/genderapi/GenderApiClient.java:136-140 | The username body has exactly `username`, `askToAI` and `forceToGenderize`, plus `country` iff non-null, with the values passed in. |
| GenderApiClient.BuildNamePayload | src/main/java/io/genderapi/GenderApiClient.java:86-90 | The successive puts into an empty object, including the conditional country put, produce exactly NamePayload. |
| GenderApiClient.BuildEmailPayload | src/main/java/io/genderapi/GenderApiClient.java:111-114 | The successive puts produce exactly EmailPayload. |
| GenderApiClient.BuildUsernamePayload | src/main/java/io/genderapi/GenderApiClient.java:136-140 | The successive puts produce exactly UsernamePayload. |
| GenderApiClient.Request | src/main/java/io/genderapi/GenderApiClient.java:159-168 | The URL is the base URL ("null" when it is null) followed by the endpoint. There are exactly two headers, `Authorization: Bearer <apiKey>` and `Content-Type: application/json`. The body is the payload. |
| GenderApiClient.FromTree | src/main/java/io/genderapi/GenderApiClient.java:184-198 | A parsed tree without `status` fails with MissingStatus, and only then. The call returns normally iff `status` is present and the record that `asBoolean(status)` chooses binds. A normal return is the Success variant iff `asBoolean(status)`, and it holds exactly the record that binding produces from the tree's fields. Any other failure is a binding IOException. |
| GenderApiClient.SendPost | src/main/java/io/genderapi/GenderApiClient.java:158-203 | The outcome for what the transport answers to Request. An IOException is rewrapped as RequestFailed; a 5xx/408 response gives ServerError with that code. A ServerError only ever carries one of the five codes, and sendPost never raises IllegalArgument. |
| GenderApiClient.Classify | src/main/java/io/genderapi/GenderApiClient.java:170-202 | Fails with ServerError iff the code is 500, 502, 503, 504 or 408, carrying that code. An IOException from the call becomes RequestFailed. For any other code an unreadable body becomes RequestFailed, and a parsed body is classified by FromTree. It never yields IllegalArgument. |
| GenderApiClient.GetGenderByName | src/main/java/io/genderapi/GenderApiClient.java:79-93 | A null or empty name fails with IllegalArgument "Name parameter is required." whatever the transport is, so nothing is sent. Otherwise the result is sendPost of NamePayload to `/api`. |
| GenderApiClient.GetGenderByEmail | src/main/java/io/genderapi/GenderApiClient.java:104-117 | A null or empty email fails with IllegalArgument "Email parameter is required."; otherwise the result is sendPost of EmailPayload to `/api/email`. |
| GenderApiClient.GetGenderByUsername | src/main/java/io/genderapi/GenderApiClient.java:129-143 | A null or empty username fails with IllegalArgument "Username parameter is required."; otherwise the result is sendPost of UsernamePayload to `/api/username`. |
| Failures.Message | src/main/java/io/genderapi/GenderApiClient.java:180-201 | A server error's message is "Server error (" + code + ")". A missing status gives "Invalid API response: Missing 'status' field.". An IllegalArgument keeps its own message. A rewrapped IOException gives "Request failed: " + its message, with a null message written "null". |
| Failures.CauseMessage | src/main/java/io/genderapi/GenderApiClient.java:201 | The IOException's `getMessage()`: the transport's or parser's message, with null written "null". For a binding failure, a text that names the field's key. |
| Failures.ServerErrorMessageDeterminesCode | src/main/java/io/genderapi/GenderApiClient.java:180 | Two server-error messages are equal only for equal codes: the code can be read back from the message. |
| Binding.StringField | src/main/java/io/genderapi/model/GenderSuccessResponse.java:11-13 | A `String` field binds iff its key is absent, JSON null or a string. Absent and null give null, a string gives itself. Any other value fails, naming the key. |
| Binding.IntegerField | src/main/java/io/genderapi/model/GenderSuccessResponse.java:16-20 | An `Integer` field binds iff its key is absent, null, or a number within 32 bits. A number beyond 32 bits fails. |
| Binding.StatusField | src/main/java/io/genderapi/model/GenderSuccessResponse.java:9 | The primitive `status` field: false when the key is absent, the value itself for a JSON boolean, and `asBoolean` of the value otherwise. |
| Binding.LongField | src/main/java/io/genderapi/model/GenderSuccessResponse.java:21 | A `Long` field binds iff its key is absent, null, or a number within 64 bits. |
| GenderSuccessResponse.FromJson | src/main/java/io/genderapi/model/GenderSuccessResponse.java:6-23 | Binding succeeds iff every known key holds a bindable value; a failure names a known key. `total_names` fills totalNames, `used_credits` fills usedCredits, `remaining_credits` fills remainingCredits, and every other field is filled from the key of its own name. An absent key gives null. |
| GenderSuccessResponse.FromJsonReadsOnlyKeys | src/main/java/io/genderapi/model/GenderSuccessResponse.java:6-23 | Two objects that agree on the eleven known keys bind to the same result. |
| GenderSuccessResponse.UnknownKeysIgnored | src/main/java/io/genderapi/model/GenderSuccessResponse.java:6 | Adding unknown keys, whatever they hold, changes neither the record nor whether binding fails. |
| GenderSuccessResponse.RoundTrip | src/main/java/io/genderapi/model/GenderSuccessResponse.java:9-23 | The object the service sends for a record, with null fields left out and unknown keys beside it, binds back to that record. |
| GenderSuccessResponse.TotalNamesReadFromSnakeCase | src/main/java/io/genderapi/model/GenderSuccessResponse.java:15-16 | The camel-case key `totalNames` is ignored: only `total_names` reaches the field. |
| GenderApiResult.GenderApiResult.IsStatus | src/main/java/io/genderapi/model/GenderSuccessResponse.java:25-27 | `isStatus()` returns the stored `status` of the Success record or of the Error record, unchanged. |
| GenderErrorResponse.FromJson | src/main/java/io/genderapi/model/GenderErrorResponse.java:5-10 | Binding succeeds iff `errno` is absent, null or a 32-bit number and `errmsg` is absent, null or a string. The two fields are filled from their same-named keys, and absent gives null. |
| GenderErrorResponse.FromJsonReadsOnlyKeys | src/main/java/io/genderapi/model/GenderErrorResponse.java:5-10 | Two objects that agree on `status`, `errno` and `errmsg` bind to the same result. |
| GenderErrorResponse.UnknownKeysIgnored | src/main/java/io/genderapi/model/GenderErrorResponse.java:5 | Unknown keys change nothing and cause no failure. |
| GenderErrorResponse.RoundTrip | src/main/java/io/genderapi/model/GenderErrorResponse.java:8-10 | The object the service sends for an error record binds back to that record. |
| GenderApiClientProperties.ServerErrorNeverParses | src/main/java/io/genderapi/GenderApiClient.java:175-181 | For a 5xx/408 code the outcome is ServerError(code), the same for every body and every parser: the body is never parsed. |
| GenderApiClientProperties.OtherCodesAreParsed | src/main/java/io/genderapi/GenderApiClient.java:175-184 | Every other code, including 501 and all 4xx, is classified exactly as a 200 with the same body. |
| GenderApiClientProperties.VariantMatchesStatus | src/main/java/io/genderapi/GenderApiClient.java:190-197 | On every normal return a Success has `isStatus()` true and an Error has `isStatus()` false. |
| GenderApiClientProperties.UnknownKeysIgnored | src/main/java/io/genderapi/GenderApiClient.java:186-197 | Keys that neither record knows do not change how a parsed body is classified. |
| GenderApiClientProperties.SuccessRoundTrip | src/main/java/io/genderapi/GenderApiClient.java:184-194 | A success record that the service sends, with a code other than 5xx/408, is returned as exactly that Success. |
| GenderApiClientProperties.ErrorRoundTrip | src/main/java/io/genderapi/GenderApiClient.java:184-197 | An error record that the service sends is returned normally as exactly that Error, not thrown. |
| GenderApiClientProperties.MichaelIsMale | src/main/java/io/genderapi/GenderApiClient.java:192-194 | `{"status": true, "name": "Michael", "gender": "male", "probability": 97}` gives a Success with gender "male", probability 97 and a null totalNames. |
| GenderApiClientProperties.InvalidKeyIsReturned | src/main/java/io/genderapi/GenderApiClient.java:195-197 | `{"status": false, "errno": 50, "errmsg": "invalid key"}` gives an Error with errno 50 and errmsg "invalid key". |
| GenderApiClientProperties.ProbabilityBeyondInt32Fails | src/main/java/io/genderapi/model/GenderSuccessResponse.java:18 | A success body whose probability is 2^31 fails with RequestFailed, because the value does not fit an Integer. |
| GenderApiClientProperties.EndpointsDistinct | src/main/java/io/genderapi/GenderApiClient.java:92-142 | The name, email and username lookups of one client post to three different URLs. |

## Left out

- The OkHttp transport (the call, connection handling, try-with-resources closing) is not modelled. It is the `http` parameter, and any IOException it or the body read raises is `IoFailure`.
- OkHttp's check of the URL is not modelled. For a malformed URL, such as the "null/api" that a null base URL gives, it throws IllegalArgumentException.
- The client hands the payload to OkHttp as text (`payload.toString()`). The model keeps the payload as a key-to-value map, so key order and JSON text formatting are not modelled.
- `readTree` is an oracle. What it returns for an empty body, and which duplicate key wins, are the library's choice.
- `asBoolean` is an oracle. How it coerces a `status` that is not a JSON boolean is the library's choice.
- Binding.StatusField: a `status` that is not a JSON boolean is bound to the record's primitive field through `asBoolean`. Jackson's own coercion for that field is not modelled and may differ.
- Binding.StringField: a number or boolean bound to a `String` field, which Jackson coerces to text, is a binding failure in the model.
- Binding.IntegerField: numeric text or a float bound to an `Integer` field, which Jackson coerces, is a binding failure in the model.
- Binding.LongField: numeric text or a float bound to a `Long` field, which Jackson coerces, is a binding failure in the model.
- GenderSuccessResponse.FromJson: Jackson's scalar coercions are not modelled. Examples are a number or boolean bound to a `String`, numeric text bound to an `Integer`, and float truncation. The model treats every such type mismatch as a binding failure.
- GenderErrorResponse.FromJson: the same scalar coercions are not modelled.
- JSON floating-point numbers are not modelled; JSON numbers are integers.
- Failures.Message: a binding IOException's message is Jackson's. The model writes its own text naming the key.
- When several values fail to bind, Jackson reports the first in document order. The model reports the first in field declaration order.
- The body is read before the code is checked. The model does not order these steps; a failure while reading is an `IoFailure` whatever the code.
- The cause that GenderApiException keeps is not modelled. The failure datatype records only the IOException's kind and message.
- Java strings are UTF-16; the model uses Dafny's `string`.
- The client's thread safety and blocking behaviour are not modelled.
- src/test/java/io/genderapi/GenderApiClientTest.java is a live network test. Its Success/Error split is VariantMatchesStatus.
- GenderApiResult.java is not part of this model. Its role, the common type of the two records, is the closed sum `GenderApiResult.GenderApiResult`.
