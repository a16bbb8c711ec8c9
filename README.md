# Weather notifier: the subscription record layer, in Dafny

This project models the subscription side of the weather notifier's API: the
`Subscription` record that is stored in the database, the request and response
schemas that validate subscriptions, the project's exceptions, and the services
that list, look up, create, delete and update subscriptions.

The notifier (the part that compares weather readings with thresholds and writes
the e-mails) is not modelled. Its entry point imports `generate_alerts`,
`format_email_body` and `fetch_weather` from a services module that defines only
`fetch_subscriptions` (notifier/src/notifier/main.py:7-8,
notifier/src/notifier/services.py:1-7). That evaluation logic is not in these
files, so the model does not guess at it.

Modules, one per core source file, plus shared wrappers and the test scenarios:

- `Wrappers` (wrappers.dfy): `Option` and `Result`.
- `Exceptions` (exceptions.dfy): `WeatherNotifierException` and `EntityNotFoundException`, as values.
- `Schemas` (schemas.dfy): the closed enumerations `ConditionEnum` and `OpEnum`, the validated
  shapes, the `valid_country_code` and `valid_uuid` validators, parsing of raw input, and the
  `.dict()` form that the services pass to the record.
- `Models` (models.py → models.dfy): `class Subscription`. Its fields are assigned in place by
  `__init__` and `update_from_dict`. `Fields` is the record's abstract value. `Updated` is
  the specification of `update_from_dict`.
- `Services` (services.dfy): `class Session`, the subscriptions table seen through the
  database session. It is a map from `subscription_uuid` to the record object, plus the
  order in which rows were added. The five services are methods over a session.
- `Scenarios` (scenarios.dfy): the cases of the API's service and schema tests, each stated
  as a contract.

Modelling choices:

- Python does not check what is assigned to an attribute. So each record field holds a
  `Value`: `Null`, an integer, a string, or a list of condition dicts.
- A dict is a `map<string, Value>`.
- `uuid.UUID(v)` and `EmailStr` are library checks. They are the parameters `isUuid` and
  `isEmail`. `EmailStr` also stores the address in a normalised form; that form is the
  parameter `normEmail`, so a parsed schema holds `normEmail(raw email)`, not the raw text.
- The uuid that `uuid.uuid4()` would generate is a parameter, `freshUuid`.
- `Decimal` thresholds are `real`.
- Validation reports every failing field, in the order the fields are declared, as the
  validation library does. Each error is tagged with its field and, for a condition, the
  condition's position.
- `Session.Valid()` is the table invariant: every row's uuid column equals the key it is
  stored under. This stands in for the unique index. It implies that distinct keys hold
  distinct objects, so an update through one key changes no other row.

Code and tests disagree in two places. The model follows the code in both:

- The schema test expects `SubscriptionOutSchema` to accept conditions that have no
  `condition_uuid` (api/tests/test_subscription_schema.py:32-64). `ConditionOut` requires
  that field (api/src/weather_notifier/subscriptions/schemas.py:30-41).
  `Scenarios.OutSchemaTestDataRefused` proves that the schema as written refuses that data.
- The service test builds its fixture with `models.Condition` and reads `.condition_uuid`
  from stored conditions (api/tests/test_subscription_services.py:70, 194-195). The API's
  models module defines no `Condition` and stores conditions as plain dicts. The fixture
  here stores one condition dict that carries its uuid.

## Model

| member | source | states |
|---|---|---|
| `Exceptions.WeatherNotifierException` | src/weather_notifier/exceptions.py:1-4 | the exception carries the given message as `str(e)` and the given code; it is a plain WeatherNotifierException |
| `Exceptions.DefaultCodeIs500` | src/weather_notifier/exceptions.py:2-3 | leaving out the code gives code 500 and keeps the message |
| `Exceptions.EntityNotFoundException` | src/weather_notifier/exceptions.py:7-9 | the message is the entity name followed by " not found"; the code is always 404; the class is EntityNotFoundException |
| `Exceptions.EntityNameRoundTrip` | src/weather_notifier/exceptions.py:8-9 | the entity name can be read back from the message by removing " not found" |
| `Exceptions.EntityNotFoundInjective` | src/weather_notifier/exceptions.py:8-9 | two not-found exceptions are equal if and only if they name the same entity |
| `Exceptions.PlainExceptionIsNotNotFound` | src/weather_notifier/exceptions.py:1-9 | a base-class exception is never taken for a not-found one, whatever its message |
| `Exceptions.WrongUuidMessage` | api/tests/test_subscription_services.py:173-183 | `EntityNotFoundException("Subscription: clearly-wrong-uuid")` renders as "Subscription: clearly-wrong-uuid not found" with code 404 |
| `Schemas.ParseConditionKind` | api/src/weather_notifier/subscriptions/schemas.py:8-11 | a string is a ConditionEnum member if and only if it is "temp", "pressure" or "humidity"; the member's value is that string |
| `Schemas.ParseOp` | api/src/weather_notifier/subscriptions/schemas.py:14-19 | a string is an OpEnum member if and only if it is one of gt, lt, eq, gte, lte; the member's value is that string |
| `Schemas.ConditionKindRoundTrip` | api/src/weather_notifier/subscriptions/schemas.py:8-11 | each ConditionEnum member is recovered from its value |
| `Schemas.OpRoundTrip` | api/src/weather_notifier/subscriptions/schemas.py:14-19 | each OpEnum member is recovered from its value |
| `Schemas.ValidCountryCode` | api/src/weather_notifier/subscriptions/schemas.py:49-53 | accepted if and only if the length is exactly 2, with no case or alphabet check; an accepted code is returned unchanged; a refused one fails with "Must be a valid 2-letter country code" |
| `Schemas.ValidUuid` | api/src/weather_notifier/subscriptions/schemas.py:33-36 | accepted if and only if the uuid check passes; the string is returned unchanged, not normalised |
| `Schemas.RequiredUuid` | api/src/weather_notifier/subscriptions/schemas.py:30-36 | a required uuid field succeeds if and only if it is present and passes the uuid check; an absent one is a missing-field error |
| `Schemas.ValidEmail` | api/src/weather_notifier/subscriptions/schemas.py:45 | accepted if and only if the e-mail check passes; an accepted address is stored in its normalised form `normEmail(v)`; a refused one is a not-an-e-mail error |
| `Schemas.ParseCondition` | api/src/weather_notifier/subscriptions/schemas.py:22-27 | a condition is accepted if and only if both enumerations match; the threshold is kept; an "op" or "condition" error is reported if and only if that field is wrong |
| `Schemas.ParseConditionUpdate` | api/src/weather_notifier/subscriptions/schemas.py:30-41 | accepted if and only if the base condition is accepted and a valid `condition_uuid` is present, which is kept unchanged; without it the error names the missing field |
| `Schemas.ParseEach` | api/src/weather_notifier/subscriptions/schemas.py:57 | a list is accepted if and only if every element is; the result holds the parsed elements in order; the errors are exactly the element errors, each tagged with its element's position |
| `Schemas.BaseErrorsEmpty` | api/src/weather_notifier/subscriptions/schemas.py:44-53 | the base fields raise no error if and only if the e-mail is valid and the country code has length 2; the country-code error appears exactly when the length is not 2 |
| `Schemas.ParseSubscriptionIn` | api/src/weather_notifier/subscriptions/schemas.py:56-57 | accepted if and only if the base fields and every condition are valid; the record holds the normalised e-mail address and the input's city, country code and conditions in order; the country-code error appears exactly when the length is not 2 |
| `Schemas.ParseSubscriptionUpdateIn` | api/src/weather_notifier/subscriptions/schemas.py:60-61 | accepted if and only if the base fields are valid and every condition has a valid uuid; the record holds the normalised e-mail address, the input's city and country code, and the parsed conditions in order; the country-code error appears exactly when the length is not 2 |
| `Schemas.ParseSubscriptionOut` | api/src/weather_notifier/subscriptions/schemas.py:64-71 | accepted if and only if the base fields are valid, `subscription_uuid` is present and passes the uuid check, and every condition has a valid uuid; the record holds the uuid as given, the normalised e-mail address, the input's city and country code and the parsed conditions in order; a missing `subscription_uuid` is reported; the country-code error appears exactly when the length is not 2 |
| `Schemas.EmptyConditionsAccepted` | api/tests/test_subscription_schema.py:24-29 | a subscription with valid base fields and an empty conditions list is accepted, holding the normalised e-mail address and no conditions |
| `Schemas.OutConditionNeedsUuid` | api/src/weather_notifier/subscriptions/schemas.py:39-41 | an out-schema is refused if any of its conditions lacks `condition_uuid` |
| `Schemas.ConditionDict` | api/src/weather_notifier/subscriptions/schemas.py:22-27 | `.dict()` of a Condition keeps its three fields and has no uuid |
| `Schemas.SubscriptionInDict` | api/src/weather_notifier/subscriptions/services.py:72 | `.dict()` of an input schema has exactly the keys email, city, country_code and conditions, holding the schema's values and its conditions in order |
| `Models.Field` | api/src/weather_notifier/subscriptions/models.py:12-17 | `getattr` finds a column if and only if the name is one of the six declared columns |
| `Models.FromDictFields` | api/src/weather_notifier/subscriptions/models.py:34-41 | succeeds if and only if country_code, city, email and conditions are all keys; copies them unchanged; takes `subscription_uuid` from the dict when present, otherwise the fresh uuid; a KeyError names the first missing key in reading order |
| `Models.UpdatedSetsNamedFields` | api/src/weather_notifier/subscriptions/models.py:43-46 | every column whose name is a key of the dict takes that key's value; `conditions` is replaced by the new list as a whole |
| `Models.UpdatedKeepsOtherFields` | api/src/weather_notifier/subscriptions/models.py:43-46 | every column whose name is not a key of the dict keeps its value |
| `Models.UpdatedIgnoresUnknownKeys` | api/src/weather_notifier/subscriptions/models.py:45 | a key that names no column makes no difference to the update |
| `Models.UpdatedIdempotent` | api/src/weather_notifier/subscriptions/models.py:43-47 | updating twice with the same dict is the same as updating once |
| `Models.UpdatedComposes` | api/src/weather_notifier/subscriptions/models.py:43-47 | two updates in a row equal one update with the merged dict, the later values winning |
| `Models.UpdatedByInputKeepsIdentity` | api/src/weather_notifier/subscriptions/services.py:91 | updating from an input schema's dict sets email, city, country code and conditions to the schema's values and never changes `id` or `subscription_uuid` |
| `Models.FromInputDict` | api/src/weather_notifier/subscriptions/services.py:72 | `from_dict` of an input schema's dict always succeeds, takes the fresh uuid and leaves `id` unset |
| `Models.Subscription.constructor` | api/src/weather_notifier/subscriptions/models.py:19-31 | stores subscription_uuid, country_code, city, email and conditions exactly as given; `id` is unset |
| `Models.Subscription.FromDict` | api/src/weather_notifier/subscriptions/models.py:33-41 | returns a new record holding `FromDictFields`, or that function's KeyError |
| `Models.Subscription.SetAttr` | api/src/weather_notifier/subscriptions/models.py:46 | `setattr` changes exactly the named column |
| `Models.Subscription.UpdateFromDict` | api/src/weather_notifier/subscriptions/models.py:43-47 | the record's new value is `Updated(old value, data)`, reached by assigning one key at a time; it returns the same object it changed, not a copy |
| `Services.Remove` | api/src/weather_notifier/subscriptions/services.py:79 | the row order without the deleted key: exactly the other keys, still distinct |
| `Services.Session.constructor` | api/tests/test_subscription_services.py:32-37 | a fresh session sees an empty table |
| `Services.Session.Add` | api/src/weather_notifier/subscriptions/services.py:73 | adding a record the session already holds changes nothing; a new record becomes a row under its uuid, appended to the order |
| `Services.Session.Delete` | api/src/weather_notifier/subscriptions/services.py:79 | deleting a held record removes its row, and only that row |
| `Services.GetAllSubscriptions` | api/src/weather_notifier/subscriptions/services.py:12-28 | returns every stored record exactly once, with no duplicates and nothing else, in the table's order |
| `Services.GetSubscriptionByUuid` | api/src/weather_notifier/subscriptions/services.py:31-51 | returns the record whose uuid column equals the argument, and None if and only if no stored record has that uuid |
| `Services.CreateSubscription` | api/src/weather_notifier/subscriptions/services.py:54-74 | adds one new record under the fresh uuid, holding the input's email, city, country code and conditions; returns that record; other rows stay |
| `Services.DeleteSubscriptionByUuid` | api/src/weather_notifier/subscriptions/services.py:77-79 | removes the row with that uuid and keeps every other row |
| `Services.UpdateSubscriptionByUuid` | api/src/weather_notifier/subscriptions/services.py:82-93 | for an absent uuid, fails with `EntityNotFoundException("Subscription: " + uuid)` and changes nothing; otherwise updates the stored record in place from the input's dict and returns it; the table's keys stay, the record keeps its uuid, and no other record changes |
| `Scenarios.NewStoredSubscription` | api/tests/test_subscription_services.py:61-79 | the fixture record holds the fixture's values |
| `Scenarios.SessionWithOneSubscription` | api/tests/test_subscription_services.py:82-88 | after adding the fixture record, the table holds exactly that record |
| `Scenarios.GetAllWhenEmpty` | api/tests/test_subscription_services.py:115-116 | an empty table lists no subscriptions |
| `Scenarios.GetAllReturnsTheStoredOne` | api/tests/test_subscription_services.py:119-122 | a table holding one record lists exactly that record |
| `Scenarios.GetReturnsTheStoredOne` | api/tests/test_subscription_services.py:125-131 | looking up the stored uuid gives the stored record |
| `Scenarios.DeleteRemovesIt` | api/tests/test_subscription_services.py:134-147 | the record is found before the delete and not after it |
| `Scenarios.UpdateChangesEmail` | api/tests/test_subscription_services.py:150-170 | after the update, the new e-mail is in the returned record and in a later lookup |
| `Scenarios.UpdateWithWrongUuidRaises` | api/tests/test_subscription_services.py:173-183 | updating an unknown uuid fails with an EntityNotFoundException whose message is "Subscription: clearly-wrong-uuid not found" |
| `Scenarios.CreateThenFind` | api/tests/test_subscription_services.py:186-207 | a created subscription can be found by its uuid and has the input's e-mail |
| `Scenarios.InSchemaExamplesAccepted` | api/tests/test_subscription_schema.py:8-29 | the test's three input subscriptions, with two conditions, one and none, are accepted with the expected values |
| `Scenarios.ThreeLetterCountryRefused` | api/src/weather_notifier/subscriptions/schemas.py:49-53 | a three-letter country code is refused with the validator's message |
| `Scenarios.OutSchemaTestDataRefused` | api/tests/test_subscription_schema.py:32-64 | the test's out-schema data has conditions without uuids, and the schema as written refuses it |

## Left out

- The notifier's alert evaluation and e-mail formatting: that code is not in these files (see above).
- SQLAlchemy mechanics are not modelled: SQL statements, flushing, transactions, rollback and
  the assignment of the integer `id` on insert. `id` stays `Null` unless a dict sets it.
- The unique index on `subscription_uuid` is a precondition, not an error path. `Session.Add`
  and `Services.CreateSubscription` require a uuid that no row has.
- `Services.DeleteSubscriptionByUuid` requires the uuid to be stored. For a missing uuid the
  source calls `session.delete(None)`, which the database library rejects in its own way.
- `Services.Session.Add` requires a new record to have a string uuid. The table is keyed by
  that string.
- `Services.GetAllSubscriptions` returns rows in the order they were added. The source's query
  has no ORDER BY, so the source promises only the set of rows, which the contract also states.
- `Services.UpdateSubscriptionByUuid` takes a `SubscriptionIn`, as the source annotates. The
  service test passes a `SubscriptionUpdateInSchema` instead. Its dict differs only in that
  each condition entry carries a uuid.
- `hasattr` in the source would also match methods, `__tablename__` and other class
  attributes. The model restricts it to the six declared columns.
- The source loops over the dict's items in insertion order. The model visits the keys in an
  unspecified order. The result is the same, because each key sets a different column.
- `uuid.UUID` parsing, e-mail validation and `EmailStr`'s normalisation of the address are
  library code. They are the parameters `isUuid`, `isEmail` and `normEmail`; no property of
  the normalisation itself (such as lower-casing the domain) is stated.
- Their error messages, and those of enum and missing-field errors, are error kinds rather than
  texts. Only the country-code message comes from the source.
- The validation library's type coercion is not modelled: an integer threshold becoming a
  `Decimal`, a non-string field, or a missing top-level key.
- FastAPI routes, the HTTP status mapping of exceptions, and the app factory.
- The weather and SMTP clients, the scheduling loop, and settings loading.
- The older top-level `src/weather_notifier/subscriptions` tree: its update service names a
  schema that its schemas module does not define.
- The notifier's float-typed schemas.
