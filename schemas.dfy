/**
 * The request and response shapes of the subscription API
 * (api/src/weather_notifier/subscriptions/schemas.py).
 *
 * A schema is modelled as the typed record it holds once validated, and
 * parsing as a function from the raw input to that record or to the list of
 * field errors. Like the validation library the source uses, every field is
 * checked and all errors are reported, in the order the fields are declared.
 * Whether a string is a UUID or an e-mail address is decided by library code
 * outside this model, so those two tests are parameters (`isUuid`, `isEmail`),
 * and so is the normalised address that `EmailStr` stores (`normEmail`).
 */
module Schemas {
  import opened Wrappers

  // ----- Closed enumerations -----

  /** ConditionEnum: the observed quantity a condition watches. */
  datatype ConditionKind = Temp | Pressure | Humidity

  /** OpEnum: the comparison a condition applies. */
  datatype Op = Gt | Lt | Eq | Gte | Lte

  const ConditionKindValues: set<string> := {"temp", "pressure", "humidity"}
  const OpValues: set<string> := {"gt", "lt", "eq", "gte", "lte"}

  /** The string value of each ConditionEnum member. */
  function ConditionKindValue(k: ConditionKind): string
  {
    match k
    case Temp => "temp"
    case Pressure => "pressure"
    case Humidity => "humidity"
  }

  /** The string value of each OpEnum member. */
  function OpValue(o: Op): string
  {
    match o
    case Gt => "gt"
    case Lt => "lt"
    case Eq => "eq"
    case Gte => "gte"
    case Lte => "lte"
  }

  /** `ConditionEnum(s)`: the member whose value is exactly `s`. */
  function ParseConditionKind(s: string): (r: Option<ConditionKind>)
    ensures r.Some? <==> s in ConditionKindValues
    ensures r.Some? ==> ConditionKindValue(r.value) == s
  {
    if s == "temp" then Some(Temp)
    else if s == "pressure" then Some(Pressure)
    else if s == "humidity" then Some(Humidity)
    else None
  }

  /** `OpEnum(s)`: the member whose value is exactly `s`. */
  function ParseOp(s: string): (r: Option<Op>)
    ensures r.Some? <==> s in OpValues
    ensures r.Some? ==> OpValue(r.value) == s
  {
    if s == "gt" then Some(Gt)
    else if s == "lt" then Some(Lt)
    else if s == "eq" then Some(Eq)
    else if s == "gte" then Some(Gte)
    else if s == "lte" then Some(Lte)
    else None
  }

  /** Every member is recovered from its value, and the values are distinct. */
  lemma ConditionKindRoundTrip(k: ConditionKind)
    ensures ParseConditionKind(ConditionKindValue(k)) == Some(k)
  {
  }

  lemma OpRoundTrip(o: Op)
    ensures ParseOp(OpValue(o)) == Some(o)
  {
  }

  // ----- Validated shapes -----

  /** Condition: one alert rule; the threshold is a Decimal. */
  datatype Condition = Condition(condition: ConditionKind, op: Op, threshold: real)

  /** ConditionUpdate (and ConditionOut, which only adds ORM mode): a condition with its uuid. */
  datatype ConditionUpdate = ConditionUpdate(condition: ConditionKind, op: Op, threshold: real, conditionUuid: string)

  type ConditionOut = ConditionUpdate

  /** SubscriptionInSchema. */
  datatype SubscriptionIn = SubscriptionIn(email: string, city: string, countryCode: string, conditions: seq<Condition>)

  /** SubscriptionUpdateInSchema. */
  datatype SubscriptionUpdateIn = SubscriptionUpdateIn(email: string, city: string, countryCode: string, conditions: seq<ConditionUpdate>)

  /** SubscriptionOutSchema. */
  datatype SubscriptionOut = SubscriptionOut(email: string, city: string, countryCode: string, subscriptionUuid: string, conditions: seq<ConditionOut>)

  // ----- Raw input and errors -----

  /** A condition object as received; `conditionUuid` is None when the key is absent. */
  datatype RawCondition = RawCondition(condition: string, op: string, threshold: real, conditionUuid: Option<string>)

  /** A subscription object as received; `subscriptionUuid` is None when the key is absent. */
  datatype RawSubscription = RawSubscription(
    email: string, city: string, countryCode: string,
    subscriptionUuid: Option<string>, conditions: seq<RawCondition>)

  datatype ErrorKind =
    | Missing            // a required field is absent
    | NotAnEnumMember    // not one of the values of the field's enumeration
    | NotAnEmail         // rejected by the e-mail check
    | NotAUuid           // rejected by `uuid.UUID`
    | Invalid(message: string)  // a ValueError raised by one of the schema's own validators

  datatype FieldError = FieldError(field: string, kind: ErrorKind)

  /** Where an error was found: a field of the subscription, or a field of its `index`-th condition. */
  datatype ValidationError = TopLevel(error: FieldError) | InCondition(index: nat, error: FieldError)

  const CountryCodeMessage: string := "Must be a valid 2-letter country code"

  // ----- Validators -----

  /** `valid_country_code`: exactly two characters, of any kind; the value itself is kept. */
  function ValidCountryCode(v: string): (r: Result<string, ErrorKind>)
    ensures r.Success? <==> |v| == 2
    ensures r.Success? ==> r.value == v
    ensures r.Failure? ==> r.error == Invalid(CountryCodeMessage)
  {
    if |v| != 2 then Failure(Invalid(CountryCodeMessage)) else Success(v)
  }

  /** `valid_uuid`: `uuid.UUID(v)` must not raise; the string itself is kept, not normalised. */
  function ValidUuid(isUuid: string -> bool, v: string): (r: Result<string, ErrorKind>)
    ensures r.Success? <==> isUuid(v)
    ensures r.Success? ==> r.value == v
    ensures r.Failure? ==> r.error == NotAUuid
  {
    if isUuid(v) then Success(v) else Failure(NotAUuid)
  }

  /** A required uuid field: absent is an error of its own, present goes through `valid_uuid`. */
  function RequiredUuid(isUuid: string -> bool, v: Option<string>): (r: Result<string, ErrorKind>)
    ensures r.Success? <==> v.Some? && isUuid(v.value)
    ensures r.Success? ==> r.value == v.value
    ensures v.None? ==> r == Failure(Missing)
  {
    match v
    case None => Failure(Missing)
    case Some(s) => ValidUuid(isUuid, s)
  }

  /** `EmailStr`: an accepted address is stored in its normalised form, not as given. */
  function ValidEmail(isEmail: string -> bool, normEmail: string -> string, v: string): (r: Result<string, ErrorKind>)
    ensures r.Success? <==> isEmail(v)
    ensures r.Success? ==> r.value == normEmail(v)
    ensures r.Failure? ==> r.error == NotAnEmail
  {
    if isEmail(v) then Success(normEmail(v)) else Failure(NotAnEmail)
  }

  /** The error a field contributes: none when its check passed. */
  function ErrorsOf<T>(field: string, r: Result<T, ErrorKind>): seq<FieldError>
  {
    if r.Failure? then [FieldError(field, r.error)] else []
  }

  function EnumErrors<T>(field: string, r: Option<T>): seq<FieldError>
  {
    if r.None? then [FieldError(field, NotAnEnumMember)] else []
  }

  // ----- Conditions -----

  /** Parsing `Condition`: both enumerations must match; an extra `condition_uuid` is ignored. */
  function ParseCondition(raw: RawCondition): (r: Result<Condition, seq<FieldError>>)
    ensures r.Success? <==> raw.condition in ConditionKindValues && raw.op in OpValues
    ensures r.Success? ==>
              && ConditionKindValue(r.value.condition) == raw.condition
              && OpValue(r.value.op) == raw.op
              && r.value.threshold == raw.threshold
    ensures r.Failure? ==> (FieldError("op", NotAnEnumMember) in r.error <==> raw.op !in OpValues)
    ensures r.Failure? ==> (FieldError("condition", NotAnEnumMember) in r.error <==> raw.condition !in ConditionKindValues)
  {
    var kind := ParseConditionKind(raw.condition);
    var op := ParseOp(raw.op);
    if kind.Some? && op.Some? then Success(Condition(kind.value, op.value, raw.threshold))
    else Failure(EnumErrors("condition", kind) + EnumErrors("op", op))
  }

  /** Parsing `ConditionUpdate` / `ConditionOut`: a Condition that also needs a valid `condition_uuid`. */
  function ParseConditionUpdate(isUuid: string -> bool, raw: RawCondition): (r: Result<ConditionUpdate, seq<FieldError>>)
    ensures r.Success? <==>
              ParseCondition(raw).Success? && raw.conditionUuid.Some? && isUuid(raw.conditionUuid.value)
    ensures r.Success? ==> var c := ParseCondition(raw).value;
                           r.value == ConditionUpdate(c.condition, c.op, c.threshold, raw.conditionUuid.value)
    ensures raw.conditionUuid.None? ==> r.Failure? && FieldError("condition_uuid", Missing) in r.error
  {
    var base := ParseCondition(raw);
    var uuid := RequiredUuid(isUuid, raw.conditionUuid);
    if base.Success? && uuid.Success? then
      Success(ConditionUpdate(base.value.condition, base.value.op, base.value.threshold, uuid.value))
    else
      Failure((if base.Failure? then base.error else []) + ErrorsOf("condition_uuid", uuid))
  }

  /** The errors of one list element, tagged with its position. */
  function Tagged(index: nat, errors: seq<FieldError>): (r: seq<ValidationError>)
    ensures |r| == |errors|
    ensures forall j :: 0 <= j < |r| ==> r[j] == InCondition(index, errors[j])
  {
    seq(|errors|, j requires 0 <= j < |errors| => InCondition(index, errors[j]))
  }

  function ErrorList<T>(r: Result<T, seq<ValidationError>>): seq<ValidationError>
  {
    if r.Failure? then r.error else []
  }

  function ElementErrors<T>(r: Result<T, seq<FieldError>>): seq<FieldError>
  {
    if r.Failure? then r.error else []
  }

  /**
   * Parsing a `list[...]` field element by element: the list is accepted exactly
   * when every element is, it then holds the parsed elements in order, and every
   * error reported is the error of one element, tagged with that element's position.
   */
  function ParseEach<T>(raws: seq<RawCondition>, parse: RawCondition -> Result<T, seq<FieldError>>): (r: Result<seq<T>, seq<ValidationError>>)
    ensures r.Success? <==> forall i :: 0 <= i < |raws| ==> parse(raws[i]).Success?
    ensures r.Success? ==>
              && |r.value| == |raws|
              && forall i :: 0 <= i < |raws| ==> r.value[i] == parse(raws[i]).value
    ensures r.Failure? ==> forall e :: e in r.error ==>
                             e.InCondition? && e.index < |raws| && e.error in ElementErrors(parse(raws[e.index]))
    ensures r.Failure? ==> forall i :: 0 <= i < |raws| ==>
                             forall fe :: fe in ElementErrors(parse(raws[i])) ==> InCondition(i, fe) in r.error
    decreases |raws|
  {
    if raws == [] then Success([])
    else
      var n := |raws| - 1;
      var init := ParseEach(raws[..n], parse);
      var last := parse(raws[n]);
      if init.Success? && last.Success? then Success(init.value + [last.value])
      else Failure(ErrorList(init) + Tagged(n, ElementErrors(last)))
  }

  // ----- Subscriptions -----

  /** The errors of the fields every subscription schema declares first: email, city, country_code. */
  function BaseErrors(raw: RawSubscription, isEmail: string -> bool, normEmail: string -> string): seq<ValidationError>
  {
    TopLevels(ErrorsOf("email", ValidEmail(isEmail, normEmail, raw.email)) + ErrorsOf("country_code", ValidCountryCode(raw.countryCode)))
  }

  /** Errors of the subscription's own fields, in order. */
  function TopLevels(errors: seq<FieldError>): (r: seq<ValidationError>)
    ensures |r| == |errors|
    ensures forall j :: 0 <= j < |r| ==> r[j] == TopLevel(errors[j])
  {
    seq(|errors|, j requires 0 <= j < |errors| => TopLevel(errors[j]))
  }

  /** The base fields are acceptable: a valid e-mail address and a two-character country code. */
  predicate BaseValid(raw: RawSubscription, isEmail: string -> bool)
  {
    isEmail(raw.email) && |raw.countryCode| == 2
  }

  lemma BaseErrorsEmpty(raw: RawSubscription, isEmail: string -> bool, normEmail: string -> string)
    ensures BaseErrors(raw, isEmail, normEmail) == [] <==> BaseValid(raw, isEmail)
    ensures TopLevel(FieldError("country_code", Invalid(CountryCodeMessage))) in BaseErrors(raw, isEmail, normEmail)
            <==> |raw.countryCode| != 2
  {
    var errs := ErrorsOf("email", ValidEmail(isEmail, normEmail, raw.email)) + ErrorsOf("country_code", ValidCountryCode(raw.countryCode));
    var top := BaseErrors(raw, isEmail, normEmail);
    if |raw.countryCode| != 2 {
      assert top[|errs| - 1] == TopLevel(FieldError("country_code", Invalid(CountryCodeMessage)));
    }
  }

  /**
   * `SubscriptionInSchema.parse_obj`: accepted exactly when the base fields are
   * valid and every condition is; the accepted record holds the input's values,
   * with the e-mail address in its normalised form. An empty list of conditions
   * is acceptable.
   */
  function ParseSubscriptionIn(raw: RawSubscription, isEmail: string -> bool, normEmail: string -> string): (r: Result<SubscriptionIn, seq<ValidationError>>)
    ensures r.Success? <==>
              && BaseValid(raw, isEmail)
              && forall i :: 0 <= i < |raw.conditions| ==> ParseCondition(raw.conditions[i]).Success?
    ensures r.Success? ==>
              && r.value.email == normEmail(raw.email) && r.value.city == raw.city
              && r.value.countryCode == raw.countryCode
              && |r.value.conditions| == |raw.conditions|
              && forall i :: 0 <= i < |raw.conditions| ==>
                   r.value.conditions[i] == ParseCondition(raw.conditions[i]).value
    ensures r.Failure? ==> (TopLevel(FieldError("country_code", Invalid(CountryCodeMessage))) in r.error
                            <==> |raw.countryCode| != 2)
  {
    BaseErrorsEmpty(raw, isEmail, normEmail);
    var conditions := ParseEach(raw.conditions, ParseCondition);
    if BaseValid(raw, isEmail) && conditions.Success? then
      Success(SubscriptionIn(normEmail(raw.email), raw.city, raw.countryCode, conditions.value))
    else
      Failure(BaseErrors(raw, isEmail, normEmail) + ErrorList(conditions))
  }

  /** `SubscriptionUpdateInSchema.parse_obj`: as above, with every condition carrying a valid uuid. */
  function ParseSubscriptionUpdateIn(raw: RawSubscription, isEmail: string -> bool, normEmail: string -> string, isUuid: string -> bool)
    : (r: Result<SubscriptionUpdateIn, seq<ValidationError>>)
    ensures r.Success? <==>
              && BaseValid(raw, isEmail)
              && forall i :: 0 <= i < |raw.conditions| ==> ParseConditionUpdate(isUuid, raw.conditions[i]).Success?
    ensures r.Success? ==>
              && r.value.email == normEmail(raw.email) && r.value.city == raw.city
              && r.value.countryCode == raw.countryCode
              && |r.value.conditions| == |raw.conditions|
              && forall i :: 0 <= i < |raw.conditions| ==>
                   r.value.conditions[i] == ParseConditionUpdate(isUuid, raw.conditions[i]).value
    ensures r.Failure? ==> (TopLevel(FieldError("country_code", Invalid(CountryCodeMessage))) in r.error
                            <==> |raw.countryCode| != 2)
  {
    BaseErrorsEmpty(raw, isEmail, normEmail);
    var conditions := ParseEach(raw.conditions, c => ParseConditionUpdate(isUuid, c));
    assert forall e :: e in ErrorList(conditions) ==> e.InCondition?;
    if BaseValid(raw, isEmail) && conditions.Success? then
      Success(SubscriptionUpdateIn(normEmail(raw.email), raw.city, raw.countryCode, conditions.value))
    else
      Failure(BaseErrors(raw, isEmail, normEmail) + ErrorList(conditions))
  }

  /**
   * `SubscriptionOutSchema.parse_obj`: the base fields, a `subscription_uuid` that
   * passes `valid_uuid` (kept as given), and conditions that each carry a valid uuid.
   */
  function ParseSubscriptionOut(raw: RawSubscription, isEmail: string -> bool, normEmail: string -> string, isUuid: string -> bool)
    : (r: Result<SubscriptionOut, seq<ValidationError>>)
    ensures r.Success? <==>
              && BaseValid(raw, isEmail)
              && raw.subscriptionUuid.Some? && isUuid(raw.subscriptionUuid.value)
              && forall i :: 0 <= i < |raw.conditions| ==> ParseConditionUpdate(isUuid, raw.conditions[i]).Success?
    ensures r.Success? ==>
              && r.value.subscriptionUuid == raw.subscriptionUuid.value
              && r.value.email == normEmail(raw.email) && r.value.city == raw.city
              && r.value.countryCode == raw.countryCode
              && |r.value.conditions| == |raw.conditions|
              && forall i :: 0 <= i < |raw.conditions| ==>
                   r.value.conditions[i] == ParseConditionUpdate(isUuid, raw.conditions[i]).value
    ensures raw.subscriptionUuid.None? ==> r.Failure? && TopLevel(FieldError("subscription_uuid", Missing)) in r.error
    ensures r.Failure? ==> (TopLevel(FieldError("country_code", Invalid(CountryCodeMessage))) in r.error
                            <==> |raw.countryCode| != 2)
  {
    BaseErrorsEmpty(raw, isEmail, normEmail);
    var uuid := RequiredUuid(isUuid, raw.subscriptionUuid);
    var conditions := ParseEach(raw.conditions, c => ParseConditionUpdate(isUuid, c));
    if BaseValid(raw, isEmail) && uuid.Success? && conditions.Success? then
      Success(SubscriptionOut(normEmail(raw.email), raw.city, raw.countryCode, uuid.value, conditions.value))
    else
      var base := BaseErrors(raw, isEmail, normEmail);
      var own := TopLevels(ErrorsOf("subscription_uuid", uuid));
      var errors := base + own + ErrorList(conditions);
      assert raw.subscriptionUuid.None? ==> errors[|base|] == TopLevel(FieldError("subscription_uuid", Missing));
      assert forall e :: e in own ==> e.error.field == "subscription_uuid";
      assert forall e :: e in ErrorList(conditions) ==> e.InCondition?;
      Failure(errors)
  }

  /** A subscription with no conditions at all is a valid input. */
  lemma EmptyConditionsAccepted(raw: RawSubscription, isEmail: string -> bool, normEmail: string -> string)
    requires raw.conditions == [] && BaseValid(raw, isEmail)
    ensures ParseSubscriptionIn(raw, isEmail, normEmail)
            == Success(SubscriptionIn(normEmail(raw.email), raw.city, raw.countryCode, []))
  {
  }

  /** An out-schema whose condition lacks `condition_uuid` is rejected, whatever else it holds. */
  lemma OutConditionNeedsUuid(raw: RawSubscription, isEmail: string -> bool, normEmail: string -> string, isUuid: string -> bool, i: nat)
    requires i < |raw.conditions| && raw.conditions[i].conditionUuid.None?
    ensures ParseSubscriptionOut(raw, isEmail, normEmail, isUuid).Failure?
  {
    assert !ParseConditionUpdate(isUuid, raw.conditions[i]).Success?;
  }

  // ----- `.dict()` form -----

  /** A condition as `.dict()` renders it: enum members, the Decimal, and the uuid when the schema has one. */
  datatype ConditionEntry = ConditionEntry(condition: ConditionKind, op: Op, threshold: real, conditionUuid: Option<string>)

  /** The values a subscription dict can hold. */
  datatype Value = Null | Int(i: int) | Str(s: string) | ConditionList(entries: seq<ConditionEntry>)

  /** A Python dict with string keys. */
  type Dict = map<string, Value>

  function ConditionDict(c: Condition): (e: ConditionEntry)
    ensures e.conditionUuid.None?
    ensures e.condition == c.condition && e.op == c.op && e.threshold == c.threshold
  {
    ConditionEntry(c.condition, c.op, c.threshold, None)
  }

  /** `SubscriptionInSchema.dict()`: one key per declared field, and no others. */
  function SubscriptionInDict(s: SubscriptionIn): (d: Dict)
    ensures d.Keys == {"email", "city", "country_code", "conditions"}
    ensures d["email"] == Str(s.email) && d["city"] == Str(s.city) && d["country_code"] == Str(s.countryCode)
    ensures d["conditions"].ConditionList? && |d["conditions"].entries| == |s.conditions|
    ensures forall i :: 0 <= i < |s.conditions| ==> d["conditions"].entries[i] == ConditionDict(s.conditions[i])
  {
    map[
      "email" := Str(s.email),
      "city" := Str(s.city),
      "country_code" := Str(s.countryCode),
      "conditions" := ConditionList(seq(|s.conditions|, i requires 0 <= i < |s.conditions| => ConditionDict(s.conditions[i])))
    ]
  }
}
