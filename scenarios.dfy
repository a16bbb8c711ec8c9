/**
 * The cases of the API's service and schema tests
 * (api/tests/test_subscription_services.py, api/tests/test_subscription_schema.py),
 * each stated as a contract over the model.
 */
module Scenarios {
  import opened Wrappers
  import opened Exceptions
  import opened Schemas
  import opened Models
  import opened Services

  const StoredUuid: string := "4301583f-05a3-4b55-bf32-048975dfedff"

  /** The record of the `subscription_factory` fixture. */
  method NewStoredSubscription() returns (s: Subscription)
    ensures fresh(s)
    ensures s.Snapshot() == Fields(Null, Str(StoredUuid), Str("DK"), Str("Copenhagen"), Str("test@test.email.com"),
                                   ConditionList([ConditionEntry(Temp, Lt, 0.0, Some("03217e65-44bf-4201-a21b-77998d0fff6a"))]))
  {
    s := new Subscription(Str("DK"), Str("Copenhagen"), Str("test@test.email.com"), Str(StoredUuid),
                          ConditionList([ConditionEntry(Temp, Lt, 0.0, Some("03217e65-44bf-4201-a21b-77998d0fff6a"))]));
  }

  /** The `subscription_db` fixture: a session whose table holds exactly that record. */
  method SessionWithOneSubscription() returns (session: Session, s: Subscription)
    ensures fresh(session) && fresh(s) && session.Valid()
    ensures session.rows == map[StoredUuid := s] && session.order == [StoredUuid]
    ensures s.Snapshot().email == Str("test@test.email.com")
  {
    session := new Session();
    s := NewStoredSubscription();
    session.Add(s);
  }

  /** test_get_all_subscriptions_when_empty_returns_empty_list */
  method GetAllWhenEmpty() returns (r: seq<Subscription>)
    ensures r == []
  {
    var session := new Session();
    r := GetAllSubscriptions(session);
  }

  /** test_get_all_subscriptions_returns_list_of_subscriptions */
  method GetAllReturnsTheStoredOne() returns (r: seq<Subscription>, stored: Subscription)
    ensures r == [stored]
  {
    var session;
    session, stored := SessionWithOneSubscription();
    r := GetAllSubscriptions(session);
  }

  /** test_get_a_subscription_returns_single_subscription */
  method GetReturnsTheStoredOne() returns (r: Option<Subscription>, stored: Subscription)
    ensures r == Some(stored)
  {
    var session;
    session, stored := SessionWithOneSubscription();
    r := GetSubscriptionByUuid(session, StoredUuid);
  }

  /** test_delete_subscription_removes_correct_subscription */
  method DeleteRemovesIt() returns (before: Option<Subscription>, after: Option<Subscription>, stored: Subscription)
    ensures before == Some(stored)
    ensures after == None
  {
    var session;
    session, stored := SessionWithOneSubscription();
    before := GetSubscriptionByUuid(session, StoredUuid);
    DeleteSubscriptionByUuid(session, StoredUuid);
    after := GetSubscriptionByUuid(session, StoredUuid);
  }

  /** The update payload of the service tests: a new e-mail, the rest as stored. */
  const NewEmailInput: SubscriptionIn := SubscriptionIn("my@new-email.com", "Copenhagen", "DK", [Condition(Temp, Lt, 0.0)])

  /** test_update_subscription_updates_data_correctly: the new e-mail is in the result and in a later lookup. */
  method UpdateChangesEmail() returns (returned: Value, lookedUp: Value)
    ensures returned == Str("my@new-email.com")
    ensures lookedUp == Str("my@new-email.com")
  {
    var session, stored := SessionWithOneSubscription();
    var r := UpdateSubscriptionByUuid(session, StoredUuid, NewEmailInput);
    returned := r.value.email;
    var found := GetSubscriptionByUuid(session, StoredUuid);
    lookedUp := found.value.email;
  }

  /** test_update_subscription_with_incorrect_ids_raises */
  method UpdateWithWrongUuidRaises() returns (r: Result<Subscription, NotifierException>)
    ensures r.Failure? && r.error.cls == EntityNotFound && r.error.code == 404
    ensures r.error.Str() == "Subscription: clearly-wrong-uuid not found"
  {
    var session, stored := SessionWithOneSubscription();
    r := UpdateSubscriptionByUuid(session, "clearly-wrong-uuid", NewEmailInput);
    assert "Subscription: " + "clearly-wrong-uuid" == "Subscription: clearly-wrong-uuid";
    WrongUuidMessage();
  }

  /** test_create_new_subscription_creates_new_subscription_correctly */
  method CreateThenFind(freshUuid: string) returns (created: Subscription, found: Option<Subscription>)
    ensures found == Some(created)
    ensures created.email == Str("test@testemail.com") && created.subscriptionUuid == Str(freshUuid)
  {
    var session := new Session();
    var input := SubscriptionIn("test@testemail.com", "Copenhagen", "DK", [Condition(Temp, Lt, 0.0)]);
    created := CreateSubscription(session, input, freshUuid);
    found := GetSubscriptionByUuid(session, freshUuid);
  }

  /** The first input of test_valid_subscription_schemas: two conditions. */
  const TwoConditions: RawSubscription := RawSubscription("my@fake.com", "Copenhagen", "DK", None,
    [RawCondition("temp", "gt", 20.0, None), RawCondition("humidity", "lt", 5.0, None)])

  /**
   * The inputs of test_valid_subscription_schemas (two conditions, one, none)
   * are accepted by SubscriptionInSchema; their address is already in normal form.
   */
  lemma InSchemaExamplesAccepted(isEmail: string -> bool, normEmail: string -> string)
    requires isEmail("my@fake.com") && normEmail("my@fake.com") == "my@fake.com"
    ensures ParseSubscriptionIn(TwoConditions, isEmail, normEmail)
            == Success(SubscriptionIn("my@fake.com", "Copenhagen", "DK", [Condition(Temp, Gt, 20.0), Condition(Humidity, Lt, 5.0)]))
    ensures ParseSubscriptionIn(TwoConditions.(conditions := TwoConditions.conditions[..1]), isEmail, normEmail)
            == Success(SubscriptionIn("my@fake.com", "Copenhagen", "DK", [Condition(Temp, Gt, 20.0)]))
    ensures ParseSubscriptionIn(TwoConditions.(conditions := []), isEmail, normEmail)
            == Success(SubscriptionIn("my@fake.com", "Copenhagen", "DK", []))
  {
    var p := ParseSubscriptionIn(TwoConditions, isEmail, normEmail);
    assert ParseCondition(TwoConditions.conditions[0]) == Success(Condition(Temp, Gt, 20.0));
    assert ParseCondition(TwoConditions.conditions[1]) == Success(Condition(Humidity, Lt, 5.0));
    assert p.Success?;
    assert p.value.conditions == [Condition(Temp, Gt, 20.0), Condition(Humidity, Lt, 5.0)];
    var q := ParseSubscriptionIn(TwoConditions.(conditions := TwoConditions.conditions[..1]), isEmail, normEmail);
    assert q.Success?;
    assert q.value.conditions == [Condition(Temp, Gt, 20.0)];
  }

  /** A three-letter country code is refused with the validator's message. */
  lemma ThreeLetterCountryRefused(isEmail: string -> bool, normEmail: string -> string)
    ensures ParseSubscriptionIn(TwoConditions.(countryCode := "DNK"), isEmail, normEmail).Failure?
    ensures TopLevel(FieldError("country_code", Invalid("Must be a valid 2-letter country code")))
            in ParseSubscriptionIn(TwoConditions.(countryCode := "DNK"), isEmail, normEmail).error
  {
  }

  /**
   * The out-schema inputs of test_valid_subscription_schemas have conditions
   * without `condition_uuid`; ConditionOut makes that field required, so the
   * schema as written refuses them.
   */
  lemma OutSchemaTestDataRefused(isEmail: string -> bool, normEmail: string -> string, isUuid: string -> bool)
    ensures ParseSubscriptionOut(TwoConditions.(subscriptionUuid := Some("a600d79c-6bab-45ec-b285-77ccd67a894c")), isEmail, normEmail, isUuid).Failure?
  {
    OutConditionNeedsUuid(TwoConditions.(subscriptionUuid := Some("a600d79c-6bab-45ec-b285-77ccd67a894c")), isEmail, normEmail, isUuid, 0);
  }
}
