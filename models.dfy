/**
 * The subscription record (api/src/weather_notifier/subscriptions/models.py).
 *
 * `Subscription` is a mapped class whose attributes are assigned in place, so it
 * is a Dafny class. Python does not check the type of what is assigned to an
 * attribute, so each field holds a `Value`, the same vocabulary its dicts use.
 * `Fields` is the abstract value of a record: the six declared columns.
 */
module Models {
  import opened Wrappers
  import opened Schemas

  /** The names `hasattr` finds among the declared columns. */
  const FieldNames: set<string> := {"id", "subscription_uuid", "country_code", "city", "email", "conditions"}

  /** The keys `from_dict` reads with `data[...]`, in the order it reads them. */
  const RequiredKeys: seq<string> := ["country_code", "city", "email", "conditions"]

  datatype Fields = Fields(
    id: Value, subscriptionUuid: Value, countryCode: Value,
    city: Value, email: Value, conditions: Value)

  /** `getattr(record, name)` for a declared column; None for any other name. */
  function Field(f: Fields, name: string): (v: Option<Value>)
    ensures v.Some? <==> name in FieldNames
  {
    match name
    case "id" => Some(f.id)
    case "subscription_uuid" => Some(f.subscriptionUuid)
    case "country_code" => Some(f.countryCode)
    case "city" => Some(f.city)
    case "email" => Some(f.email)
    case "conditions" => Some(f.conditions)
    case _ => None
  }

  /** `dict.get(key, default)`. */
  function Get(data: Dict, key: string, default: Value): Value
  {
    if key in data then data[key] else default
  }

  /** The record after `update_from_dict(data)`: each column named by a key takes that key's value. */
  function Updated(f: Fields, data: Dict): Fields
  {
    Fields(
      Get(data, "id", f.id),
      Get(data, "subscription_uuid", f.subscriptionUuid),
      Get(data, "country_code", f.countryCode),
      Get(data, "city", f.city),
      Get(data, "email", f.email),
      Get(data, "conditions", f.conditions))
  }

  /** A missing key in `data[...]`. */
  datatype KeyError = KeyError(key: string)

  /**
   * The record `from_dict` builds: `subscription_uuid` from the dict when present
   * and otherwise the freshly generated one, and the four other columns copied
   * from the dict; a KeyError names the first of them that is missing.
   */
  function FromDictFields(data: Dict, freshUuid: string): (r: Result<Fields, KeyError>)
    ensures r.Success? <==> forall k :: k in RequiredKeys ==> k in data
    ensures r.Success? ==> r.value == Fields(Null, Get(data, "subscription_uuid", Str(freshUuid)),
                                             data["country_code"], data["city"], data["email"], data["conditions"])
    ensures r.Failure? ==> r.error.key in RequiredKeys && r.error.key !in data
    ensures r.Failure? ==> forall j :: 0 <= j < |RequiredKeys| && RequiredKeys[j] == r.error.key ==>
                             forall i :: 0 <= i < j ==> RequiredKeys[i] in data
  {
    var uuid := Get(data, "subscription_uuid", Str(freshUuid));
    if "country_code" !in data then Failure(KeyError("country_code"))
    else if "city" !in data then Failure(KeyError("city"))
    else if "email" !in data then Failure(KeyError("email"))
    else if "conditions" !in data then Failure(KeyError("conditions"))
    else Success(Fields(Null, uuid, data["country_code"], data["city"], data["email"], data["conditions"]))
  }

  /** Every column whose name is a key of `data` takes the key's value (`conditions` included, as a whole). */
  lemma UpdatedSetsNamedFields(f: Fields, data: Dict, name: string)
    requires name in FieldNames && name in data
    ensures Field(Updated(f, data), name) == Some(data[name])
  {
  }

  /** Every column whose name is not a key of `data` is left as it was. */
  lemma UpdatedKeepsOtherFields(f: Fields, data: Dict, name: string)
    requires name !in data
    ensures Field(Updated(f, data), name) == Field(f, name)
  {
  }

  /** Keys that name no column make no difference. */
  lemma UpdatedIgnoresUnknownKeys(f: Fields, data: Dict, key: string, v: Value)
    requires key !in FieldNames
    ensures Updated(f, data[key := v]) == Updated(f, data)
  {
  }

  /** Updating twice with one dict is updating once. */
  lemma UpdatedIdempotent(f: Fields, data: Dict)
    ensures Updated(Updated(f, data), data) == Updated(f, data)
  {
  }

  /** Two updates in a row are one update with the merged dict, the later one winning. */
  lemma UpdatedComposes(f: Fields, first: Dict, second: Dict)
    ensures Updated(Updated(f, first), second) == Updated(f, first + second)
  {
  }

  /**
   * Updating with an input schema's dict replaces email, city, country code and
   * conditions with the schema's values, and never touches `id` or `subscription_uuid`.
   */
  lemma UpdatedByInputKeepsIdentity(f: Fields, s: SubscriptionIn)
    ensures Updated(f, SubscriptionInDict(s)).id == f.id
    ensures Updated(f, SubscriptionInDict(s)).subscriptionUuid == f.subscriptionUuid
    ensures Updated(f, SubscriptionInDict(s)).email == Str(s.email)
    ensures Updated(f, SubscriptionInDict(s)).city == Str(s.city)
    ensures Updated(f, SubscriptionInDict(s)).countryCode == Str(s.countryCode)
    ensures Updated(f, SubscriptionInDict(s)).conditions == SubscriptionInDict(s)["conditions"]
  {
  }

  /** `from_dict` on an input schema's dict always succeeds and takes the fresh uuid. */
  lemma FromInputDict(s: SubscriptionIn, freshUuid: string)
    ensures FromDictFields(SubscriptionInDict(s), freshUuid).Success?
    ensures FromDictFields(SubscriptionInDict(s), freshUuid).value
            == Fields(Null, Str(freshUuid), Str(s.countryCode), Str(s.city), Str(s.email),
                      SubscriptionInDict(s)["conditions"])
  {
  }

  class Subscription {
    var id: Value
    var subscriptionUuid: Value
    var countryCode: Value
    var city: Value
    var email: Value
    var conditions: Value

    /** The record's current column values. */
    function Snapshot(): Fields
      reads this
    {
      Fields(id, subscriptionUuid, countryCode, city, email, conditions)
    }

    /** `Subscription(country_code, city, email, subscription_uuid, conditions)`; `id` is unset until the row is flushed. */
    constructor (countryCode: Value, city: Value, email: Value, subscriptionUuid: Value, conditions: Value)
      ensures Snapshot() == Fields(Null, subscriptionUuid, countryCode, city, email, conditions)
    {
      this.id := Null;
      this.subscriptionUuid := subscriptionUuid;
      this.countryCode := countryCode;
      this.city := city;
      this.email := email;
      this.conditions := conditions;
    }

    /** `Subscription.from_dict(data)`, with the uuid `uuid.uuid4()` would generate passed in. */
    static method FromDict(data: Dict, freshUuid: string) returns (r: Result<Subscription, KeyError>)
      ensures r.Success? <==> FromDictFields(data, freshUuid).Success?
      ensures r.Success? ==> fresh(r.value) && r.value.Snapshot() == FromDictFields(data, freshUuid).value
      ensures r.Failure? ==> r.error == FromDictFields(data, freshUuid).error
    {
      var uuid := Get(data, "subscription_uuid", Str(freshUuid));
      var fields := FromDictFields(data, freshUuid);
      if fields.Failure? {
        return Failure(fields.error);
      }
      var s := new Subscription(data["country_code"], data["city"], data["email"], uuid, data["conditions"]);
      return Success(s);
    }

    /** `setattr(self, name, v)` for a declared column. */
    method SetAttr(name: string, v: Value)
      requires name in FieldNames
      modifies this
      ensures Snapshot() == Updated(old(Snapshot()), map[name := v])
    {
      match name
      case "id" => id := v;
      case "subscription_uuid" => subscriptionUuid := v;
      case "country_code" => countryCode := v;
      case "city" => city := v;
      case "email" => email := v;
      case "conditions" => conditions := v;
    }

    /** `update_from_dict(data)`: assigns each key that names a column, in place, and returns this same record. */
    method UpdateFromDict(data: Dict) returns (r: Subscription)
      modifies this
      ensures r == this
      ensures Snapshot() == Updated(old(Snapshot()), data)
    {
      var remaining := data.Keys;
      while remaining != {}
        invariant remaining <= data.Keys
        invariant Snapshot() == Updated(old(Snapshot()), Restrict(data, data.Keys - remaining))
        decreases remaining
      {
        var key :| key in remaining;
        var done := data.Keys - remaining;
        assert Restrict(data, done + {key}) == Restrict(data, done)[key := data[key]];
        if key in FieldNames {
          SetAttr(key, data[key]);
        }
        remaining := remaining - {key};
        assert data.Keys - remaining == done + {key};
      }
      assert Restrict(data, data.Keys) == data;
      return this;
    }
  }

  /** The entries of `data` whose keys are in `keys`. */
  function Restrict(data: Dict, keys: set<string>): (r: Dict)
    ensures r.Keys == data.Keys * keys
    ensures forall k :: k in r ==> r[k] == data[k]
  {
    map k | k in data && k in keys :: data[k]
  }
}
