/**
 * The subscription services (api/src/weather_notifier/subscriptions/services.py)
 * over a database session.
 *
 * The session is modelled as the subscriptions table it gives access to: a map
 * from `subscription_uuid` to the mapped record object, plus the order in which
 * rows were added (the order of their primary keys). Records are objects, so a
 * lookup returns the very object the table holds, and mutating it is visible
 * through later lookups.
 */
module Services {
  import opened Wrappers
  import opened Exceptions
  import opened Schemas
  import opened Models

  /** No element occurs twice. */
  predicate Distinct(s: seq<string>)
  {
    forall i, j :: 0 <= i < j < |s| ==> s[i] != s[j]
  }

  /** `s` without `x`. */
  function Remove(s: seq<string>, x: string): (r: seq<string>)
    ensures forall y :: y in r <==> y in s && y != x
    ensures Distinct(s) ==> Distinct(r)
    ensures x !in s ==> r == s
  {
    if s == [] then []
    else if s[0] == x then Remove(s[1..], x)
    else
      assert s == [s[0]] + s[1..];
      assert x in s[1..] ==> x in s;
      var rest := Remove(s[1..], x);
      assert Distinct(s) ==> s[0] !in s[1..] && Distinct(s[1..]);
      assert Distinct(s) ==> s[0] !in rest;
      [s[0]] + rest
  }

  class Session {
    /** The rows, keyed by their `subscription_uuid` column. */
    var rows: map<string, Subscription>
    /** The keys of the rows in the order they were added. */
    var order: seq<string>

    /**
     * Each row's uuid column is the key it is stored under (the unique index on
     * `subscription_uuid`), so distinct keys hold distinct objects; `order`
     * lists every key once.
     */
    ghost predicate Valid()
      reads this, rows.Values
    {
      && (forall k :: k in rows ==> rows[k].subscriptionUuid == Str(k))
      && Distinct(order)
      && (forall k :: k in rows <==> k in order)
    }

    /** A session on an empty table. */
    constructor ()
      ensures Valid()
      ensures rows == map[] && order == []
    {
      rows := map[];
      order := [];
    }

    /**
     * `session.add(s)`: a record the session already holds is left where it is;
     * a new one becomes a row under its uuid. A new record must carry a string
     * uuid that no row has (the unique index would reject it on flush).
     */
    method Add(s: Subscription)
      requires Valid()
      requires s in rows.Values || (s.subscriptionUuid.Str? && s.subscriptionUuid.s !in rows)
      modifies this
      ensures Valid()
      ensures old(s in rows.Values) ==> rows == old(rows) && order == old(order)
      ensures old(s !in rows.Values) ==>
                && rows == old(rows)[s.subscriptionUuid.s := s]
                && order == old(order) + [s.subscriptionUuid.s]
    {
      if s !in rows.Values {
        var key := s.subscriptionUuid.s;
        rows := rows[key := s];
        order := order + [key];
      }
    }

    /** `session.delete(s)` for a record the session holds: its row goes, every other row stays. */
    method Delete(s: Subscription)
      requires Valid() && s in rows.Values
      modifies this
      ensures Valid()
      ensures s.subscriptionUuid.Str? && old(s.subscriptionUuid.s in rows && rows[s.subscriptionUuid.s] == s)
      ensures rows == old(rows) - {s.subscriptionUuid.s}
      ensures order == Remove(old(order), s.subscriptionUuid.s)
    {
      ghost var k :| k in rows && rows[k] == s;
      assert s.subscriptionUuid == Str(k);
      var key := s.subscriptionUuid.s;
      rows := rows - {key};
      order := Remove(order, key);
    }
  }

  /** `get_all_subscriptions`: every stored record exactly once, in the table's order. */
  method GetAllSubscriptions(session: Session) returns (r: seq<Subscription>)
    requires session.Valid()
    ensures |r| == |session.order| == |session.rows|
    ensures forall s :: s in r <==> s in session.rows.Values
    ensures forall i, j :: 0 <= i < j < |r| ==> r[i] != r[j]
    ensures forall i :: 0 <= i < |r| ==> r[i] == session.rows[session.order[i]]
  {
    var order, rows := session.order, session.rows;
    r := seq(|order|, i requires 0 <= i < |order| && order[i] in rows => rows[order[i]]);
    forall s | s in rows.Values
      ensures s in r
    {
      var k :| k in rows && rows[k] == s;
      var i :| 0 <= i < |order| && order[i] == k;
      assert r[i] == s;
    }
    forall i, j | 0 <= i < j < |r|
      ensures r[i] != r[j]
    {
      assert rows[order[i]].subscriptionUuid == Str(order[i]);
      assert rows[order[j]].subscriptionUuid == Str(order[j]);
    }
    DistinctKeysCount(order, rows.Keys);
  }

  /** A list of distinct keys covering a set has as many elements as the set. */
  lemma {:induction false} DistinctKeysCount(order: seq<string>, keys: set<string>)
    requires Distinct(order)
    requires forall k :: k in keys <==> k in order
    ensures |order| == |keys|
  {
    if order != [] {
      var rest := order[1..];
      assert forall k :: k in keys - {order[0]} <==> k in rest;
      DistinctKeysCount(rest, keys - {order[0]});
    }
  }

  /**
   * `get_subscription_by_uuid`: the record whose uuid column equals `subscriptionUuid`,
   * or None when no record has it.
   */
  method GetSubscriptionByUuid(session: Session, subscriptionUuid: string) returns (r: Option<Subscription>)
    requires session.Valid()
    ensures r.Some? <==> subscriptionUuid in session.rows
    ensures r.Some? ==> r.value == session.rows[subscriptionUuid] && r.value.subscriptionUuid == Str(subscriptionUuid)
    ensures r.None? ==> forall s :: s in session.rows.Values ==> s.subscriptionUuid != Str(subscriptionUuid)
  {
    if subscriptionUuid in session.rows {
      r := Some(session.rows[subscriptionUuid]);
    } else {
      r := None;
    }
  }

  /**
   * `create_subscription`: a new record built by `from_dict` from the schema's dict,
   * under the freshly generated uuid, added to the table and returned.
   */
  method CreateSubscription(session: Session, subscription: SubscriptionIn, freshUuid: string) returns (r: Subscription)
    requires session.Valid() && freshUuid !in session.rows
    modifies session
    ensures session.Valid()
    ensures fresh(r)
    ensures session.rows == old(session.rows)[freshUuid := r]
    ensures session.order == old(session.order) + [freshUuid]
    ensures r.Snapshot() == Fields(Null, Str(freshUuid), Str(subscription.countryCode), Str(subscription.city),
                                   Str(subscription.email), SubscriptionInDict(subscription)["conditions"])
  {
    FromInputDict(subscription, freshUuid);
    var made := Subscription.FromDict(SubscriptionInDict(subscription), freshUuid);
    r := made.value;
    session.Add(r);
  }

  /** `delete_subscription_by_uuid` for a stored uuid: that row goes, every other row stays as it was. */
  method DeleteSubscriptionByUuid(session: Session, subscriptionUuid: string)
    requires session.Valid() && subscriptionUuid in session.rows
    modifies session
    ensures session.Valid()
    ensures session.rows == old(session.rows) - {subscriptionUuid}
    ensures session.order == Remove(old(session.order), subscriptionUuid)
  {
    var subscription := GetSubscriptionByUuid(session, subscriptionUuid);
    session.Delete(subscription.value);
  }

  /** The record stored under `subscriptionUuid`, as a set of objects: the frame of an update. */
  function StoredUnder(session: Session, subscriptionUuid: string): set<Subscription>
    reads session
  {
    if subscriptionUuid in session.rows then {session.rows[subscriptionUuid]} else {}
  }

  /**
   * `update_subscription_by_uuid`: for an unknown uuid, EntityNotFoundException
   * ("Subscription: <uuid>") and nothing changes; otherwise the stored record is
   * updated in place from the schema's dict and returned. The table keeps its
   * keys, the record keeps its uuid and id, and no other record changes.
   */
  method UpdateSubscriptionByUuid(session: Session, subscriptionUuid: string, subscription: SubscriptionIn)
    returns (r: Result<Subscription, NotifierException>)
    requires session.Valid()
    modifies session, StoredUnder(session, subscriptionUuid)
    ensures session.Valid()
    ensures session.rows == old(session.rows) && session.order == old(session.order)
    ensures subscriptionUuid !in session.rows ==>
              r == Failure(EntityNotFoundException("Subscription: " + subscriptionUuid))
    ensures subscriptionUuid in session.rows ==>
              && r == Success(session.rows[subscriptionUuid])
              && r.value.Snapshot() == Updated(old(r.value.Snapshot()), SubscriptionInDict(subscription))
              && r.value.subscriptionUuid == Str(subscriptionUuid)
    ensures forall k :: k in session.rows && k != subscriptionUuid ==>
              session.rows[k].Snapshot() == old(session.rows[k].Snapshot())
  {
    var existing := GetSubscriptionByUuid(session, subscriptionUuid);
    if existing.None? {
      return Failure(EntityNotFoundException("Subscription: " + subscriptionUuid));
    }
    var s := existing.value;
    UpdatedByInputKeepsIdentity(s.Snapshot(), subscription);
    s := s.UpdateFromDict(SubscriptionInDict(subscription));
    session.Add(s);
    return Success(s);
  }
}
