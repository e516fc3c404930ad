/**
 * Properties of the order service that relate its handlers to one another
 * and to the remote outcome: what each kind of rejection depends on, when a
 * create commits, and the asymmetry between the write path (which rejects on
 * a failed verification) and the detail read (which degrades).
 */
module OrderProperties {
  import opened Wrappers
  import opened JsonValues
  import opened Tables
  import opened Remote
  import opened Orders

  /** A missing required field is answered before the user service is consulted: the remote outcome cannot matter. */
  lemma MissingFieldRejectedBeforeVerification(
    orders: seq<Order>, data: map<string, Json>, remote1: RemoteOutcome, remote2: RemoteOutcome, now: string, field: string)
    requires |data| > 0 && field in RequiredFields && field !in data
    ensures Admit(orders, data, remote1, now) == Admit(orders, data, remote2, now)
    ensures Admit(orders, data, remote1, now).Reject?
    ensures Admit(orders, data, remote1, now).error.MissingField?
    ensures Admit(orders, data, remote1, now).error.field in RequiredFields
    ensures Admit(orders, data, remote1, now).error.field !in data
  {
  }

  /** A failed verification (any status but 200, an undecodable body, a transport error) rejects, echoing the user id. */
  lemma UnverifiedUserRejected(orders: seq<Order>, data: map<string, Json>, remote: RemoteOutcome, now: string)
    requires |data| > 0 && AllRequiredPresent(data)
    requires VerifyUser(remote).Unverified?
    ensures Admit(orders, data, remote, now) == Reject(UserUnverified(data["user_id"]))
    ensures Admit(orders, data, remote, now).error.Code() == 400
    ensures Admit(orders, data, remote, now).error.ServiceCommunication() == Some(Failed)
  {
  }

  /** A confirmed user whose `active` is present and falsy is rejected. */
  lemma InactiveUserRejected(
    orders: seq<Order>, data: map<string, Json>, remote: RemoteOutcome, now: string, payload: map<string, Json>)
    requires |data| > 0 && AllRequiredPresent(data)
    requires VerifyUser(remote) == Verified(JObject(payload))
    requires "active" in payload && !Truthy(payload["active"])
    ensures Admit(orders, data, remote, now) == Reject(UserInactive(data["user_id"]))
  {
  }

  /** A payload without an `active` field never causes the inactive-user rejection. */
  lemma AbsentActiveFlagCountsAsActive(
    orders: seq<Order>, data: map<string, Json>, remote: RemoteOutcome, now: string, payload: map<string, Json>)
    requires VerifyUser(remote) == Verified(JObject(payload))
    requires "active" !in payload
    ensures !(Admit(orders, data, remote, now).Reject? && Admit(orders, data, remote, now).error.UserInactive?)
  {
  }

  /** The converse of the commit conditions `Admit` guarantees: when every check passes, the create commits. */
  lemma CommitWhenEveryCheckPasses(
    orders: seq<Order>, data: map<string, Json>, remote: RemoteOutcome, now: string, payload: map<string, Json>)
    requires |data| > 0 && AllRequiredPresent(data)
    requires VerifyUser(remote) == Verified(JObject(payload)) && ActiveFlag(payload)
    requires IntOf(data["quantity"]).Value? && FloatOf(data["price"]).Value?
    ensures Admit(orders, data, remote, now).Commit?
    ensures Admit(orders, data, remote, now).order.id == NextKey(OrderIds(orders))
  {
  }

  /**
   * A confirmed answer whose body is not a JSON object makes `user_data.get`
   * raise: the handler answers 500 and stores nothing.
   */
  lemma NonObjectPayloadIsInternalError(orders: seq<Order>, data: map<string, Json>, remote: RemoteOutcome, now: string)
    requires |data| > 0 && AllRequiredPresent(data)
    requires VerifyUser(remote).Verified? && !VerifyUser(remote).payload.JObject?
    ensures Admit(orders, data, remote, now) == Reject(InternalError)
    ensures Admit(orders, data, remote, now).error.Code() == 500
  {
  }

  /**
   * The numeric coercions run only after the user is confirmed and active,
   * quantity first. A ValueError from `int()` or `float()` is a 400; any other
   * failure of them (a TypeError) is a 500; either way nothing is stored.
   */
  lemma CoercionFailuresRejected(
    orders: seq<Order>, data: map<string, Json>, remote: RemoteOutcome, now: string, payload: map<string, Json>)
    requires |data| > 0 && AllRequiredPresent(data)
    requires VerifyUser(remote) == Verified(JObject(payload)) && ActiveFlag(payload)
    ensures IntOf(data["quantity"]).ValueError? ==> Admit(orders, data, remote, now) == Reject(InvalidData)
    ensures IntOf(data["quantity"]).TypeError? ==> Admit(orders, data, remote, now) == Reject(InternalError)
    ensures IntOf(data["quantity"]).Value? && FloatOf(data["price"]).ValueError? ==>
      Admit(orders, data, remote, now) == Reject(InvalidData)
    ensures IntOf(data["quantity"]).Value? && FloatOf(data["price"]).TypeError? ==>
      Admit(orders, data, remote, now) == Reject(InternalError)
    ensures Admit(orders, data, remote, now).Reject? <==> !IntOf(data["quantity"]).Value? || !FloatOf(data["price"]).Value?
  {
  }

  /** `float("19.99") == 19.99`. */
  lemma PriceLiteral()
    ensures ParseDecimal("19.99") == Some(19.99)
  {
    assert AllDigits("19") && AllDigits("99");
    ParseDecimalOfParts("19", "99");
    assert "19" + "." + "99" == "19.99";
    assert DigitsValue("19") == 19 by { assert "19"[..1] == "1"; assert "1"[..0] == ""; }
    assert DigitsValue("99") == 99 by { assert "99"[..1] == "9"; assert "9"[..0] == ""; }
    assert Pow10(|"99"|) == 100;
    assert DecimalValue("19", "99") == 19.99;
  }

  /** A JSON-number quantity is truncated and a string price such as "19.99" is parsed: the order commits. */
  lemma NumberQuantityTruncatedStringPriceParsed(
    orders: seq<Order>, remote: RemoteOutcome, now: string, payload: map<string, Json>)
    requires VerifyUser(remote) == Verified(JObject(payload)) && ActiveFlag(payload)
    ensures var data := map["user_id" := JNum(1.0), "product" := JStr("Pen"), "quantity" := JNum(2.5), "price" := JStr("19.99")];
      && Admit(orders, data, remote, now).Commit?
      && Admit(orders, data, remote, now).order.quantity == 2
      && Admit(orders, data, remote, now).order.price == 19.99
  {
    var data := map["user_id" := JNum(1.0), "product" := JStr("Pen"), "quantity" := JNum(2.5), "price" := JStr("19.99")];
    assert AllRequiredPresent(data);
    assert IntOf(data["quantity"]) == Value(2);
    PriceLiteral();
    CommitWhenEveryCheckPasses(orders, data, remote, now, payload);
  }

  /** `int("2.5")` raises ValueError, so a fractional quantity sent as a string is a 400. */
  lemma FractionalQuantityStringRefused(
    orders: seq<Order>, remote: RemoteOutcome, now: string, payload: map<string, Json>)
    requires VerifyUser(remote) == Verified(JObject(payload)) && ActiveFlag(payload)
    ensures var data := map["user_id" := JNum(1.0), "product" := JStr("Pen"), "quantity" := JStr("2.5"), "price" := JNum(1.0)];
      Admit(orders, data, remote, now) == Reject(InvalidData)
  {
    var data := map["user_id" := JNum(1.0), "product" := JStr("Pen"), "quantity" := JStr("2.5"), "price" := JNum(1.0)];
    assert AllRequiredPresent(data);
    assert ParseInt("2.5") == None by {
      assert !IsDigit("2.5"[1]);
    }
    CoercionFailuresRejected(orders, data, remote, now, payload);
  }

  /** `int()` of a digit string longer than `MaxStrDigits` raises ValueError, so such a quantity is a 400 and nothing is stored. */
  lemma OverlongQuantityStringRefused(
    orders: seq<Order>, data: map<string, Json>, remote: RemoteOutcome, now: string, payload: map<string, Json>, digits: string)
    requires |data| > 0 && AllRequiredPresent(data)
    requires VerifyUser(remote) == Verified(JObject(payload)) && ActiveFlag(payload)
    requires AllDigits(digits) && |digits| > MaxStrDigits && data["quantity"] == JStr(digits)
    ensures Admit(orders, data, remote, now) == Reject(InvalidData)
    ensures Admit(orders, data, remote, now).error.Code() == 400
  {
    assert Sign(digits).1 == digits by {
      assert IsDigit(digits[0]);
    }
    CoercionFailuresRejected(orders, data, remote, now, payload);
  }

  /** `float(None)` raises TypeError, so a `null` price is a 500. */
  lemma NullPriceIsInternalError(
    orders: seq<Order>, remote: RemoteOutcome, now: string, payload: map<string, Json>)
    requires VerifyUser(remote) == Verified(JObject(payload)) && ActiveFlag(payload)
    ensures var data := map["user_id" := JNum(1.0), "product" := JStr("Pen"), "quantity" := JNum(1.0), "price" := JNull];
      Admit(orders, data, remote, now) == Reject(InternalError)
  {
    var data := map["user_id" := JNum(1.0), "product" := JStr("Pen"), "quantity" := JNum(1.0), "price" := JNull];
    assert AllRequiredPresent(data);
    CoercionFailuresRejected(orders, data, remote, now, payload);
  }

  /** Fields are only checked for presence: a negative quantity and price are stored as given. */
  lemma NoPositivityCheck(now: string)
    ensures
      var data := map["user_id" := JNum(1.0), "product" := JStr("x"), "quantity" := JNum(-5.0), "price" := JNum(-1.0)];
      var remote := Response(200, Some(JObject(map["name" := JStr("n"), "email" := JStr("e")])));
      var a := Admit(SeedOrders(), data, remote, now);
      a.Commit? && a.order.quantity == -5 && a.order.price == -1.0
  {
  }

  /**
   * `user_info` is read after the write: a confirmed payload that lacks
   * `name` commits the order and still answers 500.
   */
  lemma StoredDespiteInternalError(
    orders: seq<Order>, data: map<string, Json>, remote: RemoteOutcome, now: string, payload: map<string, Json>)
    requires |data| > 0 && AllRequiredPresent(data)
    requires VerifyUser(remote) == Verified(JObject(payload)) && ActiveFlag(payload) && "name" !in payload
    requires IntOf(data["quantity"]).Value? && FloatOf(data["price"]).Value?
    ensures Admit(orders, data, remote, now).Commit?
    ensures Admit(orders, data, remote, now).reply == Failure(InternalError)
  {
  }

  /**
   * The same failed verification rejects a create but only degrades the
   * detail read: the order is still returned, without user details and
   * tagged "failed".
   */
  lemma ReadDegradesWhereWriteRejects(
    orders: seq<Order>, id: int, data: map<string, Json>, remote: RemoteOutcome, now: string)
    requires id in OrderIds(orders)
    requires |data| > 0 && AllRequiredPresent(data)
    requires VerifyUser(remote).Unverified?
    ensures GetOrderDetails(orders, id, remote) == Success(OrderDetails(GetOrder(orders, id).value, None, Failed))
    ensures Admit(orders, data, remote, now) == Reject(UserUnverified(data["user_id"]))
  {
  }

  /** With the three seed orders, a confirmed user's first order gets id 4, status "pending" and the user's name. */
  lemma FirstNewOrderScenario(now: string)
    ensures
      var data := map["user_id" := JNum(4.0), "product" := JStr("Phone"), "quantity" := JNum(1.0), "price" := JNum(899.99)];
      var user := map["id" := JNum(4.0), "name" := JStr("Ana"), "email" := JStr("ana@x.com"), "active" := JBool(true)];
      var a := Admit(SeedOrders(), data, Response(200, Some(JObject(user))), now);
      && a.Commit?
      && a.order == Order(4, JNum(4.0), JStr("Phone"), 1, 899.99, "pending", now)
      && a.reply == Success(UserInfo(JStr("Ana"), JStr("ana@x.com")))
  {
    var data := map["user_id" := JNum(4.0), "product" := JStr("Phone"), "quantity" := JNum(1.0), "price" := JNum(899.99)];
    assert FirstMissing(RequiredFields, data) == None;
    assert OrderIds(SeedOrders()) == [1, 2, 3];
    assert [1, 2, 3][1..] == [2, 3] && [2, 3][1..] == [3];
    assert NextKey([1, 2, 3]) == 4;
    assert Truncate(1.0) == 1;
  }
}
