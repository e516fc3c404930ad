# Order ledger and user directory — a Dafny model

Two cooperating record-keeping services. The **user service** keeps a
directory of users (id, name, email, creation date, active flag). The
**order service** keeps a ledger of orders (id, user id, product, quantity,
price, status, creation timestamp). Before it stores an order, the order
service asks the user service whether the referenced user exists and is
active. When it shows an order's details, it asks the same question, but
only to enrich the answer.

This project models the record-keeping logic of both services' HTTP handlers.
The HTTP layer is not modelled:

- Each dictionary (`orders_db`, `users_db`) is a sequence of records in
  insertion order, keyed by the record's own `id`. The seed data and every
  insert keep the dictionary key equal to that field. `Valid()` says the ids
  are distinct.
- The one in-place write of each create handler is a method of a class
  (`Orders.OrderLedger`, `Users.UserDirectory`) that owns that sequence.
  Every read handler is a function of the current contents.
- A request body is a decoded JSON object (`map<string, Json>`).
- What the order service got back from `requests.get` is an input,
  `Remote.RemoteOutcome`: an HTTP response (a status code, plus the body when
  it decodes as JSON) or a transport-level exception.
- The current time is an input too: `now` for orders, `today` for users.
- Python's truthiness, `==`, `dict.get`, `int()` and `float()` are written
  out in `JsonValues`, because the handlers' branches depend on them.

The handlers check less than their purpose suggests, and the model keeps
that:
- An order request is checked only for the presence of its four fields. There
  is no positivity check on quantity or price (`NoPositivityCheck`).
- The `int()`/`float()` coercions run after the remote verification.
- A 404 from the user service and a communication failure give the same
  rejection, tagged `service_communication: "failed"`.
- A confirmed payload that is not a JSON object makes the handler answer 500
  with nothing stored.
- A confirmed payload without `name` or `email` makes the handler answer 500
  *after* the order has been stored (`StoredDespiteInternalError`), because
  `user_info` is read after the write.

## Model

| member | source | states |
|---|---|---|
| `Tables.MaxKey` | orders-service/app.py:121 | `max(keys)` of a non-empty key list is one of the keys and is at least every key |
| `Tables.NextKey` | orders-service/app.py:121 | the minted id is 1 for an empty store; otherwise it is one more than a stored key and greater than every stored key. The same expression is used at users-service/app.py:76 |
| `Tables.AppendFreshKey` | orders-service/app.py:131 | inserting under a key greater than every stored key keeps the keys distinct |
| `Tables.KeysOf` | orders-service/app.py:121 | definition of `db.keys()`: the keys of a store are its records' ids, one per record, in insertion order |
| `Tables.Find` | orders-service/app.py:91 | `db.get(id)` finds a record iff `id` is one of the keys, and the record found is stored under that id. The same lookup is used at users-service/app.py:56 |
| `Tables.FindAfterAppend` | orders-service/app.py:131 | after inserting a record under a fresh key, the keys gain exactly that key, the record is found under it, and every other lookup is unchanged. The same write is at users-service/app.py:84 |
| `Tables.Filter` | orders-service/app.py:78 | a comprehension filter keeps exactly the elements that pass, each as many times as the input has it, in their original order (a subsequence) |
| `Tables.SubsequenceTransitive` | orders-service/app.py:77-80 | two filter passes in a row still give a subsequence of the original values |
| `JsonValues.PyEqIsEquivalence` | users-service/app.py:73 | Python `==` on decoded JSON, as used for the email check and the user-id filter, is reflexive, symmetric and transitive |
| `JsonValues.Truthy` | orders-service/app.py:118 | Python truthiness: a value is falsy iff it is `None`, `False`, zero, the empty string, the empty list or the empty object |
| `JsonValues.PyEq` | users-service/app.py:73 | Python `==`: every value equals itself; a string equals only the identical string; numbers compare by value; a boolean equals the number 1 or 0; `None` equals only `None` |
| `JsonValues.GetOr` | orders-service/app.py:118 | definition of `dict.get`: `d.get(key, default)` is the stored value when the key is present and the default otherwise |
| `JsonValues.Truncate` | orders-service/app.py:126 | `int()` of a float truncates toward zero: the result has the input's sign and is less than 1 away from it |
| `JsonValues.IntOf` | orders-service/app.py:126 | `int(v)`: numbers truncate; `true` and `false` give 1 and 0; a string succeeds exactly when it parses as an integer literal; `None`, lists and objects raise TypeError |
| `JsonValues.FloatOf` | orders-service/app.py:127 | `float(v)`: numbers are kept; `true` and `false` give 1.0 and 0.0; a string succeeds exactly when it parses as a decimal literal; `None`, lists and objects raise TypeError |
| `JsonValues.ParseInt` | orders-service/app.py:126 | `int(s)` accepts exactly an optional sign followed by one to 4300 ASCII digits (CPython's default limit on integer string conversion); a negative result needs a leading `-`, and an all-digit string gives a non-negative result |
| `JsonValues.ParseDecimal` | orders-service/app.py:127 | `float(s)` accepts exactly a sign followed by digits with at most one `.` among them and at least one digit (`5`, `5.`, `.5`, `5.25`); a negative result needs a leading `-`, and an all-digit string gives a non-negative result |
| `JsonValues.ParseDecimalValue` | orders-service/app.py:127 | for digit runs `w` and `f`, not both empty, `float("w.f")` is the integer spelled by the digits of `w` then `f`, divided by ten to the number of digits of `f` |
| `JsonValues.ParseShowInt` | orders-service/app.py:126 | `int(str(i)) == i` for every integer of at most 4300 digits, and `int()` refuses the rendering of every longer integer |
| `JsonValues.ParseDecimalExtendsParseInt` | orders-service/app.py:126-127 | `float(s)` equals `int(s)` on every string `int()` accepts |
| `Remote.VerifyUser` | orders-service/app.py:45-53 | verification succeeds only for status exactly 200 with a decodable body, and then returns that body. Any other status, an undecodable body or a transport error gives `(False, None)` |
| `Remote.ProbeStatus` | orders-service/app.py:57-61 | the dependency is `healthy` iff the probe answers 200, `unhealthy` for any other status, `unreachable` on an exception |
| `Remote.VerifiedImpliesHealthy` | orders-service/app.py:45-61 | a confirmed user implies the same answer would be a healthy probe. The converse fails: a 200 with an undecodable body |
| `Orders.HealthCheck` | orders-service/app.py:55-69 | the service's own status is always `healthy`; the dependency entry is the probe's mapping |
| `Orders.GetOrder` | orders-service/app.py:89-94 | returns the stored order iff its id is a key; otherwise a 404 that echoes the id |
| `Orders.UserFilterOn` | orders-service/app.py:77 | the user filter is on iff the `user_id` argument is present and truthy (non-zero) |
| `Orders.StatusFilterOn` | orders-service/app.py:79 | the status filter is on iff the `status` argument is present and truthy (non-empty) |
| `Orders.ListOrders` | orders-service/app.py:71-87 | returns exactly the orders, each as often as stored, in insertion order, that pass the user filter (only when `user_id` is present and non-zero) and the status filter (only when non-empty); `count` is their number; the filters are echoed |
| `Orders.GetOrderDetails` | orders-service/app.py:144-160 | a 404 (without the id) iff the order is missing. Otherwise the stored order is always returned, with the payload and "success" exactly when verification succeeds, and no details with "failed" otherwise |
| `Orders.CreateError.Code` | orders-service/app.py:101-142 | definition of the status-code table: a `create_order` failure is answered 500 iff it is an unexpected exception, and 400 otherwise |
| `Orders.CreateError.ServiceCommunication` | orders-service/app.py:112-116 | among the `create_order` failures, exactly the failed verification carries a `service_communication` tag, and it is "failed" |
| `Orders.FirstMissing` | orders-service/app.py:103-106 | reports nothing iff every required field is present; otherwise it reports the first absent field in the list's order |
| `Orders.ActiveFlag` | orders-service/app.py:118 | `user_data.get('active', True)`: a payload without `active` counts as active; otherwise the flag's truthiness decides, so `null`, `false`, `0` and `""` are inactive |
| `Orders.Admit` | orders-service/app.py:96-137 | an empty body is rejected. A commit happens only with every field present and a confirmed, active, object payload. The committed order has id max+1 (greater than every stored id), status "pending", the client's user id and product, and the coerced quantity and price. Its reply carries name and email when the payload has both and is a 500 otherwise |
| `Orders.OrderLedger.constructor` | orders-service/app.py:15-43 | the ledger starts with the three seed orders |
| `Orders.OrderLedger.CreateOrder` | orders-service/app.py:96-137 | a rejection leaves the ledger unchanged. A commit appends exactly the new order, which is then retrievable; every existing order is untouched and ids stay distinct. A 201 answer is tagged "success" |
| `OrderProperties.MissingFieldRejectedBeforeVerification` | orders-service/app.py:103-109 | a missing required field gives a 400 naming an absent field, whatever the remote outcome is, so it is decided before verification |
| `OrderProperties.UnverifiedUserRejected` | orders-service/app.py:109-116 | with all fields present, a failed verification gives a 400 `UserUnverified` that echoes the client's `user_id` and carries the "failed" communication tag |
| `OrderProperties.InactiveUserRejected` | orders-service/app.py:118-119 | a confirmed user whose `active` is present and falsy is rejected with a 400 that echoes the user id |
| `OrderProperties.AbsentActiveFlagCountsAsActive` | orders-service/app.py:118 | a payload without `active` never yields the inactive-user rejection |
| `OrderProperties.CommitWhenEveryCheckPasses` | orders-service/app.py:103-131 | the converse of `Admit`'s commit conditions: all fields present, confirmed and active, and both coercions succeed imply a commit under id max+1 |
| `OrderProperties.NonObjectPayloadIsInternalError` | orders-service/app.py:118 | a confirmed answer whose body is not a JSON object makes the `active` lookup raise: a 500 with nothing stored |
| `OrderProperties.CoercionFailuresRejected` | orders-service/app.py:118-142 | after a confirmed active user, the coercions decide: a ValueError from `int(quantity)` or then `float(price)` is a 400, a TypeError is a 500, and the request is rejected iff one of them fails |
| `OrderProperties.PriceLiteral` | orders-service/app.py:127 | `float("19.99")` is 19.99 |
| `OrderProperties.NumberQuantityTruncatedStringPriceParsed` | orders-service/app.py:126-127 | a quantity of 2.5 is stored as 2, and a price sent as the string "19.99" is stored as 19.99 |
| `OrderProperties.FractionalQuantityStringRefused` | orders-service/app.py:126-139 | a quantity sent as the string "2.5" is refused by `int()`: a 400 |
| `OrderProperties.OverlongQuantityStringRefused` | orders-service/app.py:126-139 | a quantity string of more than 4300 digits makes `int()` raise ValueError: a 400 with nothing stored |
| `OrderProperties.NullPriceIsInternalError` | orders-service/app.py:127-142 | a `null` price makes `float()` raise TypeError: a 500 |
| `OrderProperties.NoPositivityCheck` | orders-service/app.py:103-127 | a negative quantity and a negative price are accepted and stored as given |
| `OrderProperties.StoredDespiteInternalError` | orders-service/app.py:131-142 | a confirmed payload without `name` still commits the order, and the answer is a 500 |
| `OrderProperties.ReadDegradesWhereWriteRejects` | orders-service/app.py:144-160 | for an existing order, the same failed verification rejects a create but only degrades the detail read (order returned, no details, "failed") |
| `OrderProperties.FirstNewOrderScenario` | orders-service/app.py:121-137 | with the seed ledger, a confirmed user's new order gets id 4, status "pending", and the user's name and email |
| `OrderStats.Revenue` | orders-service/app.py:165 | the revenue of an empty ledger is 0, and it is non-negative when every line value is |
| `OrderStats.Bump` | orders-service/app.py:170 | one `status_count[status] = status_count.get(status, 0) + 1`: the keys gain `status`, its count goes up by one from 0 or its old value, and every other count is unchanged |
| `OrderStats.TallyBounds` | orders-service/app.py:167-170 | the counts are empty only for an empty ledger, and every count is between 1 and the number of orders |
| `OrderStats.RevenueAppend` | orders-service/app.py:165 | storing one more order adds exactly its price × quantity to the revenue |
| `OrderStats.TallyAppend` | orders-service/app.py:167-170 | after one more order is stored, the counts differ only in that order's status, which goes up by one |
| `OrderStats.TallyCountsStatuses` | orders-service/app.py:167-170 | a status is a key of the per-status counts iff some order has it, and its count is the number of orders with it |
| `OrderStats.MapSumBump` | orders-service/app.py:170 | one increment of `status_count` raises the sum of the counts by exactly one |
| `OrderStats.TallySumsToTotal` | orders-service/app.py:164-170 | the per-status counts sum to the total number of orders |
| `OrderStats.AverageOrderValue` | orders-service/app.py:176 | the average is 0 for no orders; otherwise, multiplied by the number of orders, it gives the revenue back |
| `OrderStats.CountByStatus` | orders-service/app.py:167-170 | the counting loop builds exactly the tally |
| `OrderStats.GetOrderStats` | orders-service/app.py:162-178 | total is the number of orders; revenue is the sum of price × quantity; the loop-built counts are the tally; the average is 0 for an empty ledger and revenue/total otherwise |
| `OrderStats.SeedStats` | orders-service/app.py:15-43 | the seed ledger has revenue 1400 and one order in each of "completed", "pending" and "shipped" |
| `Users.IsActive` | users-service/app.py:47 | `user.get('active', True)` is truthy iff the stored flag is not `False` |
| `Users.GetUsers` | users-service/app.py:45-52 | returns exactly the active users (a missing flag counts as active), each as often as stored, in insertion order, and `count` is their number |
| `Users.GetUser` | users-service/app.py:54-59 | returns the stored user iff the id is a key; otherwise a 404 that echoes the id |
| `Users.EmailInUse` | users-service/app.py:72-74 | for a string email, it is in use iff some stored user's email is exactly that string; nothing is in use in an empty directory |
| `Users.FindEmail` | users-service/app.py:72-74 | the duplicate-check loop finds a match iff some stored user's email is `==` to the new one |
| `Users.InsertKeepsEmailsUnique` | users-service/app.py:72-84 | adding a user whose email matches no stored email keeps the emails pairwise distinct |
| `Users.Provided` | users-service/app.py:67-70 | `data.get(key)` is truthy: an absent key, `null`, `false`, `0` and `""` are not provided |
| `Users.CreateUserError.Code` | users-service/app.py:65-74 | definition of the status-code table: a `create_user` failure is answered 409 iff the email is a duplicate, and 400 otherwise |
| `Users.EmailMatchIsCaseSensitive` | users-service/app.py:73 | the match is exact: a seed email is found, and the same email with different letter case is not |
| `Users.FirstNewUserScenario` | users-service/app.py:76 | with the three seed users, a new email is free and the next id is 4; the seed emails are distinct |
| `Users.UserDirectory.constructor` | users-service/app.py:12-34 | the directory starts with the three seed users |
| `Users.UserDirectory.CreateUser` | users-service/app.py:61-88 | an empty body is a 400. So is a missing or falsy `name` (checked first) or `email`. An email equal to a stored one is a 409. Every rejection leaves the directory unchanged. Otherwise exactly one user is appended under id max+1, active, and retrievable. Existing users are untouched, and email uniqueness is preserved |

## Left out

- The Flask routing, `jsonify`, the `@app.errorhandler` handlers and the HTTP plumbing. Answers are datatypes; each error datatype's `Code()` gives its HTTP status.
- The network calls themselves and their timeouts (5 for verification, 3 for the health probe). A timeout is one kind of `TransportError`. Timing is not modelled.
- Clocks: the create handlers take the `datetime.now()` value as a parameter (`now` for orders, `today` for users). The health answer's `timestamp` field is not modelled. Logging is not modelled.
- The users service's `health_check` is not modelled: it always answers "healthy" and reads no state.
- The lost-update race on id assignment under concurrent requests. The model is sequential.
- Request bodies that are not JSON objects (a list, a string, a missing or undecodable body). The model's request is an object, and "no data" is the empty object.
- JsonValues.FloatOf: prices are exact reals. Binary floating-point rounding and the two-decimal `round` of the stats answer are not modelled.
- JsonValues.IntOf: string coercion accepts only an optional sign followed by one to 4300 ASCII digits. The 4300-digit limit is CPython's default (3.11 and the 2022 security releases of 3.7–3.10); on an older interpreter, or with a different `sys.set_int_max_str_digits` setting, longer strings are accepted. Python also accepts surrounding whitespace, `_` separators and non-ASCII digits; the model refuses those.
- JsonValues.FloatOf: a JSON integer beyond the float range (such as `1` followed by 400 zeros) stays a Python int, and `float()` of it raises OverflowError, answered 500 with nothing stored. JSON integers and floats are one kind of number in the model, so it returns the value and the order is stored.
- JsonValues.FloatOf: string coercion accepts only a sign and digits with at most one `.`. Python also accepts surrounding whitespace, `_` separators between digits, exponents, `inf` and `nan`; the model refuses those.
- JsonValues.IntOf: JSON numbers are exact reals. Python's decoder rounds them to 64-bit floats (so `2.99999999999999999` becomes 3 and a quantity of it is stored as 3, not 2), turns `1e400` into infinity (`int()` then raises OverflowError, a 500) and accepts `NaN` and `Infinity`; none of this is modelled. This affects both the quantity coercion and the `user_id` comparison of the order filter.
- JsonValues.IntOf: a JSON integer and the equal JSON float are one value. A `user_id` of `2.0` is formatted into the verification URL as `/users/2.0`, which the user service's integer route does not match, and is echoed back as `2.0`; the model treats it as `2`.
- JsonValues.PyEqIsEquivalence: Python `==` is modelled numerically (booleans count as 0 and 1) only at the top level. Lists and objects are compared structurally, so `[1] == [True]` is false in the model.
- Users.IsActive: a stored `active` flag is a boolean or absent. Every handler stores `True`; other JSON values there are not modelled.
