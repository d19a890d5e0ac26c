# Dumbways cart backend — a Dafny model of its core

This project models the parts of the cart REST backend (Express + Prisma, TypeScript) that make decisions of their own, with the HTTP layer and the database replaced by Dafny values:

- **The in-memory order book** (`Orders`). Handlers share a module-level `orders` array: `createOrder` appends to it, `updateOrder` edits it in place and `deleteOrder` splices it.
  - A new order takes the last element's id + 1, its `DD/MM/YYYY` date and a subtotal summed from quantity × price.
  - The array is `Orders.OrderBook`, a class over a `seq<Order>`. It keeps the invariant that ids strictly increase along the array, under any sequence of requests.
- **The supplier controller** (`Suppliers`).
  - `getSuppliers` validates the query string, builds the id/name filter and fills in the sort and paging defaults.
  - `updateStockAndQuantity` runs the ladder of eight guards:
    - four input checks
    - three not-found checks
    - one sufficiency check

    After that it moves `amount` from a supplier's stock to a product's Stock row in one atomic update of `Suppliers.SupplierStore`.
- **The stock listing** (`Stocks`): `getStocks`' seven guards, the `{gte, lte}` quantity-range merge, the product filter and the defaults.
- **The user validators** (`UserValidation`). Each validator writes a single `error` slot every time one of its checks fails, so the check that failed last is the one reported.
- **The user service** (`UserService`): login, registration, update, profile-image update and truncation over a `map<int, User>` table with an auto-increment id.
  - There are three guard ladders: `logUserIn`'s, `updateUser`'s three and `updateUserProfileImage`'s two.
  - The table keeps the email-uniqueness invariant.

Shared pieces:

- `Common` holds the failure and envelope values and the two ways a ladder picks its failure:
  - `FirstFailing`: `if (...) throw`, the first failure stops the handler.
  - `LastFailing`: `if (...) error = ...`, the last write wins.
- `Text` holds JavaScript's `trim()`, `s.length` in UTF-16 code units, `${n}`, and `Number(...)` restricted to integer text.
  - `Number(...)` strips JavaScript white space, gives 0 for a blank string and reads an optionally signed run of decimal digits. Anything else, "2.5" included, is NaN.
- `QueryParams` holds the helpers that give a parameter sent empty its default, and the `findMany` argument of the list handlers.

Query parameters are strings; `""` is a parameter sent empty (`?limit=`), the only form that selects a default. Body fields are strings too; a body field left out is not the same as `""` (see "## Left out"). Ids that the source coerces once (`Number(req.params.id)`) enter the handlers as the coerced `JsNumber`.

Three behaviours of the code that are easy to misread:

- **Controllers stop at the first failure.** The controllers throw at the first failing guard, so `Stocks` and `Suppliers` use `FirstFailing`; only the user validators keep the last failure.
- **Only `""` selects a default.** The controllers test `length === 0`, so a parameter of white space passes the numeric guard and `Number` makes it 0.
  - `QueryParams.WhiteSpacePagingIsZero`: a limit of `" "` becomes a page size of 0.
  - `Suppliers.BlankAmountIsNotPositive`: a blank amount is reported as "not greater than 0", not as "not numeric".
- **Deleting the newest order gives its id to the next order.** Order ids are unique among the live orders, not over time (`Orders.NewestIdReissued`).

## Model

| member | source | states |
|---|---|---|
| Common.FirstFailing | src/controllers/stock-controller.ts:12-38 | a ladder of throwing guards reports nothing iff every guard passes; otherwise it reports the failure of a guard that fails with every earlier guard passing |
| Common.FirstFailingAt | src/controllers/supplier-controller.ts:12-30 | a guard that fails with all earlier guards passing is the one thrown |
| Common.LastFailing | src/utils/user/user-validation.ts:10-32 | the error slot ends empty iff no check fails; otherwise it holds the failure of a check that fails with every later check passing |
| Common.LastFailingAt | src/utils/user/user-validation.ts:36-48 | a check that fails with all later checks passing is the one the slot holds at the end |
| Common.LastFailingSnoc | src/utils/user/user-validation.ts:12-14 | one more `if (fails) error = ...` statement overwrites the slot exactly when its check fails |
| Common.LastFailingIgnoresPassing | src/utils/user/user-validation.ts:10-32 | what a passing check would have written is unobservable: ladders failing at the same places with the same failures end with the same slot |
| Text.Trim | src/utils/user/user-validation.ts:12 | `trim()` is a contiguous slice of the string with only white space before and after it (`SpacesBetween`), no white space at either of its ends, and empty iff the string is all white space |
| Text.Utf16Length | src/utils/user/user-validation.ts:44 | `s.length` counts UTF-16 code units: between `|s|` and `2 * |s|`, exactly `|s|` when every character is in the Basic Multilingual Plane, and for one character 1 below U+10000 and 2 from it on |
| Text.Utf16LengthConcat | src/utils/user/user-validation.ts:44 | the code-unit count of a concatenation is the sum of the counts, so with the one-character case it is one unit per character plus one more per character above U+FFFF |
| Text.AstralCharactersCountTwice | src/utils/user/user-validation.ts:72 | four U+1F511 characters are four characters but eight code units |
| Text.BlankIsTrimmedEmpty | src/utils/user/user-validation.ts:38 | `s.trim().length === 0` holds exactly when `s` is white space only |
| Text.NatToString | src/controllers/order-controller.ts:17-18 | `${n}` is a non-empty digit string, one digit below 10 and two below 100, with no leading zero from 10 on |
| Text.NatToStringRoundTrip | src/controllers/order-controller.ts:17-18 | reading back the digits of `${n}` gives `n` |
| Text.IntToString | src/controllers/order-controller.ts:41 | `${i}` is non-empty, starts with '-' iff `i` is negative, is otherwise digits, and has no leading zero (only 0 itself is "0"); `NumberRoundTrip` reads it back |
| Text.Number | src/controllers/stock-controller.ts:20-36 | `Number(s)` of a blank string is 0; `NumberReadsDigits`, `NumberRoundTrip`, `WhiteSpacePagingIsZero` and `LettersAreNotNumeric` state what it reads |
| Text.NumberReadsDigits | src/controllers/supplier-controller.ts:65-71 | a number read from a non-blank string ends in a digit and, when negative, starts with '-' once trimmed |
| Text.NumberRoundTrip | src/controllers/order-controller.ts:41 | `Number(`${i}`)` is `i` for every integer, so the id quoted in a message is the id coerced |
| QueryParams.Paged | src/controllers/stock-controller.ts:51-58 | sort column `sortBy` or "id", direction `sort` or "asc", take `Number(limit)` or 5, skip `Number(offset)` or 0, each default exactly when the parameter is "" |
| QueryParams.Listing | src/controllers/stock-controller.ts:60-66 | the 200 envelope carries the rows under the handler's key (`data: { stocks }`) and a dataCount equal to their number |
| QueryParams.WhiteSpacePagingIsZero | src/controllers/supplier-controller.ts:20-22 | a limit or offset of white space passes the guard and yields take 0 and skip 0, not the defaults |
| QueryParams.LettersAreNotNumeric | src/controllers/supplier-controller.ts:20-26 | a limit such as "abc" fails the numeric guard |
| Stocks.StockQueryError | src/controllers/stock-controller.ts:12-38 | the query is refused iff some present parameter is malformed, always with 400 |
| Stocks.UnknownSortColumnReportedFirst | src/controllers/stock-controller.ts:12-14 | a sort column the Stock table lacks is what is reported, whatever else is wrong |
| Stocks.StockFirstFailureReported | src/controllers/stock-controller.ts:12-38 | each of the seven guards is reported exactly when it fails and all guards before it pass |
| Stocks.InvertedRangeAccepted | src/controllers/stock-controller.ts:40-47 | a minimum above the maximum is not an error |
| Stocks.GetStocks | src/controllers/stock-controller.ts:5-59 | 400 iff a guard fails, with the first failure; otherwise `gte` present iff minQuantity given, `lte` iff maxQuantity given, both kept together, the product filter iff productId given, each with the coerced value; sort column a Stock field or "id", direction `sort` or "asc"; the paging defaults |
| Stocks.StocksReply | src/controllers/stock-controller.ts:60-67 | 200, "Stocks retrieved successfully", the rows as given (of any row type) under `data.stocks`, dataCount equal to their number |
| Suppliers.SupplierQueryError | src/controllers/supplier-controller.ts:12-30 | the listing is refused iff some present parameter is malformed, always with 400 |
| Suppliers.SupplierFirstFailureReported | src/controllers/supplier-controller.ts:12-30 | each of the five guards is reported exactly when it fails and all guards before it pass |
| Suppliers.SortColumnWhitelisted | src/controllers/supplier-controller.ts:12-14 | a non-empty sort column outside the Supplier fields is always refused with its message; a query with every parameter empty is accepted |
| Suppliers.GetSuppliers | src/controllers/supplier-controller.ts:5-44 | 400 iff a guard fails, with the first failure; otherwise the id filter iff supplierId given with its coerced value, the name filter iff supplierName given, the sort column a Supplier field or "id", direction `sort` or "asc", the paging defaults |
| Suppliers.SuppliersReply | src/controllers/supplier-controller.ts:45-52 | 200, "Suppliers retrieved successfully", the rows as given (of any row type) under `data.suppliers`, dataCount equal to their number |
| Suppliers.ReplenishCheck | src/controllers/supplier-controller.ts:65-91 | a transfer is admitted iff the amount is a positive number, both ids are numbers, the supplier, product and Stock row exist and the supplier stock covers the amount; 404 is reported iff the input is well formed and a row is missing; every other failure is 400 |
| Suppliers.ReplenishFirstFailure | src/controllers/supplier-controller.ts:65-91 | each of the eight guards' messages is reported exactly when the guards before it pass and it fails, quoting the ids as sent |
| Suppliers.BlankAmountIsNotPositive | src/controllers/supplier-controller.ts:65-67 | a blank amount passes the numeric guard as 0 and is refused as not greater than 0 |
| Suppliers.TransferEffect | src/controllers/supplier-controller.ts:93-106 | an admitted transfer debits the supplier and credits the Stock row by the amount, conserves their sum, leaves the supplier non-negative, keeps every key, and changes no other row |
| Suppliers.SupplierStore.constructor | src/controllers/supplier-controller.ts:73-83 | the store holds the given supplier, product and Stock tables |
| Suppliers.SupplierStore.UpdateStockAndQuantity | src/controllers/supplier-controller.ts:61-123 | on a refused transfer the reply is its failure and neither table changes; on an admitted one the supplier row is debited, the Stock row credited, and the reply is 201 with dataCount 2, the product's name in the message and the two updated rows |
| Suppliers.SupplierStore.Replenish | src/controllers/supplier-controller.ts:65-117 | the same, on the coerced body values: every guard runs before the store is touched, and the two updates happen together |
| Orders.ReduceIsSum | src/controllers/order-controller.ts:24 | the reduce from an accumulator adds the sum of quantity × price to it |
| Orders.Subtotal | src/controllers/order-controller.ts:24 | the subtotal is the sum over the products of quantity × price |
| Orders.SubtotalConcat | src/controllers/order-controller.ts:24 | subtotals add over concatenated product lists |
| Orders.SubtotalNonNegative | src/controllers/order-controller.ts:24 | with no negative quantity or price the subtotal is not negative |
| Orders.Pad2 | src/controllers/order-controller.ts:17-18 | the padded number is a digit string of length 2 below 100, starts with '0' iff below 10, and reads back as the number |
| Orders.FormatDate | src/controllers/order-controller.ts:14-22 | the date has slashes at positions 2 and 5, a leading '0' in day or month exactly when that value is below 10, and the year written exactly as `${year}` (`IntToString`: sign, digits, no leading zero) |
| Orders.DateRoundTrip | src/controllers/order-controller.ts:14-22 | the date string reads back as the day, the month counted from 1, and the year |
| Orders.FindIndex | src/controllers/order-controller.ts:35 | the index of the first order with the id, or -1 iff none has it (a NaN id matches none) |
| Orders.IncreasingIdsMatchOnce | src/controllers/order-controller.ts:55 | with increasing ids, any order with the id is the one found |
| Orders.NextId | src/controllers/order-controller.ts:19-21 | 1 for an empty array, else the last id + 1; above every id when ids increase |
| Orders.NewOrder | src/controllers/order-controller.ts:20-25 | the new order has the next id, the formatted date, the given products and their subtotal |
| Orders.Revised | src/controllers/order-controller.ts:35-42 | an unknown id leaves the array unchanged; otherwise only the first matching order gets the new products and their subtotal; length, ids and dates are kept |
| Orders.Removed | src/controllers/order-controller.ts:55-61 | an unknown id leaves the array unchanged; otherwise exactly the first matching order is removed and the rest keep their relative order |
| Orders.RemovedIdIsGone | src/controllers/order-controller.ts:55-59 | with increasing ids, no order with the deleted id remains |
| Orders.AppendKeepsIdsIncreasing | src/controllers/order-controller.ts:19-27 | appending the new order keeps ids increasing |
| Orders.ReviseKeepsIdsIncreasing | src/controllers/order-controller.ts:38-41 | updating keeps ids increasing |
| Orders.RemoveKeepsIdsIncreasing | src/controllers/order-controller.ts:58-59 | deleting keeps ids increasing |
| Orders.NewestIdReissued | src/controllers/order-controller.ts:19-21 | after the newest order is deleted, the next id is the one it had |
| Orders.RunKeepsIdsIncreasing | src/controllers/order-controller.ts:11-69 | any sequence of creates, updates and deletes keeps ids increasing |
| Orders.IdsIncreasingFromEmpty | src/models/order-model.ts:12 | from the initial empty array, ids increase (and so are unique) after any requests |
| Orders.OrderBook.constructor | src/models/order-model.ts:12 | the order array starts empty |
| Orders.OrderBook.GetOrders | src/controllers/order-controller.ts:6-8 | 200 with the whole array |
| Orders.OrderBook.CreateOrder | src/controllers/order-controller.ts:11-29 | exactly the new order is appended and earlier orders are unchanged; ids keep increasing; 201 with the order |
| Orders.OrderBook.UpdateOrder | src/controllers/order-controller.ts:32-50 | status 200; the array becomes the revised array; "Update order failed." iff the id is unknown, else the success message naming the id; the reply carries the array |
| Orders.OrderBook.DeleteOrder | src/controllers/order-controller.ts:53-69 | status 200; the array becomes the array with the first match removed; "Delete order failed." iff the id is unknown, else the success message naming the id; the reply carries the array |
| UserValidation.ValidateGetUsersQuery | src/utils/user/user-validation.ts:6-33 | the five overwrites leave the failure of the last failing check of role, sortBy, sort, limit and offset, in that order |
| UserValidation.GetUsersQueryAccepted | src/utils/user/user-validation.ts:12-30 | the listing query passes iff every non-blank parameter is well formed |
| UserValidation.GetUsersQueryLastFailureReported | src/utils/user/user-validation.ts:12-30 | the last failing check in source order is the one reported |
| UserValidation.BlankQueryParametersIgnored | src/utils/user/user-validation.ts:12-28 | parameters that are blank after trimming never change the outcome |
| UserValidation.ValidateUserCreation | src/utils/user/user-validation.ts:35-49 | the result is the last failing check of name, email, isEmail, trimmed password length and repeat |
| UserValidation.CreationAccepted | src/utils/user/user-validation.ts:38-46 | creation passes iff name and email are non-blank, the email is valid, the trimmed password has at least 8 UTF-16 code units and the repeat equals it |
| UserValidation.CreationLastFailureReported | src/utils/user/user-validation.ts:38-46 | the last failing check in source order is the one reported |
| UserValidation.RepeatMismatchAlwaysReported | src/utils/user/user-validation.ts:46 | a repeat password that differs is reported whatever else failed |
| UserValidation.CreationShortPasswordRejected | src/utils/user/user-validation.ts:44 | with a matching repeat, fewer than 8 code units after trimming is what is reported |
| UserValidation.ValidateUserUpdate | src/utils/user/user-validation.ts:51-63 | the result is the last failing check of id, name, email and isEmail |
| UserValidation.UpdateAccepted | src/utils/user/user-validation.ts:54-60 | an update passes iff the id is a number, name and email are non-blank and the email is valid |
| UserValidation.UpdateLastFailureReported | src/utils/user/user-validation.ts:54-60 | the last failing check in source order is the one reported |
| UserValidation.IdMessageNeedsValidNameAndEmail | src/utils/user/user-validation.ts:54-60 | "User ID must be numeric" is returned iff the id is NaN and name and email are valid |
| UserValidation.ValidateUserLogin | src/utils/user/user-validation.ts:65-75 | the result is the last failing check of email, isEmail and trimmed password length |
| UserValidation.LoginAccepted | src/utils/user/user-validation.ts:68-72 | a login passes iff the email is non-blank and valid and the trimmed password has at least 8 UTF-16 code units |
| UserValidation.LoginLastFailureReported | src/utils/user/user-validation.ts:68-72 | the last failing check in source order is the one reported |
| UserValidation.LoginShortPasswordRejected | src/utils/user/user-validation.ts:72 | fewer than 8 code units after trimming is always what is reported |
| UserValidation.AstralPasswordLongEnough | src/utils/user/user-validation.ts:72 | a password of four U+1F511 characters is long enough, as JavaScript counts it |
| UserValidation.CreationNeverReportsEmailEmpty | src/utils/user/user-validation.ts:40-42 | when isEmail rejects blank strings, "Email is empty" is never returned by creation |
| UserValidation.UpdateNeverReportsEmailEmpty | src/utils/user/user-validation.ts:58-60 | the same for update |
| UserValidation.LoginNeverReportsEmailEmpty | src/utils/user/user-validation.ts:68-70 | the same for login |
| UserService.LookupId | src/services/user-service.ts:89-96 | a lookup by id finds a row iff the id is a key, and yields that id |
| UserService.UpdateFailure | src/services/user-service.ts:103-107 | an update is allowed iff the target exists, is the caller, and no other user owns the email; it is 404 iff one of the first two fails |
| UserService.UpdateFailureOrder | src/services/user-service.ts:103-107 | missing target, then another user's account, then an email owned by another user: the first that applies is thrown, with its message |
| UserService.OwnEmailAllowed | src/services/user-service.ts:107 | keeping one's own current email is allowed |
| UserService.ImageFailure | src/services/user-service.ts:146-148 | an image update is allowed iff the target exists and is the caller; every refusal is 404, "This account is not found" for a missing target and "Can't update user profile image with ID: " followed by the id for someone else's account |
| UserService.NewUser | src/services/user-service.ts:61-69 | the created row has the given name, email and role, the hashed password, no image and both timestamps at creation time |
| UserService.InsertKeepsEmailsUnique | src/services/user-service.ts:54-62 | inserting a row whose email is not taken keeps emails unique |
| UserService.RegisteredUserCanLogIn | src/services/user-service.ts:25-39 | when `compare(p, hash(p))` holds, a registered user is the only row with its email and its password matches |
| UserService.RenameKeepsEmailsUnique | src/services/user-service.ts:107-117 | an update that passes the guards keeps emails unique |
| UserService.UserTable.constructor | src/services/user-service.ts:62-69 | the table starts empty, with the store's id counter at 1 |
| UserService.UserTable.LogUserIn | src/services/user-service.ts:23-50 | an unknown email gives 400 "This account is not found"; for the row with the email, a wrong password gives 400 "Password is incorrect" and a right one gives exactly its id and role |
| UserService.UserTable.RegisterUser | src/services/user-service.ts:52-84 | a taken email gives 400 and changes nothing; otherwise exactly one row is added under the next id with the hashed password, and the uniqueness invariant is kept |
| UserService.UserTable.UpdateUser | src/services/user-service.ts:86-131 | a refused update returns its failure and changes nothing; an allowed one changes only the name, email and update time of the target row; emails stay unique |
| UserService.UserTable.UpdateUserProfileImage | src/services/user-service.ts:133-169 | a refused update returns its 404 and changes nothing; an allowed one changes only the image name and update time of the target row |
| UserService.UserTable.TruncateAllUsers | src/services/user-service.ts:171-185 | every row is deleted and their number returned, 0 for an empty table, never the unreachable 404 |

## Left out

- The HTTP layer (Express wiring, routes, CORS, the error handler and `response.ts`) is not part of this model. It has no logic of its own; handler outcomes are modelled as `Result` and the `Reply` envelope.
- The role-check middlewares, the Joi-validated product and user controllers, the bcrypt/Prisma wrappers in `product-service.ts` and `user-data-manipulation.ts`, token signing and upload handling are not part of this model. Their logic lives in libraries that are not visible here.
- The point transfer between users and the cascading user delete are not part of this model. The routes import handlers that no controller defines.
- `getUsers` and every `findMany` are left out: ordering, pagination and the rows a query returns belong to the database. `GetStocks` and `GetSuppliers` return the query argument they build, and the reply functions take the rows as a parameter.
- `Promise.all` concurrency and transaction isolation are left out: lookups are sequential and `$transaction` is one atomic update of the store.
- `Text.Number` does not model fractions ("2.5"), exponents ("1e3"), the prefixes "0x", "0o" and "0b", or "Infinity": each of those is NaN here, while JavaScript gives a number. Prices, quantities and amounts are integers, not floating point.
- Parameters are always-present strings: a missing query parameter, which makes `(undefined as string).length` throw, is not modelled. Body fields of `updateStockAndQuantity` sent as JSON numbers are modelled as their decimal text. A body field left out is `undefined`, and `Number(undefined)` is NaN, so it is refused as "Amount must be numeric" (or the id's "must be numeric"). The model has no value for it: it acts like a non-numeric string, not like `""`, which is 0.
- The Prisma field lists (`prisma.dmmf`) are the parameters `fields` and `userFields`, and `Object.values(UserRole)` is the constant `Roles`. The case of a model missing from the schema (`?.includes` on undefined) is left out.
- `validator.isEmail` is the parameter `isEmail`. `bcrypt.hash` and `bcrypt.compare` are the parameters `hash` and `compare`; the salt rounds and their asynchrony are left out, and so is `validateUserPasswordLogin`.
- The clock is a parameter: `day`, `monthIndex` and `year` for the order date, and `now` for the user timestamps. `JSON.parse` of the order products is left out: the products arrive parsed.
- UserService.UserTable.LogUserIn: that the password is never compared for an unknown email is shown only by the order of the guards, since `compare` is a pure function here.
- UserService.UserTable.RegisterUser: the database's id assignment is modelled as an auto-increment counter, and the unset `imageName` default as `None`.
- UserService.User: the point balance and the other columns no function here reads are omitted.
- UserService.UserTable.UpdateUserProfileImage: ids are integers. Its caller passes an unchecked `Number(req.params.id)` (`src/controllers/user-controller.ts:208`), so a NaN or fractional id can reach the service; what the store does with it is not modelled. Only `updateUser`'s caller checks the id, with Joi (`src/controllers/user-controller.ts:170-178`).
- UserValidation.CreationChecks: lengths are counted in UTF-16 code units, as JavaScript does. A string holding a lone surrogate, which JavaScript allows, cannot be a Dafny string, so that input is not modelled. The same holds for `UserValidation.LoginChecks`.
- Orders.DateRoundTrip: it is stated for day < 100 and month index < 99, which covers every calendar date.
