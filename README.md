# Point ledger service, modelled in Dafny

This project models the point service of a small NestJS application. The service keeps a per-user point balance and an append-only history of charges and uses. The controller in front of it checks the request parameters.

- `PointModel` (`point_model.dfy`): the records. `UserPoint` is a balance row `{id, point, updateMillis}`. `PointHistory` is a log entry `{userId, amount, type, timestamp}`. `TransactionType` is `CHARGE | USE`. It also defines the two exceptions (`NotFound`, `BadRequest` with its message) and a `Result` type.
- `Tables` (`tables.dfy`): the two storage collaborators, modelled abstractly.
  - `UserPointTable` is a class over a `map<int, UserPoint>`. `selectById` returns the stored row, or a zero-point default row for an id that was never written. `insertOrUpdate` overwrites the row.
  - `PointHistoryTable` is a class over a `seq<PointHistory>`. `insert` appends, and `selectAllByUserId` filters by user, keeping log order.
- `Service` (`point_service.dfy`):
  - `Ledger` is the value of both tables at one moment. Its functions `GetUserPoint`, `GetPointHistories`, `Charge` and `Use` state what one service call returns and what it leaves behind.
  - The class `PointService` performs the same steps on the table objects: read the row, check that the user exists, check the balance for a use, overwrite the row, then append one history entry. Each of its methods is proved equal to the corresponding `Ledger` function.
- `LedgerRuns` (`ledger_runs.dfy`): sequences of charge and use calls, executed one after another. It proves the ledger-sum invariant, that users no call names are left untouched, and that balances stay non-negative. It also replays the service tests' scenarios.
- `PointController` (`point_controller.dfy`): the four handlers. Each is a function over an already-parsed id (`NaN` or an integer) and an integer amount, composed with the `Ledger` specification of the service. The file also has end-to-end properties of requests that pass through the controller.

The existence check is kept as the code writes it. `isNotExistUser(user, user.updateMillis)` compares `updateMillis` with itself, so it only tests `point == 0`. As a result:
- A user whose balance is exactly 0, whether never written or drained by uses, is reported `NotFound` by `getUserPoint`, `chargeUserPoint` and `useUserPoint`.
- A drained user can never be charged again (`DrainedUserCannotBeCharged`).
- The service test at `src/point/point.serive.spec.ts:116-117` expects 0 to be read back after the balance is drained. The code answers `NotFound` instead (`DrainScenario`). The model follows the code.

The model also follows the code on points where a safer design would differ:
- An insufficient balance raises `BadRequest("Insufficient points")`.
- Absence is inferred from a zero default row. There is no explicit absence signal.
- There is no per-user lock.
- The service itself does not check the sign of `amount`. Only the controller rejects `amount <= 0`.

## Model

| member | source | states |
|---|---|---|
| `Service.IsNotExistUser` | src/point/point.service.ts:86-88 | a user is taken as missing only when its point is 0 and its updateMillis equals the given date; given its own updateMillis, as every caller does, exactly when the point is 0 |
| `Service.ExistenceCheckIsZeroPoint` | src/point/point.service.ts:86-88 | called with the user's own updateMillis, the existence check holds exactly when the point is 0 |
| `Service.Ledger.GetUserPoint` | src/point/point.service.ts:18-26 | NotFound(userId) exactly when the stored point is 0, an unknown id included; otherwise the stored row, unchanged |
| `Service.Ledger.GetPointHistories` | src/point/point.service.ts:29-31 | every returned entry belongs to the user and is in the log; every log entry of the user is returned; order and count are fixed by `Tables.UserHistorySnoc` |
| `Service.Ledger.Charge` | src/point/point.service.ts:34-55 | NotFound with the tables unchanged exactly when the point is 0; otherwise the row becomes old point + amount stamped now and is returned, no other user's row changes, and exactly one entry {userId, +amount, CHARGE, date} is appended |
| `Service.Ledger.Use` | src/point/point.service.ts:58-83 | the existence check comes first: a 0 point gives NotFound, never BadRequest; a point below amount gives BadRequest "Insufficient points"; both leave the tables unchanged; otherwise the row becomes old point - amount, which is never negative, no other row changes, and exactly one entry {userId, -amount, USE, date} is appended |
| `Service.ChargeExtendsHistories` | src/point/point.service.ts:52 | after a charge, the charged user's history is the old one plus the one CHARGE entry of +amount at the end if the charge succeeded; every other user's history is unchanged |
| `Service.UseExtendsHistories` | src/point/point.service.ts:80 | after a use, the user's history is the old one plus the one USE entry of -amount at the end if the use succeeded; every other user's history is unchanged |
| `Service.PointService.constructor` | src/point/point.service.ts:12-15 | the service holds the two table objects it is given |
| `Service.PointService.GetUserPoint` | src/point/point.service.ts:18-26 | reading the balance table returns what `Ledger.GetUserPoint` specifies |
| `Service.PointService.GetPointHistories` | src/point/point.service.ts:29-31 | reading the history table returns what `Ledger.GetPointHistories` specifies |
| `Service.PointService.ChargeUserPoint` | src/point/point.service.ts:34-55 | the read, check, overwrite and append steps give the result and the new state of both tables that `Ledger.Charge` specifies |
| `Service.PointService.UseUserPoint` | src/point/point.service.ts:58-83 | the read, two checks, overwrite and append steps give the result and the new state of both tables that `Ledger.Use` specifies |
| `Tables.Lookup` | src/point/point.service.ts:19 | what selectById hands the service (here and at lines 39 and 63): the stored row, or {id, 0, DefaultMillis} for an id never written |
| `Tables.UserHistory` | src/point/point.service.ts:30 | the user's entries: no more entries than the log, each one the user's and taken from the log, and none of the user's entries missing; `Tables.UserHistorySnoc` fixes their order and count |
| `Tables.UserHistorySnoc` | src/point/point.service.ts:30 | the filter is order-preserving: an empty log gives no entries, and an entry appended to the log is appended once, at the end, to exactly its own user's view |
| `Tables.UserPointTable.InsertOrUpdate` | src/point/point.service.ts:48-51 | the row of id is replaced by {id, point, now}, the record returned, and the other rows are kept |
| `Tables.PointHistoryTable.Insert` | src/point/point.service.ts:52 | exactly the new entry is appended at the end of the log |
| `LedgerRuns.Run` | src/point/point.service.ts:34-83 | after any sequence of charges and uses the old log is a prefix of the new one: entries are only appended |
| `LedgerRuns.RunAccounted` | src/point/point.service.ts:46-80 | after any sequence of charges and uses, each user's balance has moved by exactly the sum of the amounts of that user's appended entries |
| `LedgerRuns.RunLeavesOthersAlone` | src/point/point.service.ts:46-80 | a user that no call names keeps its row, or keeps having no row, and keeps exactly the same history entries |
| `LedgerRuns.RunKeepsNonNegative` | src/point/point.service.ts:70-80 | starting from non-negative balances, uses and charges of non-negative amounts never produce a negative balance |
| `LedgerRuns.ThreeChargesScenario` | src/point/point.serive.spec.ts:82-99 | 100 charged 50, 30 and 20 returns 150, 180 and 200; 200 is read back, and the user's entries sum to 100 |
| `LedgerRuns.DrainScenario` | src/point/point.serive.spec.ts:101-118 | 300 used 50, 100 and 150 returns 250, 150 and 0; the drained user is then NotFound, not 0 as the test expects |
| `LedgerRuns.OverdraftScenario` | src/point/point.serive.spec.ts:120-132 | 100 used 70 then 50: the first returns 30, the second is refused with BadRequest, 30 remains, and only one entry is appended |
| `LedgerRuns.DrainedUserCannotBeCharged` | src/point/point.service.ts:39-44 | a stored row with point 0 makes every charge NotFound and leaves the tables unchanged |
| `PointController.CheckUserId` | src/point/point.controller.ts:23-27 | a NaN or non-positive id is rejected with BadRequest "Invalid userId"; a positive id is passed on unchanged |
| `PointController.CheckRequest` | src/point/point.controller.ts:52-63 | the userId guard runs before the amount guard: a bad id reports "Invalid userId" whatever the amount; a good id with amount <= 0 reports "Amount must be greater than 0"; otherwise the parsed id is passed on |
| `PointController.Point` | src/point/point.controller.ts:21-29 | an invalid id gives BadRequest without asking the service; a valid id gives exactly the service's answer for that id |
| `PointController.History` | src/point/point.controller.ts:34-42 | an invalid id gives BadRequest without asking the service; a valid id gives exactly the service's history for that id |
| `PointController.Charge` | src/point/point.controller.ts:47-65 | the id is checked before the amount: an invalid id gives "Invalid userId" whatever the amount; a non-positive amount gives "Amount must be greater than 0"; both leave the tables unchanged; otherwise the service's charge with the same arguments, result and tables unchanged |
| `PointController.Use` | src/point/point.controller.ts:70-88 | the same guards in the same order in front of the service's use, which gets the same arguments and whose result is returned unchanged |
| `PointController.ChargeNeverDecreases` | src/point/point.controller.ts:61-64 | a charge through the controller never lowers any user's balance, and a successful one raises the charged user's balance |
| `PointController.Forwarded` | src/point/point.controller.ts:54-64 | only accepted requests become service calls, each with a positive user id and a positive amount |
| `PointController.ServeIsRunOfForwarded` | src/point/point.controller.ts:47-88 | handling a sequence of charge and use requests changes the tables exactly as running the forwarded service calls does; rejected requests never reach the service |
| `PointController.ServeKeepsNonNegative` | src/point/point.controller.ts:84-87 | through the controller, every stored balance stays non-negative after any sequence of requests |
| `PointController.ServeAccounted` | src/point/point.controller.ts:47-88 | through the controller, each user's balance moves by exactly the sum of that user's appended history amounts |

## Left out

- Concurrency: the service awaits each table call and has no lock. The model runs calls one after another. The concurrent tests are replayed as their calls run one after another, each completing before the next begins. Interleavings that lose an update are not modelled.
- A per-user lock serialising charges and uses, an explicit "absent" answer from the balance table, and a dedicated `InsufficientFunds` error: the code has none of them, so neither does the model.
- NestJS wiring, decorators, `ValidationPipe`, the DTO class and HTTP routing: framework plumbing with no logic of its own. The amount is taken as an already-validated integer.
- `Number.parseInt` string parsing: the id arrives already parsed, as `NaN` or an integer.
- JavaScript floating-point numbers: points and amounts are mathematical integers, with no rounding or overflow.
- Clocks: `Date.now()` inside `insertOrUpdate` becomes the parameter `now`. The history `date` is an opaque parameter passed through to the entry. The controller passes no `date` at all, so in the running program the entry's timestamp is `undefined`. The model does not capture that.
- Internals of `UserPointTable` and `PointHistoryTable` (simulated latency, history entry ids): these files are not part of this model. The default row for an unknown id is stamped with `DefaultMillis` (0). Only the self-comparison in the existence check ever looks at it.
- NotFound's message text: it is modelled by the user id it names.
