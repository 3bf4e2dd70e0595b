# Bank payment rule, modelled in Dafny

This project models the funds-transfer handler `makePayment` of a small Go
bank web application (`main.go`). The handler takes a sender name, a
receiver name and an amount from a form. It runs two request-shape checks
whose messages accumulate (self-transfer, then non-positive amount). If
both pass, it reads the sender's row, refuses the transfer when that row
cannot cover the amount, and otherwise issues two UPDATE statements: debit
the sender, then credit the receiver. It renders a page from the pair
(message, error flag).

The accounts table (`MoneyTransfer` rows of id, name and balance) is the
class `Bank.Ledger`, holding a map from account name to balance; names are
unique and every query is keyed by name. `Ledger.MakePayment` follows the
handler step by step: the accumulating message, the loop over the rows the
SELECT returns (leaving early, as the handler's `goto` does, past both
updates), and the two in-place updates. Its contract ties the reported pair
and the new table to two specification functions, `PaymentResult` and
`Settle`, and the lemmas state what those promise: the messages, no change
on rejection, the frame on other accounts, conservation of the total when
both accounts exist, non-negative balances, and repeatable rejections.

The model follows the handler as written:

- both shape messages are reported together, the self-transfer message
  first;
- the amount's parse error is ignored: input that is not a number gives 0,
  so it is refused as non-positive, and a number too large or too small gives
  the largest or smallest machine integer, which the unbounded `amount`
  argument covers;
- a sender with no row skips the funds check and the receiver is still
  credited, so the total grows (`MissingSenderCreatesFunds`);
- a receiver with no row receives nothing while the sender is still debited,
  so the total shrinks (`MissingReceiverLosesFunds`).

## Model

| member | source | states |
|---|---|---|
| `Bank.ShapeErrors` | main.go:117-128 | the shape messages are empty iff sender and receiver differ and the amount is positive; a self-transfer message comes first, a non-positive amount message last, and both appear, in that order, when both checks fail |
| `Bank.Adjust` | main.go:163-179 | an UPDATE keyed by name moves only the named row by the delta, creates no row, and changes nothing when the name is absent |
| `Bank.PaymentResult` | main.go:117-181 | a request is reported as an error iff it is a self-transfer, has a non-positive amount, or the sender's row exists with a balance below the amount; a failed shape check reports exactly the shape messages; a success reports exactly "Transaction successful" |
| `Bank.Settle` | main.go:130-182 | a payment never adds or removes accounts, and a rejected request leaves the table unchanged |
| `Bank.SelfTransferRejected` | main.go:120-123 | a self-transfer is an error whose message starts with "Self-transfer not allowed!\n" (and is exactly it for a positive amount), and no balance changes |
| `Bank.NonPositiveAmountRejected` | main.go:125-130 | a zero or negative amount is an error whose message ends with "Enter non-zero positive amount\n" (and is exactly it between distinct names), and no balance changes |
| `Bank.BothShapeChecksAccumulate` | main.go:117-130 | when both shape checks fail the message is exactly the self-transfer message followed by the amount message, and no balance changes |
| `Bank.InsufficientFundsRejected` | main.go:146-160 | a well-formed request whose existing sender has less than the amount reports only "Insufficient funds in <sender>'s account\n" as an error, and no balance changes |
| `Bank.SuccessfulTransfer` | main.go:163-181 | an accepted request reports "Transaction successful" without error, the sender (if present) drops by exactly the amount, the receiver (if present) rises by exactly the amount, and every other account is unchanged |
| `Bank.AcceptedIff` | main.go:117-182 | a request is accepted exactly when sender and receiver differ, the amount is positive and the sender, if present, covers it; the table changes exactly when the request is accepted and the sender or the receiver has a row |
| `Bank.Conservation` | main.go:163-179 | when both accounts exist, the sum of all balances is the same after the request as before |
| `Bank.MissingSenderCreatesFunds` | main.go:139-179 | a request from a name with no row is accepted, and the receiver's credit raises the total by the amount |
| `Bank.MissingReceiverLosesFunds` | main.go:163-179 | a request to a name with no row is accepted, and the sender's debit lowers the total by the amount |
| `Bank.NonNegativityPreserved` | main.go:156-179 | if every balance is non-negative before a request, every balance is non-negative after it |
| `Bank.RejectionIsRepeatable` | main.go:117-160 | a rejected request repeated against the table it left gives the same message and flag and still changes nothing |
| `Bank.Ledger.SelectByName` | main.go:139-146 | the lookup by name returns at most one row, a row exactly when the name is in the table, carrying that name and its balance |
| `Bank.Ledger.Update` | main.go:163-179 | the table after one UPDATE is the old table adjusted at the named row only |
| `Bank.Ledger.MakePayment` | main.go:111-182 | the returned message and flag are those of `PaymentResult` on the table before the call, and the table afterwards is `Settle` of the table before the call |

## Left out

- HTTP routing, the logging response writer, page templates, the static file
  server and `main`: input/output plumbing; the model returns the
  (message, error flag) pair the page is rendered from.
- The database connection and every connect, query, prepare and scan
  failure that answers with status 500, including the case where the sender
  has been debited and preparing the receiver's UPDATE then fails: storage
  failures, replaced by an in-memory map that cannot fail.
- Bank.Ledger.MakePayment: the handler discards the result and the error of
  each UPDATE's execution (main.go:170, main.go:179) and still reports
  "Transaction successful"; the model assumes every UPDATE takes effect, so
  its promise that success moves the balances (also `SuccessfulTransfer`)
  does not hold of the source when an UPDATE fails, where a failed debit
  followed by a successful credit would even create money.
- Bank.Ledger.MakePayment: the row iteration's error is never checked after
  the loop over the SELECT's rows (main.go:146-161); a failed fetch reads as
  "no sender row", so the source can accept and debit a sender who cannot
  cover the amount, which `InsufficientFundsRejected` and
  `NonNegativityPreserved` do not account for; the model's lookup cannot
  fail.
- `getUsers`: it lists the rows ordered by id through a template; nothing
  beyond copying rows.
- The id column: the payment handler scans it and never uses it.
- Name matching is exact string equality; the database's own collation
  (for example case-insensitive comparison) is not modelled, so the name in
  the insufficient-funds message is the sender name as given.
- Concurrency: the handler's read, check and two separate writes can
  interleave with other requests; only one request at a time is modelled.
- Parsing the amount: the form value's integer parse is a standard-library
  call; the amount is taken as an already-parsed integer. Input that is not
  a number is modelled by passing 0; a number out of the machine-integer
  range by passing the largest or smallest machine integer, as the parse
  returns alongside its ignored error.
- Machine-integer overflow of balances and amounts: all integers are
  unbounded.
