/**
 The funds-transfer rule of a small bank web application.

 The accounts table (rows of id, name and balance) is modelled as a map
 from account name to balance: every query and update the payment handler
 issues is keyed by name, and names are unique. The handler itself is the
 method `Ledger.MakePayment`; what it does to the table and what it reports
 are specified by the functions `PaymentResult` and `Settle`, and the
 lemmas below state what those promise.
 */
module Bank {

  /** The columns of an account row that the payment handler reads back from
      its SELECT. The id column is scanned too, but never used. */
  datatype Row = Row(name: string, balance: int)

  /** The pair the payment page is rendered from. */
  datatype PaymentStatus = PaymentStatus(message: string, isErr: bool)

  /** The accounts table: balance by account name. */
  type Balances = map<string, int>

  const SelfTransferMsg: string := "Self-transfer not allowed!\n"
  const NonPositiveAmountMsg: string := "Enter non-zero positive amount\n"
  const SuccessMsg: string := "Transaction successful"

  function InsufficientFundsMsg(name: string): string
  {
    "Insufficient funds in " + name + "'s account\n"
  }

  // ---------------------------------------------------------------------
  // Specification of one payment request
  // ---------------------------------------------------------------------

  /** The messages of the two request-shape checks. Both checks always run,
      and their messages accumulate in order: self-transfer first, then the
      amount check. The empty string means the request passed both. */
  function ShapeErrors(from: string, to: string, amount: int): (msg: string)
    ensures msg == "" <==> from != to && amount > 0
    ensures from == to ==> SelfTransferMsg <= msg
    ensures amount <= 0 ==> (|NonPositiveAmountMsg| <= |msg|
                             && msg[|msg| - |NonPositiveAmountMsg|..] == NonPositiveAmountMsg)
    ensures from == to && amount <= 0 ==> msg == SelfTransferMsg + NonPositiveAmountMsg
    ensures from == to && amount > 0 ==> msg == SelfTransferMsg
    ensures from != to && amount <= 0 ==> msg == NonPositiveAmountMsg
  {
    (if from == to then SelfTransferMsg else "")
    + (if amount <= 0 then NonPositiveAmountMsg else "")
  }

  /** The funds check: the sender's row exists and its balance cannot cover
      the amount. A missing sender yields no row, so the check never fires. */
  predicate Insufficient(b: Balances, from: string, amount: int)
  {
    from in b && b[from] < amount
  }

  /** The effect of `UPDATE ... SET balance = balance + delta WHERE name = ?`:
      the named row, if there is one, moves by `delta`; no row is created and
      no other row changes. */
  function Adjust(b: Balances, name: string, delta: int): (r: Balances)
    ensures r.Keys == b.Keys
    ensures name in b ==> r[name] == b[name] + delta
    ensures forall n :: n in b && n != name ==> r[n] == b[n]
  {
    if name in b then b[name := b[name] + delta] else b
  }

  /** The message and error flag a payment request produces against table `b`. */
  function PaymentResult(b: Balances, from: string, to: string, amount: int): (s: PaymentStatus)
    ensures s.isErr <==> from == to || amount <= 0 || Insufficient(b, from, amount)
    ensures !s.isErr ==> s.message == SuccessMsg
    ensures ShapeErrors(from, to, amount) != "" ==> s == PaymentStatus(ShapeErrors(from, to, amount), true)
  {
    var shape := ShapeErrors(from, to, amount);
    if shape != "" then PaymentStatus(shape, true)
    else if Insufficient(b, from, amount) then PaymentStatus(InsufficientFundsMsg(from), true)
    else PaymentStatus(SuccessMsg, false)
  }

  /** The table after a payment request: unchanged when the request is
      rejected, otherwise the sender debited and then the receiver credited. */
  function Settle(b: Balances, from: string, to: string, amount: int): (r: Balances)
    ensures r.Keys == b.Keys
    ensures PaymentResult(b, from, to, amount).isErr ==> r == b
  {
    if PaymentResult(b, from, to, amount).isErr then b
    else Adjust(Adjust(b, from, -amount), to, amount)
  }

  // ---------------------------------------------------------------------
  // The sum of all balances
  // ---------------------------------------------------------------------

  /** Some account of a non-empty table. */
  ghost function Pick(b: Balances): (k: string)
    requires |b| > 0
    ensures k in b
  {
    assert b.Keys != {} by { assert |b.Keys| == |b|; }
    var k :| k in b.Keys; k
  }

  /** The sum of all balances in the table. */
  ghost function Total(b: Balances): int
    decreases |b|
  {
    if |b| == 0 then 0
    else
      var k := Pick(b);
      assert |b - {k}| < |b| by { assert (b - {k}).Keys == b.Keys - {k}; }
      b[k] + Total(b - {k})
  }

  /** Total does not depend on which account it happens to pick first. */
  lemma {:induction false} TotalRemove(b: Balances, k: string)
    requires k in b
    ensures Total(b) == b[k] + Total(b - {k})
    decreases |b|
  {
    assert |b| > 0 by { assert k in b.Keys; }
    var j := Pick(b);
    if j != k {
      assert |b - {j}| < |b| by { assert (b - {j}).Keys == b.Keys - {j}; }
      assert |b - {k}| < |b| by { assert (b - {k}).Keys == b.Keys - {k}; }
      TotalRemove(b - {j}, k);
      TotalRemove(b - {k}, j);
      assert b - {j} - {k} == b - {k} - {j};
    }
  }

  /** Replacing one existing balance moves the total by the difference. */
  lemma {:induction false} TotalUpdate(b: Balances, k: string, v: int)
    requires k in b
    ensures Total(b[k := v]) == Total(b) - b[k] + v
  {
    TotalRemove(b, k);
    TotalRemove(b[k := v], k);
    assert b[k := v] - {k} == b - {k};
  }

  // ---------------------------------------------------------------------
  // Properties of a payment request
  // ---------------------------------------------------------------------

  /** Sending to oneself is refused with the self-transfer message first,
      and the table is untouched. */
  lemma SelfTransferRejected(b: Balances, name: string, amount: int)
    ensures PaymentResult(b, name, name, amount).isErr
    ensures SelfTransferMsg <= PaymentResult(b, name, name, amount).message
    ensures amount > 0 ==> PaymentResult(b, name, name, amount) == PaymentStatus(SelfTransferMsg, true)
    ensures Settle(b, name, name, amount) == b
  {
  }

  /** A zero or negative amount is refused, the message ends with the
      amount message (and is exactly it between distinct names), and the
      table is untouched. */
  lemma NonPositiveAmountRejected(b: Balances, from: string, to: string, amount: int)
    requires amount <= 0
    ensures var s := PaymentResult(b, from, to, amount);
      s.isErr
      && |NonPositiveAmountMsg| <= |s.message|
      && s.message[|s.message| - |NonPositiveAmountMsg|..] == NonPositiveAmountMsg
    ensures from != to ==> PaymentResult(b, from, to, amount) == PaymentStatus(NonPositiveAmountMsg, true)
    ensures Settle(b, from, to, amount) == b
  {
  }

  /** When both shape checks fail, both messages are reported, in order. */
  lemma BothShapeChecksAccumulate(b: Balances, name: string, amount: int)
    requires amount <= 0
    ensures PaymentResult(b, name, name, amount)
         == PaymentStatus(SelfTransferMsg + NonPositiveAmountMsg, true)
    ensures Settle(b, name, name, amount) == b
  {
  }

  /** A well-formed request whose sender cannot cover the amount is refused
      with the insufficient-funds message alone, and the table is untouched. */
  lemma InsufficientFundsRejected(b: Balances, from: string, to: string, amount: int)
    requires from != to && amount > 0
    requires from in b && b[from] < amount
    ensures PaymentResult(b, from, to, amount) == PaymentStatus(InsufficientFundsMsg(from), true)
    ensures Settle(b, from, to, amount) == b
  {
  }

  /** An accepted request debits the sender and credits the receiver by
      exactly the amount (each only if present) and leaves every other
      account alone. */
  lemma SuccessfulTransfer(b: Balances, from: string, to: string, amount: int)
    requires from != to && amount > 0
    requires from in b ==> b[from] >= amount
    ensures PaymentResult(b, from, to, amount) == PaymentStatus(SuccessMsg, false)
    ensures var r := Settle(b, from, to, amount);
      && (from in b ==> r[from] == b[from] - amount)
      && (to in b ==> r[to] == b[to] + amount)
      && forall n :: n in b && n != from && n != to ==> r[n] == b[n]
  {
  }

  /** A request is accepted exactly when it is well formed and the sender,
      if present, can cover the amount (this restates the contract of
      `PaymentResult` in the caller's terms); and the table changes exactly
      when the request is accepted and at least one of the two names has a
      row. */
  lemma AcceptedIff(b: Balances, from: string, to: string, amount: int)
    ensures !PaymentResult(b, from, to, amount).isErr
        <==> from != to && amount > 0 && (from in b ==> b[from] >= amount)
    ensures Settle(b, from, to, amount) != b
        <==> !PaymentResult(b, from, to, amount).isErr && (from in b || to in b)
  {
    var r := Settle(b, from, to, amount);
    if !PaymentResult(b, from, to, amount).isErr {
      if from in b {
        assert r[from] != b[from];
      } else if to in b {
        assert r[to] != b[to];
      }
    }
  }

  /** When both accounts exist, an accepted payment conserves the sum of
      all balances, and a rejected one trivially does. */
  lemma {:induction false} Conservation(b: Balances, from: string, to: string, amount: int)
    requires from in b && to in b
    ensures Total(Settle(b, from, to, amount)) == Total(b)
  {
    if !PaymentResult(b, from, to, amount).isErr {
      var debited := Adjust(b, from, -amount);
      TotalUpdate(b, from, b[from] - amount);
      TotalUpdate(debited, to, debited[to] + amount);
    }
  }

  /** An accepted payment from a name with no row still credits the
      receiver: the total grows by the amount. */
  lemma {:induction false} MissingSenderCreatesFunds(b: Balances, from: string, to: string, amount: int)
    requires from != to && amount > 0
    requires from !in b && to in b
    ensures !PaymentResult(b, from, to, amount).isErr
    ensures Total(Settle(b, from, to, amount)) == Total(b) + amount
  {
    TotalUpdate(b, to, b[to] + amount);
  }

  /** An accepted payment to a name with no row still debits the sender:
      the total shrinks by the amount. */
  lemma {:induction false} MissingReceiverLosesFunds(b: Balances, from: string, to: string, amount: int)
    requires from != to && amount > 0
    requires from in b && b[from] >= amount && to !in b
    ensures !PaymentResult(b, from, to, amount).isErr
    ensures Total(Settle(b, from, to, amount)) == Total(b) - amount
  {
    TotalUpdate(b, from, b[from] - amount);
  }

  /** Every balance in the table is non-negative. */
  ghost predicate NonNegative(b: Balances)
  {
    forall n :: n in b ==> b[n] >= 0
  }

  /** No payment request drives a balance below zero: the funds check
      guards the debit, and a credit adds a positive amount. */
  lemma NonNegativityPreserved(b: Balances, from: string, to: string, amount: int)
    requires NonNegative(b)
    ensures NonNegative(Settle(b, from, to, amount))
  {
  }

  /** A rejected request repeated against the table it left behind is
      rejected again with the same message and still changes nothing. This
      follows directly from `Settle` returning the table unchanged on
      rejection. */
  lemma RejectionIsRepeatable(b: Balances, from: string, to: string, amount: int)
    requires PaymentResult(b, from, to, amount).isErr
    ensures var b' := Settle(b, from, to, amount);
      && b' == b
      && PaymentResult(b', from, to, amount) == PaymentResult(b, from, to, amount)
      && Settle(b', from, to, amount) == b'
  {
  }

  // ---------------------------------------------------------------------
  // The accounts table and the payment handler
  // ---------------------------------------------------------------------

  /** The accounts table, updated in place by payment requests. */
  class Ledger {
    var balances: Balances

    constructor (initial: Balances)
      ensures balances == initial
    {
      balances := initial;
    }

    /** `SELECT * FROM ... WHERE name = ?`: the sender's row, if any. */
    method SelectByName(name: string) returns (rows: seq<Row>)
      ensures |rows| <= 1
      ensures |rows| == 1 <==> name in balances
      ensures forall i :: 0 <= i < |rows| ==> rows[i] == Row(name, balances[name])
    {
      if name in balances {
        rows := [Row(name, balances[name])];
      } else {
        rows := [];
      }
    }

    /** `UPDATE ... SET balance = balance + delta WHERE name = ?`. */
    method Update(name: string, delta: int)
      modifies this
      ensures balances == Adjust(old(balances), name, delta)
    {
      if name in balances {
        balances := balances[name := balances[name] + delta];
      }
    }

    /** Handles one payment request of `amount` from `from` to `to`, and
        returns what the payment page shows. */
    method MakePayment(from: string, to: string, amount: int) returns (status: PaymentStatus)
      modifies this
      ensures status == PaymentResult(old(balances), from, to, amount)
      ensures balances == Settle(old(balances), from, to, amount)
    {
      var msg := "";
      var isErr := false;

      if to == from {
        msg := msg + SelfTransferMsg;
        isErr := true;
      }

      if amount <= 0 {
        msg := msg + NonPositiveAmountMsg;
        isErr := true;
      }
      assert msg == ShapeErrors(from, to, amount);

      if !isErr {
        var rows := SelectByName(from);
        var i := 0;
        while i < |rows|
          invariant 0 <= i <= |rows|
          invariant forall j :: 0 <= j < i ==> amount <= rows[j].balance
        {
          if rows[i].balance < amount {
            assert msg + InsufficientFundsMsg(rows[i].name) == InsufficientFundsMsg(from);
            msg := msg + InsufficientFundsMsg(rows[i].name);
            isErr := true;
            // skip both updates and go straight to rendering
            assert Insufficient(old(balances), from, amount);
            return PaymentStatus(msg, isErr);
          }
          i := i + 1;
        }

        assert !Insufficient(balances, from, amount) by {
          if from in balances { assert rows[0].balance == balances[from]; }
        }
        Update(from, -amount);
        Update(to, amount);

        assert msg + SuccessMsg == SuccessMsg;
        msg := msg + SuccessMsg;
      }

      status := PaymentStatus(msg, isErr);
    }
  }

  /** A client of `Ledger`: the outcomes follow from the contracts alone. */
  method PaymentScenario()
  {
    var ledger := new Ledger(map["Alice" := 100, "Bob" := 50]);

    var s := ledger.MakePayment("Alice", "Bob", 30);
    assert s == PaymentStatus(SuccessMsg, false);
    assert ledger.balances == map["Alice" := 70, "Bob" := 80];

    s := ledger.MakePayment("Bob", "Alice", 200);
    assert s == PaymentStatus(InsufficientFundsMsg("Bob"), true);
    assert ledger.balances == map["Alice" := 70, "Bob" := 80];

    s := ledger.MakePayment("Alice", "Alice", 0);
    assert s == PaymentStatus(SelfTransferMsg + NonPositiveAmountMsg, true);
    assert ledger.balances == map["Alice" := 70, "Bob" := 80];
  }
}
