/**
 The credit service over mutable wallet rows. Each method is one call in its own
 session and is specified by the ledger step of the same name, whose laws are in
 `LedgerLaws`.
 */
module CreditServices {
  import opened Common
  import L = Ledger

  class WalletRow {
    var balance: int
    var reserved: int

    constructor (balance: int)
      ensures this.balance == balance && this.reserved == 0
    {
      this.balance := balance;
      this.reserved := 0;
    }
  }

  class CreditService {
    var wallets: map<L.OrgId, WalletRow>
    var txns: seq<L.Txn>

    /** One wallet row per organization. */
    ghost predicate Valid()
      reads this
    {
      forall a, b | a in wallets && b in wallets && a != b :: wallets[a] != wallets[b]
    }

    /** The committed state that this service and its rows stand for. */
    ghost function View(): L.State
      reads this, wallets.Values
    {
      L.State(map org | org in wallets :: L.Wallet(wallets[org].balance, wallets[org].reserved), txns)
    }

    constructor ()
      ensures Valid() && View() == L.EMPTY
      ensures wallets == map[]
    {
      wallets := map[];
      txns := [];
    }

    /** Flushes a changed wallet with its new log row; a violated constraint
        rolls the wallet back to what it was before. */
    method AddTransaction(row: WalletRow, before: L.Wallet, t: L.Txn) returns (outcome: L.Outcome)
      modifies this`txns, row
      ensures if old(row.balance) < 0 || old(row.reserved) < 0 || L.HasKey(old(txns), t.key)
              then outcome == L.ConstraintViolated && txns == old(txns)
                   && row.balance == before.balance && row.reserved == before.reserved
              else outcome == L.Applied && txns == old(txns) + [t]
                   && row.balance == old(row.balance) && row.reserved == old(row.reserved)
    {
      if row.balance < 0 || row.reserved < 0 || L.HasKey(txns, t.key) {
        row.balance, row.reserved := before.balance, before.reserved;
        outcome := L.ConstraintViolated;
      } else {
        txns := txns + [t];
        outcome := L.Applied;
      }
    }

    method Signup(org: L.OrgId, amount: int, key: L.Key) returns (outcome: L.Outcome)
      requires Valid()
      modifies this
      ensures Valid()
      ensures (View(), outcome) == L.SignupStep(old(View()), org, amount, key)
      ensures forall o | o in old(wallets) :: o in wallets && wallets[o] == old(wallets[o])
      ensures forall o | o in wallets && o !in old(wallets) :: fresh(wallets[o])
    {
      if org in wallets || (amount > 0 && L.HasKey(txns, key)) {
        return L.ConstraintViolated;
      }
      var row := new WalletRow(Max(amount, 0));
      wallets := wallets[org := row];
      if amount > 0 {
        txns := txns + [L.Txn(org, None, L.GRANT, amount, key)];
      }
      outcome := L.Applied;
      assert View() == L.SignupStep(old(View()), org, amount, key).0;
    }

    method Reserve(org: L.OrgId, amount: int, b: L.BuildId, key: L.Key) returns (outcome: L.Outcome)
      requires Valid()
      modifies this`txns, wallets.Values
      ensures Valid()
      ensures (View(), outcome) == L.ReserveStep(old(View()), org, amount, b, key)
    {
      if L.HasKey(txns, key) {
        return L.Replayed;
      }
      if org !in wallets {
        return L.InsufficientCredits;
      }
      var wallet := wallets[org];
      if wallet.balance < amount {
        return L.InsufficientCredits;
      }
      var before := L.Wallet(wallet.balance, wallet.reserved);
      wallet.balance := wallet.balance - amount;
      wallet.reserved := wallet.reserved + amount;
      outcome := AddTransaction(wallet, before, L.Txn(org, Some(b), L.RESERVE, -amount, key));
      assert View().wallets == old(View()).wallets[org := L.Wallet(wallet.balance, wallet.reserved)];
      assert outcome.ConstraintViolated? ==> View().wallets == old(View()).wallets;
    }

    method Capture(org: L.OrgId, b: L.BuildId, key: L.Key) returns (outcome: L.Outcome)
      requires Valid()
      modifies this`txns, wallets.Values
      ensures Valid()
      ensures (View(), outcome) == L.CaptureStep(old(View()), org, b, key)
    {
      if L.HasKey(txns, key) {
        return L.Replayed;
      }
      if org !in wallets {
        return L.Ignored;
      }
      var wallet := wallets[org];
      var rows := L.ReserveRows(txns, b);
      if |rows| > 1 {
        return L.MultipleRows;
      }
      var reservedAmount := if rows == [] then 0 else Abs(rows[0].amount);
      var before := L.Wallet(wallet.balance, wallet.reserved);
      wallet.reserved := Max(0, wallet.reserved - reservedAmount);
      outcome := AddTransaction(wallet, before, L.Txn(org, Some(b), L.CAPTURE, -reservedAmount, key));
      assert View().wallets == old(View()).wallets[org := L.Wallet(wallet.balance, wallet.reserved)];
      assert outcome.ConstraintViolated? ==> View().wallets == old(View()).wallets;
    }

    method Refund(org: L.OrgId, b: L.BuildId, key: L.Key) returns (outcome: L.Outcome)
      requires Valid()
      modifies this`txns, wallets.Values
      ensures Valid()
      ensures (View(), outcome) == L.RefundStep(old(View()), org, b, key)
    {
      if L.HasKey(txns, key) {
        return L.Replayed;
      }
      if org !in wallets {
        return L.Ignored;
      }
      var wallet := wallets[org];
      var rows := L.ReserveRows(txns, b);
      if |rows| > 1 {
        return L.MultipleRows;
      }
      var reservedAmount := if rows == [] then 0 else Abs(rows[0].amount);
      var before := L.Wallet(wallet.balance, wallet.reserved);
      wallet.reserved := Max(0, wallet.reserved - reservedAmount);
      wallet.balance := wallet.balance + reservedAmount;
      outcome := AddTransaction(wallet, before, L.Txn(org, Some(b), L.REFUND, reservedAmount, key));
      assert View().wallets == old(View()).wallets[org := L.Wallet(wallet.balance, wallet.reserved)];
      assert outcome.ConstraintViolated? ==> View().wallets == old(View()).wallets;
    }

    method Grant(org: L.OrgId, amount: int, key: L.Key) returns (outcome: L.Outcome)
      requires Valid()
      modifies this`txns, wallets.Values
      ensures Valid()
      ensures (View(), outcome) == L.GrantStep(old(View()), org, amount, key)
    {
      if amount <= 0 {
        return L.Ignored;
      }
      if L.HasKey(txns, key) {
        return L.Replayed;
      }
      if org !in wallets {
        return L.NoWallet;
      }
      var wallet := wallets[org];
      var before := L.Wallet(wallet.balance, wallet.reserved);
      wallet.balance := wallet.balance + amount;
      outcome := AddTransaction(wallet, before, L.Txn(org, None, L.GRANT, amount, key));
      assert View().wallets == old(View()).wallets[org := L.Wallet(wallet.balance, wallet.reserved)];
      assert outcome.ConstraintViolated? ==> View().wallets == old(View()).wallets;
    }
  }
}
