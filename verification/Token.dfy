// The payment token as the escrow sees it: an OpenZeppelin ERC-20 ledger, with
// the allowances each holder has granted to the escrow.
module Token {
  import opened Base

  datatype Ledger = Ledger(balances: map<Address, nat>, allowances: map<Address, nat>)

  const UNLIMITED: nat := TWO256 - 1

  function BalanceOf(t: Ledger, a: Address): nat {
    if a in t.balances then t.balances[a] else 0
  }

  function AllowanceOf(t: Ledger, a: Address): nat {
    if a in t.allowances then t.allowances[a] else 0
  }

  // None is a revert: the zero address neither sends nor receives, and nobody
  // sends more than they hold.
  function Transfer(t: Ledger, from: Address, to: Address, amount: nat): Option<Ledger> {
    if from == ZERO_ADDRESS || to == ZERO_ADDRESS || BalanceOf(t, from) < amount then None
    else
      var debited := t.(balances := t.balances[from := BalanceOf(t, from) - amount]);
      Some(debited.(balances := debited.balances[to := BalanceOf(debited, to) + amount]))
  }

  // transferFrom with the escrow as spender.
  function TransferFrom(t: Ledger, from: Address, to: Address, amount: nat): Option<Ledger> {
    if AllowanceOf(t, from) < amount then None
    else
      var spent := if AllowanceOf(t, from) == UNLIMITED then t
                   else t.(allowances := t.allowances[from := AllowanceOf(t, from) - amount]);
      Transfer(spent, from, to, amount)
  }

  // What other token holders do, in any order and at any external call.
  datatype Action = Mint(to: Address, amount: nat) | Move(from: Address, to: Address, amount: nat)
                  | Approve(holder: Address, amount: nat)

  // The escrow itself signs nothing, so nobody moves its balance for it.
  function Act(t: Ledger, escrow: Address, a: Action): Ledger {
    match a
    case Mint(to, amount) =>
      if to == ZERO_ADDRESS then t else t.(balances := t.balances[to := BalanceOf(t, to) + amount])
    case Move(from, to, amount) =>
      if from == escrow then t else
        (match Transfer(t, from, to, amount) case None => t case Some(t') => t')
    case Approve(holder, amount) => t.(allowances := t.allowances[holder := amount])
  }

  lemma TransferMoves(t: Ledger, from: Address, to: Address, amount: nat)
    requires Transfer(t, from, to, amount).Some? && from != to
    ensures var t' := Transfer(t, from, to, amount).value;
            && BalanceOf(t', from) == BalanceOf(t, from) - amount
            && BalanceOf(t', to) == BalanceOf(t, to) + amount
            && forall a: Address | a != from && a != to :: BalanceOf(t', a) == BalanceOf(t, a)
  {
  }
}
