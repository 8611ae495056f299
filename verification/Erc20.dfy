/** The ERC20 token with its unchecked arithmetic: over every run of calls nothing wraps, because balances
    always add up to the total supply. */
module Erc20 {
  import opened Common
  import opened MapSums

  const MAX_UINT256: nat := 0xFFFF_FFFF_FFFF_FFFF_FFFF_FFFF_FFFF_FFFF_FFFF_FFFF_FFFF_FFFF_FFFF_FFFF_FFFF_FFFF
  type uint256 = n: nat
    | n <= 0xFFFF_FFFF_FFFF_FFFF_FFFF_FFFF_FFFF_FFFF_FFFF_FFFF_FFFF_FFFF_FFFF_FFFF_FFFF_FFFF
  type Address = n: nat | n < 0x1_0000_0000_0000_0000_0000_0000_0000_0000_0000_0000
  const ZERO_ADDRESS: Address := 0

  /** Arithmetic inside an `unchecked` block. */
  function Wrap256(n: int): (r: uint256)
    ensures 0 <= n <= MAX_UINT256 ==> r == n
  {
    n % (MAX_UINT256 + 1)
  }

  datatype Token = Token(
    balances: map<Address, uint256>,
    allowances: map<(Address, Address), uint256>,
    totalSupply: uint256)
  {
    function BalanceOf(a: Address): uint256 { if a in balances then balances[a] else 0 }

    function Allowance(owner: Address, spender: Address): uint256 {
      if (owner, spender) in allowances then allowances[(owner, spender)] else 0
    }
  }

  // ---- The internal functions; `None` is a revert ----

  function TransferOf(t: Token, from: Address, to: Address, amount: uint256): Option<Token> {
    if from == ZERO_ADDRESS || to == ZERO_ADDRESS || t.BalanceOf(from) < amount then None
    else
      var t1 := t.(balances := t.balances[from := Wrap256(t.BalanceOf(from) - amount)]);
      Some(t1.(balances := t1.balances[to := Wrap256(t1.BalanceOf(to) + amount)]))
  }

  function MintOf(t: Token, account: Address, amount: uint256): Option<Token> {
    if account == ZERO_ADDRESS || t.totalSupply + amount > MAX_UINT256 then None
    else Some(t.(totalSupply := t.totalSupply + amount,
                 balances := t.balances[account := Wrap256(t.BalanceOf(account) + amount)]))
  }

  function BurnOf(t: Token, account: Address, amount: uint256): Option<Token> {
    if account == ZERO_ADDRESS || t.BalanceOf(account) < amount then None
    else Some(t.(balances := t.balances[account := Wrap256(t.BalanceOf(account) - amount)],
                 totalSupply := Wrap256(t.totalSupply - amount)))
  }

  function ApproveOf(t: Token, owner: Address, spender: Address, amount: uint256): Option<Token> {
    if owner == ZERO_ADDRESS || spender == ZERO_ADDRESS then None
    else Some(t.(allowances := t.allowances[(owner, spender) := amount]))
  }

  /** The largest allowance is never used up. */
  function SpendOf(t: Token, owner: Address, spender: Address, amount: uint256): Option<Token> {
    var current := t.Allowance(owner, spender);
    if current == MAX_UINT256 then Some(t)
    else if current < amount then None
    else ApproveOf(t, owner, spender, Wrap256(current - amount))
  }

  // ---- Calls ----

  datatype Call =
    | Transfer(to: Address, amount: uint256)
    | Approve(spender: Address, amount: uint256)
    | TransferFrom(from: Address, to: Address, amount: uint256)
    | IncreaseAllowance(spender: Address, added: uint256)
    | DecreaseAllowance(spender: Address, subtracted: uint256)
    | Mint(to: Address, amount: uint256)
    | Burn(amount: uint256)
    | BurnFrom(account: Address, amount: uint256)

  function Invoke(t: Token, sender: Address, call: Call): Option<Token> {
    match call
    case Transfer(to, amount) => TransferOf(t, sender, to, amount)
    case Approve(spender, amount) => ApproveOf(t, sender, spender, amount)
    case TransferFrom(from, to, amount) =>
      (match SpendOf(t, from, sender, amount) case None => None case Some(t1) => TransferOf(t1, from, to, amount))
    case IncreaseAllowance(spender, added) =>
      if t.Allowance(sender, spender) + added > MAX_UINT256 then None
      else ApproveOf(t, sender, spender, t.Allowance(sender, spender) + added)
    case DecreaseAllowance(spender, subtracted) =>
      if t.Allowance(sender, spender) < subtracted then None
      else ApproveOf(t, sender, spender, Wrap256(t.Allowance(sender, spender) - subtracted))
    case Mint(to, amount) => MintOf(t, to, amount)
    case Burn(amount) => BurnOf(t, sender, amount)
    case BurnFrom(account, amount) =>
      (match SpendOf(t, account, sender, amount) case None => None case Some(t1) => BurnOf(t1, account, amount))
  }

  /** A call that reverts changes nothing. */
  function After(t: Token, sender: Address, call: Call): Token {
    var r := Invoke(t, sender, call);
    if r.Some? then r.value else t
  }

  // ---- The global invariant ----

  ghost function Weigh(): (Address, uint256) -> nat { (a: Address, n: uint256) => n }

  /** Balances add up to the total supply. */
  ghost predicate AddsUp(t: Token) {
    Sum(t.balances, Weigh()) == t.totalSupply
  }

  lemma BalanceWithinTotal(t: Token, a: Address)
    requires AddsUp(t)
    ensures t.BalanceOf(a) <= t.totalSupply
  {
    SumSplit(t.balances, Weigh(), a);
  }

  lemma SetBalance(m: map<Address, uint256>, a: Address, n: uint256)
    ensures Sum(m[a := n], Weigh()) == Sum(m, Weigh()) - (if a in m then m[a] else 0) + n
  {
    SumPut(m, Weigh(), a, n);
  }

  /** A transfer, to oneself included, moves exactly `amount`; neither unchecked operation wraps. */
  lemma TransferExact(t: Token, from: Address, to: Address, amount: uint256)
    requires AddsUp(t) && TransferOf(t, from, to, amount).Some?
    ensures var t' := TransferOf(t, from, to, amount).value;
      && AddsUp(t') && t'.totalSupply == t.totalSupply && t'.allowances == t.allowances
      && forall a: Address :: t'.BalanceOf(a)
           == t.BalanceOf(a) - (if a == from then amount else 0) + (if a == to then amount else 0)
  {
    hide Wrap256;
    var left := t.BalanceOf(from) - amount;
    BalanceWithinTotal(t, from);
    var t1 := t.(balances := t.balances[from := left]);
    SetBalance(t.balances, from, left);
    SumSplit(t1.balances, Weigh(), to);
    SetBalance(t1.balances, to, t1.BalanceOf(to) + amount);
  }

  /** Minting adds exactly `amount`: the checked addition to the supply covers the unchecked one. */
  lemma MintExact(t: Token, account: Address, amount: uint256)
    requires AddsUp(t) && MintOf(t, account, amount).Some?
    ensures var t' := MintOf(t, account, amount).value;
      && AddsUp(t') && t'.totalSupply == t.totalSupply + amount && t'.allowances == t.allowances
      && forall a: Address :: t'.BalanceOf(a) == t.BalanceOf(a) + (if a == account then amount else 0)
  {
    hide Wrap256;
    BalanceWithinTotal(t, account);
    SetBalance(t.balances, account, t.BalanceOf(account) + amount);
  }

  /** Burning removes exactly `amount`: what the account holds is within the supply. */
  lemma BurnExact(t: Token, account: Address, amount: uint256)
    requires AddsUp(t) && BurnOf(t, account, amount).Some?
    ensures var t' := BurnOf(t, account, amount).value;
      && AddsUp(t') && t'.totalSupply == t.totalSupply - amount && t'.allowances == t.allowances
      && forall a: Address :: t'.BalanceOf(a) == t.BalanceOf(a) - (if a == account then amount else 0)
  {
    hide Wrap256;
    BalanceWithinTotal(t, account);
    SetBalance(t.balances, account, t.BalanceOf(account) - amount);
  }

  /** Spending touches one allowance, and an unlimited one not at all. */
  lemma SpendExact(t: Token, owner: Address, spender: Address, amount: uint256)
    requires SpendOf(t, owner, spender, amount).Some?
    ensures var t' := SpendOf(t, owner, spender, amount).value;
      && t'.balances == t.balances && t'.totalSupply == t.totalSupply
      && forall o: Address, p: Address :: t'.Allowance(o, p)
           == t.Allowance(o, p) - (if o == owner && p == spender && t.Allowance(o, p) != MAX_UINT256 then amount else 0)
  {
  }

  function Minted(t: Token, sender: Address, call: Call): nat {
    if call.Mint? && Invoke(t, sender, call).Some? then call.amount else 0
  }

  function Burned(t: Token, sender: Address, call: Call): nat {
    if (call.Burn? || call.BurnFrom?) && Invoke(t, sender, call).Some? then call.amount else 0
  }

  /** Every call keeps the invariant; only minting and burning move the supply, by exactly their amount. */
  lemma InvokeKeepsSum(t: Token, sender: Address, call: Call)
    requires AddsUp(t)
    ensures AddsUp(After(t, sender, call))
    ensures After(t, sender, call).totalSupply + Burned(t, sender, call) == t.totalSupply + Minted(t, sender, call)
  {
    if Invoke(t, sender, call).Some? {
      match call
      case Transfer(to, amount) => TransferExact(t, sender, to, amount);
      case TransferFrom(from, to, amount) =>
        SpendExact(t, from, sender, amount);
        TransferExact(SpendOf(t, from, sender, amount).value, from, to, amount);
      case Mint(to, amount) => MintExact(t, to, amount);
      case Burn(amount) => BurnExact(t, sender, amount);
      case BurnFrom(account, amount) =>
        SpendExact(t, account, sender, amount);
        BurnExact(SpendOf(t, account, sender, amount).value, account, amount);
      case _ =>
    }
  }

  // ---- What each call needs and does ----

  /** The leave a spender needs: an unlimited allowance, or one that covers the amount. */
  predicate MaySpend(t: Token, owner: Address, spender: Address, amount: uint256) {
    t.Allowance(owner, spender) == MAX_UINT256
    || (amount <= t.Allowance(owner, spender) && spender != ZERO_ADDRESS)
  }

  predicate Allowed(t: Token, sender: Address, call: Call) {
    match call
    case Transfer(to, amount) => sender != ZERO_ADDRESS && to != ZERO_ADDRESS && amount <= t.BalanceOf(sender)
    case Approve(spender, _) => sender != ZERO_ADDRESS && spender != ZERO_ADDRESS
    case TransferFrom(from, to, amount) =>
      from != ZERO_ADDRESS && to != ZERO_ADDRESS && amount <= t.BalanceOf(from) && MaySpend(t, from, sender, amount)
    case IncreaseAllowance(spender, added) =>
      sender != ZERO_ADDRESS && spender != ZERO_ADDRESS && t.Allowance(sender, spender) + added <= MAX_UINT256
    case DecreaseAllowance(spender, subtracted) =>
      sender != ZERO_ADDRESS && spender != ZERO_ADDRESS && subtracted <= t.Allowance(sender, spender)
    case Mint(to, amount) => to != ZERO_ADDRESS && t.totalSupply + amount <= MAX_UINT256
    case Burn(amount) => sender != ZERO_ADDRESS && amount <= t.BalanceOf(sender)
    case BurnFrom(account, amount) =>
      account != ZERO_ADDRESS && amount <= t.BalanceOf(account) && MaySpend(t, account, sender, amount)
  }

  /** A call goes through exactly when it is allowed. */
  lemma InvokeSucceedsIff(t: Token, sender: Address, call: Call)
    ensures Invoke(t, sender, call).Some? <==> Allowed(t, sender, call)
  {
  }

  function Part(b: bool, n: nat): nat { if b then n else 0 }

  /** What a call takes from the balance of `a`. */
  function Taken(sender: Address, call: Call, a: Address): nat {
    match call
    case Transfer(_, amount) => Part(a == sender, amount)
    case TransferFrom(from, _, amount) => Part(a == from, amount)
    case Burn(amount) => Part(a == sender, amount)
    case BurnFrom(account, amount) => Part(a == account, amount)
    case _ => 0
  }

  function Given(call: Call, a: Address): nat {
    if call.Transfer? || call.TransferFrom? || call.Mint? then Part(a == call.to, call.amount) else 0
  }

  /** What a call spends of the leave `o` gave to `p`. */
  function Spent(t: Token, sender: Address, call: Call, o: Address, p: Address): nat {
    match call
    case TransferFrom(from, _, amount) => Part(o == from && p == sender, amount)
    case BurnFrom(account, amount) => Part(o == account && p == sender, amount)
    case _ => 0
  }

  /** The allowance of a pair after a call: only the owner sets it, and only the spender spends it. */
  function AllowanceAfter(t: Token, sender: Address, call: Call, o: Address, p: Address): int {
    var was := t.Allowance(o, p);
    match call
    case Approve(spender, amount) => if o == sender && p == spender then amount else was
    case IncreaseAllowance(spender, added) => was + Part(o == sender && p == spender, added)
    case DecreaseAllowance(spender, subtracted) => was - Part(o == sender && p == spender, subtracted)
    case _ => if was == MAX_UINT256 then was else was - Spent(t, sender, call, o, p)
  }

  lemma InvokeBalances(t: Token, sender: Address, call: Call, a: Address)
    requires AddsUp(t) && Invoke(t, sender, call).Some?
    ensures Invoke(t, sender, call).value.BalanceOf(a) == t.BalanceOf(a) - Taken(sender, call, a) + Given(call, a)
  {
    hide AddsUp, TransferOf, MintOf, BurnOf, SpendOf;
    match call
    case Transfer(to, amount) => TransferExact(t, sender, to, amount);
    case TransferFrom(from, to, amount) =>
      SpendAddsUp(t, from, sender, amount);
      TransferExact(SpendOf(t, from, sender, amount).value, from, to, amount);
    case Mint(to, amount) => MintExact(t, to, amount);
    case Burn(amount) => BurnExact(t, sender, amount);
    case BurnFrom(account, amount) =>
      SpendAddsUp(t, account, sender, amount);
      BurnExact(SpendOf(t, account, sender, amount).value, account, amount);
    case _ =>
  }

  lemma SpendAddsUp(t: Token, owner: Address, spender: Address, amount: uint256)
    requires AddsUp(t) && SpendOf(t, owner, spender, amount).Some?
    ensures AddsUp(SpendOf(t, owner, spender, amount).value)
    ensures SpendOf(t, owner, spender, amount).value.balances == t.balances
  {
  }

  /** Every call that goes through leaves exactly these balances and allowances, of every account and pair. */
  lemma InvokeExact(t: Token, sender: Address, call: Call)
    requires AddsUp(t) && Invoke(t, sender, call).Some?
    ensures var t' := Invoke(t, sender, call).value;
      && (forall a: Address :: t'.BalanceOf(a) == t.BalanceOf(a) - Taken(sender, call, a) + Given(call, a))
      && (forall o: Address, p: Address :: t'.Allowance(o, p) == AllowanceAfter(t, sender, call, o, p))
  {
    forall a: Address { InvokeBalances(t, sender, call, a); }
  }

  /** A balance shrinks only by its owner's call, or within what its owner allowed the caller. */
  lemma ShrinksOnlyByLeave(t: Token, sender: Address, call: Call, p: Address)
    requires AddsUp(t) && After(t, sender, call).BalanceOf(p) < t.BalanceOf(p)
    ensures sender == p || t.BalanceOf(p) - After(t, sender, call).BalanceOf(p) <= t.Allowance(p, sender)
  {
    InvokeExact(t, sender, call);
    InvokeSucceedsIff(t, sender, call);
    hide Invoke;
  }

  /** An allowance changes only by its owner's call, or is spent by its spender. */
  lemma AllowanceOnlyByOwner(t: Token, sender: Address, call: Call, o: Address, p: Address)
    requires AddsUp(t) && sender != o && After(t, sender, call).Allowance(o, p) != t.Allowance(o, p)
    ensures p == sender && t.Allowance(o, p) != MAX_UINT256
    ensures After(t, sender, call).Allowance(o, p) == t.Allowance(o, p) - Spent(t, sender, call, o, p)
  {
  }

  // ---- Runs ----

  datatype Totals = Totals(minted: nat, burned: nat)

  function Run(t: Token, calls: seq<(Address, Call)>): Token {
    if calls == [] then t
    else var n := |calls| - 1; After(Run(t, calls[..n]), calls[n].0, calls[n].1)
  }

  function RunTotals(t: Token, calls: seq<(Address, Call)>): Totals {
    if calls == [] then Totals(0, 0)
    else
      var n := |calls| - 1;
      var mid, before := Run(t, calls[..n]), RunTotals(t, calls[..n]);
      Totals(before.minted + Minted(mid, calls[n].0, calls[n].1), before.burned + Burned(mid, calls[n].0, calls[n].1))
  }

  /** Over every run from a new token: balances add up to the supply, which is what was minted less what
      was burned. */
  lemma {:induction false} RunKeepsSum(calls: seq<(Address, Call)>)
    ensures var t, totals := Run(Token(map[], map[], 0), calls), RunTotals(Token(map[], map[], 0), calls);
      AddsUp(t) && t.totalSupply + totals.burned == totals.minted
  {
    if calls != [] {
      var n := |calls| - 1;
      RunKeepsSum(calls[..n]);
      InvokeKeepsSum(Run(Token(map[], map[], 0), calls[..n]), calls[n].0, calls[n].1);
    }
  }

  /** What a spender takes from an owner over a run. */
  function TakenBy(t: Token, calls: seq<(Address, Call)>, o: Address, p: Address): nat {
    if calls == [] then 0
    else
      var n := |calls| - 1;
      var mid := Run(t, calls[..n]);
      TakenBy(t, calls[..n], o, p)
      + Part(Invoke(mid, calls[n].0, calls[n].1).Some?, Spent(mid, calls[n].0, calls[n].1, o, p))
  }

  lemma {:induction false} RunAddsUp(t: Token, calls: seq<(Address, Call)>)
    requires AddsUp(t)
    ensures AddsUp(Run(t, calls))
  {
    if calls != [] {
      var n := |calls| - 1;
      RunAddsUp(t, calls[..n]);
      InvokeKeepsSum(Run(t, calls[..n]), calls[n].0, calls[n].1);
    }
  }

  /** Over every run in which an owner is silent, whatever everyone else does, what a spender takes from the owner
      comes out of the allowance it was given. */
  lemma {:induction false} SilentOwnerIsSafe(t: Token, calls: seq<(Address, Call)>, o: Address, p: Address)
    requires AddsUp(t) && t.Allowance(o, p) != MAX_UINT256
    requires forall i :: 0 <= i < |calls| ==> calls[i].0 != o
    ensures Run(t, calls).Allowance(o, p) + TakenBy(t, calls, o, p) == t.Allowance(o, p)
  {
    if calls != [] {
      var n := |calls| - 1;
      var mid := Run(t, calls[..n]);
      SilentOwnerIsSafe(t, calls[..n], o, p);
      RunAddsUp(t, calls[..n]);
      if Invoke(mid, calls[n].0, calls[n].1).Some? { InvokeExact(mid, calls[n].0, calls[n].1); }
      hide Invoke, AddsUp;
    }
  }

  // ---- The contract object ----

  class ERC20 {
    var balances: map<Address, uint256>
    var allowances: map<(Address, Address), uint256>
    var totalSupply: uint256

    function View(): Token
      reads this
    {
      Token(balances, allowances, totalSupply)
    }

    /** An internal function that goes through leaves what its specification says; one that reverts has
        written nothing yet. */
    ghost predicate Did(ok: bool, was: Token, spec: Option<Token>)
      reads this
    {
      (ok <==> spec.Some?) && View() == if ok then spec.value else was
    }

    constructor ()
      ensures View() == Token(map[], map[], 0) && AddsUp(View())
    {
      balances := map[];
      allowances := map[];
      totalSupply := 0;
    }

    method DoTransfer(from: Address, to: Address, amount: uint256) returns (ok: bool)
      modifies this
      ensures Did(ok, old(View()), TransferOf(old(View()), from, to, amount))
    {
      if from == ZERO_ADDRESS || to == ZERO_ADDRESS {
        return false;
      }
      var fromBalance := View().BalanceOf(from);
      if fromBalance < amount {
        return false;
      }
      balances := balances[from := Wrap256(fromBalance - amount)];
      balances := balances[to := Wrap256(View().BalanceOf(to) + amount)];
      ok := true;
    }

    method DoMint(account: Address, amount: uint256) returns (ok: bool)
      modifies this
      ensures Did(ok, old(View()), MintOf(old(View()), account, amount))
    {
      if account == ZERO_ADDRESS || totalSupply + amount > MAX_UINT256 {
        return false;
      }
      totalSupply := totalSupply + amount;
      balances := balances[account := Wrap256(View().BalanceOf(account) + amount)];
      ok := true;
    }

    method DoBurn(account: Address, amount: uint256) returns (ok: bool)
      modifies this
      ensures Did(ok, old(View()), BurnOf(old(View()), account, amount))
    {
      if account == ZERO_ADDRESS {
        return false;
      }
      var accountBalance := View().BalanceOf(account);
      if accountBalance < amount {
        return false;
      }
      balances := balances[account := Wrap256(accountBalance - amount)];
      totalSupply := Wrap256(totalSupply - amount);
      ok := true;
    }

    method DoApprove(owner: Address, spender: Address, amount: uint256) returns (ok: bool)
      modifies this
      ensures Did(ok, old(View()), ApproveOf(old(View()), owner, spender, amount))
    {
      if owner == ZERO_ADDRESS || spender == ZERO_ADDRESS {
        return false;
      }
      allowances := allowances[(owner, spender) := amount];
      ok := true;
    }

    method SpendAllowance(owner: Address, spender: Address, amount: uint256) returns (ok: bool)
      modifies this
      ensures Did(ok, old(View()), SpendOf(old(View()), owner, spender, amount))
    {
      var currentAllowance := View().Allowance(owner, spender);
      ok := true;
      if currentAllowance != MAX_UINT256 {
        if currentAllowance < amount {
          return false;
        }
        ok := DoApprove(owner, spender, Wrap256(currentAllowance - amount));
      }
    }

    /** An external call, all or nothing: whatever was written before a revert is undone. */
    method Execute(sender: Address, call: Call) returns (ok: bool)
      modifies this
      ensures ok <==> Invoke(old(View()), sender, call).Some?
      ensures View() == After(old(View()), sender, call)
      ensures old(AddsUp(View())) ==> AddsUp(View())
    {
      ghost var was := View();
      var savedBalances, savedAllowances, savedSupply := balances, allowances, totalSupply;
      match call {
        case Transfer(to, amount) => ok := DoTransfer(sender, to, amount);
        case Approve(spender, amount) => ok := DoApprove(sender, spender, amount);
        case TransferFrom(from, to, amount) =>
          ok := SpendAllowance(from, sender, amount);
          if ok {
            ok := DoTransfer(from, to, amount);
          }
        case IncreaseAllowance(spender, added) =>
          var current := View().Allowance(sender, spender);
          ok := current + added <= MAX_UINT256;
          if ok {
            ok := DoApprove(sender, spender, current + added);
          }
        case DecreaseAllowance(spender, subtracted) =>
          var current := View().Allowance(sender, spender);
          ok := subtracted <= current;
          if ok {
            ok := DoApprove(sender, spender, Wrap256(current - subtracted));
          }
        case Mint(to, amount) => ok := DoMint(to, amount);
        case Burn(amount) => ok := DoBurn(sender, amount);
        case BurnFrom(account, amount) =>
          ok := SpendAllowance(account, sender, amount);
          if ok {
            ok := DoBurn(account, amount);
          }
      }
      if !ok {
        balances, allowances, totalSupply := savedBalances, savedAllowances, savedSupply;
      }
      if AddsUp(was) { InvokeKeepsSum(was, sender, call); }
    }
  }
}
