/** What each request to the registry needs and does, and what vesting means over whole runs. */
module MyDappEffects {
  import opened Common
  import opened Erc20
  import opened MyDapp

  const SECONDS_PER_YEAR: nat := 31536000

  /** A type can be used exactly when no type registered before it has another length. */
  predicate Usable(types: seq<bytes>, ty: bytes) {
    exists i :: 0 <= i < |types| && types[i] == ty && forall j :: 0 <= j < i ==> |types[j]| == |ty|
  }

  // ---- When a request goes through ----

  predicate Admitted(r: Registry, sender: Address, now: uint256, q: Request) {
    match q
    case SetMembership(ty, _, _) => sender == r.adminAddress && ty !in r.stakeholderTypes
    case Register(addr, ty) =>
      && sender == r.adminAddress && addr != ZERO_ADDRESS && addr !in r.addrList && Usable(r.stakeholderTypes, ty)
      && r.token.totalSupply + r.AmountOf(ty) <= MAX_UINT256
      && now + SECONDS_PER_YEAR * r.PeriodOf(ty) <= MAX_UINT256
    case Whitelist(ty) => sender == r.adminAddress && Usable(r.stakeholderTypes, ty)
    case Withdraw(receiver, value) =>
      && (sender == r.adminAddress || r.StopOf(sender) <= now)
      && value <= r.token.BalanceOf(sender) && sender != ZERO_ADDRESS && receiver != ZERO_ADDRESS
    case OnToken(call) => !call.Mint? && Allowed(r.token, sender, call)
  }

  /** On a reachable registry a request goes through exactly when it is admitted. */
  lemma ServeSucceedsIff(r: Registry, sender: Address, now: uint256, q: Request)
    requires RegistryInv(r)
    ensures Serve(r, sender, now, q).Some? <==> Admitted(r, sender, now, q)
  {
    hide Allotted, AddsUp, Invoke;
    match q
    case SetMembership(_, _, _) =>
    case Register(addr, ty) => TypePassesIff(r.stakeholderTypes, ty);
    case Whitelist(ty) => TypePassesIff(r.stakeholderTypes, ty);
    case Withdraw(receiver, value) => WithdrawSucceedsIff(r, sender, receiver, value, now);
    case OnToken(call) => InvokeSucceedsIff(r.token, sender, call);
  }

  // ---- What it does ----

  /** A new type gets its period and amount, and no other type or member changes. */
  lemma SetMembershipExact(r: Registry, sender: Address, ty: bytes, period: uint256, amount: uint256, other: bytes)
    requires SetMembershipStatus(r, sender, ty, period, amount).Some?
    ensures var r' := SetMembershipStatus(r, sender, ty, period, amount).value;
      && r'.stakeholderTypes == r.stakeholderTypes + [ty] && r'.vestingPeriods == r.vestingPeriods + [period]
      && r'.PeriodOf(other) == (if other == ty then period else r.PeriodOf(other))
      && r'.AmountOf(other) == (if other == ty then amount else r.AmountOf(other))
      && r' == r.(stakeholderTypes := r'.stakeholderTypes, vestingPeriods := r'.vestingPeriods,
                  vestingPeriod := r'.vestingPeriod, tokenAmount := r'.tokenAmount)
  {
  }

  /** The tokens a member gets, the type, and the three vesting times, counted from the registration. */
  predicate Enrolled(r: Registry, r': Registry, addr: Address, ty: bytes, now: uint256) {
    && r'.token.BalanceOf(addr) == r.token.BalanceOf(addr) + r.AmountOf(ty)
    && r'.TypeOf(addr) == ty && !r'.Whitelisted(addr)
    && addr in r'.vestingStartTime && r'.vestingStartTime[addr] == now
    && addr in r'.vestingDuration && r'.vestingDuration[addr] == SECONDS_PER_YEAR * r.PeriodOf(ty)
    && r'.StopOf(addr) == now + SECONDS_PER_YEAR * r.PeriodOf(ty)
  }

  /** Nothing about an address changes. */
  predicate SameFor(r: Registry, r': Registry, a: Address) {
    && r'.token.BalanceOf(a) == r.token.BalanceOf(a) && r'.TypeOf(a) == r.TypeOf(a)
    && (r'.Whitelisted(a) <==> r.Whitelisted(a)) && r'.StopOf(a) == r.StopOf(a)
    && (a in r'.vestingStartTime <==> a in r.vestingStartTime)
    && (a in r.vestingStartTime ==> r'.vestingStartTime[a] == r.vestingStartTime[a])
    && (a in r'.vestingDuration <==> a in r.vestingDuration)
    && (a in r.vestingDuration ==> r'.vestingDuration[a] == r.vestingDuration[a])
  }

  lemma RegisterEnrols(r: Registry, sender: Address, addr: Address, ty: bytes, now: uint256, a: Address)
    requires AddsUp(r.token) && RegisterMember(r, sender, addr, ty, now).Some?
    ensures var r' := RegisterMember(r, sender, addr, ty, now).value;
      && (if a == addr then Enrolled(r, r', addr, ty, now) else SameFor(r, r', a))
      && r'.token.totalSupply == r.token.totalSupply + r.AmountOf(ty) && r'.token.allowances == r.token.allowances
  {
    hide AddsUp, MintOf, CheckType;
    MintExact(r.token, addr, r.AmountOf(ty));
  }

  lemma RegisterLists(r: Registry, sender: Address, addr: Address, ty: bytes, now: uint256)
    requires RegisterMember(r, sender, addr, ty, now).Some?
    ensures var r' := RegisterMember(r, sender, addr, ty, now).value;
      && r'.addrList == r.addrList + [addr] && r'.members == r.members + [Member(ty, addr, false)]
      && r'.stakeholderTypes == r.stakeholderTypes && r'.vestingPeriod == r.vestingPeriod
      && r'.tokenAmount == r.tokenAmount && r'.adminAddress == r.adminAddress
  {
  }

  /** A registration enrols the address, appends it to both lists, and leaves everyone else alone. */
  lemma RegisterExact(r: Registry, sender: Address, addr: Address, ty: bytes, now: uint256)
    requires AddsUp(r.token) && RegisterMember(r, sender, addr, ty, now).Some?
    ensures var r' := RegisterMember(r, sender, addr, ty, now).value;
      && Enrolled(r, r', addr, ty, now) && (forall a: Address :: a != addr ==> SameFor(r, r', a))
      && r'.addrList == r.addrList + [addr] && r'.members == r.members + [Member(ty, addr, false)]
      && r'.token.totalSupply == r.token.totalSupply + r.AmountOf(ty) && r'.token.allowances == r.token.allowances
      && r'.stakeholderTypes == r.stakeholderTypes && r'.vestingPeriod == r.vestingPeriod
      && r'.tokenAmount == r.tokenAmount && r'.adminAddress == r.adminAddress
  {
    RegisterLists(r, sender, addr, ty, now);
    hide AddsUp, RegisterMember, Enrolled, SameFor;
    forall a: Address { RegisterEnrols(r, sender, addr, ty, now, a); }
    RegisterEnrols(r, sender, addr, ty, now, addr);
  }

  lemma {:induction false} StrangerNotFlagged(r: Registry, ty: bytes, n: nat, a: Address)
    requires n <= |r.addrList| && a !in r.addrList
    ensures var m := FlagStatus(r, ty, n); (a in m && m[a]) <==> r.Whitelisted(a)
  {
    if n > 0 { StrangerNotFlagged(r, ty, n - 1, a); }
  }

  /** Whitelisting flags nobody outside the registry and changes nothing but flags. */
  lemma WhitelistOnlyFlags(r: Registry, sender: Address, ty: bytes, a: Address)
    requires |r.addrList| == |r.members| && WhitelistStakeholders(r, sender, ty).Some?
    ensures var r' := WhitelistStakeholders(r, sender, ty).value;
      && (a !in r.addrList ==> (r'.Whitelisted(a) <==> r.Whitelisted(a)))
      && r' == r.(whitelistStatus := r'.whitelistStatus, members := r'.members)
  {
    if a !in r.addrList { StrangerNotFlagged(r, ty, |r.addrList|, a); }
  }

  // ---- Vesting over whole runs ----

  lemma ServeKeepsAdmin(r: Registry, sender: Address, now: uint256, q: Request)
    requires |r.addrList| == |r.members| && Serve(r, sender, now, q).Some?
    ensures Serve(r, sender, now, q).value.adminAddress == r.adminAddress
  {
  }

  /** No request changes the vesting of a registered address. */
  lemma ServeKeepsVesting(r: Registry, sender: Address, now: uint256, q: Request, a: Address)
    requires |r.addrList| == |r.members| && a in r.addrList && Serve(r, sender, now, q).Some?
    ensures var r' := Serve(r, sender, now, q).value;
      a in r'.addrList && r'.StopOf(a) == r.StopOf(a)
  {
  }

  /** The registration at one point of a run, if it went through there. */
  ghost predicate RegisteredAt(admin: Address, txs: seq<Transaction>, i: nat, addr: Address, ty: bytes)
    requires i < |txs|
  {
    var r := Committed(admin, txs[..i]);
    txs[i].request == Register(addr, ty) && Serve(r, txs[i].sender, txs[i].now, txs[i].request).Some?
  }

  /** The end of the vesting, from the period of the type when the member was registered. */
  ghost function VestedFrom(admin: Address, txs: seq<Transaction>, i: nat, ty: bytes): nat
    requires i < |txs|
  {
    txs[i].now + SECONDS_PER_YEAR * Committed(admin, txs[..i]).PeriodOf(ty)
  }

  lemma LastStep(admin: Address, txs: seq<Transaction>)
    requires txs != []
    ensures var n := |txs| - 1; var r := Committed(admin, txs[..n]);
      && RegistryInv(r) && |r.addrList| == |r.members|
      && var served := Serve(r, txs[n].sender, txs[n].now, txs[n].request);
         Committed(admin, txs) == if served.Some? then served.value else r
  {
  }

  lemma EarlierVesting(admin: Address, txs: seq<Transaction>, i: nat, addr: Address, ty: bytes)
    requires i < |txs| - 1
    ensures var earlier := txs[..|txs| - 1];
      && (RegisteredAt(admin, txs, i, addr, ty) <==> RegisteredAt(admin, earlier, i, addr, ty))
      && VestedFrom(admin, txs, i, ty) == VestedFrom(admin, earlier, i, ty)
  {
    hide Serve, Committed;
    assert txs[..|txs| - 1][..i] == txs[..i];
  }

  ghost predicate Vests(admin: Address, txs: seq<Transaction>, addr: Address, until: nat) {
    var r := Committed(admin, txs);
    addr in r.addrList && r.StopOf(addr) == until
  }

  lemma JustVested(admin: Address, txs: seq<Transaction>, addr: Address, ty: bytes)
    requires txs != [] && RegisteredAt(admin, txs, |txs| - 1, addr, ty)
    ensures Vests(admin, txs, addr, VestedFrom(admin, txs, |txs| - 1, ty))
  {
    var n := |txs| - 1;
    LastStep(admin, txs);
    hide RegistryInv, Serve, Committed;
    RegisterVests(Committed(admin, txs[..n]), txs[n].sender, addr, ty, txs[n].now);
  }

  lemma VestsStep(admin: Address, txs: seq<Transaction>, addr: Address, until: nat)
    requires txs != [] && Vests(admin, txs[..|txs| - 1], addr, until)
    ensures Vests(admin, txs, addr, until)
  {
    var n := |txs| - 1;
    var before := Committed(admin, txs[..n]);
    LastStep(admin, txs);
    hide RegistryInv, Serve, Committed;
    if Serve(before, txs[n].sender, txs[n].now, txs[n].request).Some? {
      ServeKeepsVesting(before, txs[n].sender, txs[n].now, txs[n].request, addr);
    }
  }

  lemma {:induction false} StaysVested(admin: Address, txs: seq<Transaction>, i: nat, addr: Address, ty: bytes)
    requires i < |txs| && RegisteredAt(admin, txs, i, addr, ty)
    ensures Vests(admin, txs, addr, VestedFrom(admin, txs, i, ty))
  {
    hide RegisteredAt, VestedFrom, Vests;
    if i == |txs| - 1 {
      JustVested(admin, txs, addr, ty);
    } else {
      EarlierVesting(admin, txs, i, addr, ty);
      StaysVested(admin, txs[..|txs| - 1], i, addr, ty);
      VestsStep(admin, txs, addr, VestedFrom(admin, txs, i, ty));
    }
  }

  lemma InStep(r: Registry)
    requires RegistryInv(r)
    ensures |r.addrList| == |r.members| && AddsUp(r.token)
  {
  }

  lemma RegisterVests(r: Registry, sender: Address, addr: Address, ty: bytes, now: uint256)
    requires RegistryInv(r) && |r.addrList| == |r.members| && Serve(r, sender, now, Register(addr, ty)).Some?
    ensures var r' := Serve(r, sender, now, Register(addr, ty)).value;
      addr in r'.addrList && r'.StopOf(addr) == now + SECONDS_PER_YEAR * r.PeriodOf(ty)
  {
  }

  lemma {:induction false} AdminStays(admin: Address, txs: seq<Transaction>)
    ensures Committed(admin, txs).adminAddress == admin
  {
    if txs != [] {
      var n := |txs| - 1;
      var r := Committed(admin, txs[..n]);
      AdminStays(admin, txs[..n]);
      InStep(r);
      hide Serve, RegistryInv;
      if Serve(r, txs[n].sender, txs[n].now, txs[n].request).Some? {
        ServeKeepsAdmin(r, txs[n].sender, txs[n].now, txs[n].request);
      }
    }
  }

  /** Whatever was committed since its registration, a member withdraws exactly from the day the vesting period of
      its type, counted from the registration, is over. */
  lemma MemberWithdrawsIffVested(admin: Address, txs: seq<Transaction>, i: nat, addr: Address, ty: bytes,
                                 receiver: Address, value: uint256, now: uint256)
    requires i < |txs| && RegisteredAt(admin, txs, i, addr, ty) && addr != admin && receiver != ZERO_ADDRESS
    requires value <= Committed(admin, txs).token.BalanceOf(addr)
    ensures TransferTokens(Committed(admin, txs), addr, receiver, value, now).Some? <==>
      VestedFrom(admin, txs, i, ty) <= now
  {
    StaysVested(admin, txs, i, addr, ty);
    AdminStays(admin, txs);
    NotZero(Committed(admin, txs[..i]), txs[i].sender, txs[i].now, addr, ty);
    WithdrawSucceedsIff(Committed(admin, txs), addr, receiver, value, now);
    hide TransferTokens, RegistryInv;
  }

  lemma NotZero(r: Registry, sender: Address, now: uint256, addr: Address, ty: bytes)
    requires |r.addrList| == |r.members| && Serve(r, sender, now, Register(addr, ty)).Some?
    ensures addr != ZERO_ADDRESS
  {
  }

  /** The token's own transfer does not ask about vesting: it depends on the balance alone, at any time. */
  lemma TransferIgnoresVesting(r: Registry, sender: Address, receiver: Address, value: uint256, now: uint256)
    requires RegistryInv(r)
    ensures Serve(r, sender, now, OnToken(Transfer(receiver, value))).Some? <==>
      value <= r.token.BalanceOf(sender) && sender != ZERO_ADDRESS && receiver != ZERO_ADDRESS
  {
  }
}
