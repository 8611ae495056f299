/** The contract object of the organisation's token: its fields, its loops, and the rollback of what a
    reverted call had already written. */
module MyDappContract {
  import opened Common
  import opened Erc20
  import opened MyDapp

  class MyDappToken {
    var stakeholderTypes: seq<bytes>
    var stakeholderTypeRegistered: bool
    var vestingPeriods: seq<uint256>
    var vestingPeriod: map<bytes, uint256>
    var tokenAmount: map<bytes, uint256>
    var members: seq<Member>
    var memberAlreadyRegistered: bool
    var addrList: seq<Address>
    var addrVestingPeriod: map<Address, uint256>
    var whitelistStatus: map<Address, bool>
    var addrStakeholderType: map<Address, bytes>
    var vestingStartTime: map<Address, uint256>
    var vestingStopTime: map<Address, uint256>
    var vestingDuration: map<Address, uint256>
    var adminAddress: Address
    const token: ERC20
    ghost var burned: nat

    ghost function View(): Registry
      reads this, token
    {
      Registry(stakeholderTypes, stakeholderTypeRegistered, vestingPeriods, vestingPeriod, tokenAmount, members,
               memberAlreadyRegistered, addrList, addrVestingPeriod, whitelistStatus, addrStakeholderType,
               vestingStartTime, vestingStopTime, vestingDuration, adminAddress, token.View(), burned)
    }

    ghost predicate Valid()
      reads this, token
    {
      RegistryInv(View())
    }

    /** A call that goes through leaves what its specification says; one that reverts leaves everything. */
    ghost predicate Did(ok: bool, was: Registry, spec: Option<Registry>)
      reads this, token
    {
      (ok <==> spec.Some?) && View() == if ok then spec.value else was
    }

    constructor (sender: Address)
      ensures Valid() && View() == Empty(sender) && fresh(token)
    {
      stakeholderTypes, stakeholderTypeRegistered, vestingPeriods := [], false, [];
      vestingPeriod, tokenAmount := map[], map[];
      members, memberAlreadyRegistered, addrList := [], false, [];
      addrVestingPeriod, whitelistStatus, addrStakeholderType := map[], map[], map[];
      vestingStartTime, vestingStopTime, vestingDuration := map[], map[], map[];
      adminAddress := sender;
      token := new ERC20();
      burned := 0;
    }

    /** The search of the source: it raises the flag when the type is found. */
    method MarkRegisteredType(ty: bytes)
      modifies `stakeholderTypeRegistered
      ensures stakeholderTypeRegistered <==> old(stakeholderTypeRegistered) || ty in stakeholderTypes
    {
      for i := 0 to |stakeholderTypes|
        invariant ty !in stakeholderTypes[..i] && stakeholderTypeRegistered == old(stakeholderTypeRegistered)
      {
        if ty == stakeholderTypes[i] {
          stakeholderTypeRegistered := true;
          break;
        }
      }
    }

    method AppendType(ty: bytes, period: uint256, amount: uint256)
      modifies `stakeholderTypes, `vestingPeriods, `vestingPeriod, `tokenAmount
      ensures View() == WithType(old(View()), ty, period, amount)
    {
      stakeholderTypes := stakeholderTypes + [ty];
      vestingPeriods := vestingPeriods + [period];
      vestingPeriod := vestingPeriod[ty := period];
      tokenAmount := tokenAmount[ty := amount];
    }

    method SetMembershipStatus(sender: Address, ty: bytes, period: uint256, amount: uint256) returns (ok: bool)
      modifies this
      ensures Did(ok, old(View()), MyDapp.SetMembershipStatus(old(View()), sender, ty, period, amount))
    {
      hide WithType;
      var saved := stakeholderTypeRegistered;
      MarkRegisteredType(ty);
      if stakeholderTypeRegistered || sender != adminAddress {
        stakeholderTypeRegistered := saved; // the revert undoes the flag
        return false;
      }
      AppendType(ty, period, amount);
      ok := true;
    }

    /** Whether the search goes through, and what it finds. */
    method IsStakeholderTypeValid(ty: bytes) returns (reverted: bool, isValid: bool)
      ensures CheckType(stakeholderTypes, ty) == if reverted then None else Some(isValid)
    {
      reverted, isValid := false, false;
      for i := 0 to |stakeholderTypes|
        invariant CheckType(stakeholderTypes, ty) == CheckType(stakeholderTypes[i..], ty)
      {
        assert stakeholderTypes[i..][1..] == stakeholderTypes[i + 1..];
        if |ty| != |stakeholderTypes[i]| {
          return true, false;
        }
        if ty == stakeholderTypes[i] {
          return false, true;
        }
      }
    }

    method MarkRegisteredMember(addr: Address)
      modifies `memberAlreadyRegistered
      ensures memberAlreadyRegistered <==> old(memberAlreadyRegistered) || addr in addrList
    {
      for i := 0 to |addrList|
        invariant addr !in addrList[..i]
      {
        if addr == addrList[i] {
          memberAlreadyRegistered := true;
          break;
        }
      }
    }

    method SetVesting(addr: Address, ty: bytes, now: uint256)
      requires now + YEAR * View().PeriodOf(ty) <= MAX_UINT256
      modifies `vestingStartTime, `vestingDuration, `vestingStopTime
      ensures View() == Vesting(old(View()), addr, ty, now)
    {
      var period := if ty in vestingPeriod then vestingPeriod[ty] else 0;
      var duration: uint256 := YEAR * period;
      var stop: uint256 := now + duration;
      vestingStartTime := vestingStartTime[addr := now];
      vestingDuration := vestingDuration[addr := duration];
      vestingStopTime := vestingStopTime[addr := stop];
    }

    method SetProfileAndMint(addr: Address, ty: bytes) returns (ok: bool)
      modifies `addrVestingPeriod, `addrStakeholderType, `whitelistStatus, token
      ensures Did(ok, old(View()), Funded(old(View()), addr, ty))
    {
      hide MintOf;
      var savedPeriod, savedType, savedStatus := addrVestingPeriod, addrStakeholderType, whitelistStatus;
      var period := if ty in vestingPeriod then vestingPeriod[ty] else 0;
      var amount := if ty in tokenAmount then tokenAmount[ty] else 0;
      addrVestingPeriod := addrVestingPeriod[addr := period];
      addrStakeholderType := addrStakeholderType[addr := ty];
      whitelistStatus := whitelistStatus[addr := false];
      ok := token.DoMint(addr, amount);
      if !ok {
        addrVestingPeriod, addrStakeholderType, whitelistStatus := savedPeriod, savedType, savedStatus;
      }
    }

    method Append(addr: Address, ty: bytes)
      requires !memberAlreadyRegistered
      modifies `members, `addrList, `memberAlreadyRegistered
      ensures View() == Listed(old(View()), addr, ty)
    {
      members := members + [Member(ty, addr, false)];
      addrList := addrList + [addr];
      memberAlreadyRegistered := false;
    }

    /** The overflow of the vesting times, which reverts the whole registration, is looked for first. */
    method AddMember(addr: Address, ty: bytes, now: uint256) returns (ok: bool)
      requires !memberAlreadyRegistered
      modifies this, token
      ensures Did(ok, old(View()), Joined(old(View()), addr, ty, now))
    {
      ghost var funded := Funded(View(), addr, ty);
      assert funded.Some? ==> funded.value.PeriodOf(ty) == View().PeriodOf(ty);
      hide Funded, Vesting, Listed;
      if now + YEAR * (if ty in vestingPeriod then vestingPeriod[ty] else 0) > MAX_UINT256 {
        return false;
      }
      ok := SetProfileAndMint(addr, ty);
      if ok {
        SetVesting(addr, ty, now);
        Append(addr, ty);
      }
    }

    method RegisterMember(sender: Address, addr: Address, ty: bytes, now: uint256) returns (ok: bool)
      requires !memberAlreadyRegistered
      modifies this, token
      ensures Did(ok, old(View()), MyDapp.RegisterMember(old(View()), sender, addr, ty, now))
    {
      hide Joined, CheckType;
      if sender != adminAddress {
        return false;
      }
      var reverted, isValid := IsStakeholderTypeValid(ty);
      if reverted || !isValid {
        return false;
      }
      MarkRegisteredMember(addr);
      if memberAlreadyRegistered {
        memberAlreadyRegistered := false; // the revert undoes the flag
        return false;
      }
      ok := AddMember(addr, ty, now);
    }

    method WhitelistStakeholders(sender: Address, ty: bytes) returns (ok: bool)
      requires |addrList| == |members|
      modifies this
      ensures Did(ok, old(View()), MyDapp.WhitelistStakeholders(old(View()), sender, ty))
    {
      hide CheckType;
      if sender != adminAddress {
        return false;
      }
      var reverted, isValid := IsStakeholderTypeValid(ty);
      if reverted || !isValid {
        return false;
      }
      ghost var was := View();
      for i := 0 to |addrList|
        invariant whitelistStatus == FlagStatus(was, ty, i) && members == FlagMembers(was, ty, i)
        invariant View() == was.(whitelistStatus := whitelistStatus, members := members)
      {
        var a := addrList[i];
        if (if a in addrStakeholderType then addrStakeholderType[a] else []) == ty {
          whitelistStatus := whitelistStatus[a := true];
          members := members[i := members[i].(whitelisted := true)];
        }
      }
      ok := true;
    }

    /** The two calls on the token behind a withdrawal, all or nothing. */
    method MoveOwn(sender: Address, receiver: Address, value: uint256) returns (ok: bool)
      modifies token
      ensures var spec := WithdrawnFrom(old(token.View()), sender, receiver, value);
        (ok <==> spec.Some?) && token.View() == if ok then spec.value else old(token.View())
    {
      hide Invoke;
      var balances, allowances, totalSupply := token.balances, token.allowances, token.totalSupply;
      ok := token.Execute(sender, Approve(sender, value));
      if ok {
        ok := token.Execute(sender, TransferFrom(sender, receiver, value));
      }
      if !ok {
        token.balances, token.allowances, token.totalSupply := balances, allowances, totalSupply;
      }
    }

    method TransferTokens(sender: Address, receiver: Address, value: uint256, now: uint256) returns (ok: bool)
      modifies this, token
      ensures Did(ok, old(View()), MyDapp.TransferTokens(old(View()), sender, receiver, value, now))
    {
      hide WithdrawnFrom;
      var saved := whitelistStatus;
      if sender != adminAddress {
        if now < (if sender in vestingStopTime then vestingStopTime[sender] else 0) {
          return false;
        }
        // the condition is an assignment: its value is false, so the revert behind it is never reached
        whitelistStatus := whitelistStatus[sender := false];
      }
      ok := value <= token.View().BalanceOf(sender);
      if ok {
        ok := MoveOwn(sender, receiver, value);
      }
      if !ok {
        whitelistStatus := saved;
      }
    }

    /** The public functions inherited from the token; minting is not one of them. */
    method CallToken(sender: Address, call: Call) returns (ok: bool)
      requires !call.Mint?
      modifies this, token
      ensures Did(ok, old(View()), TokenCall(old(View()), sender, call))
    {
      hide Invoke;
      burned := burned + Burned(token.View(), sender, call);
      ok := token.Execute(sender, call);
    }

    /** Any transaction sent to the contract keeps the registry invariant. */
    method Serve(sender: Address, now: uint256, q: Request) returns (ok: bool)
      requires Valid() && !(q.OnToken? && q.call.Mint?)
      modifies this, token
      ensures Valid() && Did(ok, old(View()), MyDapp.Serve(old(View()), sender, now, q))
    {
      ghost var was := View();
      assert |addrList| == |members| && !memberAlreadyRegistered;
      hide RegistryInv;
      match q {
        case SetMembership(ty, period, amount) => ok := SetMembershipStatus(sender, ty, period, amount);
        case Register(addr, ty) => ok := RegisterMember(sender, addr, ty, now);
        case Whitelist(ty) => ok := WhitelistStakeholders(sender, ty);
        case Withdraw(receiver, value) => ok := TransferTokens(sender, receiver, value, now);
        case OnToken(call) => ok := CallToken(sender, call);
      }
      if ok { ServeKeeps(was, sender, now, q); }
    }
  }
}
