/** The member registry of an organisation's token: stakeholder types, members, vesting and whitelisting. */
module MyDapp {
  import opened Common
  import opened Erc20

  /** Strings are byte strings; their hashes are compared, which is taken to compare the strings. */
  datatype Member = Member(stakeholderType: bytes, memberAddr: Address, whitelisted: bool)

  /** The state of the contract, with what was burned of the token so far beside it. */
  datatype Registry = Registry(
    stakeholderTypes: seq<bytes>,
    stakeholderTypeRegistered: bool,
    vestingPeriods: seq<uint256>,
    vestingPeriod: map<bytes, uint256>,
    tokenAmount: map<bytes, uint256>,
    members: seq<Member>,
    memberAlreadyRegistered: bool,
    addrList: seq<Address>,
    addrVestingPeriod: map<Address, uint256>,
    whitelistStatus: map<Address, bool>,
    addrStakeholderType: map<Address, bytes>,
    vestingStartTime: map<Address, uint256>,
    vestingStopTime: map<Address, uint256>,
    vestingDuration: map<Address, uint256>,
    adminAddress: Address,
    token: Token,
    burned: nat)
  {
    function PeriodOf(ty: bytes): uint256 { if ty in vestingPeriod then vestingPeriod[ty] else 0 }
    function AmountOf(ty: bytes): uint256 { if ty in tokenAmount then tokenAmount[ty] else 0 }
    function StopOf(a: Address): uint256 { if a in vestingStopTime then vestingStopTime[a] else 0 }
    function TypeOf(a: Address): bytes { if a in addrStakeholderType then addrStakeholderType[a] else [] }
    predicate Whitelisted(a: Address) { a in whitelistStatus && whitelistStatus[a] }
  }

  const YEAR: nat := 60 * 60 * 24 * 365

  // ---- Stakeholder types ----

  function WithType(r: Registry, ty: bytes, period: uint256, amount: uint256): Registry {
    r.(stakeholderTypes := r.stakeholderTypes + [ty],
       vestingPeriods := r.vestingPeriods + [period],
       vestingPeriod := r.vestingPeriod[ty := period],
       tokenAmount := r.tokenAmount[ty := amount])
  }

  function SetMembershipStatus(r: Registry, sender: Address, ty: bytes, period: uint256, amount: uint256)
    : Option<Registry>
  {
    if r.stakeholderTypeRegistered || ty in r.stakeholderTypes || sender != r.adminAddress then None
    else Some(WithType(r, ty, period, amount))
  }

  /** The search through the types reverts, here `None`, at the first one of another length. */
  function CheckType(types: seq<bytes>, ty: bytes): Option<bool> {
    if types == [] then Some(false)
    else if |ty| != |types[0]| then None
    else if ty == types[0] then Some(true)
    else CheckType(types[1..], ty)
  }

  /** A type passes exactly when it is registered and no type registered before it has another length. */
  lemma {:induction false} TypePassesIff(types: seq<bytes>, ty: bytes)
    ensures CheckType(types, ty) == Some(true) <==>
      exists i :: 0 <= i < |types| && types[i] == ty && forall j :: 0 <= j < i ==> |types[j]| == |ty|
    ensures CheckType(types, ty) == Some(false) <==>
      ty !in types && forall j :: 0 <= j < |types| ==> |types[j]| == |ty|
  {
    if types != [] {
      var rest := types[1..];
      TypePassesIff(rest, ty);
      assert forall i :: 0 <= i < |rest| ==> rest[i] == types[i + 1];
      if CheckType(types, ty) == Some(true) && types[0] != ty {
        var i :| 0 <= i < |rest| && rest[i] == ty && forall j :: 0 <= j < i ==> |rest[j]| == |ty|;
        assert types[i + 1] == ty;
        assert forall j :: 0 < j < i + 1 ==> types[j] == rest[j - 1];
      }
      if i :| 0 <= i < |types| && types[i] == ty && forall j :: 0 <= j < i ==> |types[j]| == |ty| {
        if i > 0 { assert rest[i - 1] == ty; }
      }
      if forall j :: 0 <= j < |types| ==> |types[j]| == |ty| {
        assert |types[0]| == |ty|;
      }
    }
  }

  // ---- Members ----

  /** The vesting times of a new member. */
  function Vesting(r: Registry, addr: Address, ty: bytes, now: uint256): Registry
    requires now + YEAR * r.PeriodOf(ty) <= MAX_UINT256
  {
    r.(vestingStartTime := r.vestingStartTime[addr := now],
       vestingDuration := r.vestingDuration[addr := YEAR * r.PeriodOf(ty)],
       vestingStopTime := r.vestingStopTime[addr := now + YEAR * r.PeriodOf(ty)])
  }

  function Listed(r: Registry, addr: Address, ty: bytes): Registry {
    r.(members := r.members + [Member(ty, addr, false)], addrList := r.addrList + [addr])
  }

  function Profiled(r: Registry, addr: Address, ty: bytes): Registry {
    r.(addrVestingPeriod := r.addrVestingPeriod[addr := r.PeriodOf(ty)],
       addrStakeholderType := r.addrStakeholderType[addr := ty],
       whitelistStatus := r.whitelistStatus[addr := false])
  }

  function Funded(r: Registry, addr: Address, ty: bytes): Option<Registry> {
    var minted := MintOf(r.token, addr, r.AmountOf(ty));
    if minted.None? then None else Some(Profiled(r, addr, ty).(token := minted.value))
  }

  /** The writes of a registration: they revert when minting does or when the vesting times overflow. */
  function Joined(r: Registry, addr: Address, ty: bytes, now: uint256): Option<Registry> {
    var funded := Funded(r, addr, ty);
    if funded.None? || now + YEAR * r.PeriodOf(ty) > MAX_UINT256 then None
    else Some(Listed(Vesting(funded.value, addr, ty, now), addr, ty))
  }

  function RegisterMember(r: Registry, sender: Address, addr: Address, ty: bytes, now: uint256): Option<Registry> {
    if sender != r.adminAddress || CheckType(r.stakeholderTypes, ty) != Some(true) then None
    else if r.memberAlreadyRegistered || addr in r.addrList then None
    else Joined(r, addr, ty, now)
  }

  /** The whitelist once the first `n` addresses have been looked at. */
  function FlagStatus(r: Registry, ty: bytes, n: nat): map<Address, bool>
    requires n <= |r.addrList|
  {
    if n == 0 then r.whitelistStatus
    else if r.TypeOf(r.addrList[n - 1]) == ty then FlagStatus(r, ty, n - 1)[r.addrList[n - 1] := true]
    else FlagStatus(r, ty, n - 1)
  }

  /** The members once the first `n` addresses have been looked at. */
  function FlagMembers(r: Registry, ty: bytes, n: nat): (ms: seq<Member>)
    requires n <= |r.addrList| == |r.members|
    ensures |ms| == |r.members|
  {
    if n == 0 then r.members
    else
      var ms := FlagMembers(r, ty, n - 1);
      if r.TypeOf(r.addrList[n - 1]) == ty then ms[n - 1 := ms[n - 1].(whitelisted := true)] else ms
  }

  function Flagged(r: Registry, ty: bytes): Registry
    requires |r.addrList| == |r.members|
  {
    r.(whitelistStatus := FlagStatus(r, ty, |r.addrList|), members := FlagMembers(r, ty, |r.addrList|))
  }

  function WhitelistStakeholders(r: Registry, sender: Address, ty: bytes): Option<Registry>
    requires |r.addrList| == |r.members|
  {
    if sender != r.adminAddress || CheckType(r.stakeholderTypes, ty) != Some(true) then None
    else Some(Flagged(r, ty))
  }

  /** Withdrawing approves the sender for its own tokens and moves them. */
  function WithdrawnFrom(t: Token, sender: Address, receiver: Address, value: uint256): Option<Token> {
    match Invoke(t, sender, Approve(sender, value))
    case None => None
    case Some(t1) => Invoke(t1, sender, TransferFrom(sender, receiver, value))
  }

  /** The whitelist test of the source assigns `false` to the flag instead of reading it. */
  function TransferTokens(r: Registry, sender: Address, receiver: Address, value: uint256, now: uint256)
    : Option<Registry>
  {
    var withdrawn := WithdrawnFrom(r.token, sender, receiver, value);
    if sender != r.adminAddress && now < r.StopOf(sender) then None
    else if r.token.BalanceOf(sender) < value || withdrawn.None? then None
    else Some(r.(token := withdrawn.value,
                 whitelistStatus := if sender == r.adminAddress then r.whitelistStatus
                                    else r.whitelistStatus[sender := false]))
  }

  /** The public functions of the token itself. */
  function TokenCall(r: Registry, sender: Address, call: Call): Option<Registry> {
    if call.Mint? || Invoke(r.token, sender, call).None? then None
    else Some(r.(token := After(r.token, sender, call), burned := r.burned + Burned(r.token, sender, call)))
  }

  datatype Request =
    | SetMembership(ty: bytes, period: uint256, amount: uint256)
    | Register(addr: Address, ty: bytes)
    | Whitelist(ty: bytes)
    | Withdraw(receiver: Address, value: uint256)
    | OnToken(call: Call)

  function Serve(r: Registry, sender: Address, now: uint256, q: Request): Option<Registry>
    requires |r.addrList| == |r.members|
  {
    match q
    case SetMembership(ty, period, amount) => SetMembershipStatus(r, sender, ty, period, amount)
    case Register(addr, ty) => RegisterMember(r, sender, addr, ty, now)
    case Whitelist(ty) => WhitelistStakeholders(r, sender, ty)
    case Withdraw(receiver, value) => TransferTokens(r, sender, receiver, value, now)
    case OnToken(call) => TokenCall(r, sender, call)
  }

  function Empty(admin: Address): Registry {
    Registry([], false, [], map[], map[], [], false, [], map[], map[], map[], map[], map[], map[], admin,
             Token(map[], map[], 0), 0)
  }

  // ---- The registry invariant ----

  predicate Distinct<T(==)>(xs: seq<T>) {
    forall i, j :: 0 <= i < j < |xs| ==> xs[i] != xs[j]
  }

  /** What registering the members has minted. */
  function Allotted(r: Registry, members: seq<Member>): nat {
    if members == [] then 0
    else Allotted(r, members[..|members| - 1]) + r.AmountOf(members[|members| - 1].stakeholderType)
  }

  predicate TypesInStep(r: Registry) {
    && !r.stakeholderTypeRegistered && Distinct(r.stakeholderTypes)
    && |r.vestingPeriods| == |r.stakeholderTypes|
    && forall i :: 0 <= i < |r.stakeholderTypes| ==> r.vestingPeriods[i] == r.PeriodOf(r.stakeholderTypes[i])
  }

  predicate MemberInStep(r: Registry, i: nat)
    requires i < |r.addrList| == |r.members|
  {
    && r.addrList[i] == r.members[i].memberAddr
    && r.members[i].stakeholderType in r.stakeholderTypes
    && r.TypeOf(r.addrList[i]) == r.members[i].stakeholderType
    && r.addrList[i] in r.addrVestingPeriod && r.addrList[i] in r.vestingStartTime
    && r.addrVestingPeriod[r.addrList[i]] == r.PeriodOf(r.members[i].stakeholderType)
    && r.StopOf(r.addrList[i]) == r.vestingStartTime[r.addrList[i]] + YEAR * r.PeriodOf(r.members[i].stakeholderType)
    && (r.Whitelisted(r.addrList[i]) ==> r.members[i].whitelisted)
  }

  predicate MembersInStep(r: Registry) {
    && !r.memberAlreadyRegistered && Distinct(r.addrList) && |r.members| == |r.addrList|
    && forall i :: 0 <= i < |r.addrList| ==> MemberInStep(r, i)
  }

  ghost predicate RegistryInv(r: Registry) {
    && TypesInStep(r) && MembersInStep(r) && AddsUp(r.token)
    && r.token.totalSupply + r.burned == Allotted(r, r.members)
  }

  lemma {:induction false} AllottedDepends(r: Registry, r': Registry, members: seq<Member>, others: seq<Member>)
    requires |members| == |others|
    requires forall i :: 0 <= i < |members| ==>
      members[i].stakeholderType == others[i].stakeholderType
      && r.AmountOf(members[i].stakeholderType) == r'.AmountOf(others[i].stakeholderType)
    ensures Allotted(r, members) == Allotted(r', others)
  {
    if members != [] {
      AllottedDepends(r, r', members[..|members| - 1], others[..|others| - 1]);
    }
  }

  lemma SetMembershipKeeps(r: Registry, sender: Address, ty: bytes, period: uint256, amount: uint256)
    requires RegistryInv(r) && SetMembershipStatus(r, sender, ty, period, amount).Some?
    ensures RegistryInv(SetMembershipStatus(r, sender, ty, period, amount).value)
  {
    var r' := SetMembershipStatus(r, sender, ty, period, amount).value;
    forall i | 0 <= i < |r.addrList| ensures MemberInStep(r', i) && r.members[i].stakeholderType != ty {
      assert MemberInStep(r, i);
    }
    AllottedDepends(r, r', r.members, r.members);
  }

  lemma OldMember(r: Registry, addr: Address, ty: bytes, now: uint256, i: nat)
    requires |r.addrList| == |r.members| && i < |r.addrList| && MemberInStep(r, i) && r.addrList[i] != addr
    requires Joined(r, addr, ty, now).Some?
    ensures i < |Joined(r, addr, ty, now).value.addrList| == |Joined(r, addr, ty, now).value.members|
    ensures MemberInStep(Joined(r, addr, ty, now).value, i)
  {
  }

  lemma NewMember(r: Registry, addr: Address, ty: bytes, now: uint256)
    requires |r.addrList| == |r.members| && ty in r.stakeholderTypes && Joined(r, addr, ty, now).Some?
    ensures var r' := Joined(r, addr, ty, now).value;
      r'.addrList == r.addrList + [addr] && |r'.members| == |r'.addrList| && MemberInStep(r', |r.addrList|)
      && r'.memberAlreadyRegistered == r.memberAlreadyRegistered
  {
  }

  lemma RegisterKeepsMembers(r: Registry, sender: Address, addr: Address, ty: bytes, now: uint256)
    requires MembersInStep(r) && RegisterMember(r, sender, addr, ty, now).Some?
    ensures MembersInStep(RegisterMember(r, sender, addr, ty, now).value)
  {
    var r' := RegisterMember(r, sender, addr, ty, now).value;
    TypePassesIff(r.stakeholderTypes, ty);
    hide Joined, CheckType, MemberInStep;
    NewMember(r, addr, ty, now);
    forall i | 0 <= i < |r.addrList| ensures MemberInStep(r', i) {
      OldMember(r, addr, ty, now, i);
    }
  }

  /** What a registration leaves alone, and what it appends. */
  lemma JoinedShape(r: Registry, addr: Address, ty: bytes, now: uint256)
    requires Joined(r, addr, ty, now).Some?
    ensures var r' := Joined(r, addr, ty, now).value;
      && (TypesInStep(r) <==> TypesInStep(r')) && r'.tokenAmount == r.tokenAmount && r'.burned == r.burned
      && MintOf(r.token, addr, r.AmountOf(ty)) == Some(r'.token)
      && |r'.members| == |r.members| + 1 && r'.members[..|r.members|] == r.members
      && r'.members[|r.members|] == Member(ty, addr, false)
  {
  }

  lemma RegisterKeeps(r: Registry, sender: Address, addr: Address, ty: bytes, now: uint256)
    requires RegistryInv(r) && RegisterMember(r, sender, addr, ty, now).Some?
    ensures RegistryInv(RegisterMember(r, sender, addr, ty, now).value)
  {
    var r' := RegisterMember(r, sender, addr, ty, now).value;
    RegisterKeepsMembers(r, sender, addr, ty, now);
    hide MintOf, AddsUp, TypesInStep, MembersInStep, CheckType, Joined;
    JoinedShape(r, addr, ty, now);
    MintExact(r.token, addr, r.AmountOf(ty));
    AllottedDepends(r, r', r.members, r.members);
  }

  lemma {:induction false} FlagMembersAt(r: Registry, ty: bytes, n: nat, i: nat)
    requires n <= |r.addrList| == |r.members| && i < |r.members|
    ensures FlagMembers(r, ty, n)[i]
         == r.members[i].(whitelisted := r.members[i].whitelisted || (i < n && r.TypeOf(r.addrList[i]) == ty))
  {
    if n > 0 { FlagMembersAt(r, ty, n - 1, i); }
  }

  lemma {:induction false} FlagStatusAt(r: Registry, ty: bytes, n: nat, i: nat)
    requires Distinct(r.addrList) && n <= |r.addrList| && i < |r.addrList|
    ensures var m, a := FlagStatus(r, ty, n), r.addrList[i];
      (a in m && m[a]) <==> r.Whitelisted(a) || (i < n && r.TypeOf(a) == ty)
  {
    if n > 0 {
      FlagStatusAt(r, ty, n - 1, i);
      assert i != n - 1 ==> r.addrList[i] != r.addrList[n - 1];
    }
  }

  /** Whitelisting a type flags exactly its members, on both sides alike. */
  lemma WhitelistExact(r: Registry, ty: bytes, i: nat)
    requires MembersInStep(r) && i < |r.members|
    ensures var r', now := Flagged(r, ty), r.members[i].stakeholderType == ty;
      && r'.members[i] == r.members[i].(whitelisted := r.members[i].whitelisted || now)
      && (r'.Whitelisted(r.addrList[i]) <==> r.Whitelisted(r.addrList[i]) || now)
  {
    assert MemberInStep(r, i);
    FlagMembersAt(r, ty, |r.addrList|, i);
    FlagStatusAt(r, ty, |r.addrList|, i);
  }

  lemma WhitelistKeeps(r: Registry, ty: bytes)
    requires RegistryInv(r)
    ensures RegistryInv(Flagged(r, ty))
  {
    var r' := Flagged(r, ty);
    forall i | 0 <= i < |r.addrList|
      ensures MemberInStep(r', i) && r'.members[i].stakeholderType == r.members[i].stakeholderType
    {
      assert MemberInStep(r, i);
      WhitelistExact(r, ty, i);
    }
    AllottedDepends(r, r', r.members, r'.members);
  }

  lemma WithdrawnAddsUp(t: Token, sender: Address, receiver: Address, value: uint256)
    requires AddsUp(t) && WithdrawnFrom(t, sender, receiver, value).Some?
    ensures var t' := WithdrawnFrom(t, sender, receiver, value).value; AddsUp(t') && t'.totalSupply == t.totalSupply
  {
    hide AddsUp, ApproveOf, SpendOf, TransferOf;
    InvokeKeepsSum(t, sender, Approve(sender, value));
    InvokeKeepsSum(After(t, sender, Approve(sender, value)), sender, TransferFrom(sender, receiver, value));
  }

  lemma WithdrawKeeps(r: Registry, sender: Address, receiver: Address, value: uint256, now: uint256)
    requires RegistryInv(r) && TransferTokens(r, sender, receiver, value, now).Some?
    ensures RegistryInv(TransferTokens(r, sender, receiver, value, now).value)
  {
    var r' := TransferTokens(r, sender, receiver, value, now).value;
    WithdrawnAddsUp(r.token, sender, receiver, value);
    hide WithdrawnFrom, AddsUp;
    forall i | 0 <= i < |r.addrList| ensures MemberInStep(r', i) {
      assert MemberInStep(r, i);
    }
    AllottedDepends(r, r', r.members, r.members);
  }

  lemma TokenCallKeeps(r: Registry, sender: Address, call: Call)
    requires RegistryInv(r) && TokenCall(r, sender, call).Some?
    ensures RegistryInv(TokenCall(r, sender, call).value)
  {
    var r' := TokenCall(r, sender, call).value;
    hide Invoke, AddsUp;
    InvokeKeepsSum(r.token, sender, call);
    forall i | 0 <= i < |r.addrList| ensures MemberInStep(r', i) {
      assert MemberInStep(r, i);
    }
    AllottedDepends(r, r', r.members, r.members);
  }

  lemma ServeKeeps(r: Registry, sender: Address, now: uint256, q: Request)
    requires RegistryInv(r) && Serve(r, sender, now, q).Some?
    ensures RegistryInv(Serve(r, sender, now, q).value)
  {
    hide RegistryInv;
    match q
    case SetMembership(ty, period, amount) => SetMembershipKeeps(r, sender, ty, period, amount);
    case Register(addr, ty) => RegisterKeeps(r, sender, addr, ty, now);
    case Whitelist(ty) => WhitelistKeeps(r, ty);
    case Withdraw(receiver, value) => WithdrawKeeps(r, sender, receiver, value, now);
    case OnToken(call) => TokenCallKeeps(r, sender, call);
  }

  datatype Transaction = Transaction(sender: Address, now: uint256, request: Request)

  /** The state after the committed transactions of a run; reverted ones change nothing. */
  ghost function Committed(admin: Address, txs: seq<Transaction>): (r: Registry)
    ensures RegistryInv(r)
  {
    if txs == [] then Empty(admin)
    else
      var n := |txs| - 1;
      var r := Committed(admin, txs[..n]);
      var served := Serve(r, txs[n].sender, txs[n].now, txs[n].request);
      if served.Some? then
        ServeKeeps(r, txs[n].sender, txs[n].now, txs[n].request);
        served.value
      else r
  }

  // ---- Withdrawals ----

  /** Withdrawing depends on vesting and the balance only; it is never refused for want of whitelisting, and
      it leaves the sender not whitelisted. */
  lemma WithdrawSucceedsIff(r: Registry, sender: Address, receiver: Address, value: uint256, now: uint256)
    ensures TransferTokens(r, sender, receiver, value, now).Some? <==>
      && (sender == r.adminAddress || r.StopOf(sender) <= now)
      && value <= r.token.BalanceOf(sender) && sender != ZERO_ADDRESS && receiver != ZERO_ADDRESS
    ensures TransferTokens(r, sender, receiver, value, now).Some? && sender != r.adminAddress ==>
      !TransferTokens(r, sender, receiver, value, now).value.Whitelisted(sender)
  {
  }

  /** A withdrawal, to oneself included, moves exactly the value; it uses up the leave the sender gave itself, and
      changes nothing else but the sender's flag. */
  lemma WithdrawExact(r: Registry, sender: Address, receiver: Address, value: uint256, now: uint256)
    requires AddsUp(r.token) && TransferTokens(r, sender, receiver, value, now).Some?
    ensures var r' := TransferTokens(r, sender, receiver, value, now).value;
      && (forall a: Address :: r'.token.BalanceOf(a)
            == r.token.BalanceOf(a) - Part(a == sender, value) + Part(a == receiver, value))
      && (forall o: Address, p: Address :: r'.token.Allowance(o, p)
            == if o != sender || p != sender then r.token.Allowance(o, p)
               else if value == MAX_UINT256 then value else 0)
      && r'.token.totalSupply == r.token.totalSupply
      && (forall a: Address :: r'.Whitelisted(a) <==> r.Whitelisted(a) && (a != sender || sender == r.adminAddress))
      && r' == r.(token := r'.token, whitelistStatus := r'.whitelistStatus)
  {
    hide AddsUp, Invoke;
    WithdrawnAddsUp(r.token, sender, receiver, value);
    var t1 := Invoke(r.token, sender, Approve(sender, value)).value;
    InvokeKeepsSum(r.token, sender, Approve(sender, value));
    InvokeExact(r.token, sender, Approve(sender, value));
    InvokeExact(t1, sender, TransferFrom(sender, receiver, value));
  }

  // ---- Reachable registries in which the contract does not do what it says ----

  function Served(r: Registry, tx: Transaction): Option<Registry>
    requires |r.addrList| == |r.members|
  {
    Serve(r, tx.sender, tx.now, tx.request)
  }

  lemma CommittedTwo(admin: Address, t1: Transaction, t2: Transaction, r1: Registry, r2: Registry)
    requires Served(Empty(admin), t1) == Some(r1) && |r1.addrList| == |r1.members| && Served(r1, t2) == Some(r2)
    ensures Committed(admin, [t1, t2]) == r2
  {
    hide Serve;
    var txs := [t1, t2];
    assert txs[..1] == [t1] && [t1][..0] == [];
    assert Committed(admin, []) == Empty(admin);
    assert Committed(admin, [t1]) == r1;
  }

  /** Once two types of different lengths are registered, no member of the second can ever be registered. */
  lemma RegisteredTypeUnusable(admin: Address, first: bytes, second: bytes, addr: Address, now: uint256)
    requires |first| != |second|
    ensures var r := Committed(admin, [Transaction(admin, now, SetMembership(first, 0, 5)),
                                       Transaction(admin, now, SetMembership(second, 0, 5))]);
      && r.stakeholderTypes == [first, second]
      && RegisterMember(r, admin, addr, second, now) == None && WhitelistStakeholders(r, admin, second) == None
  {
    var r1 := SetMembershipStatus(Empty(admin), admin, first, 0, 5).value;
    var r2 := SetMembershipStatus(r1, admin, second, 0, 5).value;
    CommittedTwo(admin, Transaction(admin, now, SetMembership(first, 0, 5)),
                 Transaction(admin, now, SetMembership(second, 0, 5)), r1, r2);
  }

  /** A member who was registered and never whitelisted withdraws everything. */
  lemma UnlistedMemberWithdraws(admin: Address, member: Address, receiver: Address, ty: bytes)
    requires member != admin && member != ZERO_ADDRESS && receiver != ZERO_ADDRESS
    ensures var r := Committed(admin, [Transaction(admin, 0, SetMembership(ty, 0, 5)),
                                       Transaction(admin, 0, Register(member, ty))]);
      && r.addrList == [member] && !r.members[0].whitelisted && !r.Whitelisted(member)
      && var done := TransferTokens(r, member, receiver, 5, 0);
         && done.Some? && done.value.token.BalanceOf(receiver) == 5
         && (receiver != member ==> done.value.token.BalanceOf(member) == 0)
  {
    var r1 := SetMembershipStatus(Empty(admin), admin, ty, 0, 5).value;
    var r2 := RegisterMember(r1, admin, member, ty, 0).value;
    CommittedTwo(admin, Transaction(admin, 0, SetMembership(ty, 0, 5)), Transaction(admin, 0, Register(member, ty)),
                 r1, r2);
    WithdrawSucceedsIff(r2, member, receiver, 5, 0);
    MintExact(r1.token, member, 5);
    WithdrawExact(r2, member, receiver, 5, 0);
  }
}
