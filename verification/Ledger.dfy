/** The chain state: one key-value store holding balances, assets, orders and loans, and the
    storage operations every action is made of. Each operation reads and writes a single key. */
module Ledger {
  import opened Common
  import opened Warp

  datatype Key =
    | BalanceKey(owner: PublicKey, asset: Id)
    | AssetKey(id: Id)
    | OrderKey(order: Id)
    | LoanKey(loaned: Id, destination: Id)
    | HeightKey
    | IncomingWarpKey(source: Id, message: Id)
    | OutgoingWarpKey(txId: Id)

  datatype AssetRecord = AssetRecord(metadata: bytes, supply: uint64, owner: PublicKey, warp: bool)

  datatype OrderRecord = OrderRecord(
    inAsset: Id,
    inTick: uint64,
    outAsset: Id,
    outTick: uint64,
    remaining: uint64,
    owner: PublicKey)

  datatype Value =
    | Amount(n: uint64)
    | Asset(asset: AssetRecord)
    | Order(order: OrderRecord)
    | Raw(raw: bytes)

  /** The longest metadata whose record can be read back: offsets are computed in uint16. */
  const MAX_READABLE_METADATA: nat := 0xFFFF - (2 + 8 + 32)
  const MAX_METADATA_SIZE: nat := 256

  predicate WellTyped(k: Key, v: Value) {
    match k
    case BalanceKey(_, _) => v.Amount?
    case AssetKey(_) => v.Asset? && |v.asset.metadata| <= MAX_READABLE_METADATA
    case OrderKey(_) => v.Order?
    case LoanKey(_, _) => v.Amount?
    case _ => v.Raw?
  }

  type Store = m: map<Key, Value> | forall k :: k in m ==> WellTyped(k, m[k])

  // ---- Outcomes ----

  datatype Failure =
    | ValueZero | AssetIsNative | AssetMissing | InTickZero | OutTickZero | SupplyZero | SupplyMisaligned
    | OrderMissing | Unauthorized | WrongIn | WrongOut | WrongOwner | InsufficientInput | InsufficientOutput
    | ValueMisaligned | MetadataTooLarge | SameInOut | ConflictingAsset | Anycast | NotWarpAsset | WarpAsset
    | WrongDestination | MustFill | WarpVerificationFailed
    | InvalidBalance  // a balance or loan cannot be credited or debited
    | Overflow        // checked uint64 arithmetic
    | Underflow
    | InvalidIdLength // a slice that should hold an identifier is not 32 bytes long

  datatype OutgoingMessage = OutgoingMessage(destination: Id, transfer: WarpTransfer)

  /** How an operation or a whole action ends. Failures keep what was written before them;
      a panic is an index or division error that would stop the node. */
  datatype Outcome =
    | Ok(store: Store, output: bytes, message: Option<OutgoingMessage>)
    | Err(store: Store, failure: Failure)
    | Panic(store: Store)
  {
    predicate IsFailure() { !Ok? }
    function PropagateFailure(): Outcome
      requires IsFailure()
    {
      this
    }
    function Extract(): Store
      requires Ok?
    {
      store
    }
    /** Neither a panic nor a success with something to publish. */
    predicate Plain() { !Panic? && (Ok? ==> output == [] && message == None) }
  }

  function Done(s: Store): Outcome { Ok(s, [], None) }

  // ---- Balances ----

  function GetBalance(s: Store, owner: PublicKey, asset: Id): uint64 {
    var k := BalanceKey(owner, asset);
    if k in s then s[k].n else 0
  }

  function AddBalance(s: Store, owner: PublicKey, asset: Id, amount: uint64): (o: Outcome)
    ensures o.Plain()
  {
    var balance := GetBalance(s, owner, asset);
    if balance + amount > MAX_UINT64 then Err(s, InvalidBalance)
    else Done(s[BalanceKey(owner, asset) := Amount(balance + amount)])
  }

  /** A balance that reaches zero is deleted instead of being stored. */
  function SubBalance(s: Store, owner: PublicKey, asset: Id, amount: uint64): (o: Outcome)
    ensures o.Plain()
  {
    var balance := GetBalance(s, owner, asset);
    if balance < amount then Err(s, InvalidBalance)
    else if balance == amount then Done(s - {BalanceKey(owner, asset)})
    else Done(s[BalanceKey(owner, asset) := Amount(balance - amount)])
  }

  // ---- Assets ----

  function GetAsset(s: Store, id: Id): Option<AssetRecord> {
    if AssetKey(id) in s then Some(s[AssetKey(id)].asset) else None
  }

  function Supply(s: Store, id: Id): uint64 {
    if AssetKey(id) in s then s[AssetKey(id)].asset.supply else 0
  }

  function SetAsset(s: Store, id: Id, record: AssetRecord): Store
    requires |record.metadata| <= MAX_READABLE_METADATA
  {
    s[AssetKey(id) := Asset(record)]
  }

  function DeleteAsset(s: Store, id: Id): Store { s - {AssetKey(id)} }

  // ---- Orders ----

  function GetOrder(s: Store, order: Id): Option<OrderRecord> {
    if OrderKey(order) in s then Some(s[OrderKey(order)].order) else None
  }

  function SetOrder(s: Store, order: Id, record: OrderRecord): Store { s[OrderKey(order) := Order(record)] }

  function DeleteOrder(s: Store, order: Id): Store { s - {OrderKey(order)} }

  // ---- Loans ----

  function GetLoan(s: Store, asset: Id, destination: Id): uint64 {
    var k := LoanKey(asset, destination);
    if k in s then s[k].n else 0
  }

  function AddLoan(s: Store, asset: Id, destination: Id, amount: uint64): (o: Outcome)
    ensures o.Plain()
  {
    var loan := GetLoan(s, asset, destination);
    if loan + amount > MAX_UINT64 then Err(s, InvalidBalance)
    else Done(s[LoanKey(asset, destination) := Amount(loan + amount)])
  }

  function SubLoan(s: Store, asset: Id, destination: Id, amount: uint64): (o: Outcome)
    ensures o.Plain()
  {
    var loan := GetLoan(s, asset, destination);
    if loan < amount then Err(s, InvalidBalance)
    else if loan == amount then Done(s - {LoanKey(asset, destination)})
    else Done(s[LoanKey(asset, destination) := Amount(loan - amount)])
  }
}
