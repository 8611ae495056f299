/** The database object and its storage methods: buffers are filled, bytes are read and written, and the
    ledger the bytes represent changes exactly as the typed operations say. */
module StateDatabase {
  import opened Common
  import opened BigEndian
  import opened Ledger
  import opened Storage
  import L = Ledger

  // ---- Key builders ----

  method OneIdBuffer(prefix: byte, a: Id) returns (k: array<byte>)
    ensures fresh(k) && k[..] == [prefix] + IdBytes(a)
  {
    k := new byte[1 + 32];
    k[0] := prefix;
    Copy(k, 1, IdBytes(a));
    assert k[..] == [prefix] + IdBytes(a);
  }

  method TwoIdBuffer(prefix: byte, a: Id, b: Id) returns (k: array<byte>)
    ensures fresh(k) && k[..] == [prefix] + IdBytes(a) + IdBytes(b)
  {
    k := new byte[1 + 32 * 2];
    k[0] := prefix;
    Copy(k, 1, IdBytes(a));
    assert k[..1 + 32] == [prefix] + IdBytes(a);
    Copy(k, 1 + 32, IdBytes(b));
    assert k[..] == [prefix] + IdBytes(a) + IdBytes(b);
  }

  method PrefixBalanceKey(pk: PublicKey, asset: Id) returns (k: array<byte>)
    ensures fresh(k) && k[..] == EncodeKey(BalanceKey(pk, asset))
  {
    k := TwoIdBuffer(0x0, pk, asset);
  }

  method PrefixAssetKey(asset: Id) returns (k: array<byte>)
    ensures fresh(k) && k[..] == EncodeKey(AssetKey(asset))
  {
    k := OneIdBuffer(0x1, asset);
  }

  method PrefixOrderKey(txId: Id) returns (k: array<byte>)
    ensures fresh(k) && k[..] == EncodeKey(OrderKey(txId))
  {
    k := OneIdBuffer(0x2, txId);
  }

  method PrefixLoanKey(asset: Id, destination: Id) returns (k: array<byte>)
    ensures fresh(k) && k[..] == EncodeKey(LoanKey(asset, destination))
  {
    k := TwoIdBuffer(0x3, asset, destination);
  }

  // ---- Records ----

  method AssetBuffer(metadata: bytes, supply: uint64, owner: PublicKey, warp: bool) returns (v: array<byte>)
    ensures fresh(v) && v[..] == EncodeAsset(AssetRecord(metadata, supply, owner, warp))
  {
    var n := |metadata|;
    v := new byte[2 + n + 8 + 32 + 1];
    Copy(v, 0, Encode(2, n % 0x1_0000));
    Copy(v, 2, metadata);
    assert v[..2 + n] == Encode(2, n % 0x1_0000) + metadata;
    PutUint64(v, 2 + n, supply);
    assert v[..2 + n + 8] == Encode(2, n % 0x1_0000) + metadata + Uint64Bytes(supply);
    Copy(v, 2 + n + 8, IdBytes(owner));
    assert v[..2 + n + 8 + 32] == Encode(2, n % 0x1_0000) + metadata + Uint64Bytes(supply) + IdBytes(owner);
    var b: byte := 0x0;
    if warp {
      b := 0x1;
    }
    v[2 + n + 8 + 32] := b;
    assert v[..] == v[..2 + n + 8 + 32] + [b];
  }

  method OrderBuffer(o: OrderRecord) returns (v: array<byte>)
    ensures fresh(v) && v[..] == EncodeOrder(o)
  {
    v := new byte[32 * 2 + 8 * 3 + 32];
    Copy(v, 0, IdBytes(o.inAsset));
    PutUint64(v, 32, o.inTick);
    assert v[..40] == IdBytes(o.inAsset) + Uint64Bytes(o.inTick);
    Copy(v, 32 + 8, IdBytes(o.outAsset));
    assert v[..72] == IdBytes(o.inAsset) + Uint64Bytes(o.inTick) + IdBytes(o.outAsset);
    PutUint64(v, 32 * 2 + 8, o.outTick);
    assert v[..80] == IdBytes(o.inAsset) + Uint64Bytes(o.inTick) + IdBytes(o.outAsset) + Uint64Bytes(o.outTick);
    PutUint64(v, 32 * 2 + 8 * 2, o.remaining);
    assert v[..88] == IdBytes(o.inAsset) + Uint64Bytes(o.inTick) + IdBytes(o.outAsset) + Uint64Bytes(o.outTick)
                    + Uint64Bytes(o.remaining);
    Copy(v, 32 * 2 + 8 * 3, IdBytes(o.owner));
  }

  // ---- Reading values ----

  function InnerGetAmount(v: Option<bytes>): uint64
    requires v.Some? ==> |v.value| == 8
  {
    if v.None? then 0 else BytesUint64(v.value)
  }

  lemma AmountReads(data: map<bytes, bytes>, s: Store, k: Key)
    requires Represents(data, s) && (k.BalanceKey? || k.LoanKey?)
    ensures EncodeKey(k) in data <==> k in s
    ensures k in s ==> |data[EncodeKey(k)]| == 8 && BytesUint64(data[EncodeKey(k)]) == s[k].n
  {
    Lookup(data, s, k);
    if k in s { Uint64RoundTrip(s[k].n); }
  }

  // ---- Checked arithmetic ----

  function Add64(a: uint64, b: uint64): Option<uint64> {
    if a + b > MAX_UINT64 then None else Some(a + b)
  }

  function Sub64(a: uint64, b: uint64): Option<uint64> {
    if a < b then None else Some(a - b)
  }

  function Mul64(a: uint64, b: uint64): Option<uint64> {
    if a * b > MAX_UINT64 then None else Some(a * b)
  }

  /** A storage method that ends with store `s` and error `e` did what the typed operation says. */
  ghost predicate Ends(s: Store, e: Option<Failure>, o: Outcome) {
    s == o.store && match o { case Ok(_, _, _) => e == None case Err(_, f) => e == Some(f) case Panic(_) => false }
  }

  class Database {
    var data: map<bytes, bytes>
    ghost var store: Store

    ghost predicate Valid()
      reads this
    {
      Represents(data, store)
    }

    constructor ()
      ensures Valid() && store == map[]
    {
      data := map[];
      store := map[];
    }

    method GetValue(k: bytes) returns (v: Option<bytes>)
      ensures v == if k in data then Some(data[k]) else None
    {
      if k in data {
        v := Some(data[k]);
      } else {
        v := None;
      }
    }

    method Insert(k: bytes, v: bytes, ghost key: Key, ghost value: Value)
      requires Valid() && k == EncodeKey(key) && v == EncodeValue(value) && WellTyped(key, value)
      modifies this
      ensures Valid() && store == old(store)[key := value]
    {
      PutRepresents(data, store, key, value);
      data := data[k := v];
      store := store[key := value];
    }

    method Remove(k: bytes, ghost key: Key)
      requires Valid() && k == EncodeKey(key)
      modifies this
      ensures Valid() && store == old(store) - {key}
    {
      RemoveRepresents(data, store, key);
      data := data - {k};
      store := store - {key};
    }

    // ---- Balances ----

    method GetBalance(pk: PublicKey, asset: Id) returns (balance: uint64)
      requires Valid()
      ensures balance == L.GetBalance(store, pk, asset)
    {
      AmountReads(data, store, BalanceKey(pk, asset));
      var k := PrefixBalanceKey(pk, asset);
      var v := GetValue(k[..]);
      balance := InnerGetAmount(v);
    }

    method SetBalance(pk: PublicKey, asset: Id, balance: uint64)
      requires Valid()
      modifies this
      ensures Valid() && store == old(store)[BalanceKey(pk, asset) := Amount(balance)]
    {
      var k := PrefixBalanceKey(pk, asset);
      Insert(k[..], Uint64Bytes(balance), BalanceKey(pk, asset), Amount(balance));
    }

    method AddBalance(pk: PublicKey, asset: Id, amount: uint64) returns (e: Option<Failure>)
      requires Valid()
      modifies this
      ensures Valid() && Ends(store, e, L.AddBalance(old(store), pk, asset, amount))
    {
      hide Represents, EncodeKey;
      var balance := GetBalance(pk, asset);
      match Add64(balance, amount) {
        case None => return Some(InvalidBalance);
        case Some(n) => SetBalance(pk, asset, n);
      }
      e := None;
    }

    method SubBalance(pk: PublicKey, asset: Id, amount: uint64) returns (e: Option<Failure>)
      requires Valid()
      modifies this
      ensures Valid() && Ends(store, e, L.SubBalance(old(store), pk, asset, amount))
    {
      hide Represents, EncodeKey;
      var balance := GetBalance(pk, asset);
      match Sub64(balance, amount) {
        case None => return Some(InvalidBalance);
        case Some(n) =>
          if n == 0 {
            var k := PrefixBalanceKey(pk, asset);
            Remove(k[..], BalanceKey(pk, asset));
          } else {
            SetBalance(pk, asset, n);
          }
      }
      e := None;
    }

    // ---- Assets ----

    method GetAsset(asset: Id) returns (r: Option<AssetRecord>)
      requires Valid()
      ensures r == L.GetAsset(store, asset)
      ensures r.Some? ==> |r.value.metadata| <= MAX_READABLE_METADATA
    {
      Lookup(data, store, AssetKey(asset));
      if AssetKey(asset) in store { AssetRoundTrip(store[AssetKey(asset)].asset); }
      var k := PrefixAssetKey(asset);
      var v := GetValue(k[..]);
      match v {
        case None => r := None;
        case Some(b) => r := DecodeAsset(b);
      }
    }

    method SetAsset(asset: Id, metadata: bytes, supply: uint64, owner: PublicKey, warp: bool)
      requires Valid() && |metadata| <= MAX_READABLE_METADATA
      modifies this
      ensures Valid() && store == L.SetAsset(old(store), asset, AssetRecord(metadata, supply, owner, warp))
    {
      var k := PrefixAssetKey(asset);
      var v := AssetBuffer(metadata, supply, owner, warp);
      Insert(k[..], v[..], AssetKey(asset), Asset(AssetRecord(metadata, supply, owner, warp)));
    }

    method DeleteAsset(asset: Id)
      requires Valid()
      modifies this
      ensures Valid() && store == L.DeleteAsset(old(store), asset)
    {
      var k := PrefixAssetKey(asset);
      Remove(k[..], AssetKey(asset));
    }

    // ---- Orders ----

    method GetOrder(order: Id) returns (o: Option<OrderRecord>)
      requires Valid()
      ensures o == L.GetOrder(store, order)
    {
      Lookup(data, store, OrderKey(order));
      if OrderKey(order) in store { OrderRoundTrip(store[OrderKey(order)].order); }
      var k := PrefixOrderKey(order);
      var v := GetValue(k[..]);
      match v {
        case None => o := None;
        case Some(b) => o := Some(DecodeOrder(b));
      }
    }

    method SetOrder(order: Id, o: OrderRecord)
      requires Valid()
      modifies this
      ensures Valid() && store == L.SetOrder(old(store), order, o)
    {
      var k := PrefixOrderKey(order);
      var v := OrderBuffer(o);
      Insert(k[..], v[..], OrderKey(order), Order(o));
    }

    method DeleteOrder(order: Id)
      requires Valid()
      modifies this
      ensures Valid() && store == L.DeleteOrder(old(store), order)
    {
      var k := PrefixOrderKey(order);
      Remove(k[..], OrderKey(order));
    }

    // ---- Loans ----

    method GetLoan(asset: Id, destination: Id) returns (loan: uint64)
      requires Valid()
      ensures loan == L.GetLoan(store, asset, destination)
    {
      AmountReads(data, store, LoanKey(asset, destination));
      var k := PrefixLoanKey(asset, destination);
      var v := GetValue(k[..]);
      loan := InnerGetAmount(v);
    }

    method SetLoan(asset: Id, destination: Id, amount: uint64)
      requires Valid()
      modifies this
      ensures Valid() && store == old(store)[LoanKey(asset, destination) := Amount(amount)]
    {
      var k := PrefixLoanKey(asset, destination);
      Insert(k[..], Uint64Bytes(amount), LoanKey(asset, destination), Amount(amount));
    }

    method AddLoan(asset: Id, destination: Id, amount: uint64) returns (e: Option<Failure>)
      requires Valid()
      modifies this
      ensures Valid() && Ends(store, e, L.AddLoan(old(store), asset, destination, amount))
    {
      hide Represents, EncodeKey;
      var loan := GetLoan(asset, destination);
      match Add64(loan, amount) {
        case None => return Some(InvalidBalance);
        case Some(n) => SetLoan(asset, destination, n);
      }
      e := None;
    }

    method SubLoan(asset: Id, destination: Id, amount: uint64) returns (e: Option<Failure>)
      requires Valid()
      modifies this
      ensures Valid() && Ends(store, e, L.SubLoan(old(store), asset, destination, amount))
    {
      hide Represents, EncodeKey;
      var loan := GetLoan(asset, destination);
      match Sub64(loan, amount) {
        case None => return Some(InvalidBalance);
        case Some(n) =>
          if n == 0 {
            var k := PrefixLoanKey(asset, destination);
            Remove(k[..], LoanKey(asset, destination));
          } else {
            SetLoan(asset, destination, n);
          }
      }
      e := None;
    }
  }
}
