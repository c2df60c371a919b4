/**
  The single-key wallet of the funding protocol: its set of unspent outputs,
  the greedy selection that reserves outputs for a payment, and the
  asset-lock transaction built from such a selection.

  The wallet's outputs live in a hash map whose iteration order is
  unspecified, so every operation that walks the map takes the walk's order
  as a parameter `order`, an enumeration of the map's keys, and every
  property below holds for every such order.
*/
module Wallet {
  import opened Wrappers

  /** Bounds of the signed 64-bit counter the selection keeps. */
  const I64Max: int := 0x7FFF_FFFF_FFFF_FFFF
  const I64Min: int := -0x8000_0000_0000_0000
  /** Number of distinct unsigned 64-bit amounts. */
  const U64Modulus: int := 0x1_0000_0000_0000_0000

  /** Value, in duffs, of the single credit output of the asset-lock payload (1 Dash). */
  const CreditOutputValue: nat := 100_000_000
  /** Version of the lock transaction and of its asset-lock payload. */
  const LockTransactionVersion: nat := 3
  const AssetLockPayloadVersion: nat := 0

  const NotEnoughBalance: string := "Not enough balance in wallet"

  type PubkeyHash = Bytes

  /** A reference to an output of an earlier transaction. */
  datatype OutPoint = OutPoint(txid: Bytes, vout: nat)

  /** Locking scripts: pay-to-public-key-hash, a data carrier, or any other script. */
  datatype Script = P2pkh(hash: PubkeyHash) | OpReturn(data: Bytes) | Other(code: Bytes)

  datatype TxOut = TxOut(value: nat, scriptPubkey: Script)

  datatype PublicKey = PublicKey(bytes: Bytes)
  datatype PrivateKey = PrivateKey(secret: Bytes)

  /** A pay-to-public-key-hash address. */
  datatype Address = P2pkhAddress(hash: PubkeyHash)

  /** The locking script that pays to an address. */
  function ScriptPubkey(address: Address): Script {
    P2pkh(address.hash)
  }

  /** A reserved output, tagged with the key and the address that control it. */
  datatype TakenOutput = TakenOutput(out: TxOut, publicKey: PublicKey, address: Address)

  datatype AssetLockPayload = AssetLockPayload(version: nat, creditOutputs: seq<TxOut>)
  datatype TransactionPayload = AssetLockPayloadType(payload: AssetLockPayload)

  /** A transaction without its inputs (see README, "Left out"). */
  datatype Transaction = Transaction(
    version: nat,
    lockTime: nat,
    output: seq<TxOut>,
    specialTransactionPayload: Option<TransactionPayload>)

  datatype WalletError = WalletError(message: string)

  /** The outputs a selection reserves: outpoint -> (output, public key, address). */
  type Selection = map<OutPoint, TakenOutput>

  // ---------------------------------------------------------------------
  // Sums of output values

  /** Value of the output stored under `k` (0 when there is none). */
  function ValueAt(utxos: map<OutPoint, TxOut>, k: OutPoint): nat {
    if k in utxos then utxos[k].value else 0
  }

  /** Sum of the values of the listed outputs, added up in the listed order. */
  function ValueOf(keys: seq<OutPoint>, utxos: map<OutPoint, TxOut>): nat {
    if keys == [] then 0
    else ValueOf(keys[..|keys| - 1], utxos) + ValueAt(utxos, keys[|keys| - 1])
  }

  predicate Distinct(s: seq<OutPoint>) {
    forall i, j | 0 <= i < j < |s| :: s[i] != s[j]
  }

  /** `order` lists every key of `utxos` exactly once: one iteration order of the map. */
  predicate Enumerates(order: seq<OutPoint>, utxos: map<OutPoint, TxOut>) {
    Distinct(order) && Elements(order) == utxos.Keys
  }

  function Elements(s: seq<OutPoint>): set<OutPoint> {
    set k | k in s
  }

  /** Sum of the values stored under `keys`, independent of any order. */
  ghost function SumOver(keys: set<OutPoint>, utxos: map<OutPoint, TxOut>): nat
    requires keys <= utxos.Keys
    decreases keys
  {
    if keys == {} then 0
    else
      var k :| k in keys;
      utxos[k].value + SumOver(keys - {k}, utxos)
  }

  /** The wallet balance: the sum of the values of all its outputs. */
  ghost function TotalValue(utxos: map<OutPoint, TxOut>): nat {
    SumOver(utxos.Keys, utxos)
  }

  /** The outputs underlying a selection. */
  function TakenOutputs(taken: Selection): map<OutPoint, TxOut> {
    map k | k in taken :: taken[k].out
  }

  /** Sum of the values of the outputs a selection reserves. */
  ghost function TakenValue(taken: Selection): nat {
    TotalValue(TakenOutputs(taken))
  }

  lemma {:induction false} SumOverPick(keys: set<OutPoint>, utxos: map<OutPoint, TxOut>, k: OutPoint)
    requires keys <= utxos.Keys && k in keys
    ensures SumOver(keys, utxos) == utxos[k].value + SumOver(keys - {k}, utxos)
    decreases keys
  {
    var j :| j in keys && SumOver(keys, utxos) == utxos[j].value + SumOver(keys - {j}, utxos);
    if j != k {
      SumOverPick(keys - {j}, utxos, k);
      SumOverPick(keys - {k}, utxos, j);
      assert keys - {j} - {k} == keys - {k} - {j};
    }
  }

  lemma {:induction false} ValueOfAppend(a: seq<OutPoint>, b: seq<OutPoint>, utxos: map<OutPoint, TxOut>)
    ensures ValueOf(a + b, utxos) == ValueOf(a, utxos) + ValueOf(b, utxos)
    decreases |b|
  {
    if b == [] {
      assert a + b == a;
    } else {
      var front := b[..|b| - 1];
      assert (a + b)[..|a + b| - 1] == a + front;
      ValueOfAppend(a, front, utxos);
    }
  }

  lemma {:induction false} ValueOfAgree(keys: seq<OutPoint>, u1: map<OutPoint, TxOut>, u2: map<OutPoint, TxOut>)
    requires forall k | k in keys :: ValueAt(u1, k) == ValueAt(u2, k)
    ensures ValueOf(keys, u1) == ValueOf(keys, u2)
    decreases |keys|
  {
    if keys != [] {
      ValueOfAgree(keys[..|keys| - 1], u1, u2);
    }
  }

  /** Adding up distinct outputs in a list gives their order-free sum. */
  lemma {:induction false} ValueOfDistinct(keys: seq<OutPoint>, utxos: map<OutPoint, TxOut>)
    requires Distinct(keys) && forall k | k in keys :: k in utxos
    ensures ValueOf(keys, utxos) == SumOver(Elements(keys), utxos)
    decreases |keys|
  {
    if keys != [] {
      var front, last := keys[..|keys| - 1], keys[|keys| - 1];
      ValueOfDistinct(front, utxos);
      assert Elements(keys) - {last} == Elements(front) by {
        assert forall k | k in front :: k != last;
        assert keys == front + [last];
      }
      SumOverPick(Elements(keys), utxos, last);
    }
  }

  /** The value of a prefix of a walk never exceeds the value of the whole walk. */
  lemma PrefixValueBounded(keys: seq<OutPoint>, utxos: map<OutPoint, TxOut>, n: nat)
    requires n <= |keys|
    ensures ValueOf(keys[..n], utxos) <= ValueOf(keys, utxos)
  {
    assert keys == keys[..n] + keys[n..];
    ValueOfAppend(keys[..n], keys[n..], utxos);
  }

  /**
    The lock transaction: version 3, lock time 0, a burn output paying
    `amount` to the one-time key's hash followed by a change output paying
    `change` to the wallet, and an asset-lock payload holding one credit
    output of fixed value.
  */
  function LockTransaction(amount: nat, oneTimeKeyHash: PubkeyHash, change: nat, changeAddress: Address): (tx: Transaction)
    ensures tx.version == LockTransactionVersion && tx.lockTime == 0
    ensures |tx.output| == 2
    ensures tx.output[0] == TxOut(amount, P2pkh(oneTimeKeyHash))
    ensures tx.output[1] == TxOut(change, P2pkh(changeAddress.hash))
    ensures tx.output[0].value + tx.output[1].value == amount + change
    ensures tx.specialTransactionPayload.Some?
    ensures tx.specialTransactionPayload.value.payload.creditOutputs == [TxOut(CreditOutputValue, OpReturn([]))]
  {
    var burnOutput := TxOut(amount, P2pkh(oneTimeKeyHash));
    var payloadOutput := TxOut(CreditOutputValue, OpReturn([]));
    var changeOutput := TxOut(change, ScriptPubkey(changeAddress));
    var payload := AssetLockPayload(AssetLockPayloadVersion, [payloadOutput]);
    Transaction(LockTransactionVersion, 0, [burnOutput, changeOutput], Some(AssetLockPayloadType(payload)))
  }

  // ---------------------------------------------------------------------
  // Greedy selection

  /** Number of outputs the walk takes when it has already taken `i`. */
  function GreedyFrom(order: seq<OutPoint>, utxos: map<OutPoint, TxOut>, amount: int, i: nat): (n: nat)
    requires i <= |order|
    ensures i <= n <= |order|
    ensures n == |order| || ValueOf(order[..n], utxos) >= amount
    ensures forall j | i <= j < n :: ValueOf(order[..j], utxos) < amount
    decreases |order| - i
  {
    if i == |order| || ValueOf(order[..i], utxos) >= amount then i
    else GreedyFrom(order, utxos, amount, i + 1)
  }

  /**
    Number of outputs the selection takes: the shortest prefix of the walk
    whose value reaches `amount`, or the whole walk when none does.
  */
  function TakeCount(order: seq<OutPoint>, utxos: map<OutPoint, TxOut>, amount: int): (n: nat)
    ensures n <= |order|
    ensures n == |order| || ValueOf(order[..n], utxos) >= amount
    ensures forall j | 0 <= j < n :: ValueOf(order[..j], utxos) < amount
  {
    GreedyFrom(order, utxos, amount, 0)
  }

  /** The listed outputs, each tagged with the wallet's key and address. */
  function TakenMap(keys: seq<OutPoint>, utxos: map<OutPoint, TxOut>, publicKey: PublicKey, address: Address): Selection {
    map k | k in keys && k in utxos :: TakenOutput(utxos[k], publicKey, address)
  }

  /**
    What the selection returns when it walks `utxos` in `order`: None on a
    shortfall, otherwise the taken outputs and the change.
  */
  function Select(utxos: map<OutPoint, TxOut>, order: seq<OutPoint>, amount: nat, publicKey: PublicKey, address: Address)
    : Option<(Selection, nat)>
  {
    var n := TakeCount(order, utxos, amount);
    var covered := ValueOf(order[..n], utxos);
    if covered < amount then None
    else Some((TakenMap(order[..n], utxos, publicKey, address), covered - amount))
  }

  /** The selection fails exactly when the whole balance is below the amount, whatever the order. */
  lemma SelectFailsIffShort(utxos: map<OutPoint, TxOut>, order: seq<OutPoint>, amount: nat, publicKey: PublicKey, address: Address)
    requires Enumerates(order, utxos)
    ensures Select(utxos, order, amount, publicKey, address).None? <==> TotalValue(utxos) < amount
  {
    var n := TakeCount(order, utxos, amount);
    BalanceOfEnumeration(order, utxos);
    PrefixValueBounded(order, utxos, n);
    assert n == |order| ==> order[..n] == order;
  }

  /** Summing the outputs in any iteration order gives the balance. */
  lemma BalanceOfEnumeration(order: seq<OutPoint>, utxos: map<OutPoint, TxOut>)
    requires Enumerates(order, utxos)
    ensures ValueOf(order, utxos) == TotalValue(utxos)
  {
    ValueOfDistinct(order, utxos);
    assert Elements(order) == utxos.Keys;
  }

  /** The value of the taken outputs is the value of the walked prefix. */
  lemma TakenValueOfPrefix(utxos: map<OutPoint, TxOut>, order: seq<OutPoint>, n: nat, publicKey: PublicKey, address: Address)
    requires n <= |order| && Distinct(order) && forall k | k in order :: k in utxos
    ensures TakenValue(TakenMap(order[..n], utxos, publicKey, address)) == ValueOf(order[..n], utxos)
  {
    var prefix := order[..n];
    var outs := TakenOutputs(TakenMap(prefix, utxos, publicKey, address));
    assert Enumerates(prefix, outs);
    ValueOfAgree(prefix, outs, utxos);
    BalanceOfEnumeration(prefix, outs);
  }

  /**
    A successful selection covers the amount, reports as change exactly the
    surplus, and takes only a greedy prefix of the walk: without its last
    output the prefix would fall short. Every taken entry carries the
    wallet's own key and address.
  */
  lemma SelectCovers(utxos: map<OutPoint, TxOut>, order: seq<OutPoint>, amount: nat, publicKey: PublicKey, address: Address)
    requires Enumerates(order, utxos)
    ensures match Select(utxos, order, amount, publicKey, address)
      case None => true
      case Some((taken, change)) =>
        var n := TakeCount(order, utxos, amount);
        && TakenValue(taken) >= amount
        && change == TakenValue(taken) - amount
        && taken.Keys == Elements(order[..n])
        && (n > 0 ==> ValueOf(order[..n - 1], utxos) < amount)
        && forall k | k in taken :: taken[k] == TakenOutput(utxos[k], publicKey, address)
  {
    var n := TakeCount(order, utxos, amount);
    TakenValueOfPrefix(utxos, order, n, publicKey, address);
  }

  /** Asking for nothing takes nothing and gives no change. */
  lemma SelectZeroAmount(utxos: map<OutPoint, TxOut>, order: seq<OutPoint>, publicKey: PublicKey, address: Address)
    ensures Select(utxos, order, 0, publicKey, address) == Some((map[], 0))
  {
    assert TakeCount(order, utxos, 0) == 0;
  }

  /** What is left after removing a prefix of a walk is worth the rest of the walk. */
  lemma RemainderValue(utxos: map<OutPoint, TxOut>, order: seq<OutPoint>, n: nat)
    requires Enumerates(order, utxos) && n <= |order|
    ensures TotalValue(utxos - Elements(order[..n])) == ValueOf(order[n..], utxos)
  {
    var rest := utxos - Elements(order[..n]);
    var suffix := order[n..];
    assert Enumerates(suffix, rest) by {
      forall k | k in suffix ensures k in rest {
        var i :| 0 <= i < |suffix| && suffix[i] == k;
        assert order[n + i] == k;
        assert k !in order[..n];
      }
      forall k | k in rest ensures k in suffix {
        var i :| 0 <= i < |order| && order[i] == k;
        assert i >= n;
        assert suffix[i - n] == k;
      }
    }
    ValueOfAgree(suffix, rest, utxos);
    BalanceOfEnumeration(suffix, rest);
  }

  /** Removing the taken outputs lowers the balance by exactly their value. */
  lemma BalanceAfterSelect(utxos: map<OutPoint, TxOut>, order: seq<OutPoint>, amount: nat, publicKey: PublicKey, address: Address)
    requires Enumerates(order, utxos)
    ensures match Select(utxos, order, amount, publicKey, address)
      case None => true
      case Some((taken, _)) => TotalValue(utxos - taken.Keys) == TotalValue(utxos) - TakenValue(taken)
  {
    var n := TakeCount(order, utxos, amount);
    var taken := TakenMap(order[..n], utxos, publicKey, address);
    assert taken.Keys == Elements(order[..n]);
    RemainderValue(utxos, order, n);
    assert order == order[..n] + order[n..];
    ValueOfAppend(order[..n], order[n..], utxos);
    BalanceOfEnumeration(order, utxos);
    TakenValueOfPrefix(utxos, order, n, publicKey, address);
  }

  /**
    Outputs reserved by one selection are gone from the wallet, so a second
    selection, in any order over what is left, never takes them again.
  */
  lemma NoDoubleAllocation(
    utxos: map<OutPoint, TxOut>, order1: seq<OutPoint>, order2: seq<OutPoint>,
    amount1: nat, amount2: nat, publicKey: PublicKey, address: Address)
    requires Enumerates(order1, utxos)
    requires Select(utxos, order1, amount1, publicKey, address).Some?
    requires Enumerates(order2, utxos - Select(utxos, order1, amount1, publicKey, address).value.0.Keys)
    ensures match Select(utxos - Select(utxos, order1, amount1, publicKey, address).value.0.Keys, order2, amount2, publicKey, address)
      case None => true
      case Some((taken2, _)) => taken2.Keys !! Select(utxos, order1, amount1, publicKey, address).value.0.Keys
  {
  }

  /**
    One output of 150000000 and a request for
    100000000 take that output and give 50000000 in change. The credit
    output's value is not deducted from the change.
  */
  lemma SingleOutputScenario(o: OutPoint, script: Script, publicKey: PublicKey, address: Address)
    ensures Select(map[o := TxOut(150_000_000, script)], [o], 100_000_000, publicKey, address)
      == Some((map[o := TakenOutput(TxOut(150_000_000, script), publicKey, address)], 50_000_000))
  {
    var utxos := map[o := TxOut(150_000_000, script)];
    assert [o][..0] == [] && [o][..1] == [o];
    assert ValueOf([o], utxos) == 150_000_000 by {
      assert [o][..|[o]| - 1] == [];
    }
    assert GreedyFrom([o], utxos, 100_000_000, 0) == 1 by {
      assert ValueOf([o][..0], utxos) == 0;
    }
    assert TakenMap([o], utxos, publicKey, address) == map[o := TakenOutput(TxOut(150_000_000, script), publicKey, address)];
  }

  /**
    One step of the walk: taking the next output adds its value to the
    running sum, which stays within the balance, and adds its tagged entry.
  */
  lemma WalkStep(order: seq<OutPoint>, utxos: map<OutPoint, TxOut>, i: nat, publicKey: PublicKey, address: Address)
    requires Enumerates(order, utxos) && i < |order|
    ensures order[i] in utxos
    ensures ValueOf(order[..i + 1], utxos) == ValueOf(order[..i], utxos) + utxos[order[i]].value
    ensures ValueOf(order[..i + 1], utxos) <= TotalValue(utxos)
    ensures TakenMap(order[..i + 1], utxos, publicKey, address)
      == TakenMap(order[..i], utxos, publicKey, address)[order[i] := TakenOutput(utxos[order[i]], publicKey, address)]
  {
    assert order[i] in Elements(order);
    assert order[..i + 1][..i] == order[..i];
    PrefixValueBounded(order, utxos, i + 1);
    BalanceOfEnumeration(order, utxos);
    TakenMapStep(order[..i], order[i], utxos, publicKey, address);
    assert order[..i + 1] == order[..i] + [order[i]];
  }

  /** Listing one more output adds exactly its tagged entry. */
  lemma TakenMapStep(keys: seq<OutPoint>, k: OutPoint, utxos: map<OutPoint, TxOut>, publicKey: PublicKey, address: Address)
    requires k in utxos
    ensures TakenMap(keys + [k], utxos, publicKey, address)
      == TakenMap(keys, utxos, publicKey, address)[k := TakenOutput(utxos[k], publicKey, address)]
  {
  }

  /** While the walk has outputs left and falls short, Select takes at least one more. */
  lemma WalkContinues(order: seq<OutPoint>, utxos: map<OutPoint, TxOut>, amount: nat, i: nat)
    requires i < |order| && i <= TakeCount(order, utxos, amount)
    requires ValueOf(order[..i], utxos) < amount
    ensures i + 1 <= TakeCount(order, utxos, amount)
  {
  }

  /**
    Where the walk stops: once it has walked the whole order or covered the
    amount, it has taken exactly the outputs Select takes, and the outcome
    is decided by whether the walked value covers the amount.
  */
  lemma WalkEnds(order: seq<OutPoint>, utxos: map<OutPoint, TxOut>, amount: nat, i: nat, publicKey: PublicKey, address: Address)
    requires i <= TakeCount(order, utxos, amount)
    requires i == |order| || ValueOf(order[..i], utxos) >= amount
    ensures i == TakeCount(order, utxos, amount)
    ensures Select(utxos, order, amount, publicKey, address)
      == if ValueOf(order[..i], utxos) < amount then None
         else Some((TakenMap(order[..i], utxos, publicKey, address), ValueOf(order[..i], utxos) - amount))
  {
  }

  // ---------------------------------------------------------------------
  // The selection as written for amounts beyond the signed 64-bit range

  /** An unsigned 64-bit amount reinterpreted as a signed 64-bit counter (two's complement). */
  function AsI64(amount: nat): (v: int)
    requires amount < U64Modulus
    ensures I64Min <= v <= I64Max
    ensures amount <= I64Max ==> v == amount
    ensures amount > I64Max ==> v < 0 && v == amount - U64Modulus
  {
    if amount <= I64Max then amount else amount - U64Modulus
  }

  /** Every output value fits in a signed 64-bit integer, so the loop's per-output cast keeps it. */
  predicate ValuesFitI64(utxos: map<OutPoint, TxOut>) {
    forall k | k in utxos :: utxos[k].value <= I64Max
  }

  /**
    The selection loop as written, from the `i`-th output of the walk with
    the signed counter at `required`: it stops when the counter is no longer
    positive or the outputs run out, and otherwise subtracts the next
    output's value. Returns where it stopped and the final counter. The
    counter is only lowered while positive, by at most the largest signed
    value, so it never leaves the signed range.
  */
  function WalkAsWritten(order: seq<OutPoint>, utxos: map<OutPoint, TxOut>, required: int, i: nat): (res: (nat, int))
    requires i <= |order|
    ensures i <= res.0 <= |order|
    ensures required <= 0 ==> res == (i, required)
    ensures ValuesFitI64(utxos) && I64Min <= required <= I64Max ==> I64Min <= res.1 <= I64Max
    decreases |order| - i
  {
    if i == |order| || required <= 0 then (i, required)
    else WalkAsWritten(order, utxos, required - ValueAt(utxos, order[i]), i + 1)
  }

  /**
    The selection as the code computes it for any unsigned 64-bit amount:
    the counter starts at the reinterpreted amount, the loop runs as
    written, a positive counter is a shortfall, and otherwise the taken
    outputs come back with the counter's magnitude as change. At exactly
    2^63 the magnitude is that of a release build (a debug build panics).
    A shortfall can only be reported for an amount in the signed range.
  */
  function SelectAsWritten(utxos: map<OutPoint, TxOut>, order: seq<OutPoint>, amount: nat, publicKey: PublicKey, address: Address)
    : (r: Option<(Selection, nat)>)
    requires amount < U64Modulus
    ensures r.None? ==> amount <= I64Max
    ensures r.Some? ==> r.value.0.Keys <= utxos.Keys
  {
    var (n, required) := WalkAsWritten(order, utxos, AsI64(amount), 0);
    if required > 0 then None
    else Some((TakenMap(order[..n], utxos, publicKey, address), -required))
  }

  /**
    Within the signed range the loop as written tracks the walk: started
    after `i` outputs with the counter at amount minus their value, it stops
    where Select stops, with the counter at amount minus the walked value.
  */
  lemma {:induction false} WalkAsWrittenTracksSelect(order: seq<OutPoint>, utxos: map<OutPoint, TxOut>, amount: nat, i: nat)
    requires i <= TakeCount(order, utxos, amount)
    ensures var n := TakeCount(order, utxos, amount);
      WalkAsWritten(order, utxos, amount - ValueOf(order[..i], utxos), i) == (n, amount - ValueOf(order[..n], utxos))
    decreases |order| - i
  {
    var required := amount - ValueOf(order[..i], utxos);
    if i == |order| || required <= 0 {
      WalkStops(order, utxos, amount, i);
      assert WalkAsWritten(order, utxos, required, i) == (i, required);
    } else {
      WalkContinues(order, utxos, amount, i);
      ValueOfStep(order, utxos, i);
      var next := required - ValueAt(utxos, order[i]);
      assert WalkAsWritten(order, utxos, required, i) == WalkAsWritten(order, utxos, next, i + 1);
      WalkAsWrittenTracksSelect(order, utxos, amount, i + 1);
    }
  }

  /** Walking one more output adds its value to the walked value. */
  lemma ValueOfStep(order: seq<OutPoint>, utxos: map<OutPoint, TxOut>, i: nat)
    requires i < |order|
    ensures ValueOf(order[..i + 1], utxos) == ValueOf(order[..i], utxos) + ValueAt(utxos, order[i])
  {
    assert order[..i + 1][..i] == order[..i];
  }

  /** A walk that has run out of outputs or covered the amount has taken exactly `TakeCount` outputs. */
  lemma WalkStops(order: seq<OutPoint>, utxos: map<OutPoint, TxOut>, amount: nat, i: nat)
    requires i <= TakeCount(order, utxos, amount)
    requires i == |order| || ValueOf(order[..i], utxos) >= amount
    ensures i == TakeCount(order, utxos, amount)
  {
  }

  /** Within the signed range the code as written and the selection agree. */
  lemma AsWrittenAgreesInRange(utxos: map<OutPoint, TxOut>, order: seq<OutPoint>, amount: nat, publicKey: PublicKey, address: Address)
    requires amount <= I64Max
    ensures SelectAsWritten(utxos, order, amount, publicKey, address) == Select(utxos, order, amount, publicKey, address)
  {
    assert order[..0] == [];
    WalkAsWrittenTracksSelect(order, utxos, amount, 0);
  }

  /**
    Every amount beyond the signed range, other than 2^63 itself, is granted
    with nothing taken and change 2^64 minus the amount, whatever the balance.
  */
  lemma HugeAmountsGranted(utxos: map<OutPoint, TxOut>, order: seq<OutPoint>, amount: nat, publicKey: PublicKey, address: Address)
    requires I64Max + 1 < amount < U64Modulus
    ensures SelectAsWritten(utxos, order, amount, publicKey, address) == Some((map[], U64Modulus - amount))
  {
    assert order[..0] == [];
  }

  /**
    An empty wallet asked for the largest unsigned amount: the code grants it
    with change 1, where the selection reports a shortfall.
  */
  lemma HugeAmountAsWritten(publicKey: PublicKey, address: Address)
    ensures SelectAsWritten(map[], [], U64Modulus - 1, publicKey, address) == Some((map[], 1))
    ensures Select(map[], [], U64Modulus - 1, publicKey, address).None?
  {
    assert TakeCount([], map[], U64Modulus - 1) == 0;
  }

  // ---------------------------------------------------------------------
  // The wallet

  class SingleKeyWallet {
    const privateKey: PrivateKey
    const publicKey: PublicKey
    const address: Address
    /** The spendable outputs, guarded by a lock in the wallet (one atomic step here). */
    var utxos: map<OutPoint, TxOut>

    constructor (privateKey: PrivateKey, publicKey: PublicKey, address: Address, utxos: map<OutPoint, TxOut>)
      ensures this.privateKey == privateKey && this.publicKey == publicKey
      ensures this.address == address && this.utxos == utxos
    {
      this.privateKey := privateKey;
      this.publicKey := publicKey;
      this.address := address;
      this.utxos := utxos;
    }

    /** The balance, as the fold over the map in its iteration order `order`. */
    function Balance(order: seq<OutPoint>): (b: nat)
      reads this
      requires Enumerates(order, utxos)
      ensures b == TotalValue(utxos)
    {
      BalanceOfEnumeration(order, utxos);
      ValueOf(order, utxos)
    }

    /** Change is paid back to the wallet's own address. */
    function ChangeAddress(): (a: Address)
      ensures a == address
    {
      address
    }

    /** The wallet's key; asking for any other address than its own panics. */
    function PrivateKeyForAddress(a: Address): (k: PrivateKey)
      requires a == address
      ensures k == privateKey
    {
      privateKey
    }

    /**
      Walks the outputs in `order`, taking outputs until they cover `amount`.
      On a shortfall nothing is removed; otherwise exactly the taken outputs
      are removed and returned with the change.
    */
    method TakeUnspentUtxosFor(amount: nat, order: seq<OutPoint>) returns (r: Option<(Selection, nat)>)
      requires Enumerates(order, utxos)
      requires amount <= I64Max && TotalValue(utxos) <= I64Max
      modifies this
      ensures r == Select(old(utxos), order, amount, publicKey, address)
      ensures utxos == if r.Some? then old(utxos) - r.value.0.Keys else old(utxos)
    {
      var n, required, taken := Walk(amount, order);
      WalkEnds(order, utxos, amount, n, publicKey, address);
      if required > 0 {
        return None;
      }
      RemoveOutputs(taken.Keys);
      r := Some((taken, -required));
    }

    /**
      The selection loop: walks the outputs in `order`, stopping as soon as
      the signed counter, which starts at `amount` and drops by each taken
      output's value, is no longer positive. Returns how many outputs it
      took, the final counter, and the taken entries; the counter stays in
      the signed 64-bit range throughout.
    */
    method Walk(amount: nat, order: seq<OutPoint>) returns (n: nat, required: int, taken: Selection)
      requires Enumerates(order, utxos)
      requires amount <= I64Max && TotalValue(utxos) <= I64Max
      ensures n == TakeCount(order, utxos, amount)
      ensures required == amount - ValueOf(order[..n], utxos)
      ensures I64Min <= required <= I64Max
      ensures taken == TakenMap(order[..n], utxos, publicKey, address)
    {
      BalanceOfEnumeration(order, utxos);
      required := amount;
      taken := map[];
      n := 0;
      while n < |order|
        invariant n <= TakeCount(order, utxos, amount)
        invariant required == amount - ValueOf(order[..n], utxos)
        invariant I64Min <= required <= I64Max
        invariant taken == TakenMap(order[..n], utxos, publicKey, address)
      {
        if required <= 0 {
          break;
        }
        var outpoint := order[n];
        WalkContinues(order, utxos, amount, n);
        WalkStep(order, utxos, n, publicKey, address);
        required := required - utxos[outpoint].value;
        taken := taken[outpoint := TakenOutput(utxos[outpoint], publicKey, address)];
        n := n + 1;
      }
      WalkEnds(order, utxos, amount, n, publicKey, address);
    }

    /** Removes each of `keys` from the outputs, one at a time. */
    method RemoveOutputs(keys: set<OutPoint>)
      modifies this
      ensures utxos == old(utxos) - keys
    {
      var pending := keys;
      while pending != {}
        invariant pending <= keys
        invariant utxos == old(utxos) - (keys - pending)
        decreases pending
      {
        var outpoint :| outpoint in pending;
        utxos := utxos - {outpoint};
        pending := pending - {outpoint};
      }
    }

    /**
      Builds the asset-lock transaction for `amount`: a burn output to the
      one-time key's hash, a change output to the wallet's own address, and an
      asset-lock payload with one fixed credit output. `oneTimeKey` and
      `oneTimeKeyHash` stand for the freshly generated key and the hash of its
      public key.
    */
    method RegistrationTransaction(amount: nat, oneTimeKey: PrivateKey, oneTimeKeyHash: PubkeyHash, order: seq<OutPoint>)
      returns (r: Result<(Transaction, PrivateKey), WalletError>)
      requires Enumerates(order, utxos)
      requires amount <= I64Max && TotalValue(utxos) <= I64Max
      modifies this
      ensures var selection := Select(old(utxos), order, amount, publicKey, address);
        && (selection.None? <==> TotalValue(old(utxos)) < amount)
        && (selection.None? ==> r == Err(WalletError(NotEnoughBalance)) && utxos == old(utxos))
        && (selection.Some? ==>
              && utxos == old(utxos) - selection.value.0.Keys
              && r == Ok((LockTransaction(amount, oneTimeKeyHash, selection.value.1, address), oneTimeKey))
              && r.value.0.version == LockTransactionVersion
              && r.value.0.lockTime == 0
              && r.value.0.output == [TxOut(amount, P2pkh(oneTimeKeyHash)), TxOut(selection.value.1, ScriptPubkey(address))]
              && r.value.0.specialTransactionPayload
                 == Some(AssetLockPayloadType(AssetLockPayload(AssetLockPayloadVersion, [TxOut(CreditOutputValue, OpReturn([]))]))))
    {
      SelectFailsIffShort(old(utxos), order, amount, publicKey, address);
      var selection := TakeUnspentUtxosFor(amount, order);
      if selection.None? {
        return Err(WalletError(NotEnoughBalance));
      }
      var change := selection.value.1;
      var tx := LockTransaction(amount, oneTimeKeyHash, change, ChangeAddress());
      r := Ok((tx, oneTimeKey));
    }
  }

  /**
    The two outputs of a lock transaction built from a selection spend
    exactly the value of the taken outputs: the burn takes `amount`, the
    change the rest. The credit output in the payload is not funded by them.
  */
  lemma LockOutputsSpendTakenValue(
    utxos: map<OutPoint, TxOut>, order: seq<OutPoint>, amount: nat,
    publicKey: PublicKey, address: Address, oneTimeKeyHash: PubkeyHash)
    requires Enumerates(order, utxos)
    ensures match Select(utxos, order, amount, publicKey, address)
      case None => true
      case Some((taken, change)) =>
        var tx := LockTransaction(amount, oneTimeKeyHash, change, address);
        tx.output[0].value + tx.output[1].value == TakenValue(taken)
  {
    SelectCovers(utxos, order, amount, publicKey, address);
  }
}
