/** The incremental UTXO index of src/blockchain/utxo.go: for every address
    the list of outputs it can still spend, and the reverse map from an
    output's identity to its address. The maps are described first as values
    (`Index` and the functions over it), then the `UtxoSet` class updates them
    in place and is proved to follow those functions. */
module Utxo {
  import opened Wrappers
  import opened Numeric
  import opened Transaction
  import opened Blocks

  /** `UnspentTXO`: output `txOutputIdx` of transaction `sourceTxId`, worth
      `value`. */
  datatype UnspentTxo = UnspentTxo(sourceTxId: seq<byte>, txOutputIdx: int, value: int)

  function KeyOf(u: UnspentTxo): UtxoKey {
    UtxoKey(u.sourceTxId, u.txOutputIdx)
  }

  /** Total value of a list of unspent outputs. */
  function ValueSum(l: seq<UnspentTxo>): int {
    if l == [] then 0 else ValueSum(l[..|l| - 1]) + l[|l| - 1].value
  }

  lemma {:induction false} ValueSumAppend(a: seq<UnspentTxo>, b: seq<UnspentTxo>)
    ensures ValueSum(a + b) == ValueSum(a) + ValueSum(b)
  {
    if b == [] {
      assert a + b == a;
    } else {
      ValueSumAppend(a, b[..|b| - 1]);
      assert (a + b)[..|a + b| - 1] == a + b[..|b| - 1];
    }
  }

  /** Overwriting one entry changes the total by the difference. */
  lemma {:induction false} ValueSumUpdate(l: seq<UnspentTxo>, t: int, x: UnspentTxo)
    requires 0 <= t < |l|
    ensures ValueSum(l[t := x]) == ValueSum(l) - l[t].value + x.value
  {
    var n := |l|;
    if t < n - 1 {
      ValueSumUpdate(l[..n - 1], t, x);
      assert l[t := x][..n - 1] == l[..n - 1][t := x];
    } else {
      assert l[t := x][..n - 1] == l[..n - 1];
    }
  }

  // ---- the two maps as a value ----

  /** `Addr2UTXO` and `UTXO2Addr`. */
  datatype Index = Index(addr2Utxo: map<Address, seq<UnspentTxo>>, utxo2Addr: map<UtxoKey, Address>)

  const EmptyIndex: Index := Index(map[], map[])

  /** `Addr2UTXO[addr]`, with Go's nil slice for a missing address. */
  function ListOf(ix: Index, addr: Address): seq<UnspentTxo> {
    if addr in ix.addr2Utxo then ix.addr2Utxo[addr] else []
  }

  /** `AddUTXO` on the value: `txo` goes to the end of `addr`'s list and its
      key now maps to `addr`; everything else stays. */
  function AddUtxo(ix: Index, addr: Address, txo: UnspentTxo): (r: Index)
    ensures ListOf(r, addr) == ListOf(ix, addr) + [txo]
    ensures forall a :: a != addr ==> ListOf(r, a) == ListOf(ix, a)
    ensures KeyOf(txo) in r.utxo2Addr && r.utxo2Addr[KeyOf(txo)] == addr
    ensures forall k :: k != KeyOf(txo) ==> (k in r.utxo2Addr <==> k in ix.utxo2Addr)
    ensures forall k :: k != KeyOf(txo) && k in ix.utxo2Addr ==> r.utxo2Addr[k] == ix.utxo2Addr[k]
  {
    Index(ix.addr2Utxo[addr := ListOf(ix, addr) + [txo]], ix.utxo2Addr[KeyOf(txo) := addr])
  }

  /** Position of the first entry with this key, or -1. */
  function FindIndex(l: seq<UnspentTxo>, key: UtxoKey): (r: int)
    ensures -1 <= r < |l|
    ensures r == -1 <==> forall i :: 0 <= i < |l| ==> KeyOf(l[i]) != key
    ensures r >= 0 ==> KeyOf(l[r]) == key && forall i :: 0 <= i < r ==> KeyOf(l[i]) != key
  {
    if l == [] then -1
    else if KeyOf(l[0]) == key then 0
    else
      var r := FindIndex(l[1..], key);
      if r == -1 then -1 else r + 1
  }

  /** `addr`'s list holds an entry with this key. */
  predicate Holds(ix: Index, addr: Address, key: UtxoKey) {
    FindIndex(ListOf(ix, addr), key) != -1
  }

  /** Overwrite slot t with the last entry and drop the last slot. */
  function SwapRemove(l: seq<UnspentTxo>, t: int): (r: seq<UnspentTxo>)
    requires 0 <= t < |l|
    ensures |r| == |l| - 1
    ensures multiset(r) + multiset{l[t]} == multiset(l)
    ensures ValueSum(r) == ValueSum(l) - l[t].value
  {
    SwapRemoveFacts(l, t);
    l[t := l[|l| - 1]][..|l| - 1]
  }

  lemma SwapRemoveFacts(l: seq<UnspentTxo>, t: int)
    requires 0 <= t < |l|
    ensures var r := l[t := l[|l| - 1]][..|l| - 1];
      multiset(r) + multiset{l[t]} == multiset(l) && ValueSum(r) == ValueSum(l) - l[t].value
  {
    SwapRemoveMultiset(l, t);
    SwapRemoveValue(l, t);
  }

  lemma SwapRemoveMultiset(l: seq<UnspentTxo>, t: int)
    requires 0 <= t < |l|
    ensures multiset(l[t := l[|l| - 1]][..|l| - 1]) + multiset{l[t]} == multiset(l)
  {
    if t == |l| - 1 {
      SwapRemoveLast(l);
    } else {
      SwapRemoveInner(l, t);
    }
  }

  lemma SwapRemoveLast(l: seq<UnspentTxo>)
    requires |l| > 0
    ensures multiset(l[..|l| - 1]) + multiset{l[|l| - 1]} == multiset(l)
  {
    assert l == l[..|l| - 1] + [l[|l| - 1]];
  }

  lemma SwapRemoveInner(l: seq<UnspentTxo>, t: int)
    requires 0 <= t < |l| - 1
    ensures multiset(l[t := l[|l| - 1]][..|l| - 1]) + multiset{l[t]} == multiset(l)
  {
    var n := |l|;
    var front, middle := l[..t], l[t + 1..n - 1];
    assert multiset(l[t := l[n - 1]][..n - 1]) == multiset(front) + multiset{l[n - 1]} + multiset(middle) by {
      assert l[t := l[n - 1]][..n - 1] == front + [l[n - 1]] + middle;
    }
    assert multiset(l) == multiset(front) + multiset{l[t]} + multiset(middle) + multiset{l[n - 1]} by {
      assert l == front + [l[t]] + middle + [l[n - 1]];
    }
  }

  lemma SwapRemoveValue(l: seq<UnspentTxo>, t: int)
    requires 0 <= t < |l|
    ensures ValueSum(l[t := l[|l| - 1]][..|l| - 1]) == ValueSum(l) - l[t].value
  {
    ValueSumUpdate(l, t, l[|l| - 1]);
    ValueSumLast(l[t := l[|l| - 1]]);
  }

  lemma ValueSumLast(l: seq<UnspentTxo>)
    requires |l| > 0
    ensures ValueSum(l) == ValueSum(l[..|l| - 1]) + l[|l| - 1].value
  {
  }

  /** `DeleteUTXO` on the value, for a key that `addr`'s list holds: the first
      entry with that key is swapped out, and the key leaves the reverse map. */
  function DeleteUtxo(ix: Index, addr: Address, key: UtxoKey): (r: Index)
    requires Holds(ix, addr, key)
    ensures |ListOf(r, addr)| == |ListOf(ix, addr)| - 1
    ensures var t := FindIndex(ListOf(ix, addr), key);
      KeyOf(ListOf(ix, addr)[t]) == key
      && multiset(ListOf(r, addr)) + multiset{ListOf(ix, addr)[t]} == multiset(ListOf(ix, addr))
    ensures forall a :: a != addr ==> ListOf(r, a) == ListOf(ix, a)
    ensures key !in r.utxo2Addr
    ensures forall k :: k != key ==> (k in r.utxo2Addr <==> k in ix.utxo2Addr)
    ensures forall k :: k != key && k in ix.utxo2Addr ==> r.utxo2Addr[k] == ix.utxo2Addr[k]
  {
    var l := ListOf(ix, addr);
    Index(ix.addr2Utxo[addr := SwapRemove(l, FindIndex(l, key))], ix.utxo2Addr - {key})
  }

  // ---- total value held by the index ----

  /** Sum of the values of every list in the map. */
  ghost function MapTotal(m: map<Address, seq<UnspentTxo>>): int
    decreases |m|
  {
    if m == map[] then 0
    else
      assert exists a :: a in m by {
        var a :| a in m.Keys;
      }
      var a :| a in m;
      ValueSum(m[a]) + MapTotal(m - {a})
  }

  lemma {:induction false} MapTotalRemove(m: map<Address, seq<UnspentTxo>>, a: Address)
    requires a in m
    ensures MapTotal(m) == ValueSum(m[a]) + MapTotal(m - {a})
    decreases |m|
  {
    var c :| c in m && MapTotal(m) == ValueSum(m[c]) + MapTotal(m - {c});
    if c != a {
      MapTotalRemove(m - {c}, a);
      MapTotalRemove(m - {a}, c);
      assert m - {c} - {a} == m - {a} - {c};
    }
  }

  lemma MapTotalUpdate(m: map<Address, seq<UnspentTxo>>, a: Address, v: seq<UnspentTxo>)
    ensures MapTotal(m[a := v]) == MapTotal(m) - (if a in m then ValueSum(m[a]) else 0) + ValueSum(v)
  {
    MapTotalRemove(m[a := v], a);
    if a in m {
      MapTotalRemove(m, a);
      assert m[a := v] - {a} == m - {a};
    } else {
      assert m[a := v] - {a} == m;
    }
  }

  ghost function Total(ix: Index): int {
    MapTotal(ix.addr2Utxo)
  }

  lemma AddUtxoTotal(ix: Index, addr: Address, txo: UnspentTxo)
    ensures Total(AddUtxo(ix, addr, txo)) == Total(ix) + txo.value
  {
    MapTotalUpdate(ix.addr2Utxo, addr, ListOf(ix, addr) + [txo]);
    ValueSumAppend(ListOf(ix, addr), [txo]);
    assert [txo][..0] == [];
  }

  lemma DeleteUtxoTotal(ix: Index, addr: Address, key: UtxoKey)
    requires Holds(ix, addr, key)
    ensures Total(DeleteUtxo(ix, addr, key)) == Total(ix) - ListOf(ix, addr)[FindIndex(ListOf(ix, addr), key)].value
  {
    var l := ListOf(ix, addr);
    MapTotalUpdate(ix.addr2Utxo, addr, SwapRemove(l, FindIndex(l, key)));
  }

  // ---- applying a block: the sequence of single edits DumpBlock makes ----

  /** One edit of the index: delete the output with this key from the list of
      whatever address the reverse map names for it, or add an output. */
  datatype Edit = Remove(key: UtxoKey) | Put(addr: Address, txo: UnspentTxo)

  /** The deletions for a transaction's inputs, in input order. */
  function InputEdits(ins: seq<TxInput>): (r: seq<Edit>)
    ensures |r| == |ins|
    ensures forall j :: 0 <= j < |ins| ==> r[j] == Remove(InputKey(ins[j]))
  {
    if ins == [] then [] else [Remove(InputKey(ins[0]))] + InputEdits(ins[1..])
  }

  /** The additions for outputs k.. of transaction `txId`: output k is indexed
      as (txId, k, value) under its address. */
  function OutputEdits(txId: seq<byte>, outs: seq<TxOutput>, k: nat): (r: seq<Edit>)
    requires k <= |outs|
    ensures |r| == |outs| - k
    ensures forall j :: 0 <= j < |r| ==> r[j] == Put(outs[k + j].address, UnspentTxo(txId, k + j, outs[k + j].value))
    decreases |outs| - k
  {
    if k == |outs| then []
    else [Put(outs[k].address, UnspentTxo(txId, k, outs[k].value))] + OutputEdits(txId, outs, k + 1)
  }

  /** One transaction: first its inputs are deleted, then its outputs added. */
  function TxEdits(tx: Transaction): seq<Edit> {
    InputEdits(tx.inputs) + OutputEdits(tx.txId, tx.outputs, 0)
  }

  function BlockEdits(txs: seq<Transaction>): seq<Edit> {
    if txs == [] then [] else TxEdits(txs[0]) + BlockEdits(txs[1..])
  }

  /** Applying one edit. A deletion looks its address up in the reverse map,
      where Go reads the empty string for a missing key, and then needs the
      key in that address's list: otherwise `DeleteUTXO` indexes slot -1 and
      panics, which is None here. */
  function Step(ix: Index, e: Edit): (r: Option<Index>)
    ensures e.Put? ==> r == Some(AddUtxo(ix, e.addr, e.txo))
    ensures e.Remove? ==> (r.Some? <==> Holds(ix, Owner(ix, e.key), e.key))
  {
    match e
    case Put(addr, txo) => Some(AddUtxo(ix, addr, txo))
    case Remove(key) =>
      var addr := Owner(ix, key);
      if Holds(ix, addr, key) then Some(DeleteUtxo(ix, addr, key)) else None
  }

  /** `UTXO2Addr[key]`, with Go's empty string for a missing key. */
  function Owner(ix: Index, key: UtxoKey): Address {
    if key in ix.utxo2Addr then ix.utxo2Addr[key] else []
  }

  /** Applying edits front to back; None once one of them panics. */
  function Apply(ix: Index, edits: seq<Edit>): Option<Index>
    decreases |edits|
  {
    if edits == [] then Some(ix)
    else
      match Step(ix, edits[0])
      case None => None
      case Some(next) => Apply(next, edits[1..])
  }

  /** `DumpBlock` on the value: the index after the block, None when the
      source panics. */
  function Dump(ix: Index, txs: seq<Transaction>): Option<Index> {
    Apply(ix, BlockEdits(txs))
  }

  lemma ApplyCons(ix: Index, e: Edit, rest: seq<Edit>)
    ensures Apply(ix, [e] + rest) == match Step(ix, e) case None => None case Some(n) => Apply(n, rest)
  {
    assert ([e] + rest)[0] == e;
    assert ([e] + rest)[1..] == rest;
  }

  lemma {:induction false} ApplyAppend(ix: Index, a: seq<Edit>, b: seq<Edit>)
    ensures Apply(ix, a + b) == match Apply(ix, a) case None => None case Some(n) => Apply(n, b)
    decreases |a|
  {
    if a == [] {
      assert a + b == b;
    } else {
      assert (a + b)[0] == a[0];
      assert (a + b)[1..] == a[1..] + b;
      match Step(ix, a[0]) {
        case None =>
        case Some(n) => ApplyAppend(n, a[1..], b);
      }
    }
  }

  lemma BlockEditsSplit(txs: seq<Transaction>, i: int)
    requires 0 <= i < |txs|
    ensures BlockEdits(txs[i..]) == TxEdits(txs[i]) + BlockEdits(txs[i + 1..])
    ensures BlockEdits(txs[i..]) == InputEdits(txs[i].inputs) + (OutputEdits(txs[i].txId, txs[i].outputs, 0) + BlockEdits(txs[i + 1..]))
  {
    assert txs[i..][0] == txs[i];
    assert txs[i..][1..] == txs[i + 1..];
  }

  lemma {:induction false} BlockEditsPrefix(txs: seq<Transaction>, i: int)
    requires 0 <= i <= |txs|
    ensures BlockEdits(txs) == BlockEdits(txs[..i]) + BlockEdits(txs[i..])
  {
    if i > 0 {
      BlockEditsPrefix(txs[1..], i - 1);
      assert txs[1..][..i - 1] == txs[..i][1..];
      assert txs[1..][i - 1..] == txs[i..];
      assert txs[..i][0] == txs[0];
    } else {
      assert txs[i..] == txs;
    }
  }

  /** Where transaction i's edits sit in the block's edits. */
  lemma BlockEditsAt(txs: seq<Transaction>, i: int)
    requires 0 <= i < |txs|
    ensures BlockEdits(txs) == BlockEdits(txs[..i]) + InputEdits(txs[i].inputs)
                               + OutputEdits(txs[i].txId, txs[i].outputs, 0) + BlockEdits(txs[i + 1..])
  {
    var before, ins, outs, after := BlockEdits(txs[..i]), InputEdits(txs[i].inputs),
                                    OutputEdits(txs[i].txId, txs[i].outputs, 0), BlockEdits(txs[i + 1..]);
    BlockEditsPrefix(txs, i);
    BlockEditsSplit(txs, i);
    assert BlockEdits(txs) == before + ((ins + outs) + after);
    Regroup(before, ins, outs, after);
  }

  lemma Regroup(a: seq<Edit>, b: seq<Edit>, c: seq<Edit>, d: seq<Edit>)
    ensures a + ((b + c) + d) == a + b + c + d
  {
  }

  /** Indexing into four concatenated edit sequences. */
  lemma Concat4At(a: seq<Edit>, b: seq<Edit>, c: seq<Edit>, d: seq<Edit>, j: int)
    requires 0 <= j < |a| + |b| + |c| + |d|
    ensures (a + b + c + d)[j] ==
      if j < |a| then a[j]
      else if j < |a| + |b| then b[j - |a|]
      else if j < |a| + |b| + |c| then c[j - |a| - |b|]
      else d[j - |a| - |b| - |c|]
  {
  }

  /** Every deletion in the edits of transactions i.. comes from one of their
      inputs. */
  lemma {:induction false} BlockEditsRemoves(txs: seq<Transaction>, i: int, j: int)
    requires 0 <= i < |txs|
    requires 0 <= j < |BlockEdits(txs[i..])| && BlockEdits(txs[i..])[j].Remove?
    ensures exists t, m :: i <= t < |txs| && 0 <= m < |txs[t].inputs| && InputKey(txs[t].inputs[m]) == BlockEdits(txs[i..])[j].key
    decreases |txs| - i
  {
    BlockEditsSplit(txs, i);
    var e := TxEdits(txs[i]);
    var ins := InputEdits(txs[i].inputs);
    if j < |ins| {
      assert BlockEdits(txs[i..])[j] == ins[j];
      assert InputKey(txs[i].inputs[j]) == BlockEdits(txs[i..])[j].key;
    } else if j >= |e| {
      assert BlockEdits(txs[i..])[j] == BlockEdits(txs[i + 1..])[j - |e|];
      if i + 1 < |txs| {
        BlockEditsRemoves(txs, i + 1, j - |e|);
      }
    }
  }

  /** Every addition in the edits of transactions i.. is output k of one of
      them. */
  lemma {:induction false} BlockEditsPuts(txs: seq<Transaction>, i: int, j: int)
    requires 0 <= i < |txs|
    requires 0 <= j < |BlockEdits(txs[i..])| && BlockEdits(txs[i..])[j].Put?
    ensures exists t, k :: i <= t < |txs| && 0 <= k < |txs[t].outputs| && KeyOf(BlockEdits(txs[i..])[j].txo) == UtxoKey(txs[t].txId, k)
    decreases |txs| - i
  {
    BlockEditsSplit(txs, i);
    var e := TxEdits(txs[i]);
    var ins := InputEdits(txs[i].inputs);
    if |ins| <= j < |e| {
      var k := j - |ins|;
      assert BlockEdits(txs[i..])[j] == OutputEdits(txs[i].txId, txs[i].outputs, 0)[k];
      assert KeyOf(BlockEdits(txs[i..])[j].txo) == UtxoKey(txs[i].txId, k);
    } else if j >= |e| {
      assert BlockEdits(txs[i..])[j] == BlockEdits(txs[i + 1..])[j - |e|];
      if i + 1 < |txs| {
        BlockEditsPuts(txs, i + 1, j - |e|);
      }
    }
  }

  /** An entry that no later edit deletes by key stays in its list. */
  lemma {:induction false} ApplyKeepsEntry(ix: Index, edits: seq<Edit>, a: Address, u: UnspentTxo)
    requires u in ListOf(ix, a)
    requires forall j :: 0 <= j < |edits| ==> edits[j] != Remove(KeyOf(u))
    requires Apply(ix, edits).Some?
    ensures u in ListOf(Apply(ix, edits).value, a)
    decreases |edits|
  {
    if edits != [] {
      var e := edits[0];
      var next := Step(ix, e).value;
      if e.Remove? && Owner(ix, e.key) == a {
        var l := ListOf(ix, a);
        var removed := l[FindIndex(l, e.key)];
        assert e != Remove(KeyOf(u));
        assert removed != u;
        assert multiset(ListOf(next, a)) + multiset{removed} == multiset(l);
        assert u in multiset(l);
        assert u in multiset(ListOf(next, a));
      }
      assert u in ListOf(next, a);
      ApplyKeepsEntry(next, edits[1..], a, u);
    }
  }

  /** An addition that no later edit deletes by key is in the final index. */
  lemma {:induction false} ApplyPutKept(ix: Index, edits: seq<Edit>, p: int)
    requires 0 <= p < |edits| && edits[p].Put?
    requires forall j :: p < j < |edits| ==> edits[j] != Remove(KeyOf(edits[p].txo))
    requires Apply(ix, edits).Some?
    ensures edits[p].txo in ListOf(Apply(ix, edits).value, edits[p].addr)
    decreases p
  {
    var next := Step(ix, edits[0]).value;
    if p == 0 {
      ApplyKeepsEntry(next, edits[1..], edits[0].addr, edits[0].txo);
    } else {
      ApplyPutKept(next, edits[1..], p - 1);
    }
  }

  /** A key missing from the reverse map stays missing unless re-added. */
  lemma {:induction false} ApplyKeepsAbsent(ix: Index, edits: seq<Edit>, key: UtxoKey, final: Index)
    requires key !in ix.utxo2Addr
    requires forall j :: 0 <= j < |edits| ==> !(edits[j].Put? && KeyOf(edits[j].txo) == key)
    requires Apply(ix, edits) == Some(final)
    ensures key !in final.utxo2Addr
    decreases |edits|
  {
    if edits != [] {
      ApplyFront(ix, edits);
      ApplyKeepsAbsent(Step(ix, edits[0]).value, edits[1..], key, final);
    }
  }

  /** A deletion whose key no later edit re-adds leaves the key out of the
      final reverse map. */
  lemma ApplyRemoveGone(ix: Index, edits: seq<Edit>, p: int, final: Index)
    requires 0 <= p < |edits| && edits[p].Remove?
    requires forall j :: p < j < |edits| ==> !(edits[j].Put? && KeyOf(edits[j].txo) == edits[p].key)
    requires Apply(ix, edits) == Some(final)
    ensures edits[p].key !in final.utxo2Addr
  {
    ApplySplitAt(ix, edits, p, final);
    SuffixNoPut(edits, p);
    FirstRemoveGone(Apply(ix, edits[..p]).value, edits[p..], final);
  }

  /** A run of edits that ends in `final` passes through the state after
      its first p edits. */
  lemma ApplySplitAt(ix: Index, edits: seq<Edit>, p: int, final: Index)
    requires 0 <= p <= |edits| && Apply(ix, edits) == Some(final)
    ensures Apply(ix, edits[..p]).Some?
    ensures Apply(Apply(ix, edits[..p]).value, edits[p..]) == Some(final)
  {
    assert edits[..p] + edits[p..] == edits;
    ApplyAppend(ix, edits[..p], edits[p..]);
  }

  /** No edit after position p adds the key edit p removes, seen from the
      suffix starting at p. */
  lemma SuffixNoPut(edits: seq<Edit>, p: int)
    requires 0 <= p < |edits| && edits[p].Remove?
    requires forall j :: p < j < |edits| ==> !(edits[j].Put? && KeyOf(edits[j].txo) == edits[p].key)
    ensures var after := edits[p..];
      after[0].Remove? && forall j :: 0 < j < |after| ==> !(after[j].Put? && KeyOf(after[j].txo) == after[0].key)
  {
    var after := edits[p..];
    assert after[0] == edits[p];
    assert forall j :: 0 < j < |after| ==> after[j] == edits[p + j];
  }

  /** A run of edits that does not panic takes its first step, then the
      rest. */
  lemma ApplyFront(ix: Index, edits: seq<Edit>)
    requires edits != [] && Apply(ix, edits).Some?
    ensures Step(ix, edits[0]).Some?
    ensures Apply(ix, edits) == Apply(Step(ix, edits[0]).value, edits[1..])
  {
  }

  lemma FirstRemoveGone(ix: Index, edits: seq<Edit>, final: Index)
    requires 0 < |edits| && edits[0].Remove?
    requires forall j :: 0 < j < |edits| ==> !(edits[j].Put? && KeyOf(edits[j].txo) == edits[0].key)
    requires Apply(ix, edits) == Some(final)
    ensures edits[0].key !in final.utxo2Addr
  {
    ApplyFront(ix, edits);
    RemovedKeyAbsent(ix, edits[0].key);
    ShiftedNoPut(edits, 0, edits[0].key);
    ApplyKeepsAbsent(Step(ix, edits[0]).value, edits[1..], edits[0].key, final);
  }

  lemma RemovedKeyAbsent(ix: Index, key: UtxoKey)
    requires Step(ix, Remove(key)).Some?
    ensures key !in Step(ix, Remove(key)).value.utxo2Addr
  {
  }

  lemma ShiftedNoPut(edits: seq<Edit>, p: int, key: UtxoKey)
    requires 0 <= p < |edits|
    requires forall j :: p < j < |edits| ==> !(edits[j].Put? && KeyOf(edits[j].txo) == key)
    ensures forall j :: p <= j < |edits[1..]| ==> !(edits[1..][j].Put? && KeyOf(edits[1..][j].txo) == key)
  {
    assert forall j :: p <= j < |edits[1..]| ==> edits[1..][j] == edits[j + 1];
  }

  /** No transaction after i in the block spends output k of transaction i. */
  predicate NotSpentLater(txs: seq<Transaction>, i: int, k: int)
    requires 0 <= i < |txs|
  {
    forall t, m :: i < t < |txs| && 0 <= m < |txs[t].inputs| ==> InputKey(txs[t].inputs[m]) != UtxoKey(txs[i].txId, k)
  }

  /** After `DumpBlock`, output k of transaction i is indexed under its
      address as (TxID, k, Value), unless a later transaction of the block
      spends it. */
  lemma DumpIndexesOutputs(ix: Index, txs: seq<Transaction>, i: int, k: int)
    requires Dump(ix, txs).Some?
    requires 0 <= i < |txs| && 0 <= k < |txs[i].outputs|
    requires NotSpentLater(txs, i, k)
    ensures UnspentTxo(txs[i].txId, k, txs[i].outputs[k].value) in ListOf(Dump(ix, txs).value, txs[i].outputs[k].address)
  {
    var p := |BlockEdits(txs[..i])| + |txs[i].inputs| + k;
    var edits := BlockEdits(txs);
    var out := UnspentTxo(txs[i].txId, k, txs[i].outputs[k].value);
    OutputEditAt(txs, i, k);
    assert edits[p] == Put(txs[i].outputs[k].address, out);
    LaterEditsKeepOutput(txs, i, k);
    ApplyPutKept(ix, edits, p);
  }

  /** Output k of transaction i is added by the edit after those of the
      earlier transactions, the inputs of transaction i and its outputs
      before k. */
  lemma OutputEditAt(txs: seq<Transaction>, i: int, k: int)
    requires 0 <= i < |txs| && 0 <= k < |txs[i].outputs|
    ensures var p := |BlockEdits(txs[..i])| + |txs[i].inputs| + k;
      p < |BlockEdits(txs)|
      && BlockEdits(txs)[p] == Put(txs[i].outputs[k].address, UnspentTxo(txs[i].txId, k, txs[i].outputs[k].value))
  {
    var before, ins, outs, later := BlockEdits(txs[..i]), InputEdits(txs[i].inputs),
                                    OutputEdits(txs[i].txId, txs[i].outputs, 0), BlockEdits(txs[i + 1..]);
    BlockEditsAt(txs, i);
    Concat4At(before, ins, outs, later, |before| + |ins| + k);
  }

  /** No edit after the addition of output k of transaction i deletes it. */
  lemma LaterEditsKeepOutput(txs: seq<Transaction>, i: int, k: int)
    requires 0 <= i < |txs| && 0 <= k < |txs[i].outputs|
    requires NotSpentLater(txs, i, k)
    ensures forall j :: |BlockEdits(txs[..i])| + |txs[i].inputs| + k < j < |BlockEdits(txs)| ==>
      BlockEdits(txs)[j] != Remove(UtxoKey(txs[i].txId, k))
  {
    forall j | |BlockEdits(txs[..i])| + |txs[i].inputs| + k < j < |BlockEdits(txs)|
      ensures BlockEdits(txs)[j] != Remove(UtxoKey(txs[i].txId, k))
    {
      LaterEditKeepsOutput(txs, i, k, j);
    }
  }

  /** No edit after the addition of output k of transaction i deletes it,
      when no later transaction spends it. */
  lemma LaterEditKeepsOutput(txs: seq<Transaction>, i: int, k: int, j: int)
    requires 0 <= i < |txs| && 0 <= k < |txs[i].outputs|
    requires NotSpentLater(txs, i, k)
    requires |BlockEdits(txs[..i])| + |txs[i].inputs| + k < j < |BlockEdits(txs)|
    ensures BlockEdits(txs)[j] != Remove(UtxoKey(txs[i].txId, k))
  {
    var before, ins, outs, later := BlockEdits(txs[..i]), InputEdits(txs[i].inputs),
                                    OutputEdits(txs[i].txId, txs[i].outputs, 0), BlockEdits(txs[i + 1..]);
    BlockEditsAt(txs, i);
    Concat4At(before, ins, outs, later, j);
    var late := |before| + |ins| + |outs|;
    if j >= late && later[j - late] == Remove(UtxoKey(txs[i].txId, k)) {
      BlockEditsRemoves(txs, i + 1, j - late);
    }
  }

  /** After `DumpBlock`, the output an input of transaction i spends has left
      the reverse map, unless this or a later transaction of the block
      produces an output with the same key. */
  lemma DumpRemovesInputs(ix: Index, txs: seq<Transaction>, i: int, m: int)
    requires Dump(ix, txs).Some?
    requires 0 <= i < |txs| && 0 <= m < |txs[i].inputs|
    requires forall t, k :: i <= t < |txs| && 0 <= k < |txs[t].outputs| ==> UtxoKey(txs[t].txId, k) != InputKey(txs[i].inputs[m])
    ensures InputKey(txs[i].inputs[m]) !in Dump(ix, txs).value.utxo2Addr
  {
    var edits := BlockEdits(txs);
    var before, ins, outs, later := BlockEdits(txs[..i]), InputEdits(txs[i].inputs),
                                    OutputEdits(txs[i].txId, txs[i].outputs, 0), BlockEdits(txs[i + 1..]);
    BlockEditsAt(txs, i);
    var p := |before| + m;
    Concat4At(before, ins, outs, later, p);
    forall j | p < j < |edits|
      ensures !(edits[j].Put? && KeyOf(edits[j].txo) == InputKey(txs[i].inputs[m]))
    {
      LaterEditNoReAdd(txs, i, m, j);
    }
    ApplyRemoveGone(ix, edits, p, Dump(ix, txs).value);
  }

  /** No edit after the deletion for input m of transaction i adds its key
      back, when neither this nor a later transaction produces that key. */
  lemma LaterEditNoReAdd(txs: seq<Transaction>, i: int, m: int, j: int)
    requires 0 <= i < |txs| && 0 <= m < |txs[i].inputs|
    requires forall t, k :: i <= t < |txs| && 0 <= k < |txs[t].outputs| ==> UtxoKey(txs[t].txId, k) != InputKey(txs[i].inputs[m])
    requires |BlockEdits(txs[..i])| + m < j < |BlockEdits(txs)|
    ensures !(BlockEdits(txs)[j].Put? && KeyOf(BlockEdits(txs)[j].txo) == InputKey(txs[i].inputs[m]))
  {
    var before, ins, outs, later := BlockEdits(txs[..i]), InputEdits(txs[i].inputs),
                                    OutputEdits(txs[i].txId, txs[i].outputs, 0), BlockEdits(txs[i + 1..]);
    BlockEditsAt(txs, i);
    Concat4At(before, ins, outs, later, j);
    var base := |before| + |ins|;
    var late := base + |outs|;
    if base <= j < late {
      assert KeyOf(outs[j - base].txo) == UtxoKey(txs[i].txId, j - base);
    } else if j >= late && later[j - late].Put? && KeyOf(later[j - late].txo) == InputKey(txs[i].inputs[m]) {
      BlockEditsPuts(txs, i + 1, j - late);
    }
  }

  /** The first remaining input's deletion, taken off the front. */
  lemma RemoveFirst(ix: Index, ins: seq<TxInput>, j: int, rest: seq<Edit>)
    requires 0 <= j < |ins|
    requires Apply(ix, InputEdits(ins[j..]) + rest).Some?
    ensures var key := InputKey(ins[j]);
      && Holds(ix, Owner(ix, key), key)
      && Apply(ix, InputEdits(ins[j..]) + rest) == Apply(DeleteUtxo(ix, Owner(ix, key), key), InputEdits(ins[j + 1..]) + rest)
  {
    var key := InputKey(ins[j]);
    var tail := InputEdits(ins[j + 1..]) + rest;
    InputEditsCons(ins, j, rest);
    ApplyCons(ix, Remove(key), tail);
  }

  lemma InputEditsCons(ins: seq<TxInput>, j: int, rest: seq<Edit>)
    requires 0 <= j < |ins|
    ensures InputEdits(ins[j..]) + rest == [Remove(InputKey(ins[j]))] + (InputEdits(ins[j + 1..]) + rest)
  {
    assert ins[j..][0] == ins[j] && ins[j..][1..] == ins[j + 1..];
  }

  /** The next output's addition, taken off the front. */
  lemma PutFirst(ix: Index, txId: seq<byte>, outs: seq<TxOutput>, k: nat, rest: seq<Edit>)
    requires k < |outs|
    ensures Apply(ix, OutputEdits(txId, outs, k) + rest)
         == Apply(AddUtxo(ix, outs[k].address, UnspentTxo(txId, k, outs[k].value)), OutputEdits(txId, outs, k + 1) + rest)
  {
    var e := Put(outs[k].address, UnspentTxo(txId, k, outs[k].value));
    var tail := OutputEdits(txId, outs, k + 1) + rest;
    assert OutputEdits(txId, outs, k) + rest == [e] + tail;
    ApplyCons(ix, e, tail);
  }

  // ---- value conservation across a block ----

  /** The keys the deletions among the edits name, in order. */
  function RemoveKeys(edits: seq<Edit>): seq<UtxoKey> {
    if edits == [] then []
    else (if edits[0].Remove? then [edits[0].key] else []) + RemoveKeys(edits[1..])
  }

  /** Total value the additions among the edits bring in. */
  function PutSum(edits: seq<Edit>): int {
    if edits == [] then 0
    else (if edits[0].Put? then edits[0].txo.value else 0) + PutSum(edits[1..])
  }

  /** The entry one edit takes out of the index: none for an addition. */
  ghost function StepRemoved(ix: Index, e: Edit): seq<UnspentTxo>
    requires Step(ix, e).Some?
  {
    if e.Remove? then var l := ListOf(ix, Owner(ix, e.key)); [l[FindIndex(l, e.key)]] else []
  }

  /** The entries the deletions take out of the index, in order. */
  ghost function Removed(ix: Index, edits: seq<Edit>): seq<UnspentTxo>
    requires Apply(ix, edits).Some?
    decreases |edits|
  {
    if edits == [] then []
    else StepRemoved(ix, edits[0]) + Removed(Step(ix, edits[0]).value, edits[1..])
  }

  lemma StepTotal(ix: Index, e: Edit)
    requires Step(ix, e).Some?
    ensures Total(Step(ix, e).value) == Total(ix) - ValueSum(StepRemoved(ix, e)) + (if e.Put? then e.txo.value else 0)
    ensures |StepRemoved(ix, e)| == (if e.Remove? then 1 else 0)
    ensures e.Remove? ==> KeyOf(StepRemoved(ix, e)[0]) == e.key
  {
    match e {
      case Put(addr, txo) =>
        AddUtxoTotal(ix, addr, txo);
      case Remove(key) =>
        DeleteUtxoTotal(ix, Owner(ix, key), key);
        var x := StepRemoved(ix, e)[0];
        assert [x][..0] == [];
    }
  }

  /** The deletions take out one entry per deleted key, carrying that key. */
  lemma {:induction false} ApplyRemovedKeys(ix: Index, edits: seq<Edit>)
    requires Apply(ix, edits).Some?
    ensures var gone := Removed(ix, edits);
      && |gone| == |RemoveKeys(edits)|
      && (forall j :: 0 <= j < |gone| ==> KeyOf(gone[j]) == RemoveKeys(edits)[j])
    decreases |edits|
  {
    if edits != [] {
      StepTotal(ix, edits[0]);
      ApplyRemovedKeys(Step(ix, edits[0]).value, edits[1..]);
    }
  }

  /** Applying edits changes the total by what the additions bring in minus
      what the deletions take out. */
  lemma {:induction false} ApplyTotal(ix: Index, edits: seq<Edit>)
    requires Apply(ix, edits).Some?
    ensures Total(Apply(ix, edits).value) == Total(ix) - ValueSum(Removed(ix, edits)) + PutSum(edits)
    decreases |edits|
  {
    if edits != [] {
      var next := Step(ix, edits[0]).value;
      StepTotal(ix, edits[0]);
      ApplyTotal(next, edits[1..]);
      ValueSumAppend(StepRemoved(ix, edits[0]), Removed(next, edits[1..]));
    }
  }

  /** The keys of a list of inputs, in order. */
  function InputKeys(ins: seq<TxInput>): (r: seq<UtxoKey>)
    ensures |r| == |ins|
    ensures forall j :: 0 <= j < |ins| ==> r[j] == InputKey(ins[j])
  {
    if ins == [] then [] else [InputKey(ins[0])] + InputKeys(ins[1..])
  }

  /** The keys of every input of the block, transaction by transaction. */
  function BlockInputKeys(txs: seq<Transaction>): seq<UtxoKey> {
    if txs == [] then [] else InputKeys(txs[0].inputs) + BlockInputKeys(txs[1..])
  }

  /** The value of every output of the block. */
  function BlockOutputTotal(txs: seq<Transaction>): int {
    if txs == [] then 0 else SumOutputs(txs[0].outputs) + BlockOutputTotal(txs[1..])
  }

  lemma RemoveKeysAppend(a: seq<Edit>, b: seq<Edit>)
    ensures RemoveKeys(a + b) == RemoveKeys(a) + RemoveKeys(b)
    ensures PutSum(a + b) == PutSum(a) + PutSum(b)
  {
    RemoveKeysConcat(a, b);
    PutSumConcat(a, b);
  }

  lemma {:induction false} RemoveKeysConcat(a: seq<Edit>, b: seq<Edit>)
    ensures RemoveKeys(a + b) == RemoveKeys(a) + RemoveKeys(b)
    decreases |a|
  {
    if a == [] {
      assert a + b == b;
    } else {
      RemoveKeysConcat(a[1..], b);
      assert (a + b)[0] == a[0] && (a + b)[1..] == a[1..] + b;
    }
  }

  lemma {:induction false} PutSumConcat(a: seq<Edit>, b: seq<Edit>)
    ensures PutSum(a + b) == PutSum(a) + PutSum(b)
    decreases |a|
  {
    if a == [] {
      assert a + b == b;
    } else {
      PutSumConcat(a[1..], b);
      assert (a + b)[0] == a[0] && (a + b)[1..] == a[1..] + b;
    }
  }

  lemma {:induction false} InputEditsSummary(ins: seq<TxInput>)
    ensures RemoveKeys(InputEdits(ins)) == InputKeys(ins)
    ensures PutSum(InputEdits(ins)) == 0
  {
    if ins != [] {
      InputEditsSummary(ins[1..]);
      var e := InputEdits(ins);
      assert e[0] == Remove(InputKey(ins[0]));
      assert e[1..] == InputEdits(ins[1..]);
    }
  }

  lemma {:induction false} OutputEditsSummary(txId: seq<byte>, outs: seq<TxOutput>, k: nat)
    requires k <= |outs|
    ensures RemoveKeys(OutputEdits(txId, outs, k)) == []
    ensures PutSum(OutputEdits(txId, outs, k)) == SumOutputs(outs) - SumOutputs(outs[..k])
    decreases |outs| - k
  {
    if k == |outs| {
      assert outs[..k] == outs;
    } else {
      OutputEditsSummary(txId, outs, k + 1);
      var e := OutputEdits(txId, outs, k);
      assert e[1..] == OutputEdits(txId, outs, k + 1);
      assert outs[..k + 1][..k] == outs[..k];
    }
  }

  lemma {:induction false} BlockEditsSummary(txs: seq<Transaction>)
    ensures RemoveKeys(BlockEdits(txs)) == BlockInputKeys(txs)
    ensures PutSum(BlockEdits(txs)) == BlockOutputTotal(txs)
  {
    if txs != [] {
      BlockEditsSummary(txs[1..]);
      TxEditsSummary(txs[0]);
      RemoveKeysAppend(TxEdits(txs[0]), BlockEdits(txs[1..]));
    }
  }

  /** One transaction's edits delete its input keys and add its outputs. */
  lemma TxEditsSummary(tx: Transaction)
    ensures RemoveKeys(TxEdits(tx)) == InputKeys(tx.inputs)
    ensures PutSum(TxEdits(tx)) == SumOutputs(tx.outputs)
  {
    InputEditsSummary(tx.inputs);
    OutputEditsSummary(tx.txId, tx.outputs, 0);
    assert tx.outputs[..0] == [];
    RemoveKeysAppend(InputEdits(tx.inputs), OutputEdits(tx.txId, tx.outputs, 0));
  }

  /** `DumpBlock` conserves value: the total after the block is the total
      before, minus the entries its inputs consumed (one per input, in input
      order, each carrying that input's key), plus the values of its
      outputs. */
  lemma DumpConservesValue(ix: Index, txs: seq<Transaction>)
    requires Dump(ix, txs).Some?
    ensures var consumed := Removed(ix, BlockEdits(txs));
      && |consumed| == |BlockInputKeys(txs)|
      && (forall j :: 0 <= j < |consumed| ==> KeyOf(consumed[j]) == BlockInputKeys(txs)[j])
      && Total(Dump(ix, txs).value) == Total(ix) - ValueSum(consumed) + BlockOutputTotal(txs)
  {
    ApplyTotal(ix, BlockEdits(txs));
    ApplyRemovedKeys(ix, BlockEdits(txs));
    BlockEditsSummary(txs);
  }

  // ---- the spending planner ----

  /** The planner's scan from position i with `total` collected so far: add
      the next entry, stop once the total reaches `value`; a list that runs
      out short gives (-1, []). */
  function PlanFrom(l: seq<UnspentTxo>, value: int, i: nat, total: int): (int, seq<UnspentTxo>)
    requires i <= |l|
    decreases |l| - i
  {
    if i == |l| then (if total < value then (-1, []) else (total, l))
    else
      var t := total + l[i].value;
      if t >= value then (t, l[..i + 1]) else PlanFrom(l, value, i + 1, t)
  }

  /** `_GenerateSpendingPlan` on a list: (total, plan). */
  function SpendingPlan(l: seq<UnspentTxo>, value: int): (int, seq<UnspentTxo>) {
    PlanFrom(l, value, 0, 0)
  }

  /** The first n entries (n >= 1) are worth at least `value`. */
  predicate Covers(l: seq<UnspentTxo>, value: int, n: int) {
    1 <= n <= |l| && ValueSum(l[..n]) >= value
  }

  /** The plan is the shortest non-empty prefix of the list worth at least
      `value`, with its total; when no prefix is, the plan is empty and the
      total is -1, except for an empty list and a value of at most 0, which
      give (0, []). */
  lemma SpendingPlanIsShortestCover(l: seq<UnspentTxo>, value: int)
    ensures var (total, plan) := SpendingPlan(l, value);
      (exists n :: Covers(l, value, n)) ==>
        && 1 <= |plan| <= |l| && plan == l[..|plan|]
        && total == ValueSum(plan) && total >= value
        && forall k :: 1 <= k < |plan| ==> !Covers(l, value, k)
    ensures var (total, plan) := SpendingPlan(l, value);
      (forall n :: !Covers(l, value, n)) ==>
        plan == [] && total == (if l == [] && value <= 0 then 0 else -1)
  {
    assert l[..0] == [];
    PlanFromShortestCover(l, value, 0);
    PlanFromNoCover(l, value, 0);
  }

  /** From position i, with no shorter prefix covering `value`, the scan
      stops at the shortest covering prefix when there is one. */
  lemma {:induction false} PlanFromShortestCover(l: seq<UnspentTxo>, value: int, i: nat)
    requires i <= |l|
    requires forall k :: 1 <= k <= i ==> !Covers(l, value, k)
    ensures var (total, plan) := PlanFrom(l, value, i, ValueSum(l[..i]));
      (exists n :: Covers(l, value, n)) ==>
        && 1 <= |plan| <= |l| && plan == l[..|plan|]
        && total == ValueSum(plan) && total >= value
        && forall k :: 1 <= k < |plan| ==> !Covers(l, value, k)
    decreases |l| - i
  {
    if i < |l| {
      PlanFromStep(l, i);
      if ValueSum(l[..i + 1]) < value {
        PlanFromShortestCover(l, value, i + 1);
      } else {
        assert Covers(l, value, i + 1);
      }
    }
  }

  /** From position i, the scan over a list no prefix of which covers
      `value` gives (-1, []), or (0, []) on an empty list and a value of at
      most 0. */
  lemma {:induction false} PlanFromNoCover(l: seq<UnspentTxo>, value: int, i: nat)
    requires i <= |l|
    ensures var (total, plan) := PlanFrom(l, value, i, ValueSum(l[..i]));
      (forall n :: !Covers(l, value, n)) ==>
        plan == [] && total == (if l == [] && value <= 0 then 0 else -1)
    decreases |l| - i
  {
    if i == |l| {
      assert l[..i] == l;
      if l != [] {
        assert !Covers(l, value, |l|) ==> ValueSum(l) < value;
      }
    } else {
      PlanFromStep(l, i);
      if ValueSum(l[..i + 1]) < value {
        PlanFromNoCover(l, value, i + 1);
      } else {
        assert Covers(l, value, i + 1);
      }
    }
  }

  /** One entry more on the scanned prefix adds its value to the total. */
  lemma PlanFromStep(l: seq<UnspentTxo>, i: nat)
    requires i < |l|
    ensures ValueSum(l[..i + 1]) == ValueSum(l[..i]) + l[i].value
  {
    assert l[..i + 1][..i] == l[..i];
  }

  /** `GenerateSpendingPlan`'s grouping: source transaction id to the output
      indices taken from it, in plan order. (The source keys the map by the
      hex form of the id, which is one-to-one.) */
  function GroupByTx(plan: seq<UnspentTxo>): map<seq<byte>, seq<int>> {
    if plan == [] then map[]
    else
      var g := GroupByTx(plan[..|plan| - 1]);
      var u := plan[|plan| - 1];
      g[u.sourceTxId := (if u.sourceTxId in g then g[u.sourceTxId] else []) + [u.txOutputIdx]]
  }

  /** The output indices of the plan's entries from transaction `id`, in plan
      order. */
  function IndicesFrom(plan: seq<UnspentTxo>, id: seq<byte>): seq<int> {
    if plan == [] then []
    else IndicesFrom(plan[..|plan| - 1], id)
         + (if plan[|plan| - 1].sourceTxId == id then [plan[|plan| - 1].txOutputIdx] else [])
  }

  /** The grouping has a key for exactly the transactions the plan draws on,
      and lists under each the indices drawn from it in plan order. */
  lemma {:induction false} GroupByTxIsFilter(plan: seq<UnspentTxo>, id: seq<byte>)
    ensures id in GroupByTx(plan) <==> IndicesFrom(plan, id) != []
    ensures id in GroupByTx(plan) ==> GroupByTx(plan)[id] == IndicesFrom(plan, id)
  {
    if plan != [] {
      GroupByTxIsFilter(plan[..|plan| - 1], id);
    }
  }

  // ---- coinbase inputs ----

  /** As written, `DumpBlock` deletes what a coinbase input names too, and a
      coinbase input names no output: on a fresh set any block whose first
      transaction has an input (a genesis block among them) panics. */
  lemma CoinbaseInputPanicsOnFreshSet(cb: Transaction, rest: seq<Transaction>)
    requires |cb.inputs| >= 1
    ensures Dump(EmptyIndex, [cb] + rest) == None
  {
    var txs := [cb] + rest;
    assert txs[0] == cb;
    BlockEditsSplit(txs, 0);
    assert txs[0..] == txs;
    InputEditsCons(cb.inputs, 0, OutputEdits(cb.txId, cb.outputs, 0) + BlockEdits(txs[1..]));
    assert cb.inputs[0..] == cb.inputs;
    ApplyCons(EmptyIndex, Remove(InputKey(cb.inputs[0])), InputEdits(cb.inputs[1..]) + (OutputEdits(cb.txId, cb.outputs, 0) + BlockEdits(txs[1..])));
  }

  /** The block's edits when coinbase transactions contribute only their
      outputs. */
  function SkippingEdits(isCoinbase: Transaction -> bool, txs: seq<Transaction>): seq<Edit> {
    if txs == [] then []
    else (if isCoinbase(txs[0]) then OutputEdits(txs[0].txId, txs[0].outputs, 0) else TxEdits(txs[0]))
         + SkippingEdits(isCoinbase, txs[1..])
  }

  /** `DumpBlock` skipping the inputs of coinbase transactions. */
  function DumpSkippingCoinbase(isCoinbase: Transaction -> bool, ix: Index, txs: seq<Transaction>): Option<Index> {
    Apply(ix, SkippingEdits(isCoinbase, txs))
  }

  /** Edits that only add always apply. */
  lemma {:induction false} ApplyAdditions(ix: Index, edits: seq<Edit>)
    requires forall j :: 0 <= j < |edits| ==> edits[j].Put?
    ensures Apply(ix, edits).Some?
    decreases |edits|
  {
    if edits != [] {
      ApplyAdditions(Step(ix, edits[0]).value, edits[1..]);
    }
  }

  /** With coinbase inputs skipped, a block holding one coinbase transaction
      applies to any set, indexes each of its outputs under its address and
      raises the total by exactly their value. */
  lemma CoinbaseBlockApplies(isCoinbase: Transaction -> bool, ix: Index, cb: Transaction)
    requires isCoinbase(cb)
    ensures DumpSkippingCoinbase(isCoinbase, ix, [cb]).Some?
    ensures Total(DumpSkippingCoinbase(isCoinbase, ix, [cb]).value) == Total(ix) + SumOutputs(cb.outputs)
    ensures forall k :: 0 <= k < |cb.outputs| ==>
      UnspentTxo(cb.txId, k, cb.outputs[k].value) in ListOf(DumpSkippingCoinbase(isCoinbase, ix, [cb]).value, cb.outputs[k].address)
  {
    var edits := OutputEdits(cb.txId, cb.outputs, 0);
    assert [cb][1..] == [];
    assert SkippingEdits(isCoinbase, [cb]) == edits + [];
    assert edits + [] == edits;
    ApplyAdditions(ix, edits);
    ApplyTotal(ix, edits);
    ApplyRemovedKeys(ix, edits);
    OutputEditsSummary(cb.txId, cb.outputs, 0);
    assert cb.outputs[..0] == [];
    forall k | 0 <= k < |cb.outputs|
      ensures UnspentTxo(cb.txId, k, cb.outputs[k].value) in ListOf(Apply(ix, edits).value, cb.outputs[k].address)
    {
      ApplyPutKept(ix, edits, k);
    }
  }

  // ---- the mutable set ----

  /** The search loop of `DeleteUTXO`: the position of the first entry with
      txo's key, -1 when there is none. */
  method FirstMatch(list: seq<UnspentTxo>, txo: UnspentTxo) returns (targetIdx: int)
    ensures targetIdx == FindIndex(list, KeyOf(txo))
  {
    var idx := 0;
    while idx < |list|
      invariant 0 <= idx <= |list|
      invariant forall i :: 0 <= i < idx ==> KeyOf(list[i]) != KeyOf(txo)
    {
      if list[idx].sourceTxId == txo.sourceTxId && list[idx].txOutputIdx == txo.txOutputIdx {
        return idx;
      }
      idx := idx + 1;
    }
    return -1;
  }

  /** `UTXOSet`: both maps, updated in place. */
  class UtxoSet {
    var addr2Utxo: map<Address, seq<UnspentTxo>>
    var utxo2Addr: map<UtxoKey, Address>

    function Snapshot(): Index
      reads this
    {
      Index(addr2Utxo, utxo2Addr)
    }

    /** `InitUTXOSet` with nothing loaded from disk. */
    constructor ()
      ensures Snapshot() == EmptyIndex
    {
      addr2Utxo := map[];
      utxo2Addr := map[];
    }

    method AddUTXO(addr: Address, txo: UnspentTxo)
      modifies this
      ensures Snapshot() == AddUtxo(old(Snapshot()), addr, txo)
    {
      var list := if addr in addr2Utxo then addr2Utxo[addr] else [];
      addr2Utxo := addr2Utxo[addr := list + [txo]];
      utxo2Addr := utxo2Addr[KeyOf(txo) := addr];
    }

    /** Finds the first entry of `addr`'s list with txo's key, moves the last
        entry into its slot and truncates; then drops the key from the
        reverse map. The source panics when no entry matches. */
    method DeleteUTXO(addr: Address, txo: UnspentTxo)
      modifies this
      requires Holds(Snapshot(), addr, KeyOf(txo))
      ensures Snapshot() == DeleteUtxo(old(Snapshot()), addr, KeyOf(txo))
    {
      var list := if addr in addr2Utxo then addr2Utxo[addr] else [];
      var targetIdx := FirstMatch(list, txo);
      var length := |list|;
      ghost var found := list;
      list := list[targetIdx := list[length - 1]];
      assert list[..length - 1] == SwapRemove(found, targetIdx);
      StoreDeletion(addr, list[..length - 1], KeyOf(txo));
    }

    /** The writes that end `DeleteUTXO`: the shortened list and the reverse
        map without the key. */
    method StoreDeletion(addr: Address, list: seq<UnspentTxo>, key: UtxoKey)
      modifies this
      ensures Snapshot() == Index(old(addr2Utxo)[addr := list], old(utxo2Addr) - {key})
    {
      addr2Utxo := addr2Utxo[addr := list];
      utxo2Addr := utxo2Addr - {key};
    }

    /** Deletes what every input of every transaction spends and adds every
        output, transaction by transaction. The precondition is that no
        deletion panics; a coinbase input is not skipped. */
    method DumpBlock(b: Block)
      modifies this
      requires Dump(Snapshot(), b.txs).Some?
      ensures Snapshot() == Dump(old(Snapshot()), b.txs).value
    {
      ghost var goal := Dump(Snapshot(), b.txs);
      var i := 0;
      while i < |b.txs|
        invariant 0 <= i <= |b.txs|
        invariant Apply(Snapshot(), BlockEdits(b.txs[i..])) == goal
      {
        var tx := b.txs[i];
        ghost var outs := OutputEdits(tx.txId, tx.outputs, 0);
        ghost var later := BlockEdits(b.txs[i + 1..]);
        BlockEditsSplit(b.txs, i);
        RemoveInputs(tx.inputs, outs + later);
        AddOutputs(tx.txId, tx.outputs, later);
        i := i + 1;
      }
    }

    /** The input loop of `DumpBlock` for one transaction. */
    method RemoveInputs(ins: seq<TxInput>, ghost rest: seq<Edit>)
      modifies this
      requires Apply(Snapshot(), InputEdits(ins) + rest).Some?
      ensures Apply(Snapshot(), rest) == Apply(old(Snapshot()), InputEdits(ins) + rest)
    {
      ghost var goal := Apply(Snapshot(), InputEdits(ins) + rest);
      assert ins[0..] == ins;
      var j := 0;
      while j < |ins|
        invariant 0 <= j <= |ins|
        invariant Apply(Snapshot(), InputEdits(ins[j..]) + rest) == goal
      {
        DeleteInput(ins, j, rest);
        j := j + 1;
      }
      assert InputEdits(ins[j..]) + rest == rest;
    }

    /** One pass of the input loop: looks up the owner of what input `j`
        spends and deletes that entry. */
    method DeleteInput(ins: seq<TxInput>, j: nat, ghost rest: seq<Edit>)
      modifies this
      requires j < |ins| && Apply(Snapshot(), InputEdits(ins[j..]) + rest).Some?
      ensures Apply(Snapshot(), InputEdits(ins[j + 1..]) + rest) == Apply(old(Snapshot()), InputEdits(ins[j..]) + rest)
    {
      var input := ins[j];
      var key := InputKey(input);
      var addr := if key in utxo2Addr then utxo2Addr[key] else [];
      RemoveFirst(Snapshot(), ins, j, rest);
      DeleteUTXO(addr, UnspentTxo(input.sourceTxId, input.txOutputIdx, -1));
    }

    /** The output loop of `DumpBlock` for one transaction. */
    method AddOutputs(txId: seq<byte>, outs: seq<TxOutput>, ghost rest: seq<Edit>)
      modifies this
      ensures Apply(Snapshot(), rest) == Apply(old(Snapshot()), OutputEdits(txId, outs, 0) + rest)
    {
      ghost var goal := Apply(Snapshot(), OutputEdits(txId, outs, 0) + rest);
      var k := 0;
      while k < |outs|
        invariant 0 <= k <= |outs|
        invariant Apply(Snapshot(), OutputEdits(txId, outs, k) + rest) == goal
      {
        var out := outs[k];
        var u := UnspentTxo(txId, k, out.value);
        PutFirst(Snapshot(), txId, outs, k, rest);
        AddUTXO(out.address, u);
        k := k + 1;
      }
      assert OutputEdits(txId, outs, k) + rest == rest;
    }

    /** `_GenerateSpendingPlan`: collects `addr`'s outputs in stored order
        until their total reaches `value`. */
    method CollectSpendingPlan(addr: Address, value: int) returns (total: int, plan: seq<UnspentTxo>)
      ensures (total, plan) == SpendingPlan(ListOf(Snapshot(), addr), value)
    {
      var list := if addr in addr2Utxo then addr2Utxo[addr] else [];
      total := 0;
      plan := [];
      var i := 0;
      while i < |list|
        invariant 0 <= i <= |list|
        invariant plan == list[..i]
        invariant PlanFrom(list, value, i, total) == SpendingPlan(list, value)
      {
        total := total + list[i].value;
        plan := plan + [list[i]];
        if total >= value {
          assert plan == list[..i + 1];
          return;
        }
        i := i + 1;
      }
      assert plan == list;
      if total < value {
        total, plan := -1, [];
      }
    }

    /** `GenerateSpendingPlan`: the planner's total, and its outputs grouped
        by source transaction only when that total is exactly `value`. */
    method GenerateSpendingPlan(addr: Address, value: int) returns (total: int, candidates: map<seq<byte>, seq<int>>)
      ensures total == SpendingPlan(ListOf(Snapshot(), addr), value).0
      ensures total != value ==> candidates == map[]
      ensures total == value ==> candidates == GroupByTx(SpendingPlan(ListOf(Snapshot(), addr), value).1)
    {
      var plan;
      total, plan := CollectSpendingPlan(addr, value);
      if total != value {
        return total, map[];
      }
      candidates := map[];
      var i := 0;
      while i < |plan|
        invariant 0 <= i <= |plan|
        invariant candidates == GroupByTx(plan[..i])
      {
        var u := plan[i];
        assert plan[..i + 1][..i] == plan[..i];
        var idxs := if u.sourceTxId in candidates then candidates[u.sourceTxId] else [];
        candidates := candidates[u.sourceTxId := idxs + [u.txOutputIdx]];
        i := i + 1;
      }
      assert plan[..i] == plan;
    }
  }
}
