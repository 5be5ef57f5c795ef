/** The multi-token fungible share ledger: balances per (owner, token id),
    operator grants per (owner, operator, token id), the total supply per
    token id, and one administrator who alone may mint. The entry points
    loosely follow the `transfer` and `update_operators` semantics of TZIP-12
    (the FA2 multi-asset interface); errors are the contract's own strings
    and no token id is ever rejected as undefined. */
module ShareFA2 {
  import opened Common

  /** A ledger key: (owner, token id). */
  type LedgerKey = (Address, nat)

  /** The balances table; an absent key is a balance of 0. */
  type Ledger = map<LedgerKey, nat>

  /** The key of the operators set: (owner, operator, token id). */
  datatype OperatorKey = OperatorKey(owner: Address, operator: Address, tokenId: nat)

  /** One item of an `update_operators` call. */
  datatype OperatorUpdate =
    | AddOperator(key: OperatorKey)
    | RemoveOperator(key: OperatorKey)

  /** One leaf of a `transfer` call: move `amount` of `tokenId` to `to`. */
  datatype Tx = Tx(to: Address, tokenId: nat, amount: nat)

  /** One batch of a `transfer` call: leaves that all move `from`'s tokens. */
  datatype Batch = Batch(from: Address, txs: seq<Tx>)

  /** The token id a ledger key belongs to. */
  function TokenOf(k: LedgerKey): nat { k.1 }

  /** The sum of all owners' balances of `tokenId`. */
  ghost function Circulating(l: Ledger, tokenId: nat): nat {
    SumBy(l, TokenOf, tokenId)
  }

  /** Supply conservation: for every token id, the balances sum to the
      recorded total supply (absent = 0). */
  ghost predicate Conserved(l: Ledger, supply: map<nat, nat>) {
    forall t {:trigger Circulating(l, t)} :: Circulating(l, t) == Get(supply, t)
  }

  /** `operator` may move `owner`'s balance of `tokenId`. */
  predicate IsOperator(ops: set<OperatorKey>, owner: Address, operator: Address, tokenId: nat) {
    OperatorKey(owner, operator, tokenId) in ops
  }

  /** `sender` may move tokens of `from`: it is `from` or one of its operators. */
  predicate Authorised(ops: set<OperatorKey>, sender: Address, from: Address, tokenId: nat) {
    sender == from || IsOperator(ops, from, sender, tokenId)
  }

  // ---------------------------------------------------------------------
  // transfer, as a fold over the leaves in list order
  // ---------------------------------------------------------------------

  /** One leaf: authorisation is checked before the balance; the source key
      is written first and the destination key is then read back, so a
      leaf with `to == from` writes the original balance back. */
  function ApplyLeaf(l: Ledger, ops: set<OperatorKey>, sender: Address, from: Address, tx: Tx): (r: Result<Ledger>)
    ensures !Authorised(ops, sender, from, tx.tokenId) ==> r == Err(NotOperator)
    ensures Authorised(ops, sender, from, tx.tokenId) && Get(l, (from, tx.tokenId)) < tx.amount
            ==> r == Err(InsufficientBalance)
    ensures r.Ok? <==> Authorised(ops, sender, from, tx.tokenId) && tx.amount <= Get(l, (from, tx.tokenId))
    ensures r.Ok? ==> forall k :: Get(r.value, k) + (if k == (from, tx.tokenId) then tx.amount else 0)
                               == Get(l, k) + (if k == (tx.to, tx.tokenId) then tx.amount else 0)
    ensures r.Ok? ==> r.value.Keys == l.Keys + {(from, tx.tokenId), (tx.to, tx.tokenId)}
  {
    if !Authorised(ops, sender, from, tx.tokenId) then Err(NotOperator)
    else
      var fromKey := (from, tx.tokenId);
      var toKey := (tx.to, tx.tokenId);
      var fromBal := Get(l, fromKey);
      if fromBal < tx.amount then Err(InsufficientBalance)
      else
        var l1 := l[fromKey := fromBal - tx.amount];
        Ok(l1[toKey := Get(l1, toKey) + tx.amount])
  }

  /** The leaves of one batch, applied in order, each seeing the balances
      left by the earlier ones; the first failure aborts. */
  function ApplyLeaves(l: Ledger, ops: set<OperatorKey>, sender: Address, from: Address, txs: seq<Tx>): Result<Ledger>
    decreases |txs|
  {
    if txs == [] then Ok(l)
    else
      match ApplyLeaf(l, ops, sender, from, txs[0])
      case Err(e) => Err(e)
      case Ok(l1) => ApplyLeaves(l1, ops, sender, from, txs[1..])
  }

  /** A whole `transfer` call: the batches in order. */
  function ApplyBatches(l: Ledger, ops: set<OperatorKey>, sender: Address, batches: seq<Batch>): Result<Ledger>
    decreases |batches|
  {
    if batches == [] then Ok(l)
    else
      match ApplyLeaves(l, ops, sender, batches[0].from, batches[0].txs)
      case Err(e) => Err(e)
      case Ok(l1) => ApplyBatches(l1, ops, sender, batches[1..])
  }

  // ---------------------------------------------------------------------
  // update_operators, as a fold over the items
  // ---------------------------------------------------------------------

  /** One item: only the owner named in the key may change it; adding
      inserts the key, removing deletes it when present. */
  function ApplyUpdate(ops: set<OperatorKey>, sender: Address, u: OperatorUpdate): (r: Result<set<OperatorKey>>)
    ensures r.Err? <==> sender != u.key.owner
    ensures r.Err? ==> r.error == NotOwner
    ensures r.Ok? ==> (u.AddOperator? <==> u.key in r.value)
    ensures r.Ok? ==> forall k :: k != u.key ==> (k in r.value <==> k in ops)
  {
    if sender != u.key.owner then Err(NotOwner)
    else
      match u
      case AddOperator(k) => Ok(ops + {k})
      case RemoveOperator(k) => Ok(if k in ops then ops - {k} else ops)
  }

  /** A whole `update_operators` call: the items in order. */
  function ApplyUpdates(ops: set<OperatorKey>, sender: Address, us: seq<OperatorUpdate>): Result<set<OperatorKey>>
    decreases |us|
  {
    if us == [] then Ok(ops)
    else
      match ApplyUpdate(ops, sender, us[0])
      case Err(e) => Err(e)
      case Ok(ops1) => ApplyUpdates(ops1, sender, us[1..])
  }

  // ---------------------------------------------------------------------
  // Properties of transfer
  // ---------------------------------------------------------------------

  /** A successful leaf keeps every token's circulating sum. */
  lemma LeafConserves(l: Ledger, ops: set<OperatorKey>, sender: Address, from: Address, tx: Tx, t: nat)
    requires ApplyLeaf(l, ops, sender, from, tx).Ok?
    ensures Circulating(ApplyLeaf(l, ops, sender, from, tx).value, t) == Circulating(l, t)
  {
    var fromKey := (from, tx.tokenId);
    var toKey := (tx.to, tx.tokenId);
    var l1 := l[fromKey := Get(l, fromKey) - tx.amount];
    SumByUpdate(l, TokenOf, t, fromKey, Get(l, fromKey) - tx.amount);
    SumByUpdate(l1, TokenOf, t, toKey, Get(l1, toKey) + tx.amount);
  }

  /** A leaf that moves tokens from an owner to that same owner leaves every
      balance as it was; the table itself is unchanged when the owner
      already had an entry (otherwise an explicit 0 entry appears). */
  lemma SelfTransferUnchanged(l: Ledger, ops: set<OperatorKey>, sender: Address, from: Address, tx: Tx)
    requires tx.to == from
    requires ApplyLeaf(l, ops, sender, from, tx).Ok?
    ensures forall k :: Get(ApplyLeaf(l, ops, sender, from, tx).value, k) == Get(l, k)
    ensures (from, tx.tokenId) in l ==> ApplyLeaf(l, ops, sender, from, tx).value == l
  {
  }

  /** A transfer of one batch is that batch's leaves; a batch of one leaf
      is that leaf. */
  lemma SingleBatch(l: Ledger, ops: set<OperatorKey>, sender: Address, b: Batch)
    ensures ApplyBatches(l, ops, sender, [b]) == ApplyLeaves(l, ops, sender, b.from, b.txs)
    ensures |b.txs| == 1 ==> ApplyLeaves(l, ops, sender, b.from, b.txs) == ApplyLeaf(l, ops, sender, b.from, b.txs[0])
  {
    assert [b][1..] == [];
    if |b.txs| == 1 {
      assert b.txs[1..] == [];
    }
  }

  /** Running two lists of leaves one after the other is running their
      concatenation: leaves apply strictly in list order. */
  lemma {:induction false} LeavesAppend(l: Ledger, ops: set<OperatorKey>, sender: Address, from: Address, a: seq<Tx>, b: seq<Tx>)
    ensures ApplyLeaves(l, ops, sender, from, a + b)
         == match ApplyLeaves(l, ops, sender, from, a)
            case Err(e) => Err(e)
            case Ok(l1) => ApplyLeaves(l1, ops, sender, from, b)
    decreases |a|
  {
    if a == [] {
      assert a + b == b;
    } else {
      assert (a + b)[0] == a[0];
      assert (a + b)[1..] == a[1..] + b;
      match ApplyLeaf(l, ops, sender, from, a[0])
      case Err(e) =>
      case Ok(l1) => LeavesAppend(l1, ops, sender, from, a[1..], b);
    }
  }

  /** Successful leaves keep every token's circulating sum. */
  lemma {:induction false} LeavesConserve(l: Ledger, ops: set<OperatorKey>, sender: Address, from: Address, txs: seq<Tx>, t: nat)
    requires ApplyLeaves(l, ops, sender, from, txs).Ok?
    ensures Circulating(ApplyLeaves(l, ops, sender, from, txs).value, t) == Circulating(l, t)
    decreases |txs|
  {
    if txs != [] {
      LeafConserves(l, ops, sender, from, txs[0], t);
      LeavesConserve(ApplyLeaf(l, ops, sender, from, txs[0]).value, ops, sender, from, txs[1..], t);
    }
  }

  /** A successful transfer keeps every token's circulating sum. */
  lemma {:induction false} BatchesConserve(l: Ledger, ops: set<OperatorKey>, sender: Address, batches: seq<Batch>, t: nat)
    requires ApplyBatches(l, ops, sender, batches).Ok?
    ensures Circulating(ApplyBatches(l, ops, sender, batches).value, t) == Circulating(l, t)
    decreases |batches|
  {
    if batches != [] {
      LeavesConserve(l, ops, sender, batches[0].from, batches[0].txs, t);
      BatchesConserve(ApplyLeaves(l, ops, sender, batches[0].from, batches[0].txs).value,
                      ops, sender, batches[1..], t);
    }
  }

  /** Hence a successful transfer keeps conservation against an unchanged
      total supply. */
  lemma TransferConserves(l: Ledger, supply: map<nat, nat>, ops: set<OperatorKey>, sender: Address, batches: seq<Batch>)
    requires Conserved(l, supply)
    requires ApplyBatches(l, ops, sender, batches).Ok?
    ensures Conserved(ApplyBatches(l, ops, sender, batches).value, supply)
  {
    forall t ensures Circulating(ApplyBatches(l, ops, sender, batches).value, t) == Get(supply, t) {
      BatchesConserve(l, ops, sender, batches, t);
    }
  }

  /** A successful list of leaves had every leaf authorised. */
  lemma {:induction false} LeavesOkAuthorised(l: Ledger, ops: set<OperatorKey>, sender: Address, from: Address, txs: seq<Tx>)
    requires ApplyLeaves(l, ops, sender, from, txs).Ok?
    ensures forall i :: 0 <= i < |txs| ==> Authorised(ops, sender, from, txs[i].tokenId)
    decreases |txs|
  {
    if txs != [] {
      LeavesOkAuthorised(ApplyLeaf(l, ops, sender, from, txs[0]).value, ops, sender, from, txs[1..]);
      assert forall i :: 1 <= i < |txs| ==> txs[i] == txs[1..][i - 1];
    }
  }

  /** A successful transfer had every leaf authorised: its sender was the
      batch's source or an operator of the source for the leaf's token. */
  lemma {:induction false} TransferOkAuthorised(l: Ledger, ops: set<OperatorKey>, sender: Address, batches: seq<Batch>)
    requires ApplyBatches(l, ops, sender, batches).Ok?
    ensures forall i, j :: 0 <= i < |batches| && 0 <= j < |batches[i].txs|
              ==> Authorised(ops, sender, batches[i].from, batches[i].txs[j].tokenId)
    decreases |batches|
  {
    if batches != [] {
      LeavesOkAuthorised(l, ops, sender, batches[0].from, batches[0].txs);
      TransferOkAuthorised(ApplyLeaves(l, ops, sender, batches[0].from, batches[0].txs).value, ops, sender, batches[1..]);
      assert forall i :: 1 <= i < |batches| ==> batches[i] == batches[1..][i - 1];
    }
  }

  /** A transfer whose every leaf moves the sender's own tokens never fails
      with NOT_OPERATOR. */
  lemma {:induction false} OwnLeavesNeverUnauthorised(l: Ledger, ops: set<OperatorKey>, sender: Address, txs: seq<Tx>)
    ensures ApplyLeaves(l, ops, sender, sender, txs) != Err(NotOperator)
    decreases |txs|
  {
    if txs != [] {
      match ApplyLeaf(l, ops, sender, sender, txs[0])
      case Err(e) =>
      case Ok(l1) => OwnLeavesNeverUnauthorised(l1, ops, sender, txs[1..]);
    }
  }

  // ---------------------------------------------------------------------
  // Properties of update_operators
  // ---------------------------------------------------------------------

  /** A call succeeds exactly when the sender owns every item's key, and
      otherwise fails with NOT_OWNER. */
  lemma {:induction false} UpdatesOkIff(ops: set<OperatorKey>, sender: Address, us: seq<OperatorUpdate>)
    ensures ApplyUpdates(ops, sender, us).Ok? <==> forall i :: 0 <= i < |us| ==> us[i].key.owner == sender
    ensures ApplyUpdates(ops, sender, us).Err? ==> ApplyUpdates(ops, sender, us).error == NotOwner
    decreases |us|
  {
    if us != [] {
      assert forall i :: 1 <= i < |us| ==> us[i] == us[1..][i - 1];
      if us[0].key.owner == sender {
        UpdatesOkIff(ApplyUpdate(ops, sender, us[0]).value, sender, us[1..]);
      }
    }
  }

  /** A successful call changes only the keys its items name. */
  lemma {:induction false} UpdatesOnlyNamedKeys(ops: set<OperatorKey>, sender: Address, us: seq<OperatorUpdate>, k: OperatorKey)
    requires ApplyUpdates(ops, sender, us).Ok?
    requires forall i :: 0 <= i < |us| ==> us[i].key != k
    ensures k in ApplyUpdates(ops, sender, us).value <==> k in ops
    decreases |us|
  {
    if us != [] {
      assert forall i :: 1 <= i < |us| ==> us[i] == us[1..][i - 1];
      UpdatesOnlyNamedKeys(ApplyUpdate(ops, sender, us[0]).value, sender, us[1..], k);
    }
  }

  /** After a successful call, the last item naming a key decides whether
      the key is present. */
  lemma LastUpdateWins(ops: set<OperatorKey>, sender: Address, us: seq<OperatorUpdate>, u: OperatorUpdate)
    requires ApplyUpdates(ops, sender, us + [u]).Ok?
    ensures u.key in ApplyUpdates(ops, sender, us + [u]).value <==> u.AddOperator?
  {
    UpdatesAppend(ops, sender, us, [u]);
  }

  /** Running two item lists one after the other is running their
      concatenation. */
  lemma {:induction false} UpdatesAppend(ops: set<OperatorKey>, sender: Address, a: seq<OperatorUpdate>, b: seq<OperatorUpdate>)
    ensures ApplyUpdates(ops, sender, a + b)
         == match ApplyUpdates(ops, sender, a)
            case Err(e) => Err(e)
            case Ok(ops1) => ApplyUpdates(ops1, sender, b)
    decreases |a|
  {
    if a == [] {
      assert a + b == b;
    } else {
      assert (a + b)[0] == a[0];
      assert (a + b)[1..] == a[1..] + b;
      match ApplyUpdate(ops, sender, a[0])
      case Err(e) =>
      case Ok(ops1) => UpdatesAppend(ops1, sender, a[1..], b);
    }
  }

  /** Adding an operator twice is adding it once. */
  lemma AddIdempotent(ops: set<OperatorKey>, sender: Address, k: OperatorKey)
    ensures ApplyUpdates(ops, sender, [AddOperator(k), AddOperator(k)]) == ApplyUpdates(ops, sender, [AddOperator(k)])
  {
    assert [AddOperator(k), AddOperator(k)][1..] == [AddOperator(k)];
    if sender == k.owner {
      assert ops + {k} + {k} == ops + {k};
    }
  }

  /** Removing a key that is not present, by its owner, changes nothing. */
  lemma RemoveAbsentNoOp(ops: set<OperatorKey>, sender: Address, k: OperatorKey)
    requires k !in ops && sender == k.owner
    ensures ApplyUpdates(ops, sender, [RemoveOperator(k)]) == Ok(ops)
  {
  }

  // ---------------------------------------------------------------------
  // The contract
  // ---------------------------------------------------------------------

  class ShareLedger {
    var admin: Address
    var ledger: Ledger
    var operators: set<OperatorKey>
    var totalSupply: map<nat, nat>

    /** The ledger's invariant: supply conservation. */
    ghost predicate Valid()
      reads this
    {
      Conserved(ledger, totalSupply)
    }

    constructor (admin: Address)
      ensures Valid()
      ensures this.admin == admin && ledger == map[] && operators == {} && totalSupply == map[]
    {
      this.admin := admin;
      ledger := map[];
      operators := {};
      totalSupply := map[];
    }

    /** `_is_operator`: whether `operator` may move `owner`'s `tokenId`. */
    predicate IsOperatorOf(owner: Address, operator: Address, tokenId: nat)
      reads this
    {
      IsOperator(operators, owner, operator, tokenId)
    }

    /** `set_admin`: only the current administrator may hand the role on. */
    method SetAdmin(sender: Address, newAdmin: Address) returns (r: Outcome)
      requires Valid()
      modifies this`admin
      ensures Valid()
      ensures r == (if sender == old(admin) then Pass else Fail(NotAdmin))
      ensures admin == (if r.Pass? then newAdmin else old(admin))
    {
      if sender != admin {
        return Fail(NotAdmin);
      }
      admin := newAdmin;
      r := Pass;
    }

    /** `update_operators`: the items in order; a NOT_OWNER item aborts
        the whole call, undoing the earlier items. */
    method UpdateOperators(sender: Address, updates: seq<OperatorUpdate>) returns (r: Outcome)
      requires Valid()
      modifies this`operators
      ensures Valid()
      ensures match ApplyUpdates(old(operators), sender, updates)
              case Ok(ops) => r == Pass && operators == ops
              case Err(e) => r == Fail(e) && operators == old(operators)
    {
      var saved := operators;
      var i := 0;
      while i < |updates|
        invariant 0 <= i <= |updates|
        invariant ApplyUpdates(saved, sender, updates) == ApplyUpdates(operators, sender, updates[i..])
      {
        var u := updates[i];
        if sender != u.key.owner {
          operators := saved;  // the transaction reverts
          return Fail(NotOwner);
        }
        match u {
          case AddOperator(k) =>
            operators := operators + {k};
          case RemoveOperator(k) =>
            if k in operators {
              operators := operators - {k};
            }
        }
        assert updates[i..][1..] == updates[i + 1..];
        i := i + 1;
      }
      r := Pass;
    }

    /** `transfer`: every leaf of every batch in order, reading and writing
        the ledger; a failing leaf aborts the whole call, undoing the
        earlier leaves. */
    method Transfer(sender: Address, batches: seq<Batch>) returns (r: Outcome)
      requires Valid()
      modifies this`ledger
      ensures Valid()
      ensures match ApplyBatches(old(ledger), operators, sender, batches)
              case Ok(l) => r == Pass && ledger == l
              case Err(e) => r == Fail(e) && ledger == old(ledger)
    {
      var saved := ledger;
      var i := 0;
      while i < |batches|
        invariant 0 <= i <= |batches|
        invariant ApplyBatches(saved, operators, sender, batches) == ApplyBatches(ledger, operators, sender, batches[i..])
      {
        var batch := batches[i];
        ghost var atBatch := ledger;
        var j := 0;
        while j < |batch.txs|
          invariant 0 <= j <= |batch.txs|
          invariant ApplyLeaves(atBatch, operators, sender, batch.from, batch.txs)
                 == ApplyLeaves(ledger, operators, sender, batch.from, batch.txs[j..])
        {
          ghost var before := ledger;
          var leaf := TransferLeaf(sender, batch.from, batch.txs[j]);
          if leaf.Fail? {
            FirstLeafFails(saved, atBatch, before, operators, sender, batches, i, j, leaf.error);
            ledger := saved;  // the transaction reverts
            return leaf;
          }
          LeafStep(before, ledger, operators, sender, batch.from, batch.txs, j);
          j := j + 1;
        }
        assert batch.txs[|batch.txs|..] == [];
        assert batches[i..][0] == batch && batches[i..][1..] == batches[i + 1..];
        i := i + 1;
      }
      TransferConserves(saved, totalSupply, operators, sender, batches);
      r := Pass;
    }

    /** One leaf of `transfer`: the sender must be `from` or its operator
        for the token, and `from` must hold `tx.amount`; then `from` is
        debited and `to` credited, in that order. A failing leaf writes
        nothing. */
    method TransferLeaf(sender: Address, from: Address, tx: Tx) returns (r: Outcome)
      modifies this`ledger
      ensures match ApplyLeaf(old(ledger), operators, sender, from, tx)
              case Ok(l) => r == Pass && ledger == l
              case Err(e) => r == Fail(e) && ledger == old(ledger)
    {
      if !(sender == from || IsOperatorOf(from, sender, tx.tokenId)) {
        return Fail(NotOperator);
      }
      var fromKey := (from, tx.tokenId);
      var toKey := (tx.to, tx.tokenId);
      var fromBal := Get(ledger, fromKey);
      if fromBal < tx.amount {
        return Fail(InsufficientBalance);
      }
      ledger := ledger[fromKey := fromBal - tx.amount];
      ledger := ledger[toKey := Get(ledger, toKey) + tx.amount];
      r := Pass;
    }

    /** `mint`: the administrator issues `amount > 0` units of `tokenId` to
        `to`; the balance and the total supply rise by exactly `amount`. */
    method Mint(sender: Address, to: Address, tokenId: nat, amount: nat) returns (r: Outcome)
      requires Valid()
      modifies this`ledger, this`totalSupply
      ensures Valid()
      ensures sender != admin ==> r == Fail(NotAdmin)
      ensures sender == admin && amount == 0 ==> r == Fail(ZeroMint)
      ensures r.Pass? <==> sender == admin && amount > 0
      ensures r.Pass? ==> ledger == old(ledger)[(to, tokenId) := Get(old(ledger), (to, tokenId)) + amount]
      ensures r.Pass? ==> totalSupply == old(totalSupply)[tokenId := Get(old(totalSupply), tokenId) + amount]
      ensures r.Fail? ==> ledger == old(ledger) && totalSupply == old(totalSupply)
    {
      if sender != admin {
        return Fail(NotAdmin);
      }
      if amount == 0 {
        return Fail(ZeroMint);
      }
      MintConserves(ledger, totalSupply, to, tokenId, amount);
      var key := (to, tokenId);
      ledger := ledger[key := Get(ledger, key) + amount];
      totalSupply := totalSupply[tokenId := Get(totalSupply, tokenId) + amount];
      r := Pass;
    }
  }

  /** After a leaf `j` that succeeds, the rest of the batch starts from
      the balances it leaves. */
  lemma LeafStep(l: Ledger, l': Ledger, ops: set<OperatorKey>, sender: Address, from: Address, txs: seq<Tx>, j: nat)
    requires j < |txs| && ApplyLeaf(l, ops, sender, from, txs[j]) == Ok(l')
    ensures ApplyLeaves(l, ops, sender, from, txs[j..]) == ApplyLeaves(l', ops, sender, from, txs[j + 1..])
  {
    assert txs[j..][0] == txs[j] && txs[j..][1..] == txs[j + 1..];
  }

  /** The failure of leaf `j` of batch `i`, met with the balances left by
      the earlier leaves, is the failure of the whole call. */
  lemma FirstLeafFails(saved: Ledger, atBatch: Ledger, l: Ledger, ops: set<OperatorKey>, sender: Address,
                       batches: seq<Batch>, i: nat, j: nat, e: Error)
    requires i < |batches| && j < |batches[i].txs|
    requires ApplyBatches(saved, ops, sender, batches) == ApplyBatches(atBatch, ops, sender, batches[i..])
    requires ApplyLeaves(atBatch, ops, sender, batches[i].from, batches[i].txs)
          == ApplyLeaves(l, ops, sender, batches[i].from, batches[i].txs[j..])
    requires ApplyLeaf(l, ops, sender, batches[i].from, batches[i].txs[j]) == Err(e)
    ensures ApplyBatches(saved, ops, sender, batches) == Err(e)
  {
    assert batches[i].txs[j..][0] == batches[i].txs[j];
    assert batches[i..][0] == batches[i];
  }

  /** Issuing `amount` to one balance and to the same token's supply keeps
      conservation. */
  lemma MintConserves(l: Ledger, supply: map<nat, nat>, to: Address, tokenId: nat, amount: nat)
    requires Conserved(l, supply)
    ensures Conserved(l[(to, tokenId) := Get(l, (to, tokenId)) + amount],
                      supply[tokenId := Get(supply, tokenId) + amount])
  {
    var l' := l[(to, tokenId) := Get(l, (to, tokenId)) + amount];
    var s' := supply[tokenId := Get(supply, tokenId) + amount];
    forall t ensures Circulating(l', t) == Get(s', t) {
      assert Circulating(l, t) == Get(supply, t);
      SumByUpdate(l, TokenOf, t, (to, tokenId), Get(l, (to, tokenId)) + amount);
    }
  }
}
