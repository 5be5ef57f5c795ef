/** Client runs of the ledger and the market, modelled on the repository's
    test scenarios (two of them, an atomic batch with a failing leaf and a
    buy while the market is not the ledger's administrator, are this
    model's own): what the checked calls return and leave behind follows
    from the contracts of the entry points alone. Amounts are in mutez. */
module Scenarios {
  import opened Common
  import opened ShareFA2
  import opened Market

  const Tez: nat := 1_000_000

  /** Minting by a non-administrator and minting nothing are refused; a
      mint by the administrator credits the owner and the supply. */
  method MintScenario() {
    var admin, alice := 0, 1;
    var l := new ShareLedger(admin);
    var r := l.Mint(alice, alice, 0, 500);
    assert r == Fail(NotAdmin);
    r := l.Mint(admin, alice, 1, 0);
    assert r == Fail(ZeroMint);
    r := l.Mint(admin, alice, 0, 1000);
    assert r == Pass && Get(l.ledger, (alice, 0)) == 1000 && Get(l.totalSupply, 0) == 1000;
    r := l.SetAdmin(alice, alice);
    assert r == Fail(NotAdmin) && l.admin == admin;
  }

  /** A fresh ledger in which `owner` holds `amount` of token 0. */
  method MintedLedger(owner: Address, amount: nat) returns (l: ShareLedger)
    requires amount > 0
    ensures fresh(l) && l.Valid() && l.admin == 0 && l.operators == {}
    ensures l.ledger == map[(owner, 0) := amount] && l.totalSupply == map[0 := amount]
  {
    l := new ShareLedger(0);
    var r := l.Mint(0, owner, 0, amount);
  }

  /** A direct transfer, a failed overdraft, and a transfer by someone who
      is not an operator. */
  method TransferScenario() {
    var alice, bob := 1, 2;
    var l := MintedLedger(alice, 1000);
    SingleBatch(l.ledger, l.operators, alice, Batch(alice, [Tx(bob, 0, 300)]));
    var r := l.Transfer(alice, [Batch(alice, [Tx(bob, 0, 300)])]);
    assert r == Pass && Get(l.ledger, (alice, 0)) == 700 && Get(l.ledger, (bob, 0)) == 300;

    SingleBatch(l.ledger, l.operators, alice, Batch(alice, [Tx(bob, 0, 800)]));
    r := l.Transfer(alice, [Batch(alice, [Tx(bob, 0, 800)])]);
    assert r == Fail(InsufficientBalance) && Get(l.ledger, (alice, 0)) == 700;

    SingleBatch(l.ledger, l.operators, bob, Batch(alice, [Tx(bob, 0, 100)]));
    r := l.Transfer(bob, [Batch(alice, [Tx(bob, 0, 100)])]);
    assert r == Fail(NotOperator) && Get(l.ledger, (alice, 0)) == 700;
  }

  /** Only the owner may add an operator; the operator may then move the
      owner's tokens, and no longer once removed. */
  method OperatorScenario() {
    var alice, bob, op := 1, 2, 3;
    var l := MintedLedger(alice, 1000);
    var key := OperatorKey(alice, op, 0);
    var r := l.UpdateOperators(bob, [AddOperator(key)]);
    assert r == Fail(NotOwner) && key !in l.operators;
    r := l.UpdateOperators(alice, [AddOperator(key)]);
    assert r == Pass && key in l.operators;

    SingleBatch(l.ledger, l.operators, op, Batch(alice, [Tx(bob, 0, 200)]));
    r := l.Transfer(op, [Batch(alice, [Tx(bob, 0, 200)])]);
    assert r == Pass && Get(l.ledger, (alice, 0)) == 800 && Get(l.ledger, (bob, 0)) == 200;

    r := l.UpdateOperators(alice, [RemoveOperator(key)]);
    assert r == Pass && key !in l.operators;
    SingleBatch(l.ledger, l.operators, op, Batch(alice, [Tx(bob, 0, 100)]));
    r := l.Transfer(op, [Batch(alice, [Tx(bob, 0, 100)])]);
    assert r == Fail(NotOperator) && Get(l.ledger, (alice, 0)) == 800;
  }

  /** A failing second leaf undoes the first: the batch is all-or-nothing. */
  method AtomicTransferScenario() {
    var admin, alice, bob := 0, 1, 2;
    var l := new ShareLedger(admin);
    var r := l.Mint(admin, alice, 0, 100);
    assert r == Pass;
    var b := Batch(alice, [Tx(bob, 0, 60), Tx(bob, 0, 60)]);
    SingleBatch(l.ledger, l.operators, alice, b);
    var afterFirst := ApplyLeaf(l.ledger, l.operators, alice, alice, b.txs[0]);
    assert afterFirst.Ok? && Get(afterFirst.value, (alice, 0)) == 40;
    SingleBatch(afterFirst.value, l.operators, alice, Batch(alice, b.txs[1..]));
    assert ApplyLeaves(l.ledger, l.operators, alice, alice, b.txs) == Err(InsufficientBalance);
    r := l.Transfer(alice, [b]);
    assert r == Fail(InsufficientBalance);
    assert Get(l.ledger, (alice, 0)) == 100 && Get(l.ledger, (bob, 0)) == 0;
  }

  /** Collections with caps at and outside the bounds; a piece at price 0 is
      refused and creates nothing. The first collection and the first piece
      are stored under id 1, so collection 0 is not found. */
  method CreationScenario() {
    var artist, other, nft := Artist, 2, Nft;
    var l := new ShareLedger(0);
    var m := new Market(MarketAddress, l);
    var r := m.CreateCollection(artist, 0);
    assert r == Fail(CapTooLow);
    r := m.CreateCollection(artist, 101);
    assert r == Fail(CapTooHigh);
    r := m.CreateCollection(artist, 20);
    assert r == Pass && m.nextCollectionId == 1 && m.collections[1] == Collection(artist, 20);
    assert m.GetCollection(0) == Err(NoCollection);
    r := m.CreatePieceFromNft(artist, 0, nft, 0, 10 * Tez, true);
    assert r == Fail(NoCollection);

    r := m.CreatePieceFromNft(artist, 1, nft, 0, 0, true);
    assert r == Fail(BadPrice) && m.pieces == map[];
    r := m.CreatePieceFromNft(other, 1, nft, 0, 5 * Tez, true);
    assert r == Fail(NotArtist);
    r := m.CreatePieceFromNft(artist, 7, nft, 0, 5 * Tez, true);
    assert r == Fail(NoCollection);
    r := m.CreatePieceFromNft(artist, 1, nft, 0, 5 * Tez, false);
    assert r == Fail(EscrowFailed) && m.nextPieceId == 0;
    r := m.CreatePieceFromNft(artist, 1, nft, 0, 10 * Tez, true);
    assert r == Pass && m.pieces[1].shareTokenId == 1 && m.nextPieceId == 1 && m.nextShareTokenId == 1;
    assert m.GetPiece(0) == Err(NoPiece);
  }

  const Artist: Address := 1
  const Nft: Address := 50
  const MarketAddress: Address := 99

  /** A fresh ledger handed over to a fresh market, one collection of the
      artist and one piece escrowed in it at `price`. */
  method OpenPiece(capPercent: nat, price: nat) returns (l: ShareLedger, m: Market)
    requires 1 <= capPercent <= 100 && price > 0
    ensures fresh(l) && fresh(m)
    ensures m.Valid() && m.shares == l && m.address == MarketAddress && l.admin == MarketAddress
    ensures m.collections == map[1 := Collection(Artist, capPercent)]
    ensures m.pieces == map[1 := Piece(1, price, 0, false, Nft, 0, 1)]
    ensures m.contributions == map[] && m.payouts == []
    ensures l.ledger == map[] && l.totalSupply == map[]
  {
    l := new ShareLedger(0);
    m := new Market(MarketAddress, l);
    var r := l.SetAdmin(0, MarketAddress);
    r := m.CreateCollection(Artist, capPercent);
    r := m.CreatePieceFromNft(Artist, 1, Nft, 0, price, true);
  }

  /** A 25% cap on 10 tez, 2 tez of which buyer 2 has used. */
  method CapPartlyUsed() returns (l: ShareLedger, m: Market)
    ensures fresh(l) && fresh(m)
    ensures m.Valid() && m.shares == l && m.address == MarketAddress && l.admin == MarketAddress
    ensures m.collections == map[1 := Collection(Artist, 25)]
    ensures m.pieces == map[1 := Piece(1, 10 * Tez, 2 * Tez, false, Nft, 0, 1)]
    ensures m.contributions == map[(1, 2) := 2 * Tez]
  {
    l, m := OpenPiece(25, 10 * Tez);
    assert CheckBuy(m.collections, m.pieces, m.contributions, 1, 2, 2 * Tez) == Pass;
    var r := m.Buy(2, 1, 2 * Tez);
  }

  /** Another 0.5 tez reaches the cap of 2.5 tez exactly; one more mutez
      is refused. */
  method CapScenario() {
    var buyer := 2;
    var l, m := CapPartlyUsed();
    assert m.GetCapAmount(1) == Ok(2_500_000);
    assert CheckBuy(m.collections, m.pieces, m.contributions, 1, buyer, 500_000) == Pass;
    var r := m.Buy(buyer, 1, 500_000);
    assert r == Pass && m.GetUserContribution(1, buyer) == 2_500_000;
    r := m.Buy(buyer, 1, 1);
    assert r == Fail(OverCapShare);
  }

  /** A buy while the market is not the ledger's administrator is rolled
      back entirely. */
  method NotAdminScenario() {
    var buyer := 2;
    var l := new ShareLedger(0);
    var m := new Market(MarketAddress, l);
    var c := m.CreateCollection(Artist, 50);
    var p := m.CreatePieceFromNft(Artist, 1, Nft, 0, 10 * Tez, true);
    assert CheckBuy(m.collections, m.pieces, m.contributions, 1, buyer, 1 * Tez) == Pass;
    var r := m.Buy(buyer, 1, 1 * Tez);
    assert r == Fail(NotAdmin);
    assert m.pieces[1].totalRaised == 0 && m.GetUserContribution(1, buyer) == 0 && m.payouts == [];
  }

  /** A 50% cap on 10 tez, half of which buyer 11 has paid. */
  method HalfFunded() returns (l: ShareLedger, m: Market)
    ensures fresh(l) && fresh(m)
    ensures m.Valid() && m.shares == l && m.address == MarketAddress && l.admin == MarketAddress
    ensures m.collections == map[1 := Collection(Artist, 50)]
    ensures m.pieces == map[1 := Piece(1, 10 * Tez, 5 * Tez, false, Nft, 0, 1)]
    ensures m.contributions == map[(1, 11) := 5 * Tez] && m.payouts == [Payout(Artist, 5 * Tez)]
  {
    l, m := OpenPiece(50, 10 * Tez);
    assert CheckBuy(m.collections, m.pieces, m.contributions, 1, 11, 5 * Tez) == Pass;
    var r := m.Buy(11, 1, 5 * Tez);
  }

  /** The second half, paid by buyer 12, closes the piece and pays the
      artist again; a third buyer is refused. */
  method ClosureScenario() {
    var l, m := HalfFunded();
    assert CheckBuy(m.collections, m.pieces, m.contributions, 1, 12, 5 * Tez) == Pass;
    var r := m.Buy(12, 1, 5 * Tez);
    assert r == Pass && m.pieces[1].closed && m.pieces[1].totalRaised == 10 * Tez;
    assert m.payouts == [Payout(Artist, 5 * Tez), Payout(Artist, 5 * Tez)];
    r := m.Buy(13, 1, 1 * Tez);
    assert r == Fail(PieceClosed);
  }

  /** The cap of 33% on 3_333_333 mutez rounds down to 1_099_999. */
  lemma CapRoundsDown()
    ensures CapAmount(3_333_333, 33) == 1_099_999
  {
  }
}
