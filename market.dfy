/** The crowdfunding market: an artist opens collections with a per-buyer
    cap (a percentage of a piece's price), escrows an NFT to open a piece
    for sale, and buyers fund the piece in mutez, each receiving share
    tokens 1:1 from the share ledger while the artist is paid at once. A
    piece closes exactly when it is fully funded. */
module Market {
  import opened Common
  import opened ShareFA2

  /** A collection: its artist and the per-buyer cap in percent. */
  datatype Collection = Collection(artist: Address, capPercent: nat)

  /** A piece on sale; `price` and `totalRaised` are in mutez. */
  datatype Piece = Piece(
    collectionId: nat,
    price: nat,
    totalRaised: nat,
    closed: bool,
    nftContract: Address,
    nftTokenId: nat,
    shareTokenId: nat)

  /** A contribution key: (piece id, buyer). */
  type ContributionKey = (nat, Address)

  /** An outgoing payment of `amount` mutez to `to`. */
  datatype Payout = Payout(to: Address, amount: nat)

  /** The piece a contribution key belongs to. */
  function PieceOf(k: ContributionKey): nat { k.0 }

  /** The per-buyer cap `sp.split_tokens(price, capPercent, 100)`: the
      largest whole number of mutez not above capPercent percent of price. */
  function CapAmount(price: nat, capPercent: nat): (r: nat)
    ensures r * 100 <= price * capPercent < (r + 1) * 100
    ensures capPercent <= 100 ==> r <= price
  {
    price * capPercent / 100
  }

  /** The checks of `buy_piece` in the contract's order, before anything is
      written: NO_PIECE, PIECE_CLOSED, SEND_TEZ, OVER_CAP_SHARE, OVER_PRICE. */
  function CheckBuy(collections: map<nat, Collection>, pieces: map<nat, Piece>,
                    contributions: map<ContributionKey, nat>,
                    pieceId: nat, buyer: Address, amount: nat): (r: Outcome)
    requires pieceId in pieces ==> pieces[pieceId].collectionId in collections
    ensures r.Pass? <==>
              && pieceId in pieces
              && !pieces[pieceId].closed
              && amount > 0
              && Get(contributions, (pieceId, buyer)) + amount
                 <= CapAmount(pieces[pieceId].price, collections[pieces[pieceId].collectionId].capPercent)
              && pieces[pieceId].totalRaised + amount <= pieces[pieceId].price
    ensures pieceId !in pieces ==> r == Fail(NoPiece)
    ensures pieceId in pieces && pieces[pieceId].closed ==> r == Fail(PieceClosed)
    ensures pieceId in pieces && !pieces[pieceId].closed && amount == 0 ==> r == Fail(SendTez)
    ensures pieceId in pieces && !pieces[pieceId].closed && amount > 0
            && Get(contributions, (pieceId, buyer)) + amount
               > CapAmount(pieces[pieceId].price, collections[pieces[pieceId].collectionId].capPercent)
            ==> r == Fail(OverCapShare)
    ensures pieceId in pieces && !pieces[pieceId].closed && amount > 0
            && Get(contributions, (pieceId, buyer)) + amount
               <= CapAmount(pieces[pieceId].price, collections[pieces[pieceId].collectionId].capPercent)
            && pieces[pieceId].totalRaised + amount > pieces[pieceId].price
            ==> r == Fail(OverPrice)
  {
    if pieceId !in pieces then Fail(NoPiece)
    else
      var p := pieces[pieceId];
      if p.closed then Fail(PieceClosed)
      else if amount == 0 then Fail(SendTez)
      else
        var capAmount := CapAmount(p.price, collections[p.collectionId].capPercent);
        var already := Get(contributions, (pieceId, buyer));
        if already + amount > capAmount then Fail(OverCapShare)
        else if p.totalRaised + amount > p.price then Fail(OverPrice)
        else Pass
  }

  /** A piece after a payment of `amount`: it raised `amount` more, and it
      is closed exactly when it is now fully funded. */
  function Funded(p: Piece, amount: nat): (q: Piece)
    ensures q.totalRaised == p.totalRaised + amount
    ensures q.closed <==> q.totalRaised == p.price
    ensures q.(totalRaised := p.totalRaised, closed := p.closed) == p
  {
    var raised := p.totalRaised + amount;
    p.(totalRaised := raised, closed := raised == p.price)
  }

  // ---------------------------------------------------------------------
  // The market's invariant, over the values of its tables
  // ---------------------------------------------------------------------

  /** The keys of `table` are exactly the ids 1 to `n`. As the contract is
      written, the id of a new record is read from the storage counter after
      its increment, so the records stored so far sit under exactly these
      ids, `n` being the counter. */
  ghost predicate IdsOneTo<T>(table: map<nat, T>, n: nat) {
    forall id :: id in table <==> 1 <= id <= n
  }

  /** The collections sit under the ids 1 to the counter; caps lie within
      [1, 100]. */
  ghost predicate CollectionsOk(collections: map<nat, Collection>, nextCollectionId: nat) {
    && IdsOneTo(collections, nextCollectionId)
    && forall cid :: cid in collections ==> 1 <= collections[cid].capPercent <= 100
  }

  /** A piece's invariant: its share token id is its own id, its collection
      exists, its price is positive, it never raised more than its price, it
      is closed exactly when fully funded, and its contributions sum to what
      it raised. */
  ghost predicate PieceOk(pid: nat, p: Piece, collections: map<nat, Collection>,
                          contributions: map<ContributionKey, nat>) {
    && p.shareTokenId == pid
    && p.collectionId in collections
    && p.price > 0
    && p.totalRaised <= p.price
    && (p.closed <==> p.totalRaised == p.price)
    && SumBy(contributions, PieceOf, pid) == p.totalRaised
  }

  /** The pieces sit under the ids 1 to the counter, and each keeps its own
      invariant. */
  ghost predicate PiecesOk(pieces: map<nat, Piece>, nextPieceId: nat, collections: map<nat, Collection>,
                           contributions: map<ContributionKey, nat>) {
    && IdsOneTo(pieces, nextPieceId)
    && forall pid :: pid in pieces ==> PieceOk(pid, pieces[pid], collections, contributions)
  }

  /** The cap of a piece, from its collection. */
  function PieceCap(collections: map<nat, Collection>, p: Piece): nat
    requires p.collectionId in collections
  {
    CapAmount(p.price, collections[p.collectionId].capPercent)
  }

  /** Every contribution belongs to an existing piece and is within that
      piece's per-buyer cap. */
  ghost predicate ContributionsOk(contributions: map<ContributionKey, nat>, pieces: map<nat, Piece>,
                                  collections: map<nat, Collection>) {
    forall k :: k in contributions ==>
      && k.0 in pieces
      && pieces[k.0].collectionId in collections
      && contributions[k] <= PieceCap(collections, pieces[k.0])
  }

  /** The market's tables are consistent with each other and with the id
      counters. */
  ghost predicate TablesOk(collections: map<nat, Collection>, nextCollectionId: nat,
                           pieces: map<nat, Piece>, nextPieceId: nat,
                           contributions: map<ContributionKey, nat>) {
    && CollectionsOk(collections, nextCollectionId)
    && PiecesOk(pieces, nextPieceId, collections, contributions)
    && ContributionsOk(contributions, pieces, collections)
  }

  // ---------------------------------------------------------------------
  // Each entry point keeps the invariant
  // ---------------------------------------------------------------------

  /** A new collection stored, as the contract is written, under the
      counter's value after its increment keeps the invariant. */
  lemma CreateCollectionKeepsInvariant(collections: map<nat, Collection>, nextCollectionId: nat,
                                       pieces: map<nat, Piece>, nextPieceId: nat,
                                       contributions: map<ContributionKey, nat>,
                                       artist: Address, capPercent: nat)
    requires TablesOk(collections, nextCollectionId, pieces, nextPieceId, contributions)
    requires 1 <= capPercent <= 100
    ensures nextCollectionId + 1 !in collections
    ensures TablesOk(collections[nextCollectionId + 1 := Collection(artist, capPercent)], nextCollectionId + 1,
                     pieces, nextPieceId, contributions)
  {
    var c := collections[nextCollectionId + 1 := Collection(artist, capPercent)];
    forall pid | pid in pieces ensures PieceOk(pid, pieces[pid], c, contributions) {
      assert PieceOk(pid, pieces[pid], collections, contributions);
    }
    forall k | k in contributions
      ensures k.0 in pieces && pieces[k.0].collectionId in c && contributions[k] <= PieceCap(c, pieces[k.0])
    {
      assert PieceOk(k.0, pieces[k.0], collections, contributions);
    }
  }

  /** A new open piece with nothing raised, stored, as the contract is
      written, under the piece counter's value after its increment and with
      that value as its share token id, keeps the invariant; in particular
      no contribution can exist for it yet. */
  lemma CreatePieceKeepsInvariant(collections: map<nat, Collection>, nextCollectionId: nat,
                                  pieces: map<nat, Piece>, nextPieceId: nat,
                                  contributions: map<ContributionKey, nat>, p: Piece)
    requires TablesOk(collections, nextCollectionId, pieces, nextPieceId, contributions)
    requires p.collectionId in collections && p.price > 0 && p.totalRaised == 0 && !p.closed
    requires p.shareTokenId == nextPieceId + 1
    ensures nextPieceId + 1 !in pieces
    ensures SumBy(contributions, PieceOf, nextPieceId + 1) == 0
    ensures TablesOk(collections, nextCollectionId, pieces[nextPieceId + 1 := p], nextPieceId + 1, contributions)
  {
    forall k | k in contributions ensures PieceOf(k) != nextPieceId + 1 {
      assert k.0 in pieces;
    }
    SumByEmptyGroup(contributions, PieceOf, nextPieceId + 1);
    var ps := pieces[nextPieceId + 1 := p];
    forall pid | pid in ps ensures PieceOk(pid, ps[pid], collections, contributions) {
      if pid != nextPieceId + 1 {
        assert PieceOk(pid, pieces[pid], collections, contributions);
      }
    }
  }

  /** A payment that passes every check of `buy_piece` keeps the invariant:
      the buyer stays within the cap, the piece within its price, and the
      piece's contributions still sum to what it raised. */
  lemma BuyKeepsInvariant(collections: map<nat, Collection>, nextCollectionId: nat,
                          pieces: map<nat, Piece>, nextPieceId: nat,
                          contributions: map<ContributionKey, nat>, pieceId: nat, buyer: Address, amount: nat,
                          ps: map<nat, Piece>, cs: map<ContributionKey, nat>)
    requires TablesOk(collections, nextCollectionId, pieces, nextPieceId, contributions)
    requires pieceId in pieces ==> pieces[pieceId].collectionId in collections
    requires CheckBuy(collections, pieces, contributions, pieceId, buyer, amount) == Pass
    requires ps == pieces[pieceId := Funded(pieces[pieceId], amount)]
    requires cs == contributions[(pieceId, buyer) := Get(contributions, (pieceId, buyer)) + amount]
    ensures TablesOk(collections, nextCollectionId, ps, nextPieceId, cs)
  {
    var key := (pieceId, buyer);
    forall pid | pid in ps ensures PieceOk(pid, ps[pid], collections, cs) {
      assert PieceOk(pid, pieces[pid], collections, contributions);
      SumByUpdate(contributions, PieceOf, pid, key, Get(contributions, key) + amount);
    }
    forall k | k in cs ensures k.0 in ps && ps[k.0].collectionId in collections && cs[k] <= PieceCap(collections, ps[k.0]) {
      if k != key {
        assert k in contributions;
      }
    }
  }

  // ---------------------------------------------------------------------
  // New ids as the repository's tests expect them
  // ---------------------------------------------------------------------

  /** The ids 0 to `n` - 1. */
  ghost function IdsBelow(n: nat): set<nat> {
    if n == 0 then {} else IdsBelow(n - 1) + {n - 1}
  }

  /** The counter itself is not among the ids below it. */
  lemma {:induction false} BelowCounter(n: nat)
    ensures n !in IdsBelow(n)
    ensures forall id :: id in IdsBelow(n) ==> id < n
    ensures n > 0 ==> n - 1 in IdsBelow(n)
  {
    if n > 0 {
      BelowCounter(n - 1);
    }
  }

  /** Storing a new record as the tests expect: under the counter's value
      before its increment. Returns the new table and the new counter. */
  function StoreUnderOldCounter<T>(table: map<nat, T>, counter: nat, v: T): (r: (map<nat, T>, nat))
    ensures r.1 == counter + 1
    ensures counter in r.0 && r.0[counter] == v
    ensures forall id :: id != counter ==> (id in r.0 <==> id in table)
  {
    (table[counter := v], counter + 1)
  }

  /** Stored that way, the records sit under the ids 0 to the counter less
      1, with no gap: the first record gets id 0, and the newest sits under
      the old counter. */
  lemma OldCounterIdsDense<T>(table: map<nat, T>, counter: nat, v: T)
    requires table.Keys == IdsBelow(counter)
    ensures counter !in table
    ensures StoreUnderOldCounter(table, counter, v).0.Keys == IdsBelow(StoreUnderOldCounter(table, counter, v).1)
    ensures table == map[] ==> StoreUnderOldCounter(table, counter, v).0 == map[0 := v]
  {
    BelowCounter(counter);
    var r := StoreUnderOldCounter(table, counter, v);
    assert r.0.Keys == table.Keys + {counter};
  }

  class Market {
    /** The market's own address, `sp.self_address`. */
    const address: Address
    /** The share ledger the market mints through. */
    const shares: ShareLedger

    var nextCollectionId: nat
    var nextPieceId: nat
    var nextShareTokenId: nat
    var collections: map<nat, Collection>
    var pieces: map<nat, Piece>
    var contributions: map<ContributionKey, nat>
    /** The artist payouts made so far, oldest first. */
    var payouts: seq<Payout>

    ghost predicate Valid()
      reads this, shares
    {
      && shares.Valid()
      && nextPieceId == nextShareTokenId
      && TablesOk(collections, nextCollectionId, pieces, nextPieceId, contributions)
    }

    constructor (address: Address, shares: ShareLedger)
      requires shares.Valid()
      ensures Valid()
      ensures this.address == address && this.shares == shares
      ensures nextCollectionId == 0 && nextPieceId == 0 && nextShareTokenId == 0
      ensures collections == map[] && pieces == map[] && contributions == map[] && payouts == []
    {
      this.address := address;
      this.shares := shares;
      nextCollectionId, nextPieceId, nextShareTokenId := 0, 0, 0;
      collections, pieces, contributions := map[], map[], map[];
      payouts := [];
    }

    /** `create_collection`: the sender becomes the artist of a new
        collection with a cap in [1, 100], stored under a fresh id. The id
        is a second name for the storage counter rather than a copy of it,
        so the record is written under the counter's value after its
        increment: the first collection gets id 1. */
    method CreateCollection(sender: Address, capPercent: nat) returns (r: Outcome)
      requires Valid()
      modifies this`collections, this`nextCollectionId
      ensures Valid()
      ensures r == if capPercent < 1 then Fail(CapTooLow)
                   else if capPercent > 100 then Fail(CapTooHigh)
                   else Pass
      ensures r.Pass? ==> old(nextCollectionId) + 1 !in old(collections)
      ensures r.Pass? ==> collections == old(collections)[old(nextCollectionId) + 1 := Collection(sender, capPercent)]
      ensures r.Pass? ==> nextCollectionId == old(nextCollectionId) + 1
      ensures r.Fail? ==> collections == old(collections) && nextCollectionId == old(nextCollectionId)
    {
      if capPercent < 1 {
        return Fail(CapTooLow);
      }
      if capPercent > 100 {
        return Fail(CapTooHigh);
      }
      CreateCollectionKeepsInvariant(collections, nextCollectionId, pieces, nextPieceId, contributions,
                                     sender, capPercent);
      nextCollectionId := nextCollectionId + 1;
      collections := collections[nextCollectionId := Collection(sender, capPercent)];
      r := Pass;
    }

    /** `create_piece_from_nft`: the collection's artist escrows one NFT and
        opens a piece at a positive price, under a fresh piece id and a
        fresh share token id. As in `create_collection`, both ids name the
        storage counters and are read after the increments: the first piece
        gets id 1 and share token 1. `escrowOk` is whether the NFT contract
        accepted the transfer to the market. */
    method CreatePieceFromNft(sender: Address, collectionId: nat, nftContract: Address, nftTokenId: nat,
                              price: nat, escrowOk: bool) returns (r: Outcome)
      requires Valid()
      modifies this`pieces, this`nextPieceId, this`nextShareTokenId
      ensures Valid()
      ensures r == if collectionId !in collections then Fail(NoCollection)
                   else if sender != collections[collectionId].artist then Fail(NotArtist)
                   else if price == 0 then Fail(BadPrice)
                   else if !escrowOk then Fail(EscrowFailed)
                   else Pass
      ensures r.Pass? ==> old(nextPieceId) + 1 !in old(pieces)
      ensures r.Pass? ==> pieces == old(pieces)[old(nextPieceId) + 1 :=
                            Piece(collectionId, price, 0, false, nftContract, nftTokenId, old(nextShareTokenId) + 1)]
      ensures r.Pass? ==> nextPieceId == old(nextPieceId) + 1 && nextShareTokenId == old(nextShareTokenId) + 1
      ensures r.Fail? ==> pieces == old(pieces) && nextPieceId == old(nextPieceId)
                          && nextShareTokenId == old(nextShareTokenId)
    {
      if collectionId !in collections {
        return Fail(NoCollection);
      }
      var col := collections[collectionId];
      if sender != col.artist {
        return Fail(NotArtist);
      }
      if price == 0 {
        return Fail(BadPrice);
      }
      // The escrow transfer of the NFT to the market; its failure reverts the call.
      if !escrowOk {
        return Fail(EscrowFailed);
      }
      nextPieceId := nextPieceId + 1;
      nextShareTokenId := nextShareTokenId + 1;
      var piece := Piece(collectionId, price, 0, false, nftContract, nftTokenId, nextShareTokenId);
      CreatePieceKeepsInvariant(collections, nextCollectionId, pieces, nextPieceId - 1, contributions, piece);
      pieces := pieces[nextPieceId := piece];
      r := Pass;
    }

    /** `buy_piece`: the sender pays `amount` mutez towards a piece. The
        checks of CheckBuy run first, in the contract's order, before
        anything is written; a payment that passes them is settled. */
    method Buy(sender: Address, pieceId: nat, amount: nat) returns (r: Outcome)
      requires Valid()
      modifies this`pieces, this`contributions, this`payouts, shares`ledger, shares`totalSupply
      ensures Valid()
      ensures old(CheckBuy(collections, pieces, contributions, pieceId, sender, amount)).Fail? ==>
                r == old(CheckBuy(collections, pieces, contributions, pieceId, sender, amount))
      ensures old(CheckBuy(collections, pieces, contributions, pieceId, sender, amount)).Pass? ==>
                r == if shares.admin == address then Pass else Fail(NotAdmin)
      ensures r.Fail? ==> pieces == old(pieces) && contributions == old(contributions) && payouts == old(payouts)
                          && shares.ledger == old(shares.ledger) && shares.totalSupply == old(shares.totalSupply)
      ensures r.Pass? ==> pieceId in old(pieces) && Settled(sender, pieceId, amount)
      ensures forall q :: q in old(pieces) && old(pieces[q]).closed ==> q in pieces && pieces[q] == old(pieces[q])
    {
      assert pieceId in pieces ==> PieceOk(pieceId, pieces[pieceId], collections, contributions);
      if pieceId !in pieces {
        return Fail(NoPiece);
      }
      var p := pieces[pieceId];
      if p.closed {
        return Fail(PieceClosed);
      }
      if amount == 0 {
        return Fail(SendTez);
      }
      var col := collections[p.collectionId];
      var capAmount := CapAmount(p.price, col.capPercent);
      var key := (pieceId, sender);
      var already := Get(contributions, key);
      if already + amount > capAmount {
        return Fail(OverCapShare);
      }
      if p.totalRaised + amount > p.price {
        return Fail(OverPrice);
      }
      ghost var pieces0, contributions0 := pieces, contributions;
      assert CheckBuy(collections, pieces0, contributions0, pieceId, sender, amount) == Pass;
      r := Settle(sender, pieceId, amount);
      if r.Pass? {
        BuyKeepsInvariant(collections, nextCollectionId, pieces0, nextPieceId, contributions0, pieceId, sender, amount,
                          pieces, contributions);
      }
    }

    /** The new state after a settled payment of `amount` by `buyer` for
        piece `pieceId`: the buyer's contribution and the piece's amount
        raised grow by exactly `amount` (closing the piece exactly when it
        is fully funded), exactly `amount` units of the piece's share token
        are minted to the buyer, and the artist is paid `amount`. */
    twostate predicate Settled(buyer: Address, pieceId: nat, amount: nat)
      reads this, shares
    {
      && pieceId in old(pieces)
      && old(pieces[pieceId]).collectionId in old(collections)
      && collections == old(collections)
      && contributions == old(contributions)[(pieceId, buyer) := Get(old(contributions), (pieceId, buyer)) + amount]
      && pieces == old(pieces)[pieceId := Funded(old(pieces[pieceId]), amount)]
      && payouts == old(payouts) + [Payout(old(collections[pieces[pieceId].collectionId]).artist, amount)]
      && shares.ledger == old(shares.ledger)[(buyer, pieceId) := Get(old(shares.ledger), (buyer, pieceId)) + amount]
      && shares.totalSupply == old(shares.totalSupply)[pieceId := Get(old(shares.totalSupply), pieceId) + amount]
    }

    /** The accounting, the nested mint and the artist payout of a payment
        that has passed every check of `buy_piece`. */
    method Settle(sender: Address, pieceId: nat, amount: nat) returns (r: Outcome)
      requires shares.Valid()
      requires pieceId in pieces && pieces[pieceId].collectionId in collections
      requires pieces[pieceId].shareTokenId == pieceId && !pieces[pieceId].closed && amount > 0
      modifies this`pieces, this`contributions, this`payouts, shares`ledger, shares`totalSupply
      ensures shares.Valid()
      ensures r == if shares.admin == address then Pass else Fail(NotAdmin)
      ensures r.Fail? ==> pieces == old(pieces) && contributions == old(contributions) && payouts == old(payouts)
                          && shares.ledger == old(shares.ledger) && shares.totalSupply == old(shares.totalSupply)
      ensures r.Pass? ==> pieces == old(pieces)[pieceId := Funded(old(pieces[pieceId]), amount)]
      ensures r.Pass? ==> contributions == old(contributions)[(pieceId, sender) := Get(old(contributions), (pieceId, sender)) + amount]
      ensures r.Pass? ==> payouts == old(payouts) + [Payout(old(collections[pieces[pieceId].collectionId]).artist, amount)]
      ensures r.Pass? ==> shares.ledger == old(shares.ledger)[(sender, pieceId) := Get(old(shares.ledger), (sender, pieceId)) + amount]
      ensures r.Pass? ==> shares.totalSupply == old(shares.totalSupply)[pieceId := Get(old(shares.totalSupply), pieceId) + amount]
    {
      var p := pieces[pieceId];
      var col := collections[p.collectionId];
      var key := (pieceId, sender);
      var already := Get(contributions, key);
      ghost var newPieces := pieces[pieceId := Funded(p, amount)];

      // Accounting
      var savedPieces, savedContributions := pieces, contributions;
      contributions := contributions[key := already + amount];
      pieces := pieces[pieceId := p.(totalRaised := p.totalRaised + amount)];

      // Mint shares 1:1 with the contributed mutez
      var minted := shares.Mint(address, sender, p.shareTokenId, amount);
      if minted.Fail? {
        pieces, contributions := savedPieces, savedContributions;  // the transaction reverts
        return minted;
      }
      assert shares.ledger == old(shares.ledger)[(sender, pieceId) := Get(old(shares.ledger), (sender, pieceId)) + amount];
      assert shares.totalSupply == old(shares.totalSupply)[pieceId := Get(old(shares.totalSupply), pieceId) + amount];

      // Pay the artist immediately
      payouts := payouts + [Payout(col.artist, amount)];

      // Close when fully funded
      if pieces[pieceId].totalRaised == p.price {
        pieces := pieces[pieceId := pieces[pieceId].(closed := true)];
      }
      assert pieces == newPieces;
      assert contributions == old(contributions)[key := Get(old(contributions), key) + amount];
      assert payouts == old(payouts) + [Payout(old(collections[pieces[pieceId].collectionId]).artist, amount)];
      r := Pass;
    }

    // -------------------------------------------------------------------
    // Views
    // -------------------------------------------------------------------

    /** `get_collection`: the stored record, or NO_COLLECTION. */
    function GetCollection(collectionId: nat): (r: Result<Collection>)
      reads this
      ensures r.Ok? <==> collectionId in collections
      ensures r.Ok? ==> r.value == collections[collectionId]
      ensures r.Err? ==> r.error == NoCollection
    {
      if collectionId in collections then Ok(collections[collectionId]) else Err(NoCollection)
    }

    /** `get_piece`: the stored record, or NO_PIECE. */
    function GetPiece(pieceId: nat): (r: Result<Piece>)
      reads this
      ensures r.Ok? <==> pieceId in pieces
      ensures r.Ok? ==> r.value == pieces[pieceId]
      ensures r.Err? ==> r.error == NoPiece
    {
      if pieceId in pieces then Ok(pieces[pieceId]) else Err(NoPiece)
    }

    /** `get_user_contribution`: what `user` paid towards a piece so far,
        0 when nothing was recorded. */
    function GetUserContribution(pieceId: nat, user: Address): (r: nat)
      reads this
      ensures (pieceId, user) !in contributions ==> r == 0
      ensures (pieceId, user) in contributions ==> r == contributions[(pieceId, user)]
    {
      Get(contributions, (pieceId, user))
    }

    /** `get_cap_amount`: the per-buyer cap of a piece, recomputed from its
        price and its collection's cap percentage, or NO_PIECE. */
    function GetCapAmount(pieceId: nat): (r: Result<nat>)
      reads this
      requires pieceId in pieces ==> pieces[pieceId].collectionId in collections
      ensures r.Err? <==> pieceId !in pieces
      ensures r.Err? ==> r.error == NoPiece
      ensures r.Ok? ==>
                var p := pieces[pieceId];
                var cap := collections[p.collectionId].capPercent;
                r.value * 100 <= p.price * cap < (r.value + 1) * 100
                && (cap <= 100 ==> r.value <= p.price)
    {
      if pieceId !in pieces then Err(NoPiece)
      else
        var p := pieces[pieceId];
        Ok(CapAmount(p.price, collections[p.collectionId].capPercent))
    }

    // -------------------------------------------------------------------
    // What the invariant promises about the views
    // -------------------------------------------------------------------

    /** A buyer's recorded contribution never exceeds the piece's cap nor
        what the piece raised in all. */
    lemma ContributionWithinCap(pieceId: nat, user: Address)
      requires Valid()
      requires pieceId in pieces
      ensures GetCapAmount(pieceId).Ok?
      ensures GetUserContribution(pieceId, user) <= GetCapAmount(pieceId).value
      ensures GetUserContribution(pieceId, user) <= pieces[pieceId].totalRaised
    {
      var key := (pieceId, user);
      assert PieceOk(pieceId, pieces[pieceId], collections, contributions);
      if key in contributions {
        SumByBounds(contributions, PieceOf, pieceId, key);
      }
    }

    /** A stored piece never raised more than its price, is closed exactly
        when fully funded, and its share token id is its own id, at most the
        share-token counter, so no two pieces share a token id. */
    lemma PieceViewInvariant(pieceId: nat, other: nat)
      requires Valid()
      requires GetPiece(pieceId).Ok?
      ensures GetPiece(pieceId).value.totalRaised <= GetPiece(pieceId).value.price
      ensures GetPiece(pieceId).value.closed <==> GetPiece(pieceId).value.totalRaised == GetPiece(pieceId).value.price
      ensures GetPiece(pieceId).value.shareTokenId == pieceId
      ensures 1 <= pieceId <= nextShareTokenId
      ensures GetCollection(GetPiece(pieceId).value.collectionId).Ok?
      ensures other != pieceId && GetPiece(other).Ok? ==>
                GetPiece(other).value.shareTokenId != GetPiece(pieceId).value.shareTokenId
    {
      assert PieceOk(pieceId, pieces[pieceId], collections, contributions);
      if other in pieces {
        assert PieceOk(other, pieces[other], collections, contributions);
      }
    }

    /** A stored collection's cap lies within [1, 100], and its id lies
        between 1 and the collection counter. */
    lemma CollectionViewInvariant(collectionId: nat)
      requires Valid()
      requires GetCollection(collectionId).Ok?
      ensures 1 <= GetCollection(collectionId).value.capPercent <= 100
      ensures 1 <= collectionId <= nextCollectionId
    {
    }

    /** As the contract is written, collections and pieces are stored under
        the ids 1 to their counter: id 0 is never found, and the newest
        record sits under the counter itself, not under the counter less 1. */
    lemma StoredIds(id: nat)
      requires Valid()
      ensures GetCollection(id).Ok? <==> 1 <= id <= nextCollectionId
      ensures GetPiece(id).Ok? <==> 1 <= id <= nextPieceId
      ensures GetCollection(0) == Err(NoCollection) && GetPiece(0) == Err(NoPiece)
    {
    }
  }
}
