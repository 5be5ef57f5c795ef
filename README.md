# Fractional art market on Tezos, modelled in Dafny

This project models the two SmartPy contracts of the fractional art market.

- `ShareFA2` is a multi-token fungible share ledger in the FA2 style. It holds an administrator, balances per (owner, token), an operator set, and a total supply per token. Its entry points are `set_admin`, `update_operators`, a batched `transfer`, and an admin-only `mint`.
- `FractionalArtMarketV1_FA2` is the crowdfunding market. An artist opens a collection with a per-buyer cap, given as a percentage of a piece's price. The artist then escrows an NFT to open a piece for sale. Buyers fund the piece in mutez and receive share tokens 1:1 from the ledger. The artist is paid at once. A piece closes exactly when it is fully funded.

Each contract is a Dafny class whose fields are the contract's storage. Each entry point is a method that reports `Pass` or `Fail(error)`. A failing entry point leaves the storage exactly as it was, as a Tezos transaction does when it aborts. The loops of `transfer` and `update_operators` are proved against pure folds, `ApplyBatches` and `ApplyUpdates`. Their properties are lemmas about those folds.

The ledger keeps one invariant: for every token, the balances sum to the recorded total supply. The market keeps its own invariant:

- the piece and share-token counters agree
- collections and pieces sit under exactly the ids 1 to their counter
- every piece belongs to an existing collection, has a positive price, never raised more than its price, and is closed exactly when fully funded
- every contribution is within its piece's per-buyer cap
- a piece's contributions sum to what it raised

Module `Common` holds addresses, the error names, results and sums over keyed tables. Module `Scenarios` holds client runs modelled on the repository's test scenarios, checked against the methods' contracts.

The `Market` class follows the code as written, including where a new record's id is read from its counter after the increment (see "## Findings"). `StoreUnderOldCounter` is the store the repository's tests expect, with its property proved.

## Model

| member | source | states |
|---|---|---|
| ShareFA2.ApplyLeaf | contracts/share_fa2.py:78-90 | An unauthorised leaf fails NOT_OPERATOR, checked before the balance. An authorised leaf fails INSUFFICIENT_BALANCE when the source holds less than the amount. The leaf succeeds if and only if both checks pass. On success the amount moves from (from, token) to (to, token), and every other balance stays as it was. |
| ShareFA2.LeafConserves | contracts/share_fa2.py:83-90 | A successful leaf keeps every token's circulating sum. |
| ShareFA2.SelfTransferUnchanged | contracts/share_fa2.py:83-90 | A leaf with to == from leaves every balance as it was, because the second write restores the first. |
| ShareFA2.SingleBatch | contracts/share_fa2.py:76-77 | A transfer of one batch runs that batch's leaves. A batch of one leaf runs that leaf. |
| ShareFA2.LeavesAppend | contracts/share_fa2.py:77-90 | Leaves apply strictly in list order. Each leaf sees the balances the earlier leaves left, and the first failure aborts the rest. |
| ShareFA2.LeavesConserve | contracts/share_fa2.py:77-90 | A successful list of leaves keeps every token's circulating sum. |
| ShareFA2.BatchesConserve | contracts/share_fa2.py:76-90 | A successful transfer keeps every token's circulating sum. |
| ShareFA2.TransferConserves | contracts/share_fa2.py:76-90 | A successful transfer keeps the balances summing to the unchanged total supply. |
| ShareFA2.LeavesOkAuthorised | contracts/share_fa2.py:78-81 | In a successful batch, the sender was authorised for every leaf. |
| ShareFA2.TransferOkAuthorised | contracts/share_fa2.py:76-81 | In a successful transfer, the sender was the batch's source, or its operator for the leaf's token, on every leaf. |
| ShareFA2.OwnLeavesNeverUnauthorised | contracts/share_fa2.py:78-81 | Leaves that move the sender's own tokens never fail NOT_OPERATOR. |
| ShareFA2.ApplyUpdate | contracts/share_fa2.py:51-60 | An item fails NOT_OWNER exactly when the sender is not the key's owner. Otherwise an add leaves the key present and a remove leaves it absent. No other key changes. |
| ShareFA2.UpdatesOkIff | contracts/share_fa2.py:50-57 | A call succeeds if and only if the sender owns every item's key, and otherwise fails NOT_OWNER. |
| ShareFA2.UpdatesOnlyNamedKeys | contracts/share_fa2.py:50-60 | A successful call changes only the keys its items name. |
| ShareFA2.LastUpdateWins | contracts/share_fa2.py:50-60 | After a successful call, the last item naming a key decides whether that key is present. |
| ShareFA2.UpdatesAppend | contracts/share_fa2.py:50-60 | Items apply in list order, and the first NOT_OWNER aborts the rest. |
| ShareFA2.AddIdempotent | contracts/share_fa2.py:51-54 | Adding an operator twice is the same as adding it once. |
| ShareFA2.RemoveAbsentNoOp | contracts/share_fa2.py:55-60 | The owner removing an absent key changes nothing. |
| ShareFA2.MintConserves | contracts/share_fa2.py:103-105 | Crediting one balance and the same token's supply by the same amount keeps conservation. |
| ShareFA2.ShareLedger.constructor | contracts/share_fa2.py:12-25 | The ledger starts with the given administrator and empty tables. |
| ShareFA2.ShareLedger.SetAdmin | contracts/share_fa2.py:33-37 | Only the current administrator may set the new one; anyone else fails NOT_ADMIN. Only `admin` changes. |
| ShareFA2.ShareLedger.UpdateOperators | contracts/share_fa2.py:39-60 | The operator set becomes the fold of the items over the old set. On NOT_OWNER it is left as it was. |
| ShareFA2.ShareLedger.Transfer | contracts/share_fa2.py:62-90 | The ledger becomes the fold of all leaves over the old ledger. Any failing leaf leaves the ledger exactly as before the call. Conservation is kept. |
| ShareFA2.ShareLedger.TransferLeaf | contracts/share_fa2.py:78-90 | One leaf checks authorisation, then the balance, then debits and credits, as ApplyLeaf says. A failing leaf writes nothing. |
| ShareFA2.ShareLedger.Mint | contracts/share_fa2.py:92-105 | A non-administrator fails NOT_ADMIN, checked before the amount. An amount of 0 fails ZERO_MINT. On success exactly one balance and the token's supply each rise by the amount. Conservation is kept. |
| Market.CapAmount | contracts/market_v1_fa2.py:150 | The cap is the largest whole number of mutez not above capPercent percent of the price, and at most the price when the percentage is at most 100. |
| Market.CheckBuy | contracts/market_v1_fa2.py:143-156 | It passes if and only if the piece exists, is open, the payment is positive, the buyer stays within the cap, and the piece stays within its price. Otherwise it fails with the first failing check, in the contract's order: a missing piece fails NO_PIECE; a closed piece fails PIECE_CLOSED; an open piece paid 0 fails SEND_TEZ; a positive payment over the cap fails OVER_CAP_SHARE, whatever the price; a payment within the cap that overshoots the price fails OVER_PRICE. |
| Market.Funded | contracts/market_v1_fa2.py:160-182 | A piece after a payment has raised exactly that much more. It is closed exactly when it is now fully funded. No other field changes. |
| Market.CreateCollectionKeepsInvariant | contracts/market_v1_fa2.py:74-80 | A new collection with a cap in [1, 100], stored under the counter's value after its increment, keeps the market invariant: that id was free, and the ids in use are again exactly 1 to the counter. |
| Market.CreatePieceKeepsInvariant | contracts/market_v1_fa2.py:120-134 | A new open piece with nothing raised, stored under the piece counter's value after its increment and with that value as its share token id, keeps the market invariant; that id was free and no contribution exists for it yet. |
| Market.BuyKeepsInvariant | contracts/market_v1_fa2.py:155-182 | A payment that passes every check keeps the buyer within the cap and the piece within its price. The piece's contributions still sum to what it raised. |
| Market.Market.constructor | contracts/market_v1_fa2.py:28-62 | The market starts with counters at 0 and empty tables, holding the given share ledger. |
| Market.Market.CreateCollection | contracts/market_v1_fa2.py:68-80 | A cap below 1 fails CAP_TOO_LOW, and otherwise a cap above 100 fails CAP_TOO_HIGH. On success the counter rises by 1 and {sender, cap} is stored under its new value, a fresh id, because the id is read from the counter after the increment. A failure changes nothing. |
| Market.Market.CreatePieceFromNft | contracts/market_v1_fa2.py:82-134 | The checks run in order: NO_COLLECTION, NOT_ARTIST, BAD_PRICE, then a refused escrow. On success both counters rise by 1, and an open piece with nothing raised is stored under the piece counter's new value, a fresh id, with the share-token counter's new value as its token. A failure changes nothing. |
| Market.Market.Buy | contracts/market_v1_fa2.py:140-182 | A payment that fails a check fails with that check's error. A payment that passes fails NOT_ADMIN exactly when the market is not the ledger's administrator. Any failure changes neither market nor ledger. On success the exact new state is Settled's. A closed piece never changes again. |
| Market.Market.Settle | contracts/market_v1_fa2.py:158-182 | The buyer's contribution and the piece's total rise by the payment. The piece closes exactly when fully funded. The buyer is minted that many share tokens, and the artist gets a payout of the payment. If the nested mint fails, everything is rolled back. |
| Market.Market.GetCollection | contracts/market_v1_fa2.py:188-192 | Returns the stored collection, or fails NO_COLLECTION exactly when the id is missing. |
| Market.Market.GetPiece | contracts/market_v1_fa2.py:194-198 | Returns the stored piece, or fails NO_PIECE exactly when the id is missing. |
| Market.Market.GetUserContribution | contracts/market_v1_fa2.py:200-203 | Returns the recorded contribution, or 0 when none is recorded. |
| Market.Market.GetCapAmount | contracts/market_v1_fa2.py:205-211 | Fails NO_PIECE exactly when the piece is missing. Otherwise returns the floor of price times the collection's cap percentage over 100. |
| Market.Market.ContributionWithinCap | contracts/market_v1_fa2.py:150-160 | In a valid market, a buyer's recorded contribution is at most the piece's cap and at most what the piece raised. |
| Market.Market.PieceViewInvariant | contracts/market_v1_fa2.py:120-134 | A stored piece never raised more than its price and is closed exactly when fully funded. Its collection exists. Its share token id is its own id, between 1 and the share-token counter, so no two pieces share a token. |
| Market.Market.CollectionViewInvariant | contracts/market_v1_fa2.py:71-80 | A stored collection's cap lies within [1, 100], and its id lies between 1 and the collection counter. |
| Market.Market.StoredIds | contracts/market_v1_fa2.py:74-126 | As the code is written, a collection or a piece is found exactly when its id lies between 1 and its counter: id 0 is never found, and the newest record sits under the counter itself. |
| Market.StoreUnderOldCounter | tests/test_contracts.py:403-407 | The store the tests expect: the counter rises by 1, the new record sits under the counter's old value, and no other id changes. |
| Market.OldCounterIdsDense | tests/test_contracts.py:403-416 | Stored that way, records sit under exactly the ids 0 to the counter less 1: the old counter was free, and the first record gets id 0. |
| Scenarios.CapRoundsDown | contracts/market_v1_fa2.py:211 | The cap of 33% on 3_333_333 mutez is 1_099_999. |

The methods of module `Scenarios` are client runs modelled on the repository's test scenarios:

- minting by the administrator and by others
- a direct transfer, an overdraft and a transfer by a non-operator
- adding and removing an operator
- creation errors for collections and pieces, and the first ids being 1
- a cap reached exactly
- a piece funded to closure, by two buyers under a 50% cap (the repository's test uses five buyers under a 20% cap)

Two are the model's own, with no counterpart among the tests:

- an atomic batch whose second leaf fails
- a buy while the market is not the ledger's administrator

Each one asserts what the checked calls return and leave behind, from the entry points' contracts alone.

## Left out

- Mutez are unbounded naturals. The overflow failure of Michelson's bounded mutez is not modelled, and `mutez_to_nat` is the identity.
- The market's tez movements are only a log. `sp.send` to the artist appends a `Payout` entry; account balances and a failing payout are not modelled.
- The NFT escrow transfer is a boolean input of `CreatePieceFromNft`. On refusal the call fails EscrowFailed and changes nothing. The transfer's parameters (from the artist to the market, amount 1) are not modelled.
- Entrypoint resolution is not modelled: `sp.contract(...).open_some("BAD_NFT_FA2" / "BAD_SHARE_FA2")` is taken to succeed.
- The Tezos operation queue is not modelled. The nested mint runs inside `Buy`, before the payout, as one atomic transaction. Because any failure reverts the whole transaction, the order makes no observable difference.
- SmartPy type and layout declarations, the `FA2_Transfer*` parameter types and the compilation targets are encoding and deployment, not behaviour.
- The test file's mock NFT contract and its scenario scripts are evidence only. The `Scenarios` module restates a sample of them.
- Addresses are natural numbers, and `sp.self_address` is the market's `address` field.
- A transfer of 0, or to the sender itself, can store an explicit 0 balance. So "unchanged" is stated on balances read with a default of 0, and as map equality only where the key was already present.
- Market.CheckBuy: requires that an existing piece's collection exists, as the contract's lookup at contracts/market_v1_fa2.py:149 assumes. The market invariant guarantees it, so `Buy` needs no extra requirement.
- Market.Market.GetCapAmount: requires the same of a stored piece's collection; the market invariant guarantees it.
- Market.Market.Settle: requires the checks of `buy_piece` to have passed (the piece is open and the payment positive). It is the part of `Buy` after those checks and has no other caller.
- Market.Market.Valid: does not tie a piece's share-token supply to what it raised. Whoever administered the ledger before the market may have minted that token already.
- The check order of `buy_piece` follows the code: NO_PIECE, PIECE_CLOSED, SEND_TEZ, OVER_CAP_SHARE, OVER_PRICE. That runs the positive-payment check after the piece checks.
- ShareFA2.ApplyLeaf: reads contracts/share_fa2.py:89 as `sp.as_nat(from_bal - tx.amount)`. As written, the difference is an `int` stored into a `nat` table, which SmartPy's type checker rejects. Once the balance check at line 87 has passed, that conversion cannot fail, so the model takes the natural difference.
- ShareFA2.ShareLedger.TransferLeaf: the same reading of contracts/share_fa2.py:89 as `ApplyLeaf`.

## Findings

In SmartPy's classic syntax, `cid = self.data.next_collection_id` gives a second name to the storage expression rather than taking a copy (only `sp.local` copies). So the write at line 77 reads the counter after the increment at line 75. The same holds for `pid` and `stid` at lines 120-126.

| source | as written | input that shows it | evidently intended | confidence | as-written member | corrected member |
|---|---|---|---|---|---|---|
| contracts/market_v1_fa2.py:74-77 | the new collection is stored under the counter's value after its increment | a fresh market, then `create_collection(20)`: the collection lands under id 1, so `get_collection(0)` and `create_piece_from_nft` with collection id 0 fail NO_COLLECTION | stored under the counter's old value, id 0 first (tests/test_contracts.py:405-407) | high, not executed | Market.Market.StoredIds | Market.OldCounterIdsDense |
| contracts/market_v1_fa2.py:120-126 | the new piece is stored under the piece counter's value after its increment, with the share-token counter's new value as its token | a fresh market with one collection, then one `create_piece_from_nft`: the piece lands under id 1 with share token 1, so `get_piece(0)` fails NO_PIECE | stored under the old piece counter with the old share-token counter, id 0 first (tests/test_contracts.py:491-498) | high, not executed | Market.Market.StoredIds | Market.OldCounterIdsDense |
