/** Values shared by the share ledger and the market: addresses, the named
    errors with which an entry point aborts, results, and sums over keyed
    tables (the ledger's balances, the market's contributions). */
module Common {

  /** A Tezos address (implicit account or contract), abstracted to a number. */
  type Address = nat

  /** The error strings with which an entry point aborts the whole transaction.
      EscrowFailed stands for whatever error the external NFT contract raises
      when it refuses to move the escrowed token. */
  datatype Error =
    | NotAdmin             // "NOT_ADMIN"
    | ZeroMint             // "ZERO_MINT"
    | NotOwner             // "NOT_OWNER"
    | NotOperator          // "NOT_OPERATOR"
    | InsufficientBalance  // "INSUFFICIENT_BALANCE"
    | CapTooLow            // "CAP_TOO_LOW"
    | CapTooHigh           // "CAP_TOO_HIGH"
    | NoCollection         // "NO_COLLECTION"
    | NotArtist            // "NOT_ARTIST"
    | BadPrice             // "BAD_PRICE"
    | EscrowFailed         // the NFT contract's transfer failed
    | NoPiece              // "NO_PIECE"
    | PieceClosed          // "PIECE_CLOSED"
    | SendTez              // "SEND_TEZ"
    | OverCapShare         // "OVER_CAP_SHARE"
    | OverPrice            // "OVER_PRICE"

  /** The result of a computation that either yields a value or aborts. */
  datatype Result<T> = Ok(value: T) | Err(error: Error)

  /** The result of an entry point: it commits, or it aborts with an error. */
  datatype Outcome = Pass | Fail(error: Error)

  /** A big-map lookup with a default of 0, as `m.get(k, 0)`. */
  function Get<K>(m: map<K, nat>, k: K): (r: nat)
    ensures k in m ==> r == m[k]
    ensures k !in m ==> r == 0
  {
    if k in m then m[k] else 0
  }

  /** The sum of the values of `m` whose key falls into group `g`, where
      `group` says which group a key falls into (a token id for a ledger
      key, a piece id for a contribution key). */
  ghost function SumBy<K>(m: map<K, nat>, group: K -> nat, g: nat): nat
    decreases |m|
  {
    if m == map[] then 0
    else
      var k :| k in m;
      assert |m - {k}| < |m| by { assert (m - {k}).Keys == m.Keys - {k}; }
      (if group(k) == g then m[k] else 0) + SumBy(m - {k}, group, g)
  }

  /** What key `k` of `m` contributes to the sum of group `g`. */
  function Share<K>(m: map<K, nat>, group: K -> nat, g: nat, k: K): nat {
    if group(k) == g then Get(m, k) else 0
  }

  /** The sum does not depend on which key is taken out first. */
  lemma {:induction false} SumByRemove<K>(m: map<K, nat>, group: K -> nat, g: nat, k: K)
    requires k in m
    ensures SumBy(m, group, g) == Share(m, group, g, k) + SumBy(m - {k}, group, g)
    decreases |m|
  {
    var k' :| k' in m && SumBy(m, group, g) == Share(m, group, g, k') + SumBy(m - {k'}, group, g);
    if k' != k {
      assert (m - {k'}).Keys == m.Keys - {k'};
      assert (m - {k}).Keys == m.Keys - {k};
      SumByRemove(m - {k'}, group, g, k);
      SumByRemove(m - {k}, group, g, k');
      assert m - {k'} - {k} == m - {k} - {k'};
      assert Share(m - {k'}, group, g, k) == Share(m, group, g, k);
      assert Share(m - {k}, group, g, k') == Share(m, group, g, k');
    }
  }

  /** Writing `v` under key `k` changes the sum of k's group by the
      difference between `v` and the value `k` had (0 when absent), and
      leaves every other group's sum as it was. */
  lemma SumByUpdate<K>(m: map<K, nat>, group: K -> nat, g: nat, k: K, v: nat)
    ensures SumBy(m[k := v], group, g) + Share(m, group, g, k)
         == SumBy(m, group, g) + (if group(k) == g then v else 0)
  {
    var m' := m[k := v];
    assert m' - {k} == m - {k};
    SumByRemove(m', group, g, k);
    if k in m {
      SumByRemove(m, group, g, k);
    } else {
      assert m - {k} == m;
    }
  }

  /** A group that no key of `m` falls into sums to 0. */
  lemma {:induction false} SumByEmptyGroup<K>(m: map<K, nat>, group: K -> nat, g: nat)
    requires forall k :: k in m ==> group(k) != g
    ensures SumBy(m, group, g) == 0
    decreases |m|
  {
    if m != map[] {
      var k :| k in m;
      SumByRemove(m, group, g, k);
      assert (m - {k}).Keys == m.Keys - {k};
      SumByEmptyGroup(m - {k}, group, g);
    }
  }

  /** Each value of a key in group `g` is at most the group's sum. */
  lemma {:induction false} SumByBounds<K>(m: map<K, nat>, group: K -> nat, g: nat, k: K)
    requires k in m && group(k) == g
    ensures m[k] <= SumBy(m, group, g)
  {
    SumByRemove(m, group, g, k);
  }
}
