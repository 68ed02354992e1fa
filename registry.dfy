/**
 * The recipient registry as values: the ordered list of recipients (the
 * `PUB_KEYS` entry), the amount stored per recipient, the sum the
 * contract's `total_amnt` must equal, and what disbursing every entry in
 * list order does to the token balances.
 */
module Registry {
  import opened Types
  import opened Token

  /** No recipient appears twice in the list. */
  ghost predicate NoDuplicates(rs: seq<AccountId>)
  {
    forall i, j :: 0 <= i < j < |rs| ==> rs[i] != rs[j]
  }

  /** Every listed recipient has a stored amount. */
  ghost predicate Listed(rs: seq<AccountId>, m: map<AccountId, uint32>)
  {
    forall a :: a in rs ==> a in m
  }

  /**
   * The registry's own invariant: each recipient is listed exactly once,
   * the listed recipients are exactly the accounts with a stored amount,
   * and no stored amount is 0.
   */
  ghost predicate Consistent(rs: seq<AccountId>, m: map<AccountId, uint32>)
  {
    && NoDuplicates(rs)
    && (forall a :: a in m <==> a in rs)
    && (forall a :: a in m ==> m[a] >= 1)
  }

  /** The sum of the amounts stored for the listed recipients. */
  function Total(rs: seq<AccountId>, m: map<AccountId, uint32>): nat
    requires Listed(rs, m)
    decreases |rs|
  {
    if rs == [] then 0 else Total(rs[..|rs| - 1], m) + m[rs[|rs| - 1]] as nat
  }

  /** Appending a recipient adds its amount to the sum. */
  lemma TotalAppend(rs: seq<AccountId>, m: map<AccountId, uint32>, a: AccountId)
    requires Listed(rs, m) && a in m
    ensures Listed(rs + [a], m)
    ensures Total(rs + [a], m) == Total(rs, m) + m[a] as nat
  {
  }

  /** Each listed amount is at most the sum, so subtracting it cannot underflow. */
  lemma {:induction false} TotalAtLeast(rs: seq<AccountId>, m: map<AccountId, uint32>, a: AccountId)
    requires Listed(rs, m) && a in rs
    ensures m[a] as nat <= Total(rs, m)
  {
    var n := |rs| - 1;
    if rs[n] != a {
      var k :| 0 <= k < |rs| && rs[k] == a;
      assert rs[..n][k] == a;
      TotalAtLeast(rs[..n], m, a);
    }
  }

  /** Storing an amount for an unlisted account leaves the sum alone. */
  lemma {:induction false} TotalFresh(rs: seq<AccountId>, m: map<AccountId, uint32>, a: AccountId, v: uint32)
    requires Listed(rs, m) && a !in rs
    ensures Listed(rs, m[a := v])
    ensures Total(rs, m[a := v]) == Total(rs, m)
  {
    if rs != [] {
      var n := |rs| - 1;
      assert forall x :: x in rs[..n] ==> x in rs;
      TotalFresh(rs[..n], m, a, v);
    }
  }

  /** Replacing the amount of a recipient listed once shifts the sum by the difference. */
  lemma {:induction false} TotalUpdate(rs: seq<AccountId>, m: map<AccountId, uint32>, a: AccountId, v: uint32)
    requires Listed(rs, m) && NoDuplicates(rs) && a in rs
    ensures Listed(rs, m[a := v])
    ensures Total(rs, m[a := v]) == Total(rs, m) - m[a] as nat + v as nat
  {
    var n := |rs| - 1;
    var prefix := rs[..n];
    assert forall x :: x in prefix ==> x in rs;
    if rs[n] == a {
      assert a !in prefix;
      TotalFresh(prefix, m, a, v);
    } else {
      var k :| 0 <= k < |rs| && rs[k] == a;
      assert prefix[k] == a;
      TotalUpdate(prefix, m, a, v);
      TotalAtLeast(prefix, m, a);
    }
  }

  /** The sum over a prefix of the list is at most the sum over the list. */
  lemma {:induction false} TotalPrefix(rs: seq<AccountId>, m: map<AccountId, uint32>, i: nat)
    requires Listed(rs, m) && i <= |rs|
    ensures Listed(rs[..i], m)
    ensures Total(rs[..i], m) <= Total(rs, m)
  {
    assert forall x :: x in rs[..i] ==> x in rs;
    if i < |rs| {
      var n := |rs| - 1;
      assert rs[..i] == rs[..n][..i];
      TotalPrefix(rs[..n], m, i);
    } else {
      assert rs[..i] == rs;
    }
  }

  /** A list without duplicates has as many distinct elements as entries. */
  lemma {:induction false} DistinctCount(rs: seq<AccountId>)
    requires NoDuplicates(rs)
    ensures |set a | a in rs| == |rs|
  {
    if rs != [] {
      var n := |rs| - 1;
      var prefix := rs[..n];
      assert (set a | a in rs) == (set a | a in prefix) + {rs[n]};
      assert rs[n] !in prefix;
      DistinctCount(prefix);
    }
  }

  /** In a consistent registry the list is as long as the map has entries. */
  lemma RegistrySize(rs: seq<AccountId>, m: map<AccountId, uint32>)
    requires Consistent(rs, m)
    ensures |m| == |rs|
  {
    assert m.Keys == set a | a in rs;
    DistinctCount(rs);
  }

  /** A new account with a non-zero amount, appended to the list, keeps the registry consistent. */
  lemma InsertConsistent(rs: seq<AccountId>, m: map<AccountId, uint32>, a: AccountId, v: uint32)
    requires Consistent(rs, m) && a !in m && v >= 1
    ensures Consistent(rs + [a], m[a := v])
    ensures Total(rs + [a], m[a := v]) == Total(rs, m) + v as nat
  {
    TotalFresh(rs, m, a, v);
    TotalAppend(rs, m[a := v], a);
    assert forall i :: 0 <= i < |rs| ==> (rs + [a])[i] == rs[i];
  }

  /** A new non-zero amount for a registered account keeps the registry consistent. */
  lemma UpdateConsistent(rs: seq<AccountId>, m: map<AccountId, uint32>, a: AccountId, v: uint32)
    requires Consistent(rs, m) && a in m && v >= 1
    ensures Consistent(rs, m[a := v])
    ensures m[a] as nat <= Total(rs, m)
    ensures Total(rs, m[a := v]) == Total(rs, m) - m[a] as nat + v as nat
  {
    TotalAtLeast(rs, m, a);
    TotalUpdate(rs, m, a, v);
  }

  /**
   * The token balances after `payer` has transferred to each listed
   * recipient, in list order, that recipient's stored amount.
   */
  function PayAll(b: map<Address, nat>, payer: ContractId, rs: seq<AccountId>, m: map<AccountId, uint32>): (r: map<Address, nat>)
    requires Listed(rs, m)
    requires Total(rs, m) <= Bal(b, Contract(payer))
    ensures Bal(r, Contract(payer)) == Bal(b, Contract(payer)) - Total(rs, m)
    decreases |rs|
  {
    if rs == [] then b
    else
      var last := rs[|rs| - 1];
      var before := PayAll(b, payer, rs[..|rs| - 1], m);
      Moved(before, Contract(payer), Account(last), m[last] as nat)
  }

  /**
   * One step of a payout in list order: after paying the first `i`
   * recipients the payer still holds the next recipient's amount, and
   * paying it extends the prefix by one.
   */
  lemma PayAllStep(b: map<Address, nat>, payer: ContractId, rs: seq<AccountId>, m: map<AccountId, uint32>, i: nat)
    requires Listed(rs, m) && i < |rs|
    requires Total(rs, m) <= Bal(b, Contract(payer))
    ensures Listed(rs[..i], m) && Listed(rs[..i + 1], m)
    ensures Total(rs[..i + 1], m) == Total(rs[..i], m) + m[rs[i]] as nat
    ensures Total(rs[..i + 1], m) <= Bal(b, Contract(payer))
    ensures m[rs[i]] as nat <= Bal(PayAll(b, payer, rs[..i], m), Contract(payer))
    ensures PayAll(b, payer, rs[..i + 1], m)
            == Moved(PayAll(b, payer, rs[..i], m), Contract(payer), Account(rs[i]), m[rs[i]] as nat)
  {
    TotalPrefix(rs, m, i + 1);
    assert rs[..i + 1][..i] == rs[..i];
  }

  /** What a payout credits to `w`: its stored amount if it is a listed recipient. */
  function Credit(rs: seq<AccountId>, m: map<AccountId, uint32>, w: Address): nat
    requires Listed(rs, m)
  {
    if w.Account? && w.account in rs then m[w.account] as nat else 0
  }

  /** Splitting off the last recipient splits its credit off, when nobody is listed twice. */
  lemma CreditLast(rs: seq<AccountId>, m: map<AccountId, uint32>, w: Address)
    requires Listed(rs, m) && NoDuplicates(rs) && rs != []
    ensures Listed(rs[..|rs| - 1], m) && NoDuplicates(rs[..|rs| - 1])
    ensures Credit(rs, m, w) == Credit(rs[..|rs| - 1], m, w)
                                + (if w == Account(rs[|rs| - 1]) then m[rs[|rs| - 1]] as nat else 0)
  {
  }

  /**
   * Every holder other than the payer ends up with its old balance plus
   * its credit: each recipient gets exactly its amount, once, and nobody
   * else is touched.
   */
  lemma {:induction false} PayAllCredits(b: map<Address, nat>, payer: ContractId, rs: seq<AccountId>,
                                         m: map<AccountId, uint32>, w: Address)
    requires Listed(rs, m) && NoDuplicates(rs)
    requires Total(rs, m) <= Bal(b, Contract(payer))
    requires w != Contract(payer)
    ensures Bal(PayAll(b, payer, rs, m), w) == Bal(b, w) + Credit(rs, m, w)
  {
    if rs != [] {
      var n := |rs| - 1;
      var last := rs[n];
      CreditLast(rs, m, w);
      PayAllCredits(b, payer, rs[..n], m, w);
      var before := PayAll(b, payer, rs[..n], m);
      assert PayAll(b, payer, rs, m) == Moved(before, Contract(payer), Account(last), m[last] as nat);
    }
  }
}
