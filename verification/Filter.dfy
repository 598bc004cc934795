/** The subscription filter: sets with cached singletons and a Bloom pre-reject in front of them. */
module Filter {
  import opened Types

  const BLOOM_FAST_REJECT_ITEMS: nat := 16

  /** A Bloom filter over foreign hash functions, one per random key. */
  datatype Bloom = Bloom(keys: seq<nat>, bits: set<nat>)

  datatype SubscriptionFilter = SubscriptionFilter(
    pubkeys: set<Pubkey>,
    owners: set<Pubkey>,
    bloom: Bloom,
    includeTransactions: bool,
    singlePubkey: Option<Pubkey>,
    singleOwner: Option<Pubkey>,
    useBloomFastReject: bool)

  function BloomAdd(env: Env, bloom: Bloom, item: Pubkey): Bloom {
    bloom.(bits := bloom.bits + set k | k in bloom.keys :: env.hash(k, item))
  }

  predicate BloomContains(env: Env, bloom: Bloom, item: Pubkey) {
    forall k | k in bloom.keys :: env.hash(k, item) in bloom.bits
  }

  function BloomOf(env: Env, keys: seq<nat>, items: set<Pubkey>): Bloom {
    Bloom(keys, set k, x | k in keys && x in items :: env.hash(k, x))
  }

  /** The only element of a one-element set. */
  ghost function Single(items: set<Pubkey>): (r: Option<Pubkey>)
    ensures r.Some? <==> |items| == 1
    ensures r.Some? ==> items == {r.value}
  {
    if |items| == 1 then
      var x :| x in items;
      assert |items - {x}| == 0;
      assert items == {x};
      Some(x)
    else None
  }

  ghost function FromSets(env: Env, pubkeys: set<Pubkey>, owners: set<Pubkey>, includeTransactions: bool,
                          keys: seq<nat>): SubscriptionFilter
  {
    SubscriptionFilter(pubkeys, owners, BloomOf(env, keys, pubkeys + owners), includeTransactions,
                       Single(pubkeys), Single(owners), |pubkeys| + |owners| > BLOOM_FAST_REJECT_ITEMS)
  }

  function Elements(items: seq<Pubkey>): set<Pubkey> {
    set x | x in items
  }

  ghost function FromRequest(env: Env, req: SubscriptionRequest, keys: seq<nat>): SubscriptionFilter {
    FromSets(env, Elements(req.pubkeys), Elements(req.owners), req.includeTransactions, keys)
  }

  ghost function WithRequest(env: Env, f: SubscriptionFilter, req: SubscriptionRequest, keys: seq<nat>)
    : SubscriptionFilter
  {
    FromSets(env, f.pubkeys + Elements(req.pubkeys), f.owners + Elements(req.owners),
             f.includeTransactions || req.includeTransactions, keys)
  }

  predicate MatchesAccount(env: Env, f: SubscriptionFilter, u: AccountUpdate) {
    if f.singlePubkey.Some? && f.singleOwner.None? && f.owners == {} then
      f.singlePubkey.value == u.pubkey
    else if f.singlePubkey.None? && f.singleOwner.Some? && f.pubkeys == {} then
      f.singleOwner.value == u.owner
    else if f.singlePubkey.Some? && f.singleOwner.Some? && |f.pubkeys| == 1 && |f.owners| == 1 then
      f.singlePubkey.value == u.pubkey || f.singleOwner.value == u.owner
    else if f.useBloomFastReject && !BloomContains(env, f.bloom, u.pubkey) && !BloomContains(env, f.bloom, u.owner) then
      false
    else
      u.pubkey in f.pubkeys || u.owner in f.owners
  }

  predicate MatchesTransaction(f: SubscriptionFilter) {
    f.includeTransactions
  }

  /** Slot updates go to every connection. */
  predicate Matches(env: Env, f: SubscriptionFilter, u: Update) {
    match u
    case Account(a) => MatchesAccount(env, f, a)
    case Transaction(_) => MatchesTransaction(f)
    case Slot(_) => true
  }

  // ----- Building a filter, as it runs -----

  lemma BloomGrows(env: Env, keys: seq<nat>, items: set<Pubkey>, x: Pubkey)
    ensures BloomAdd(env, BloomOf(env, keys, items), x) == BloomOf(env, keys, items + {x})
  {
  }

  /** Adds every item of a set, in whatever order the set yields them. */
  method AddAll(env: Env, bloom: Bloom, items: set<Pubkey>, ghost before: set<Pubkey>) returns (b: Bloom)
    requires bloom == BloomOf(env, bloom.keys, before)
    ensures b == BloomOf(env, bloom.keys, before + items)
  {
    b := bloom;
    var left := items;
    ghost var done := before;
    while left != {}
      invariant left <= items && done == before + (items - left)
      invariant b == BloomOf(env, bloom.keys, done)
    {
      var x :| x in left;
      BloomGrows(env, bloom.keys, done, x);
      b := BloomAdd(env, b, x);
      left := left - {x};
      done := done + {x};
    }
    assert items - {} == items;
  }

  method BuildFromSets(env: Env, pubkeys: set<Pubkey>, owners: set<Pubkey>, includeTransactions: bool,
                       keys: seq<nat>) returns (f: SubscriptionFilter)
    ensures f == FromSets(env, pubkeys, owners, includeTransactions, keys)
  {
    var bloom := Bloom(keys, {});
    assert bloom == BloomOf(env, keys, {});
    bloom := AddAll(env, bloom, pubkeys, {});
    assert {} + pubkeys == pubkeys;
    bloom := AddAll(env, bloom, owners, pubkeys);
    var singlePubkey, singleOwner := None, None;
    if |pubkeys| == 1 {
      var x :| x in pubkeys;
      singlePubkey := Some(x);
    }
    if |owners| == 1 {
      var x :| x in owners;
      singleOwner := Some(x);
    }
    f := SubscriptionFilter(pubkeys, owners, bloom, includeTransactions, singlePubkey, singleOwner,
                            |pubkeys| + |owners| > BLOOM_FAST_REJECT_ITEMS);
  }

  /** Inserts every listed key, repeated or not. */
  method Extend(items: set<Pubkey>, more: seq<Pubkey>) returns (r: set<Pubkey>)
    ensures r == items + Elements(more)
  {
    r := items;
    for i := 0 to |more|
      invariant r == items + Elements(more[..i])
    {
      r := r + {more[i]};
    }
    assert more[..|more|] == more;
  }

  method BuildFromRequest(env: Env, req: SubscriptionRequest, keys: seq<nat>) returns (f: SubscriptionFilter)
    ensures f == FromRequest(env, req, keys)
  {
    var pubkeys := Extend({}, req.pubkeys);
    var owners := Extend({}, req.owners);
    assert pubkeys == Elements(req.pubkeys) && owners == Elements(req.owners);
    f := BuildFromSets(env, pubkeys, owners, req.includeTransactions, keys);
  }

  method BuildWithRequest(env: Env, f: SubscriptionFilter, req: SubscriptionRequest, keys: seq<nat>)
    returns (next: SubscriptionFilter)
    ensures next == WithRequest(env, f, req, keys)
  {
    var pubkeys := Extend(f.pubkeys, req.pubkeys);
    var owners := Extend(f.owners, req.owners);
    next := BuildFromSets(env, pubkeys, owners, f.includeTransactions || req.includeTransactions, keys);
  }

  // ----- What a filter means after any history of requests -----

  /** The filter of a connection after its first request and every later one, each with fresh Bloom keys. */
  ghost function FilterAfter(env: Env, reqs: seq<SubscriptionRequest>, keys: seq<seq<nat>>): SubscriptionFilter
    requires |reqs| == |keys| > 0
  {
    var n := |reqs| - 1;
    if n == 0 then FromRequest(env, reqs[0], keys[0])
    else WithRequest(env, FilterAfter(env, reqs[..n], keys[..n]), reqs[n], keys[n])
  }

  /** Plain meaning of a history: some request named this key or owner, or asked for transactions. */
  ghost predicate Wanted(reqs: seq<SubscriptionRequest>, u: Update) {
    match u
    case Account(a) => exists r | r in reqs :: a.pubkey in r.pubkeys || a.owner in r.owners
    case Transaction(_) => exists r | r in reqs :: r.includeTransactions
    case Slot(_) => true
  }

  /** The caches agree with the sets they were built from. */
  ghost predicate Coherent(env: Env, f: SubscriptionFilter) {
    f == FromSets(env, f.pubkeys, f.owners, f.includeTransactions, f.bloom.keys)
  }

  /** Added items are never rejected. */
  lemma NoFalseNegatives(env: Env, keys: seq<nat>, items: set<Pubkey>, x: Pubkey)
    requires x in items
    ensures BloomContains(env, BloomOf(env, keys, items), x)
  {
  }

  /** Singleton paths and Bloom reject included, a coherent filter is plain set membership. */
  lemma CoherentMatches(env: Env, f: SubscriptionFilter, u: AccountUpdate)
    requires Coherent(env, f)
    ensures MatchesAccount(env, f, u) <==> u.pubkey in f.pubkeys || u.owner in f.owners
  {
    if u.pubkey in f.pubkeys {
      NoFalseNegatives(env, f.bloom.keys, f.pubkeys + f.owners, u.pubkey);
    }
    if u.owner in f.owners {
      NoFalseNegatives(env, f.bloom.keys, f.pubkeys + f.owners, u.owner);
    }
    assert |f.pubkeys| == 0 <==> f.pubkeys == {};
    assert |f.owners| == 0 <==> f.owners == {};
  }

  /** The first filter passes exactly what its request asked for. */
  lemma FirstPasses(env: Env, request: SubscriptionRequest, keys: seq<nat>, u: Update)
    ensures Coherent(env, FromRequest(env, request, keys))
    ensures Matches(env, FromRequest(env, request, keys), u) <==> Wanted([request], u)
  {
    if u.Account? {
      CoherentMatches(env, FromRequest(env, request, keys), u.account);
    }
  }

  /** A filter with one more request passes what it passed before and what the request asked for. */
  lemma OneMorePasses(env: Env, f: SubscriptionFilter, request: SubscriptionRequest, keys: seq<nat>, u: Update)
    requires Coherent(env, f)
    ensures Coherent(env, WithRequest(env, f, request, keys))
    ensures Matches(env, WithRequest(env, f, request, keys), u) <==> Matches(env, f, u) || Wanted([request], u)
  {
    if u.Account? {
      CoherentMatches(env, f, u.account);
      CoherentMatches(env, WithRequest(env, f, request, keys), u.account);
    }
  }

  ghost function AllPubkeys(reqs: seq<SubscriptionRequest>): set<Pubkey> {
    set r, x | r in reqs && x in r.pubkeys :: x
  }

  ghost function AllOwners(reqs: seq<SubscriptionRequest>): set<Pubkey> {
    set r, x | r in reqs && x in r.owners :: x
  }

  ghost predicate AnyTransactions(reqs: seq<SubscriptionRequest>) {
    exists r | r in reqs :: r.includeTransactions
  }

  lemma OneMoreRequest(reqs: seq<SubscriptionRequest>)
    requires |reqs| > 0
    ensures var n := |reqs| - 1;
            && AllPubkeys(reqs) == AllPubkeys(reqs[..n]) + Elements(reqs[n].pubkeys)
            && AllOwners(reqs) == AllOwners(reqs[..n]) + Elements(reqs[n].owners)
            && (AnyTransactions(reqs) <==> AnyTransactions(reqs[..n]) || reqs[n].includeTransactions)
  {
    var n := |reqs| - 1;
    assert forall r :: r in reqs <==> r in reqs[..n] || r == reqs[n] by {
      assert reqs == reqs[..n] + [reqs[n]];
    }
    assert reqs[n] in reqs;
  }

  lemma {:induction false} FilterAfterSets(env: Env, reqs: seq<SubscriptionRequest>, keys: seq<seq<nat>>)
    requires |reqs| == |keys| > 0
    ensures var f := FilterAfter(env, reqs, keys);
            && Coherent(env, f)
            && f.pubkeys == AllPubkeys(reqs) && f.owners == AllOwners(reqs)
            && f.includeTransactions == AnyTransactions(reqs)
  {
    var n := |reqs| - 1;
    OneMoreRequest(reqs);
    if n > 0 {
      FilterAfterSets(env, reqs[..n], keys[..n]);
    } else {
      assert AllPubkeys(reqs) == Elements(reqs[0].pubkeys);
      assert AllOwners(reqs) == Elements(reqs[0].owners);
    }
  }

  /** After any history of requests the filter passes exactly what some request asked for. */
  lemma FilterRefinesRequests(env: Env, reqs: seq<SubscriptionRequest>, keys: seq<seq<nat>>, u: Update)
    requires |reqs| == |keys| > 0
    ensures Matches(env, FilterAfter(env, reqs, keys), u) <==> Wanted(reqs, u)
  {
    FilterAfterSets(env, reqs, keys);
    if u.Account? {
      CoherentMatches(env, FilterAfter(env, reqs, keys), u.account);
    }
  }

  /** Order, repetition and the random Bloom keys make no difference. */
  lemma RequestOrderIrrelevant(env: Env, reqs: seq<SubscriptionRequest>, keys: seq<seq<nat>>,
                               reqs': seq<SubscriptionRequest>, keys': seq<seq<nat>>, u: Update)
    requires |reqs| == |keys| > 0 && |reqs'| == |keys'| > 0
    requires forall r :: r in reqs <==> r in reqs'
    ensures Matches(env, FilterAfter(env, reqs, keys), u) == Matches(env, FilterAfter(env, reqs', keys'), u)
  {
    FilterRefinesRequests(env, reqs, keys, u);
    FilterRefinesRequests(env, reqs', keys', u);
  }
}
