/** What cache_sync charges (src/fs/cache.c): the blocks that the log header names, and how many more each
    operation may add. */
module Quota {
  import opened Counting

  // A null context writes through, without the log.
  const NO_CTX: nat := 0

  // The blocks logged, and the rm of every operation's context.
  datatype Ledger = Ledger(logged: set<nat>, rm: map<nat, nat>)

  predicate CtxOk(l: Ledger, ctx: nat) { ctx == NO_CTX || ctx in l.rm }

  // cache_sync does not PANIC.
  predicate CanSync(l: Ledger, ctx: nat, b: nat)
    requires CtxOk(l, ctx)
  {
    ctx == NO_CTX || b in l.logged || l.rm[ctx] > 0
  }

  function Synced(l: Ledger, ctx: nat, b: nat): Ledger
    requires CtxOk(l, ctx) && CanSync(l, ctx, b)
  {
    if ctx == NO_CTX || b in l.logged then l else Ledger(l.logged + {b}, l.rm[ctx := l.rm[ctx] - 1])
  }

  // The quota left suffices to sync all blocks of s, in any order and any number of times.
  predicate Affords(l: Ledger, ctx: nat, s: set<nat>)
    requires CtxOk(l, ctx)
  {
    ctx == NO_CTX || |s - l.logged| <= l.rm[ctx]
  }

  function Charged(l: Ledger, ctx: nat, s: set<nat>): (r: Ledger)
    requires CtxOk(l, ctx) && Affords(l, ctx, s)
    ensures CtxOk(r, ctx)
  {
    if ctx == NO_CTX then l else Ledger(l.logged + s, l.rm[ctx := l.rm[ctx] - |s - l.logged|])
  }

  lemma ChargeNothing(l: Ledger, ctx: nat)
    requires CtxOk(l, ctx)
    ensures Affords(l, ctx, {}) && Charged(l, ctx, {}) == l
  {
    assert {} - l.logged == {} && l.logged + {} == l.logged;
  }

  lemma ChargeOne(l: Ledger, ctx: nat, b: nat)
    requires CtxOk(l, ctx)
    ensures CanSync(l, ctx, b) <==> Affords(l, ctx, {b})
    ensures CanSync(l, ctx, b) ==> Synced(l, ctx, b) == Charged(l, ctx, {b})
  {
    if b in l.logged {
      assert {b} - l.logged == {} && l.logged + {b} == l.logged;
    } else {
      assert {b} - l.logged == {b};
    }
  }

  // One block costs one of the operation's quota, unless it is logged already or there is no operation.
  lemma ChargeBlock(l: Ledger, ctx: nat, b: nat)
    requires CtxOk(l, ctx)
    ensures Affords(l, ctx, {b}) <==> ctx == NO_CTX || b in l.logged || l.rm[ctx] > 0
    ensures ctx == NO_CTX || b in l.logged ==> Charged(l, ctx, {b}) == l
    ensures ctx != NO_CTX && b !in l.logged && l.rm[ctx] > 0 ==>
              Charged(l, ctx, {b}) == Ledger(l.logged + {b}, l.rm[ctx := l.rm[ctx] - 1])
  {
    ChargeOne(l, ctx, b);
    if b in l.logged {
      assert {b} - l.logged == {};
    }
  }

  // cache_sync of the block b, as far as the log's account goes: false for the PANIC.
  method SyncBlock(l: Ledger, ctx: nat, b: nat) returns (ok: bool, r: Ledger)
    requires CtxOk(l, ctx)
    ensures ok <==> Affords(l, ctx, {b})
    ensures r == if ok then Charged(l, ctx, {b}) else l
  {
    ChargeOne(l, ctx, b);
    ok, r := true, l;
    if ctx != NO_CTX && b !in l.logged {
      if l.rm[ctx] == 0 {
        return false, l;
      }
      r := Ledger(l.logged + {b}, l.rm[ctx := l.rm[ctx] - 1]);
    }
  }

  // What is charged for s and then for t is charged for both.
  lemma ChargeBoth(l: Ledger, ctx: nat, s: set<nat>, t: set<nat>)
    requires CtxOk(l, ctx) && Affords(l, ctx, s)
    ensures Affords(Charged(l, ctx, s), ctx, t) <==> Affords(l, ctx, s + t)
    ensures Affords(l, ctx, s + t) ==> Charged(Charged(l, ctx, s), ctx, t) == Charged(l, ctx, s + t)
  {
    var m := l.logged;
    assert s + t - m == (s - m) + (t - (m + s));
    assert m + s + t == m + (s + t);
  }

  lemma AffordsLess(l: Ledger, ctx: nat, s: set<nat>, t: set<nat>)
    requires CtxOk(l, ctx) && s <= t && Affords(l, ctx, t)
    ensures Affords(l, ctx, s)
  {
    Larger(s - l.logged, t - l.logged);
  }
}
