/** `batch_contribute` refines the same contributions made one by one. */
module BatchProofs {
  import opened Types
  import opened State
  import opened Contributions
  import opened Invariants
  import opened ContributionProofs
  import opened GovernanceProofs
  import opened Compose

  /** The items as successive `contribute` calls. */
  function ContributeEach(s: State, who: Address, items: seq<Item>): Result<State> {
    if items == [] then Ok(s)
    else
      var s1 :- ContributeEach(s, who, items[..|items| - 1]);
      Contribute(s1, items[|items| - 1].0, who, items[|items| - 1].1)
  }

  /** The checks and the accounting of an item do not look at balances. */
  lemma ItemIgnoresBank(s: State, who: Address, id: nat, amount: int, bank: Bank)
    ensures var r, q := ContributeItem(s, who, id, amount), ContributeItem(s.(bank := bank), who, id, amount);
            && (r.Ok? <==> q.Ok?)
            && (r.Ok? ==> q.value == r.value.(bank := bank))
  {
    hide CheckCaps, CheckPersonalCap, CheckTransactionCap, BurstGuard;
  }

  ghost predicate SameTokens(s: State, s': State) {
    && s'.paused == s.paused && s'.bank == s.bank && s'.entries.Keys == s.entries.Keys
    && forall id | id in s.entries :: s'.entries[id].terms == s.entries[id].terms
  }

  lemma ItemFrame(s: State, who: Address, id: nat, amount: int)
    requires ContributeItem(s, who, id, amount).Ok?
    ensures 0 < amount && id in s.entries && FitsI128(amount * BPS)
    ensures SameTokens(s, ContributeItem(s, who, id, amount).value)
  {
    hide CheckCaps, CheckPersonalCap, CheckTransactionCap;
  }

  lemma {:induction false} ItemsFrame(s: State, who: Address, items: seq<Item>)
    requires ContributeItems(s, who, items).Ok?
    ensures SameTokens(s, ContributeItems(s, who, items).value)
    ensures forall i | 0 <= i < |items| :: 0 < items[i].1 && items[i].0 in s.entries && FitsI128(items[i].1 * BPS)
    decreases |items|
  {
    hide ContributeItem;
    if items != [] {
      var front, last := items[..|items| - 1], items[|items| - 1];
      ItemsFrame(s, who, front);
      ItemFrame(ContributeItems(s, who, front).value, who, last.0, last.1);
      assert items == front + [last];
    }
  }

  // ---- Settling all at once against settling as we go ----------------------------------------

  function Owing(owed: map<Address, int>, token: Address, amount: int): map<Address, int> {
    owed[token := Get(owed, token) + amount]
  }

  lemma SettledKey(who: Address, owed: map<Address, int>, k: (Address, Address))
    ensures k in SettledKeys(who, owed) <==> k.0 in owed && (k.1 == who || k.1 == SELF)
  {
    if k.0 in owed && (k.1 == who || k.1 == SELF) {
      assert k == (k.0, k.1) && k.1 in {who, SELF};
    }
  }

  lemma SettleBalance(bank: Bank, who: Address, owed: map<Address, int>, k: (Address, Address))
    ensures Balance(Settle(bank, who, owed), k.0, k.1) == Balance(bank, k.0, k.1) + Settled(who, owed, k)
  {
    SettledKey(who, owed, k);
    assert k == (k.0, k.1);
  }

  lemma OneMoreAffordable(bank: Bank, who: Address, owed: map<Address, int>, token: Address, amount: int)
    requires 0 < amount && forall t | t in owed :: 0 < owed[t]
    ensures Affordable(bank, who, Owing(owed, token, amount))
            <==> Affordable(bank, who, owed) && amount <= Balance(bank, token, who) - Get(owed, token)
  {
    var owed' := Owing(owed, token, amount);
    if Affordable(bank, who, owed') {
      assert owed'[token] <= Balance(bank, token, who);
      forall t | t in owed
        ensures owed[t] <= Balance(bank, t, who)
      {
        assert owed'[t] <= Balance(bank, t, who);
      }
    }
  }

  lemma SettleKeyExtends(bank: Bank, who: Address, owed: map<Address, int>, token: Address, amount: int, k: (Address, Address))
    requires who != SELF
    ensures var b := Settle(bank, who, Owing(owed, token, amount));
            var c := Credit(Credit(Settle(bank, who, owed), token, who, -amount), token, SELF, amount);
            (k in b <==> k in c) && (k in b ==> b[k] == c[k])
  {
    var owed' := Owing(owed, token, amount);
    SettledKey(who, owed, k);
    SettledKey(who, owed', k);
    SettleBalance(bank, who, owed, k);
    SettleBalance(bank, who, owed', k);
    SettleBalance(bank, who, owed, (token, who));
    SettleBalance(bank, who, owed, (token, SELF));
    assert k == (k.0, k.1);
    hide Settle, SettledKeys;
    SettleHas(bank, who, owed, k);
    SettleHas(bank, who, owed', k);
  }

  lemma SettleHas(bank: Bank, who: Address, owed: map<Address, int>, k: (Address, Address))
    ensures k in Settle(bank, who, owed) <==> k in bank || k in SettledKeys(who, owed)
  {
  }

  lemma SettleExtends(bank: Bank, who: Address, owed: map<Address, int>, token: Address, amount: int)
    requires who != SELF
    ensures Settle(bank, who, Owing(owed, token, amount))
            == Credit(Credit(Settle(bank, who, owed), token, who, -amount), token, SELF, amount)
  {
    hide Settle, Credit, Owing;
    var b := Settle(bank, who, Owing(owed, token, amount));
    var c := Credit(Credit(Settle(bank, who, owed), token, who, -amount), token, SELF, amount);
    forall k
      ensures (k in b <==> k in c) && (k in b ==> b[k] == c[k])
    {
      SettleKeyExtends(bank, who, owed, token, amount, k);
    }
    assert b == c;
  }

  lemma SettleOneMore(bank: Bank, who: Address, owed: map<Address, int>, token: Address, amount: int)
    requires who != SELF && 0 < amount && forall t | t in owed :: 0 < owed[t]
    ensures var next := Transfer(Settle(bank, who, owed), token, who, SELF, amount);
            && (Affordable(bank, who, Owing(owed, token, amount)) <==> Affordable(bank, who, owed) && next.Ok?)
            && (next.Ok? ==> next.value == Settle(bank, who, Owing(owed, token, amount)))
  {
    hide Settle, Affordable, Owing, Credit;
    SettleBalance(bank, who, owed, (token, who));
    OneMoreAffordable(bank, who, owed, token, amount);
    SettleExtends(bank, who, owed, token, amount);
  }

  lemma {:induction false} OwedNonNegative(s: State, items: seq<Item>)
    requires forall i | 0 <= i < |items| :: 0 < items[i].1
    ensures forall t | t in Owed(s, items) :: 0 < Owed(s, items)[t]
    decreases |items|
  {
    if items != [] {
      OwedNonNegative(s, items[..|items| - 1]);
    }
  }

  /** Item by item: the successive calls succeed exactly when the accounting does and the running total is affordable. */
  lemma {:induction false} EachIsItemsThenSettle(s: State, who: Address, items: seq<Item>)
    requires CanSign(who) && !s.paused
    ensures var each, all, owed := ContributeEach(s, who, items), ContributeItems(s, who, items), Owed(s, items);
            && (each.Ok? <==> all.Ok? && Affordable(s.bank, who, owed))
            && (each.Ok? ==> each.value == all.value.(bank := Settle(s.bank, who, owed)))
    decreases |items|
  {
    hide Contribute, ContributeItem, Affordable, Settle, Transfer;
    if items == [] {
      SettleNothing(s.bank, who);
    } else {
      var front, last := items[..|items| - 1], items[|items| - 1];
      EachIsItemsThenSettle(s, who, front);
      var all1 := ContributeItems(s, who, front);
      if all1.Ok? {
        ItemsFrame(s, who, front);
        OwedNonNegative(s, front);
        LastItem(s, who, items, all1.value);
      }
    }
  }

  lemma SettleNothing(bank: Bank, who: Address)
    ensures Affordable(bank, who, map[]) && Settle(bank, who, map[]) == bank
  {
  }

  lemma LastItem(s: State, who: Address, items: seq<Item>, s1: State)
    requires CanSign(who) && !s.paused && items != [] && SameTokens(s, s1)
    requires var owed := Owed(s, items[..|items| - 1]); forall t | t in owed :: 0 < owed[t]
    ensures var owed, owed' := Owed(s, items[..|items| - 1]), Owed(s, items);
            var (id, amount) := items[|items| - 1];
            var item := ContributeItem(s1, who, id, amount);
            var call := Contribute(s1.(bank := Settle(s.bank, who, owed)), id, who, amount);
            && (item.Ok? && Affordable(s.bank, who, owed') ==> Affordable(s.bank, who, owed))
            && (Affordable(s.bank, who, owed) ==>
                 && (call.Ok? <==> item.Ok? && Affordable(s.bank, who, owed'))
                 && (call.Ok? ==> call.value == item.value.(bank := Settle(s.bank, who, owed'))))
  {
    hide Contribute, ContributeItem, Affordable, Settle, Transfer, Owed, Owing, TokenOf;
    var owed := Owed(s, items[..|items| - 1]);
    var (id, amount) := items[|items| - 1];
    CallAfter(s1, who, id, amount, Settle(s.bank, who, owed));
    if ContributeItem(s1, who, id, amount).Ok? {
      ItemFrame(s1, who, id, amount);
      OwedStep(s, items, s1);
      SettleOneMore(s.bank, who, owed, TokenOf(s, id), amount);
    }
  }

  lemma OwedStep(s: State, items: seq<Item>, s1: State)
    requires items != [] && SameTokens(s, s1) && items[|items| - 1].0 in s1.entries
    ensures var (id, amount) := items[|items| - 1];
            && Owed(s, items) == Owing(Owed(s, items[..|items| - 1]), TokenOf(s, id), amount)
            && s1.entries[id].terms.token == TokenOf(s, id)
  {
  }

  lemma CallAfter(s1: State, who: Address, id: nat, amount: int, bank: Bank)
    requires CanSign(who) && !s1.paused
    ensures var item := ContributeItem(s1, who, id, amount);
            var call := Contribute(s1.(bank := bank), id, who, amount);
            && (item.Err? ==> call.Err?)
            && (item.Ok? ==>
                 && id in s1.entries
                 && var next := Transfer(bank, s1.entries[id].terms.token, who, SELF, amount);
                    && (call.Ok? <==> next.Ok?)
                    && (call.Ok? ==> call.value == item.value.(bank := next.value)))
  {
    hide ContributeItem, Transfer;
    ItemIgnoresBank(s1, who, id, amount, bank);
    if ContributeItem(s1, who, id, amount).Ok? {
      ItemFrame(s1, who, id, amount);
    }
  }

  /** The batch succeeds exactly when the same calls one by one all succeed, and leaves the same state. */
  lemma BatchRefinesSequence(s: State, who: Address, items: seq<Item>)
    requires 0 < |items| <= MAX_BATCH_CONTRIBUTE
    ensures BatchContribute(s, who, items).Ok? <==> ContributeEach(s, who, items).Ok?
    ensures BatchContribute(s, who, items).Ok? ==>
              BatchContribute(s, who, items) == ContributeEach(s, who, items)
  {
    hide ContributeItems, ContributeItem, Affordable, Settle;
    if CanSign(who) && !s.paused {
      EachIsItemsThenSettle(s, who, items);
    } else {
      RefusedEach(s, who, items);
    }
  }

  lemma {:induction false} RefusedEach(s: State, who: Address, items: seq<Item>)
    requires items != [] && (!CanSign(who) || s.paused)
    ensures ContributeEach(s, who, items).Err?
    decreases |items|
  {
    hide ContributeItem;
    if |items| > 1 {
      RefusedEach(s, who, items[..|items| - 1]);
    } else {
      assert ContributeEach(s, who, items[..0]) == Ok(s);
    }
  }

  // ---- The per-token totals -----------------------------------------------------------------

  function TokenTotal(s: State, items: seq<Item>, token: Address): int {
    if items == [] then 0
    else TokenTotal(s, items[1..], token) + if TokenOf(s, items[0].0) == token then items[0].1 else 0
  }

  function Total(items: seq<Item>): int { if items == [] then 0 else Total(items[..|items| - 1]) + items[|items| - 1].1 }

  lemma {:induction false} TokenTotalAppend(s: State, items: seq<Item>, item: Item, token: Address)
    ensures TokenTotal(s, items + [item], token)
            == TokenTotal(s, items, token) + if TokenOf(s, item.0) == token then item.1 else 0
    decreases |items|
  {
    if items == [] {
      assert items + [item] == [item];
    } else {
      assert (items + [item])[1..] == items[1..] + [item];
      TokenTotalAppend(s, items[1..], item, token);
    }
  }

  /** The owed map holds, per token, the sum of that token's items, repeated campaigns included. */
  lemma {:induction false} OwedSums(s: State, items: seq<Item>, token: Address)
    ensures Get(Owed(s, items), token) == TokenTotal(s, items, token)
    decreases |items|
  {
    if items != [] {
      var front := items[..|items| - 1];
      OwedSums(s, front, token);
      assert items == front + [items[|items| - 1]];
      TokenTotalAppend(s, front, items[|items| - 1], token);
    }
  }

  /** The running total of an accepted batch stays far inside i128, so its checked additions never fail. */
  lemma {:induction false} TotalFits(items: seq<Item>)
    requires |items| <= MAX_BATCH_CONTRIBUTE
    requires forall i | 0 <= i < |items| :: 0 < items[i].1 && FitsI128(items[i].1 * BPS)
    ensures 0 <= Total(items) && Total(items) * BPS <= |items| * I128_MAX
    ensures FitsI128(Total(items))
    decreases |items|
  {
    if items != [] {
      TotalFits(items[..|items| - 1]);
    }
  }

  // ---- The batch keeps the invariant ---------------------------------------------------------

  lemma {:induction false} EachSound(s: State, who: Address, items: seq<Item>)
    requires Inv(s)
    ensures Sound(s, ContributeEach(s, who, items))
    decreases |items|
  {
    hide Inv, Sound, Contribute;
    if items == [] {
      SoundRefl(s);
    } else {
      EachSound(s, who, items[..|items| - 1]);
      var r := ContributeEach(s, who, items[..|items| - 1]);
      if r.Ok? {
        SoundInv(s, r.value);
        var q := Contribute(r.value, items[|items| - 1].0, who, items[|items| - 1].1);
        ContributeSound(r.value, items[|items| - 1].0, who, items[|items| - 1].1);
        if q.Ok? {
          SoundTransitive(s, r.value, q.value);
        } else {
          NothingSound(s, q.error);
        }
      } else {
        NothingSound(s, r.error);
      }
    }
  }

  lemma BatchSound(s: State, who: Address, items: seq<Item>)
    requires Inv(s)
    ensures Sound(s, BatchContribute(s, who, items))
  {
    hide Inv, Sound, ContributeItems, Affordable, Settle, Owed, ContributeEach;
    var r := BatchContribute(s, who, items);
    if r.Ok? {
      BatchRefinesSequence(s, who, items);
      EachSound(s, who, items);
    } else {
      NothingSound(s, r.error);
    }
  }
}
