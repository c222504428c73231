/** GET `/costs`: the user's costs created in `[dateFrom, dateTo)`, each
    valued at its own frozen rate, grouped by category and ordered by the
    group total, largest first. Costs come in already joined with their
    category. */
module CostListing {
  import opened Common
  import opened Ledger

  datatype Category = Category(id: CategoryId, name: string)

  /** A cost record with its category looked up. */
  datatype JoinedCost = JoinedCost(cost: Cost, category: Category)

  /** One cost as listed: legacy defaults filled in and its value in the
      user's currency rounded to a whole number. */
  datatype Item = Item(cost: Cost, currency: Currency, rate: real, amountInUserCurrency: int,
                       category: Category)

  datatype Group = Group(category: CategoryId, name: string, amount: int, currency: Currency,
                         items: seq<Item>)

  /** The `$match` stage: the user's costs with `createdAt` in the
      half-open range. */
  predicate Matches(c: JoinedCost, userId: UserId, dateFrom: int, dateTo: int) {
    c.cost.user == userId && dateFrom <= c.cost.createdAt < dateTo
  }

  /** The two `$addFields` stages: legacy records are read as the user's
      currency at rate 1, a stored rate (even 0) is kept, and the listed
      value is `$round(amount * rate)`, within half a unit of it. */
  function ToItem(c: JoinedCost, userCur: Currency): (it: Item)
    ensures it.cost == c.cost && it.category == c.category
    ensures c.cost.currency.None? ==> it.currency == userCur
    ensures c.cost.currency.Some? ==> it.currency == c.cost.currency.value
    ensures c.cost.rate.None? ==> it.rate == 1.0
    ensures c.cost.rate.Some? ==> it.rate == c.cost.rate.value
    ensures it.amountInUserCurrency as real - 0.5 <= c.cost.amount * it.rate <= it.amountInUserCurrency as real + 0.5
  {
    var currency := c.cost.currency.GetOr(userCur);
    var rate := c.cost.rate.GetOr(1.0);
    Item(c.cost, currency, rate, RoundHalfEven(c.cost.amount * rate), c.category)
  }

  /** The matching costs as items, in their original order. */
  function Items(cs: seq<JoinedCost>, userId: UserId, dateFrom: int, dateTo: int, userCur: Currency): (r: seq<Item>)
    ensures forall it :: it in r <==>
              exists i :: 0 <= i < |cs| && Matches(cs[i], userId, dateFrom, dateTo) && it == ToItem(cs[i], userCur)
    ensures forall it :: multiset(r)[it] == |Sources(cs, userId, dateFrom, dateTo, userCur, it)|
  {
    if cs == [] then []
    else
      var rest := Items(cs[..|cs| - 1], userId, dateFrom, dateTo, userCur);
      ItemsFoundStep(cs, cs[..|cs| - 1], userId, dateFrom, dateTo, userCur, rest);
      ItemsCountStep(cs, userId, dateFrom, dateTo, userCur, rest);
      ItemsNext(cs, userId, dateFrom, dateTo, userCur, rest)
  }

  /** `rest` followed by the last cost's item when it matches. */
  function ItemsNext(cs: seq<JoinedCost>, userId: UserId, dateFrom: int, dateTo: int, userCur: Currency,
                     rest: seq<Item>): seq<Item>
    requires cs != []
  {
    if Matches(cs[|cs| - 1], userId, dateFrom, dateTo) then rest + [ToItem(cs[|cs| - 1], userCur)] else rest
  }

  lemma ItemsFoundStep(cs: seq<JoinedCost>, init: seq<JoinedCost>, userId: UserId, dateFrom: int, dateTo: int,
                       userCur: Currency, rest: seq<Item>)
    requires cs != [] && init == cs[..|cs| - 1]
    requires forall it :: it in rest <==>
               exists i :: 0 <= i < |init| && Matches(init[i], userId, dateFrom, dateTo) && it == ToItem(init[i], userCur)
    ensures forall it :: it in ItemsNext(cs, userId, dateFrom, dateTo, userCur, rest) <==>
              exists i :: 0 <= i < |cs| && Matches(cs[i], userId, dateFrom, dateTo) && it == ToItem(cs[i], userCur)
  {
    assert forall i :: 0 <= i < |init| ==> init[i] == cs[i];
  }

  lemma ItemsCountStep(cs: seq<JoinedCost>, userId: UserId, dateFrom: int, dateTo: int, userCur: Currency,
                       rest: seq<Item>)
    requires cs != []
    requires forall it :: multiset(rest)[it] == |Sources(cs[..|cs| - 1], userId, dateFrom, dateTo, userCur, it)|
    ensures forall it :: multiset(ItemsNext(cs, userId, dateFrom, dateTo, userCur, rest))[it] ==
              |Sources(cs, userId, dateFrom, dateTo, userCur, it)|
  {
    forall it ensures multiset(ItemsNext(cs, userId, dateFrom, dateTo, userCur, rest))[it] ==
                      |Sources(cs, userId, dateFrom, dateTo, userCur, it)| {
      SourcesSnoc(cs, userId, dateFrom, dateTo, userCur, it);
    }
  }

  /** The positions of the matching costs that list as `it`. */
  function Sources(cs: seq<JoinedCost>, userId: UserId, dateFrom: int, dateTo: int, userCur: Currency,
                   it: Item): set<nat> {
    set i: nat | i < |cs| && Matches(cs[i], userId, dateFrom, dateTo) && ToItem(cs[i], userCur) == it
  }

  lemma SourcesSnoc(cs: seq<JoinedCost>, userId: UserId, dateFrom: int, dateTo: int, userCur: Currency, it: Item)
    requires cs != []
    ensures var last := cs[|cs| - 1];
            |Sources(cs, userId, dateFrom, dateTo, userCur, it)| ==
            |Sources(cs[..|cs| - 1], userId, dateFrom, dateTo, userCur, it)| +
            (if Matches(last, userId, dateFrom, dateTo) && ToItem(last, userCur) == it then 1 else 0)
  {
    var n := |cs| - 1;
    var before := Sources(cs[..n], userId, dateFrom, dateTo, userCur, it);
    var now := Sources(cs, userId, dateFrom, dateTo, userCur, it);
    var extra: set<nat> := if Matches(cs[n], userId, dateFrom, dateTo) && ToItem(cs[n], userCur) == it then {n} else {};
    forall i: nat ensures i in now <==> i in before + extra {
      if i < n {
        assert cs[..n][i] == cs[i];
      }
    }
    assert now == before + extra;
    assert before !! extra;
  }


  /** The categories of the items, each once, in order of first appearance. */
  function CategoryOrder(items: seq<Item>): (r: seq<CategoryId>)
    ensures forall k :: k in r <==> exists i :: 0 <= i < |items| && items[i].category.id == k
    ensures forall i, j :: 0 <= i < j < |r| ==> r[i] != r[j]
  {
    if items == [] then []
    else
      var init := items[..|items| - 1];
      var rest := CategoryOrder(init);
      var k := items[|items| - 1].category.id;
      assert forall i :: 0 <= i < |init| ==> init[i] == items[i];
      if k in rest then rest else rest + [k]
  }

  /** The items of one category, in order. */
  function ItemsIn(items: seq<Item>, k: CategoryId): (r: seq<Item>)
    ensures forall it :: it in r <==> it in items && it.category.id == k
    ensures forall it :: multiset(r)[it] == if it.category.id == k then multiset(items)[it] else 0
  {
    if items == [] then []
    else
      var init, last := items[..|items| - 1], items[|items| - 1];
      assert multiset(items) == multiset(init) + multiset{last} by {
        assert items == init + [last];
      }
      if last.category.id == k then ItemsIn(init, k) + [last] else ItemsIn(init, k)
  }

  function SumAmounts(items: seq<Item>): int {
    if items == [] then 0 else SumAmounts(items[..|items| - 1]) + items[|items| - 1].amountInUserCurrency
  }

  /** The `$group` stage for one category and the following `$round` of its
      total; the name is that of the group's first item. */
  function MakeGroup(items: seq<Item>, k: CategoryId, userCur: Currency): (g: Group)
    requires exists i :: 0 <= i < |items| && items[i].category.id == k
    ensures g.category == k && g.currency == userCur && g.items == ItemsIn(items, k)
    ensures g.items != [] && g.amount == SumAmounts(g.items)
    ensures g.name == g.items[0].category.name
  {
    var i :| 0 <= i < |items| && items[i].category.id == k;
    assert items[i] in ItemsIn(items, k);
    var members := ItemsIn(items, k);
    RoundHalfEvenOfInt(SumAmounts(members));
    Group(k, members[0].category.name, RoundHalfEven(SumAmounts(members) as real), userCur, members)
  }

  /** One group per category, in order of first appearance. */
  function Grouped(items: seq<Item>, userCur: Currency): (gs: seq<Group>)
    ensures |gs| == |CategoryOrder(items)|
    ensures forall i :: 0 <= i < |gs| ==>
              CategoryOrder(items)[i] in CategoryOrder(items) && gs[i] == MakeGroup(items, CategoryOrder(items)[i], userCur)
  {
    var order := CategoryOrder(items);
    seq(|order|, i requires 0 <= i < |order| => assert order[i] in order; MakeGroup(items, order[i], userCur))
  }

  ghost predicate SortedDesc(s: seq<Group>) {
    forall i, j :: 0 <= i < j < |s| ==> s[i].amount >= s[j].amount
  }

  function CategoriesOf(s: seq<Group>): set<CategoryId> {
    set i | 0 <= i < |s| :: s[i].category
  }

  ghost predicate DistinctCategories(s: seq<Group>) {
    forall i, j :: 0 <= i < j < |s| ==> s[i].category != s[j].category
  }

  /** `g` placed before the first group whose total it is not below. */
  function Insert(g: Group, s: seq<Group>): (r: seq<Group>)
    ensures multiset(r) == multiset(s) + multiset{g}
  {
    if s == [] then [g]
    else if g.amount >= s[0].amount then [g] + s
    else
      assert s == [s[0]] + s[1..];
      [s[0]] + Insert(g, s[1..])
  }

  lemma {:induction false} InsertSorted(g: Group, s: seq<Group>)
    requires SortedDesc(s)
    ensures SortedDesc(Insert(g, s))
  {
    if s == [] {
    } else if g.amount >= s[0].amount {
      SortedHead(s);
      SortedCons(g, s);
    } else {
      SortedHead(s);
      InsertSorted(g, s[1..]);
      var r := Insert(g, s[1..]);
      forall x | x in r ensures s[0].amount >= x.amount {
        assert x in multiset(r);
      }
      SortedCons(s[0], r);
      assert Insert(g, s) == [s[0]] + r;
    }
  }

  /** The head of a sorted list is its largest total, and its tail is sorted. */
  lemma SortedHead(s: seq<Group>)
    requires SortedDesc(s) && s != []
    ensures forall x | x in s :: s[0].amount >= x.amount
    ensures SortedDesc(s[1..])
  {
    var tail := s[1..];
    forall i, j | 0 <= i < j < |tail| ensures tail[i].amount >= tail[j].amount {
      assert tail[i] == s[i + 1] && tail[j] == s[j + 1];
    }
  }

  /** A group no smaller than any of a sorted list can go in front. */
  lemma SortedCons(g: Group, s: seq<Group>)
    requires SortedDesc(s) && forall x | x in s :: g.amount >= x.amount
    ensures SortedDesc([g] + s)
  {
    var t := [g] + s;
    forall i, j | 0 <= i < j < |t| ensures t[i].amount >= t[j].amount {
      assert t[j] == s[j - 1];
      if i > 0 {
        assert t[i] == s[i - 1];
      }
    }
  }


  lemma {:induction false} InsertDistinct(g: Group, s: seq<Group>)
    requires DistinctCategories(s) && g.category !in CategoriesOf(s)
    ensures DistinctCategories(Insert(g, s))
  {
    if s == [] || g.amount >= s[0].amount {
      DistinctCons(g, s);
    } else {
      var tail := s[1..];
      DistinctHead(s);
      InsertDistinct(g, tail);
      var r := Insert(g, tail);
      forall i | 0 <= i < |r| ensures r[i].category != s[0].category {
        assert r[i] in multiset(r);
        if r[i] != g {
          assert r[i] in tail;
          assert r[i].category in CategoriesOf(tail);
        } else {
          assert s[0].category in CategoriesOf(s);
        }
      }
      DistinctCons(s[0], r);
      assert Insert(g, s) == [s[0]] + r;
    }
  }

  /** The tail of a list with distinct categories has distinct categories,
      each a category of the list and none the head's. */
  lemma DistinctHead(s: seq<Group>)
    requires DistinctCategories(s) && s != []
    ensures DistinctCategories(s[1..])
    ensures forall k | k in CategoriesOf(s[1..]) :: k in CategoriesOf(s) && k != s[0].category
  {
    var tail := s[1..];
    forall i, j | 0 <= i < j < |tail| ensures tail[i].category != tail[j].category {
      assert tail[i] == s[i + 1] && tail[j] == s[j + 1];
    }
    forall k | k in CategoriesOf(tail) ensures k in CategoriesOf(s) && k != s[0].category {
      var i :| 0 <= i < |tail| && tail[i].category == k;
      assert s[i + 1] == tail[i];
    }
  }

  /** A group of a new category can go in front. */
  lemma DistinctCons(g: Group, s: seq<Group>)
    requires DistinctCategories(s) && forall i | 0 <= i < |s| :: s[i].category != g.category
    ensures DistinctCategories([g] + s)
  {
    var t := [g] + s;
    forall i, j | 0 <= i < j < |t| ensures t[i].category != t[j].category {
      assert t[j] == s[j - 1];
      if i > 0 {
        assert t[i] == s[i - 1];
      }
    }
  }


  /** The `$sort` stage: stable insertion sort by total, largest first. */
  function SortDesc(s: seq<Group>): (r: seq<Group>)
    ensures multiset(r) == multiset(s)
    ensures SortedDesc(r)
  {
    if s == [] then []
    else
      assert s == [s[0]] + s[1..];
      var sorted := SortDesc(s[1..]);
      InsertSorted(s[0], sorted);
      Insert(s[0], sorted)
  }

  lemma {:induction false} SortDescDistinct(s: seq<Group>)
    requires DistinctCategories(s)
    ensures DistinctCategories(SortDesc(s))
  {
    if s != [] {
      var tail := s[1..];
      assert DistinctCategories(tail) by {
        forall i, j | 0 <= i < j < |tail| ensures tail[i].category != tail[j].category {
          assert tail[i] == s[i + 1] && tail[j] == s[j + 1];
        }
      }
      SortDescDistinct(tail);
      var sorted := SortDesc(tail);
      forall x | x in sorted ensures x.category != s[0].category {
        assert x in multiset(tail);
        var j :| 0 <= j < |tail| && tail[j] == x;
        assert s[j + 1] == x;
      }
      InsertDistinct(s[0], sorted);
    }
  }

  /** Grouping and sorting of the matching items. */
  function Listed(items: seq<Item>, userCur: Currency): seq<Group> {
    SortDesc(Grouped(items, userCur))
  }

  /** The whole pipeline; an unknown user is not-found. */
  function ListCosts(users: map<UserId, User>, userId: UserId, dateFrom: int, dateTo: int,
                     cs: seq<JoinedCost>): (r: Result<seq<Group>>)
    ensures r.Failure? <==> userId !in users
    ensures r.Failure? ==> r.error == UserNotFound
    ensures r.Success? ==>
              var userCur := UserCurrency(users[userId]);
              r.value == Listed(Items(cs, userId, dateFrom, dateTo, userCur), userCur)
  {
    if userId !in users then Failure(UserNotFound)
    else
      var userCur := UserCurrency(users[userId]);
      Success(Listed(Items(cs, userId, dateFrom, dateTo, userCur), userCur))
  }

  /** Each listed group is a group of the unsorted list. */
  lemma ListedFromGrouped(items: seq<Item>, userCur: Currency, i: int)
    requires 0 <= i < |Listed(items, userCur)|
    ensures exists j :: 0 <= j < |Grouped(items, userCur)| && Grouped(items, userCur)[j] == Listed(items, userCur)[i]
  {
    assert Listed(items, userCur)[i] in multiset(Grouped(items, userCur));
  }

  /** Every listed group holds exactly the items of its category, is never
      empty, totals the exact sum of its rounded items, and is labelled with
      the user's currency. */
  lemma {:induction false} ListedGroups(items: seq<Item>, userCur: Currency)
    ensures forall i :: 0 <= i < |Listed(items, userCur)| ==>
              && Listed(items, userCur)[i].currency == userCur
              && Listed(items, userCur)[i].items == ItemsIn(items, Listed(items, userCur)[i].category)
              && Listed(items, userCur)[i].items != []
              && Listed(items, userCur)[i].amount == SumAmounts(Listed(items, userCur)[i].items)
  {
    var gs := Listed(items, userCur);
    forall i | 0 <= i < |gs|
      ensures gs[i].currency == userCur && gs[i].items == ItemsIn(items, gs[i].category)
      ensures gs[i].items != [] && gs[i].amount == SumAmounts(gs[i].items)
    {
      ListedFromGrouped(items, userCur, i);
    }
  }

  /** Every category of a matching item has a group. */
  lemma {:induction false} ListedCovers(items: seq<Item>, userCur: Currency)
    ensures forall j :: 0 <= j < |items| ==>
              exists i :: 0 <= i < |Listed(items, userCur)| && Listed(items, userCur)[i].category == items[j].category.id
  {
    var grouped := Grouped(items, userCur);
    var order := CategoryOrder(items);
    var gs := Listed(items, userCur);
    forall j | 0 <= j < |items|
      ensures exists i :: 0 <= i < |gs| && gs[i].category == items[j].category.id
    {
      var k := items[j].category.id;
      assert k in order;
      var m :| 0 <= m < |order| && order[m] == k;
      assert grouped[m] in multiset(gs);
      var i :| 0 <= i < |gs| && gs[i] == grouped[m];
    }
  }

  /** The list is ordered by total, largest first, with no category twice. */
  lemma {:induction false} ListedOrdered(items: seq<Item>, userCur: Currency)
    ensures SortedDesc(Listed(items, userCur))
    ensures DistinctCategories(Listed(items, userCur))
  {
    var grouped := Grouped(items, userCur);
    var order := CategoryOrder(items);
    assert DistinctCategories(grouped) by {
      forall i, j | 0 <= i < j < |grouped| ensures grouped[i].category != grouped[j].category {
        assert grouped[i].category == order[i] && grouped[j].category == order[j];
      }
    }
    SortDescDistinct(grouped);
  }

  /** Sum of the group totals of a listing. */
  function GroupsTotal(gs: seq<Group>): int {
    if gs == [] then 0 else gs[0].amount + GroupsTotal(gs[1..])
  }

  /** Sum, over the categories `ks`, of the values of their items. */
  function CategoryTotals(items: seq<Item>, ks: seq<CategoryId>): int {
    if ks == [] then 0 else SumAmounts(ItemsIn(items, ks[0])) + CategoryTotals(items, ks[1..])
  }

  ghost predicate DistinctIds(ks: seq<CategoryId>) {
    forall i, j :: 0 <= i < j < |ks| ==> ks[i] != ks[j]
  }

  lemma {:induction false} InsertTotal(g: Group, s: seq<Group>)
    ensures GroupsTotal(Insert(g, s)) == g.amount + GroupsTotal(s)
  {
    if s != [] && g.amount < s[0].amount {
      InsertTotal(g, s[1..]);
      assert Insert(g, s)[1..] == Insert(g, s[1..]);
    } else if s != [] {
      assert Insert(g, s)[1..] == s;
    }
  }

  lemma {:induction false} SortDescTotal(s: seq<Group>)
    ensures GroupsTotal(SortDesc(s)) == GroupsTotal(s)
  {
    if s != [] {
      SortDescTotal(s[1..]);
      InsertTotal(s[0], SortDesc(s[1..]));
    }
  }

  lemma {:induction false} GroupsTotalByCategory(items: seq<Item>, gs: seq<Group>, ks: seq<CategoryId>)
    requires |gs| == |ks|
    requires forall i :: 0 <= i < |gs| ==> gs[i].amount == SumAmounts(ItemsIn(items, ks[i]))
    ensures GroupsTotal(gs) == CategoryTotals(items, ks)
  {
    if gs != [] {
      GroupsTotalByCategory(items, gs[1..], ks[1..]);
    }
  }

  lemma {:induction false} ItemsInSnoc(items: seq<Item>, x: Item, k: CategoryId)
    ensures SumAmounts(ItemsIn(items + [x], k)) ==
              SumAmounts(ItemsIn(items, k)) + (if x.category.id == k then x.amountInUserCurrency else 0)
  {
    var all := items + [x];
    assert all[..|all| - 1] == items;
    if x.category.id == k {
      var r := ItemsIn(items, k) + [x];
      assert ItemsIn(all, k) == r;
      assert r[..|r| - 1] == ItemsIn(items, k);
    }
  }

  lemma {:induction false} CategoryTotalsSnoc(items: seq<Item>, x: Item, ks: seq<CategoryId>)
    requires DistinctIds(ks)
    ensures CategoryTotals(items + [x], ks) ==
              CategoryTotals(items, ks) + (if x.category.id in ks then x.amountInUserCurrency else 0)
  {
    if ks != [] {
      var tail := ks[1..];
      assert DistinctIds(tail) by {
        forall i, j | 0 <= i < j < |tail| ensures tail[i] != tail[j] {
          assert tail[i] == ks[i + 1] && tail[j] == ks[j + 1];
        }
      }
      assert ks[0] !in tail by {
        forall i | 0 <= i < |tail| ensures tail[i] != ks[0] {
          assert tail[i] == ks[i + 1];
        }
      }
      assert x.category.id in ks <==> x.category.id == ks[0] || x.category.id in tail by {
        assert ks == [ks[0]] + tail;
      }
      CategoryTotalsSnoc(items, x, tail);
      ItemsInSnoc(items, x, ks[0]);
    }
  }

  lemma {:induction false} CategoryTotalsOfNone(ks: seq<CategoryId>)
    ensures CategoryTotals([], ks) == 0
  {
    if ks != [] {
      CategoryTotalsOfNone(ks[1..]);
    }
  }

  /** Summing per category over distinct categories that cover every item
      gives the sum over all items. */
  lemma {:induction false} CategoryTotalsCover(items: seq<Item>, ks: seq<CategoryId>)
    requires DistinctIds(ks)
    requires forall i :: 0 <= i < |items| ==> items[i].category.id in ks
    ensures CategoryTotals(items, ks) == SumAmounts(items)
  {
    if items == [] {
      CategoryTotalsOfNone(ks);
    } else {
      var init, x := items[..|items| - 1], items[|items| - 1];
      assert items == init + [x];
      assert forall i :: 0 <= i < |init| ==> init[i] == items[i];
      CategoryTotalsCover(init, ks);
      CategoryTotalsSnoc(init, x, ks);
    }
  }

  /** Grouping loses and invents nothing: the group totals add up to the
      sum of the listed values of all matching costs. */
  lemma {:induction false} ListedTotal(items: seq<Item>, userCur: Currency)
    ensures GroupsTotal(Listed(items, userCur)) == SumAmounts(items)
  {
    var grouped := Grouped(items, userCur);
    var order := CategoryOrder(items);
    SortDescTotal(grouped);
    GroupsTotalByCategory(items, grouped, order);
    forall i | 0 <= i < |items| ensures items[i].category.id in order {
    }
    CategoryTotalsCover(items, order);
  }
}
