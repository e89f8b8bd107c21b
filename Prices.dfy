/** The supermarket price comparator (components/PriceComparator.tsx): a
    fixed product table, a case-insensitive search over names and
    categories, and for each listed product its prices from cheapest to
    dearest, the best price and the largest possible saving. Prices are
    whole euro cents. */
module Prices {
  import opened Text
  import opened Types
  import opened Lists

  const Mercadona: string := "Mercadona"
  const Carrefour: string := "Carrefour"
  const Lidl: string := "Lidl"

  /** `MOCK_DB`, the simulated database, with prices in cents. */
  const MockDb: seq<Product> := [
    Product("1", "Leche Entera 1L", "Lácteos",
      [ ProductPrice(Mercadona, 95, "🟢"), ProductPrice(Carrefour, 105, "🔵"),
        ProductPrice(Lidl, 91, "🟡"), ProductPrice("Dia", 99, "🔴") ], "🥛"),
    Product("2", "Huevos L (Docena)", "Huevos",
      [ ProductPrice(Mercadona, 210, "🟢"), ProductPrice(Carrefour, 235, "🔵"),
        ProductPrice(Lidl, 199, "🟡") ], "🥚"),
    Product("3", "Aceite de Oliva Virgen Extra 1L", "Aceites",
      [ ProductPrice(Mercadona, 850, "🟢"), ProductPrice(Carrefour, 895, "🔵"),
        ProductPrice(Lidl, 845, "🟡"), ProductPrice("Alcampo", 825, "🔴") ], "🫒"),
    Product("4", "Arroz Redondo 1kg", "Despensa",
      [ ProductPrice(Mercadona, 130, "🟢"), ProductPrice(Carrefour, 145, "🔵"),
        ProductPrice(Lidl, 125, "🟡") ], "🍚"),
    Product("5", "Pechuga de Pollo 1kg", "Carnicería",
      [ ProductPrice(Mercadona, 695, "🟢"), ProductPrice(Carrefour, 750, "🔵"),
        ProductPrice(Lidl, 680, "🟡"), ProductPrice("Carnicería local", 800, "🥩") ], "🍗"),
    Product("6", "Tomate Frito", "Despensa",
      [ ProductPrice(Mercadona, 85, "🟢"), ProductPrice(Carrefour, 99, "🔵"),
        ProductPrice(Lidl, 80, "🟡") ], "🥫")
  ]

  /** Every seeded product has at least one price. */
  lemma SeededProductsPriced()
    ensures forall i :: 0 <= i < |MockDb| ==> |MockDb[i].prices| > 0
  {
  }

  // ---------------------------------------------------------------------
  // filteredProducts

  /** The search predicate: the lower-cased term is found in the
      lower-cased name or the lower-cased category. */
  predicate Matches(term: string, p: Product) {
    Includes(ToLower(p.name), ToLower(term)) || Includes(ToLower(p.category), ToLower(term))
  }

  function Matcher(term: string): Product -> bool {
    (p: Product) => Matches(term, p)
  }

  /** `filteredProducts` over a product table. */
  function Search(db: seq<Product>, term: string): seq<Product> {
    Filter(db, Matcher(term))
  }

  /** A product is listed exactly when it is in the table and matches,
      as often as in the table, and the listing keeps the table's order. */
  lemma SearchExact(db: seq<Product>, term: string)
    ensures forall p :: p in Search(db, term) <==> p in db && Matches(term, p)
    ensures forall p :: Matches(term, p) ==> multiset(Search(db, term))[p] == multiset(db)[p]
    ensures IsSubsequence(Search(db, term), db)
  {
    FilterIsSubsequence(db, Matcher(term));
  }

  /** An empty search term lists the whole table. */
  lemma EmptyTermListsAll(db: seq<Product>)
    ensures Search(db, "") == db
  {
    forall i | 0 <= i < |db| ensures Matches("", db[i]) {
      IncludesEmpty(ToLower(db[i].name));
    }
    FilterKeepsAll(db, Matcher(""));
  }

  /** Letter case in the term and in the table does not matter. */
  lemma SearchIgnoresCase(p: Product, term: string)
    ensures Matches(term, p) <==> Matches(ToLower(term), p)
  {
    ToLowerIdempotent(term);
  }

  lemma ToLowerIdempotent(s: string)
    ensures ToLower(ToLower(s)) == ToLower(s)
  {
    var t := ToLower(s);
    assert forall i :: 0 <= i < |t| ==> !IsUpper(t[i]);
  }

  // ---------------------------------------------------------------------
  // sortedPrices, bestPrice and saving

  predicate SortedByPrice(s: seq<ProductPrice>) {
    forall i, j :: 0 <= i < j < |s| ==> s[i].cents <= s[j].cents
  }

  /** Inserts `x` before the first entry that is not cheaper, so equal
      prices keep their order. */
  function Insert(x: ProductPrice, s: seq<ProductPrice>): (r: seq<ProductPrice>)
    ensures multiset(r) == multiset(s) + multiset{x}
    ensures |r| == |s| + 1
  {
    if s == [] || x.cents <= s[0].cents then [x] + s
    else
      assert s == [s[0]] + s[1..];
      [s[0]] + Insert(x, s[1..])
  }

  /** Inserting into a sorted list keeps it sorted. */
  lemma {:induction false} InsertKeepsSorted(x: ProductPrice, s: seq<ProductPrice>)
    requires SortedByPrice(s)
    ensures SortedByPrice(Insert(x, s))
  {
    if s == [] || x.cents <= s[0].cents {
      PrependKeepsSorted(x, s);
    } else {
      InsertKeepsSorted(x, s[1..]);
      InsertLowerBound(x, s[1..], s[0].cents);
      PrependKeepsSorted(s[0], Insert(x, s[1..]));
    }
  }

  /** A price no greater than every price of a sorted list can head it. */
  lemma PrependKeepsSorted(h: ProductPrice, s: seq<ProductPrice>)
    requires SortedByPrice(s)
    requires forall k :: 0 <= k < |s| ==> h.cents <= s[k].cents
    ensures SortedByPrice([h] + s)
  {
    var r := [h] + s;
    forall i, j | 0 <= i < j < |r| ensures r[i].cents <= r[j].cents {
      assert r[j] == s[j - 1];
      if i > 0 {
        assert r[i] == s[i - 1];
      }
    }
  }

  /** Inserting keeps a lower bound that the list and the new entry share. */
  lemma {:induction false} InsertLowerBound(x: ProductPrice, s: seq<ProductPrice>, lo: int)
    requires lo <= x.cents
    requires forall k :: 0 <= k < |s| ==> lo <= s[k].cents
    ensures forall k :: 0 <= k < |Insert(x, s)| ==> lo <= Insert(x, s)[k].cents
  {
    if s != [] && x.cents > s[0].cents {
      InsertLowerBound(x, s[1..], lo);
      var r, rest := Insert(x, s), Insert(x, s[1..]);
      assert r == [s[0]] + rest;
      forall k | 0 <= k < |r| ensures lo <= r[k].cents {
        if k > 0 {
          assert r[k] == rest[k - 1];
        }
      }
    }
  }

  /** `[...prices].sort((a, b) => a.price - b.price)`: a sorted copy;
      the product's own list is a value and stays as it was. */
  function SortByPrice(prices: seq<ProductPrice>): (r: seq<ProductPrice>)
    ensures SortedByPrice(r)
    ensures multiset(r) == multiset(prices)
    ensures |r| == |prices|
  {
    if prices == [] then []
    else
      assert prices == [prices[0]] + prices[1..];
      var rest := SortByPrice(prices[1..]);
      InsertKeepsSorted(prices[0], rest);
      Insert(prices[0], rest)
  }

  /** In a sorted non-empty list the first entry is the cheapest and the
      last the dearest; every entry of `prices` is in its sorted copy. */
  lemma SortedBounds(prices: seq<ProductPrice>)
    requires |prices| > 0
    ensures var s := SortByPrice(prices);
      && s[0] in prices && s[|s| - 1] in prices
      && forall p | p in prices :: s[0].cents <= p.cents <= s[|s| - 1].cents
  {
    var s := SortByPrice(prices);
    SameMembers(s, prices);
    SortedEnds(s);
  }

  /** Two lists with the same multiset have the same members. */
  lemma SameMembers(a: seq<ProductPrice>, b: seq<ProductPrice>)
    requires multiset(a) == multiset(b)
    ensures forall p :: p in a <==> p in b
  {
    forall p ensures p in a <==> p in b {
      assert p in a <==> p in multiset(a);
      assert p in b <==> p in multiset(b);
    }
  }

  /** Every member of a sorted list lies between its first and last entries. */
  lemma SortedEnds(s: seq<ProductPrice>)
    requires |s| > 0 && SortedByPrice(s)
    ensures forall p | p in s :: s[0].cents <= p.cents <= s[|s| - 1].cents
  {
    forall p | p in s ensures s[0].cents <= p.cents <= s[|s| - 1].cents {
      var k :| 0 <= k < |s| && s[k] == p;
    }
  }

  /** `sortedPrices[0]`: an entry of the list that no other entry undercuts. */
  function BestPrice(prices: seq<ProductPrice>): (r: ProductPrice)
    requires |prices| > 0
    ensures r in prices
    ensures forall p | p in prices :: r.cents <= p.cents
  {
    SortedBounds(prices);
    SortByPrice(prices)[0]
  }

  /** `sortedPrices[last].price - bestPrice.price`: the dearest price
      minus the cheapest. */
  function Saving(prices: seq<ProductPrice>): (r: int)
    requires |prices| > 0
    ensures r >= 0
    ensures forall p | p in prices :: p.cents <= BestPrice(prices).cents + r
    ensures exists p | p in prices :: p.cents == BestPrice(prices).cents + r
  {
    var s := SortByPrice(prices);
    SortedBounds(prices);
    assert s[|s| - 1] in prices;
    s[|s| - 1].cents - s[0].cents
  }

  /** There is something to save exactly when two prices differ. */
  lemma SavingPositive(prices: seq<ProductPrice>)
    requires |prices| > 0
    ensures Saving(prices) > 0 <==> exists p | p in prices :: p.cents != prices[0].cents
  {
    var best, saving := BestPrice(prices), Saving(prices);
    if saving > 0 {
      var hi :| hi in prices && hi.cents == best.cents + saving;
      if prices[0].cents == hi.cents {
        assert best.cents != best.cents + saving;
        assert best.cents != prices[0].cents;
      }
    } else {
      assert forall p | p in prices :: p.cents == best.cents;
    }
  }

  // ---------------------------------------------------------------------
  // What the comparator shows

  /** One line of a product card, marked when it is the best price. */
  datatype PriceRow = PriceRow(price: ProductPrice, best: bool)

  /** A product card: its price lines and, when there is one, the saving. */
  datatype Card = Card(product: Product, rows: seq<PriceRow>, saving: int, showsSaving: bool)

  /** The screen under the search box. */
  datatype View = NotFound | Cards(cards: seq<Card>)

  function CardFor(p: Product): (r: Card)
    requires |p.prices| > 0
  {
    var s := SortByPrice(p.prices);
    Card(p, seq(|s|, i requires 0 <= i < |s| => PriceRow(s[i], i == 0)), Saving(p.prices), Saving(p.prices) > 0)
  }

  /** A card lists every price of its product once, cheapest first; the
      first line, and no other, is marked as the best price, and it is the
      best price; the saving line appears exactly when two prices differ. */
  lemma CardFacts(p: Product)
    requires |p.prices| > 0
    ensures var c := CardFor(p);
      && |c.rows| == |p.prices|
      && multiset(RowPrices(c.rows)) == multiset(p.prices)
      && (forall i, j :: 0 <= i < j < |c.rows| ==> c.rows[i].price.cents <= c.rows[j].price.cents)
      && (forall i :: 0 <= i < |c.rows| ==> (c.rows[i].best <==> i == 0))
      && c.rows[0].price == BestPrice(p.prices)
      && (c.showsSaving <==> exists q | q in p.prices :: q.cents != p.prices[0].cents)
  {
    var c := CardFor(p);
    assert RowPrices(c.rows) == SortByPrice(p.prices);
    SavingPositive(p.prices);
  }

  /** The prices a card lists, line by line. */
  function RowPrices(rows: seq<PriceRow>): seq<ProductPrice> {
    seq(|rows|, i requires 0 <= i < |rows| => rows[i].price)
  }

  /** The view for a search term over a table whose products all have a price. */
  function ViewFor(db: seq<Product>, term: string): (r: View)
    requires forall i :: 0 <= i < |db| ==> |db[i].prices| > 0
  {
    var found := Search(db, term);
    if found == [] then NotFound
    else
      SearchExact(db, term);
      Cards(seq(|found|, i requires 0 <= i < |found| =>
        assert found[i] in db; CardFor(found[i])))
  }

  /** The not-found message appears, with no card, exactly when no product
      matches; otherwise there is one card per listed product, in order. */
  lemma ViewFacts(db: seq<Product>, term: string)
    requires forall i :: 0 <= i < |db| ==> |db[i].prices| > 0
    ensures ViewFor(db, term) == NotFound <==> forall p | p in db :: !Matches(term, p)
    ensures ViewFor(db, term).Cards? ==>
              |ViewFor(db, term).cards| == |Search(db, term)|
              && forall i :: 0 <= i < |ViewFor(db, term).cards| ==> ViewFor(db, term).cards[i].product == Search(db, term)[i]
  {
    SearchExact(db, term);
    var found := Search(db, term);
    if found != [] {
      assert found[0] in found;
    }
  }

  // ---------------------------------------------------------------------
  // Searching for "leche"

  /** Searching "leche" lists only the whole milk; its best price is Lidl's
      91 cents and the saving is 105 - 91 = 14 cents. */
  lemma SearchLeche()
    ensures Search(MockDb, "leche") == [MockDb[0]]
    ensures BestPrice(MockDb[0].prices) == ProductPrice(Lidl, 91, "🟡")
    ensures Saving(MockDb[0].prices) == 14
  {
    LecheMatches();
    LecheBest();
  }

  /** Of the seeded products, only the milk matches "leche". */
  lemma LecheMatches()
    ensures Search(MockDb, "leche") == [MockDb[0]]
  {
    LecheInMilk();
    NoLecheInEggs();
    NoLecheInOil();
    NoLecheInRice();
    NoLecheInChicken();
    NoLecheInTomato();
    FilterOnlyFirst(MockDb, Matcher("leche"));
  }

  lemma LecheInMilk()
    ensures Matches("leche", MockDb[0])
  {
    var head, tail := "Leche", " Entera 1L";
    assert ToLower("leche") == "leche";
    MilkNameHalves();
    ToLowerAppend(head, tail);
    assert ToLower(head) == "leche";
    IncludesSelf("leche");
    IncludesInContext([], "leche", ToLower(tail), "leche");
    assert [] + "leche" + ToLower(tail) == ToLower(head) + ToLower(tail);
  }

  lemma MilkNameHalves()
    ensures MockDb[0].name == "Leche" + " Entera 1L"
  {
  }

  /** The products other than the milk do not match "leche": a name or
      category without an 'h' cannot contain it, and those with one are
      checked position by position. */
  lemma NoLecheInEggs()
    ensures !Matches("leche", MockDb[1])
  {
    NoLecheInEggsName();
    NoLecheInEggsCategory();
  }

  lemma NoLecheInEggsName()
    ensures !Includes(ToLower(MockDb[1].name), ToLower("leche"))
  {
    var t, s := "leche", "huevos l (docena)";
    assert ToLower(t) == t;
    assert ToLower(MockDb[1].name) == s;
    NoLecheInEggsNameHead();
  }

  lemma NoLecheInEggsNameHead()
    ensures !IncludesFrom("huevos l (docena)", "leche", 0)
  {
    var t, s := "leche", "huevos l (docena)";
    NoLecheInEggsNameTail();
    assert !IncludesFrom(s, t, 5);
    assert !IncludesFrom(s, t, 0);
  }

  lemma NoLecheInEggsNameTail()
    ensures !IncludesFrom("huevos l (docena)", "leche", 10)
  {
    var t, s := "leche", "huevos l (docena)";
    assert !IncludesFrom(s, t, 17);
    assert !IncludesFrom(s, t, 12);
    assert !IncludesFrom(s, t, 10);
  }

  lemma NoLecheInEggsCategory()
    ensures !Includes(ToLower(MockDb[1].category), ToLower("leche"))
  {
    var t, s := "leche", "huevos";
    assert ToLower(t) == t;
    assert ToLower(MockDb[1].category) == s;
    assert !IncludesFrom(s, t, 6);
    assert !IncludesFrom(s, t, 1);
    assert !IncludesFrom(s, t, 0);
  }

  lemma NoLecheInOil()
    ensures !Matches("leche", MockDb[2])
  {
    NoLecheInOilName();
    NoLecheInOilCategory();
  }

  lemma NoLecheInOilName()
    ensures !Includes(ToLower(MockDb[2].name), ToLower("leche"))
  {
    var head, tail := "aceite de oliva ", "virgen extra 1l";
    assert ToLower("leche") == "leche";
    OilNameLowered();
    OilNameLacksH();
    assert 'h' !in head + tail;
    AbsentCharExcludes(head + tail, "leche", 'h');
  }

  /** The oil's name is lowered in two halves. */
  lemma OilNameLowered()
    ensures ToLower(MockDb[2].name) == "aceite de oliva " + "virgen extra 1l"
  {
    OilNameHalves();
    ToLowerAppend("Aceite de Oliva ", "Virgen Extra 1L");
    OilNameHeadLowered();
    OilNameTailLowered();
  }

  lemma OilNameLacksH()
    ensures 'h' !in "aceite de oliva " && 'h' !in "virgen extra 1l"
  {
  }

  lemma OilNameHalves()
    ensures MockDb[2].name == "Aceite de Oliva " + "Virgen Extra 1L"
  {
  }

  lemma OilNameHeadLowered()
    ensures ToLower("Aceite de Oliva ") == "aceite de oliva "
  {
  }

  lemma OilNameTailLowered()
    ensures ToLower("Virgen Extra 1L") == "virgen extra 1l"
  {
  }

  lemma NoLecheInOilCategory()
    ensures !Includes(ToLower(MockDb[2].category), ToLower("leche"))
  {
    var t, s := "leche", "aceites";
    assert ToLower(t) == t;
    assert ToLower(MockDb[2].category) == s;
    AbsentCharExcludes(s, t, 'h');
  }

  lemma NoLecheInRice()
    ensures !Matches("leche", MockDb[3])
  {
    NoLecheInRiceName();
    NoLecheInRiceCategory();
  }

  lemma NoLecheInRiceName()
    ensures !Includes(ToLower(MockDb[3].name), ToLower("leche"))
  {
    var head, tail := "arroz re", "dondo 1kg";
    assert ToLower("leche") == "leche";
    RiceNameLowered();
    RiceNameLacksH();
    assert 'h' !in head + tail;
    AbsentCharExcludes(head + tail, "leche", 'h');
  }

  /** The rice's name is lowered in two halves. */
  lemma RiceNameLowered()
    ensures ToLower(MockDb[3].name) == "arroz re" + "dondo 1kg"
  {
    RiceNameHalves();
    ToLowerAppend("Arroz Re", "dondo 1kg");
    assert ToLower("Arroz Re") == "arroz re";
    assert ToLower("dondo 1kg") == "dondo 1kg";
  }

  lemma RiceNameHalves()
    ensures MockDb[3].name == "Arroz Re" + "dondo 1kg"
  {
  }

  lemma RiceNameLacksH()
    ensures 'h' !in "arroz re" && 'h' !in "dondo 1kg"
  {
  }

  lemma NoLecheInRiceCategory()
    ensures !Includes(ToLower(MockDb[3].category), ToLower("leche"))
  {
    var t, s := "leche", "despensa";
    assert ToLower(t) == t;
    assert ToLower(MockDb[3].category) == s;
    AbsentCharExcludes(s, t, 'h');
  }

  lemma NoLecheInChicken()
    ensures !Matches("leche", MockDb[4])
  {
    NoLecheInChickenName();
    NoLecheInChickenCategory();
  }

  lemma NoLecheInChickenName()
    ensures !Includes(ToLower(MockDb[4].name), ToLower("leche"))
  {
    var t, s := "leche", "pechuga de pollo 1kg";
    assert ToLower(t) == t;
    assert ToLower(MockDb[4].name) == s;
    NoLecheInChickenNameHead();
  }

  lemma NoLecheInChickenNameHead()
    ensures !IncludesFrom("pechuga de pollo 1kg", "leche", 0)
  {
    var t, s := "leche", "pechuga de pollo 1kg";
    NoLecheInChickenNameTail();
    assert !IncludesFrom(s, t, 5);
    assert !IncludesFrom(s, t, 0);
  }

  lemma NoLecheInChickenNameTail()
    ensures !IncludesFrom("pechuga de pollo 1kg", "leche", 10)
  {
    var t, s := "leche", "pechuga de pollo 1kg";
    assert !IncludesFrom(s, t, 20);
    assert !IncludesFrom(s, t, 15);
    assert !IncludesFrom(s, t, 10);
  }

  lemma NoLecheInChickenCategory()
    ensures !Includes(ToLower(MockDb[4].category), ToLower("leche"))
  {
    var t, s := "leche", "carnicería";
    assert ToLower(t) == t;
    assert ToLower(MockDb[4].category) == s;
    AbsentCharExcludes(s, t, 'h');
  }

  lemma NoLecheInTomato()
    ensures !Matches("leche", MockDb[5])
  {
    NoLecheInTomatoName();
    NoLecheInTomatoCategory();
  }

  lemma NoLecheInTomatoName()
    ensures !Includes(ToLower(MockDb[5].name), ToLower("leche"))
  {
    var t, s := "leche", "tomate frito";
    assert ToLower(t) == t;
    assert ToLower(MockDb[5].name) == s;
    AbsentCharExcludes(s, t, 'h');
  }

  lemma NoLecheInTomatoCategory()
    ensures !Includes(ToLower(MockDb[5].category), ToLower("leche"))
  {
    var t, s := "leche", "despensa";
    assert ToLower(t) == t;
    assert ToLower(MockDb[5].category) == s;
    AbsentCharExcludes(s, t, 'h');
  }

  /** The milk's cheapest price is Lidl's 91 cents, 14 below the dearest. */
  lemma LecheBest()
    ensures BestPrice(MockDb[0].prices) == ProductPrice(Lidl, 91, "🟡")
    ensures Saving(MockDb[0].prices) == 14
  {
    MilkBest(MockDb[0].prices);
    MilkSaving(MockDb[0].prices);
  }

  lemma MilkBest(prices: seq<ProductPrice>)
    requires prices == MockDb[0].prices
    ensures BestPrice(prices) == ProductPrice(Lidl, 91, "🟡")
  {
    assert prices[2] == ProductPrice(Lidl, 91, "🟡");
    BestIsCheapest(prices, 2);
  }

  lemma MilkSaving(prices: seq<ProductPrice>)
    requires prices == MockDb[0].prices
    ensures Saving(prices) == 14
  {
    assert prices[2].cents == 91 && prices[1].cents == 105;
    SavingIsSpread(prices, 2, 1);
  }

  /** A price strictly below all others is the best price. */
  lemma BestIsCheapest(prices: seq<ProductPrice>, i: nat)
    requires i < |prices|
    requires forall k :: 0 <= k < |prices| && k != i ==> prices[i].cents < prices[k].cents
    ensures BestPrice(prices) == prices[i]
  {
    var best := BestPrice(prices);
    var k :| 0 <= k < |prices| && prices[k] == best;
    assert best.cents <= prices[i].cents;
  }

  /** The saving is the spread between a lowest and a highest price. */
  lemma SavingIsSpread(prices: seq<ProductPrice>, lo: nat, hi: nat)
    requires lo < |prices| && hi < |prices|
    requires forall k :: 0 <= k < |prices| ==> prices[lo].cents <= prices[k].cents <= prices[hi].cents
    ensures Saving(prices) == prices[hi].cents - prices[lo].cents
  {
    var best, saving := BestPrice(prices), Saving(prices);
    var k :| 0 <= k < |prices| && prices[k] == best;
    assert prices[hi].cents <= best.cents + saving;
    var top :| top in prices && top.cents == best.cents + saving;
    var m :| 0 <= m < |prices| && prices[m] == top;
  }
}
