/** The pure list operations of the in-skill-product helpers (lib/isp/isp.js):
    filtering a catalog, looking products up, and reading a product list aloud. */
module Products {
  import opened Wrappers

  datatype ProductType = Consumable | Entitlement | Subscription
  datatype EntitlementState = Entitled | NotEntitled
  datatype PurchaseState = Purchasable | NotPurchasable

  /** One in-skill product as the monetization service describes it.
      An absent string field is the empty string. */
  datatype Product = Product(
    productId: string,
    referenceName: string,
    name: string,
    productType: ProductType,
    entitled: EntitlementState,
    purchasable: PurchaseState)

  /** The monetization service's reply, `{ inSkillProducts: [...] }`. */
  datatype InSkillProducts = InSkillProducts(inSkillProducts: seq<Product>)

  // ---------------------------------------------------------------------------
  // Filtering (Array.prototype.filter)
  // ---------------------------------------------------------------------------

  /** The products of `list` for which `keep` holds. The input is a value and
      is left as it is. */
  function Filter(list: seq<Product>, keep: Product -> bool): (r: seq<Product>)
    ensures |r| <= |list|
    ensures forall p :: p in r <==> p in list && keep(p)
  {
    if list == [] then []
    else
      var rest := Filter(list[1..], keep);
      assert list == [list[0]] + list[1..];
      if keep(list[0]) then [list[0]] + rest else rest
  }

  /** Each kept product appears as often as in `list`; the others not at all. */
  lemma {:induction false} FilterCount(list: seq<Product>, keep: Product -> bool)
    ensures forall p :: multiset(Filter(list, keep))[p] == if keep(p) then multiset(list)[p] else 0
  {
    if list != [] {
      FilterCount(list[1..], keep);
      assert list == [list[0]] + list[1..];
      assert multiset(list) == multiset{list[0]} + multiset(list[1..]);
    }
  }

  /** Filtering distributes over concatenation: the kept products stay in the
      order the catalog gave them. */
  lemma {:induction false} FilterAppend(a: seq<Product>, b: seq<Product>, keep: Product -> bool)
    ensures Filter(a + b, keep) == Filter(a, keep) + Filter(b, keep)
  {
    if a == [] {
      assert a + b == b;
    } else {
      var ab := a + b;
      assert ab != [] && ab[0] == a[0] && ab[1..] == a[1..] + b;
      FilterAppend(a[1..], b, keep);
      var tail := Filter(a[1..], keep) + Filter(b, keep);
      assert Filter(ab, keep) == if keep(a[0]) then [a[0]] + tail else tail;
      assert Filter(a, keep) == if keep(a[0]) then [a[0]] + Filter(a[1..], keep) else Filter(a[1..], keep);
    }
  }

  /** The first product kept is the first product of the list that qualifies. */
  lemma {:induction false} FilterHead(list: seq<Product>, keep: Product -> bool)
    ensures Filter(list, keep) != [] <==> exists i :: 0 <= i < |list| && keep(list[i])
    ensures Filter(list, keep) != [] ==>
      exists i :: 0 <= i < |list| && Filter(list, keep)[0] == list[i] && keep(list[i]) &&
        forall j :: 0 <= j < i ==> !keep(list[j])
  {
    if list != [] {
      if keep(list[0]) {
        assert Filter(list, keep)[0] == list[0];
      } else {
        FilterHead(list[1..], keep);
        assert Filter(list, keep) == Filter(list[1..], keep);
        if Filter(list, keep) != [] {
          var i :| 0 <= i < |list[1..]| && Filter(list, keep)[0] == list[1..][i] && keep(list[1..][i]) &&
            forall j :: 0 <= j < i ==> !keep(list[1..][j]);
          assert Filter(list, keep)[0] == list[i + 1] && keep(list[i + 1]);
          assert forall j :: 0 <= j < i + 1 ==> !keep(list[j]) by {
            forall j | 0 <= j < i + 1 ensures !keep(list[j]) {
              if j > 0 { assert list[j] == list[1..][j - 1]; }
            }
          }
        } else {
          forall i | 0 <= i < |list| ensures !keep(list[i]) {
            if i > 0 { assert list[i] in Filter(list[1..], keep) || !keep(list[i]) by { assert list[i] == list[1..][i - 1]; } }
          }
        }
      }
    }
  }

  /** Filtering twice is filtering once. */
  lemma {:induction false} FilterIdempotent(list: seq<Product>, keep: Product -> bool)
    ensures Filter(Filter(list, keep), keep) == Filter(list, keep)
  {
    if list != [] {
      FilterIdempotent(list[1..], keep);
      if keep(list[0]) {
        var r := Filter(list, keep);
        assert r[0] == list[0] && r[1..] == Filter(list[1..], keep);
      }
    }
  }

  /** A list whose every product qualifies comes back whole. */
  lemma {:induction false} FilterKeepsAll(list: seq<Product>, keep: Product -> bool)
    requires forall i :: 0 <= i < |list| ==> keep(list[i])
    ensures Filter(list, keep) == list
  {
    if list != [] {
      FilterKeepsAll(list[1..], keep);
      assert [list[0]] + list[1..] == list;
    }
  }

  /** `getAllConsumableProducts`: the CONSUMABLE products, each as often as listed. */
  function ConsumableProducts(list: seq<Product>): (r: seq<Product>)
    ensures forall p :: multiset(r)[p] == if p.productType == Consumable then multiset(list)[p] else 0
    ensures forall p :: p in r <==> p in list && p.productType == Consumable
  {
    FilterCount(list, (p: Product) => p.productType == Consumable);
    Filter(list, (p: Product) => p.productType == Consumable)
  }

  /** `getAllEntitledProducts`: the products the user is ENTITLED to. */
  function EntitledProducts(list: seq<Product>): (r: seq<Product>)
    ensures forall p :: multiset(r)[p] == if p.entitled == Entitled then multiset(list)[p] else 0
    ensures forall p :: p in r <==> p in list && p.entitled == Entitled
  {
    FilterCount(list, (p: Product) => p.entitled == Entitled);
    Filter(list, (p: Product) => p.entitled == Entitled)
  }

  /** `getAllPurchasableProducts`: the PURCHASABLE products. */
  function PurchasableProducts(list: seq<Product>): (r: seq<Product>)
    ensures forall p :: multiset(r)[p] == if p.purchasable == Purchasable then multiset(list)[p] else 0
    ensures forall p :: p in r <==> p in list && p.purchasable == Purchasable
  {
    FilterCount(list, (p: Product) => p.purchasable == Purchasable);
    Filter(list, (p: Product) => p.purchasable == Purchasable)
  }

  // ---------------------------------------------------------------------------
  // Lookups
  // ---------------------------------------------------------------------------

  /** `getProductById`: the catalog entries with this exact id; empty exactly
      when none has it. */
  function ProductById(productId: string, products: InSkillProducts): (r: seq<Product>)
    ensures forall p :: p in r <==> p in products.inSkillProducts && p.productId == productId
    ensures r == [] <==> forall p :: p in products.inSkillProducts ==> p.productId != productId
  {
    var r := Filter(products.inSkillProducts, (p: Product) => p.productId == productId);
    assert r != [] ==> r[0] in r;
    r
  }

  /** `getProductByReferenceName`: the catalog entries with this exact reference
      name; empty exactly when none has it. */
  function ProductByReferenceName(productName: string, products: InSkillProducts): (r: seq<Product>)
    ensures forall p :: p in r <==> p in products.inSkillProducts && p.referenceName == productName
    ensures r == [] <==> forall p :: p in products.inSkillProducts ==> p.referenceName != productName
  {
    var r := Filter(products.inSkillProducts, (p: Product) => p.referenceName == productName);
    assert r != [] ==> r[0] in r;
    r
  }

  /** Product ids are unique within a catalog. */
  ghost predicate UniqueIds(list: seq<Product>) {
    forall i, j :: 0 <= i < j < |list| ==> list[i].productId != list[j].productId
  }

  /** In a catalog with unique ids, a lookup by id finds at most one product. */
  lemma {:induction false} ProductByIdAtMostOne(productId: string, products: InSkillProducts)
    requires UniqueIds(products.inSkillProducts)
    ensures |ProductById(productId, products)| <= 1
    decreases |products.inSkillProducts|
  {
    var list := products.inSkillProducts;
    if list != [] {
      var rest := InSkillProducts(list[1..]);
      assert UniqueIds(rest.inSkillProducts) by {
        forall i, j | 0 <= i < j < |list[1..]| ensures list[1..][i].productId != list[1..][j].productId {
          assert list[1..][i] == list[i + 1] && list[1..][j] == list[j + 1];
        }
      }
      ProductByIdAtMostOne(productId, rest);
      if list[0].productId == productId {
        assert ProductById(productId, rest) == [] by {
          forall p | p in list[1..] ensures p.productId != productId {
            var k :| 0 <= k < |list[1..]| && list[1..][k] == p;
            assert p == list[k + 1];
          }
        }
      }
    }
  }

  /** The first product a lookup by reference name returns is the first catalog
      entry with that name (the purchase flow buys this one). */
  lemma ProductByReferenceNameHead(productName: string, products: InSkillProducts)
    ensures var list := products.inSkillProducts;
      ProductByReferenceName(productName, products) != [] ==>
        exists i :: 0 <= i < |list| && ProductByReferenceName(productName, products)[0] == list[i] &&
          list[i].referenceName == productName &&
          forall j :: 0 <= j < i ==> list[j].referenceName != productName
  {
    FilterHead(products.inSkillProducts, (p: Product) => p.referenceName == productName);
  }

  // ---------------------------------------------------------------------------
  // The speakable list
  // ---------------------------------------------------------------------------

  /** `list.map(item => item.name)` */
  function Names(list: seq<Product>): (names: seq<string>)
    ensures |names| == |list|
    ensures forall i :: 0 <= i < |list| ==> names[i] == list[i].name
  {
    seq(|list|, i requires 0 <= i < |list| => list[i].name)
  }

  /** `parts.join(sep)`: a character occurs in the result exactly when it occurs
      in one of the parts, or in the separator when there are two parts or more;
      the result starts with the first part. */
  function Join(parts: seq<string>, sep: string): (r: string)
    ensures forall c :: c in r <==>
      (exists k :: 0 <= k < |parts| && c in parts[k]) || (|parts| >= 2 && c in sep)
    ensures |parts| > 0 ==> parts[0] <= r
  {
    if |parts| == 0 then ""
    else if |parts| == 1 then parts[0]
    else parts[0] + sep + Join(parts[1..], sep)
  }

  /** Joining two or more parts ends with the separator and the last part. */
  lemma {:induction false} JoinSnoc(parts: seq<string>, sep: string)
    requires |parts| >= 2
    ensures Join(parts, sep) == Join(parts[..|parts| - 1], sep) + sep + parts[|parts| - 1]
  {
    var n := |parts|;
    if n > 2 {
      JoinSnoc(parts[1..], sep);
      assert parts[1..][..n - 2] == parts[..n - 1][1..];
      assert parts[1..][n - 2] == parts[n - 1];
    } else {
      assert parts[..1] == [parts[0]];
    }
  }

  /** The regular expression /,([^,]*)$/ matches `s` at position `i`: a comma
      there, and no comma between it and the end of the string. */
  predicate MatchesAt(s: string, i: nat) {
    i < |s| && s[i] == ',' && forall j :: i < j < |s| ==> s[j] != ','
  }

  /** Where /,([^,]*)$/ matches `s`: the position of its last comma, the only
      position at which the pattern can match, or None when there is no comma. */
  function LastComma(s: string): (m: Option<nat>)
    ensures m.Some? ==> MatchesAt(s, m.value)
    ensures forall i: nat :: MatchesAt(s, i) ==> m == Some(i)
    ensures m.None? <==> ',' !in s
    decreases |s|
  {
    if |s| == 0 then None
    else if s[|s| - 1] == ',' then Some(|s| - 1)
    else
      var m := LastComma(s[..|s| - 1]);
      assert forall i: nat :: MatchesAt(s, i) ==> MatchesAt(s[..|s| - 1], i);
      assert s == s[..|s| - 1] + [s[|s| - 1]];
      m
  }

  /** `s.replace(/,([^,]*)$/, ' and $1')`: where the pattern matches, the comma
      becomes " and " and the captured rest of the string is kept after it;
      where it does not, `s` is unchanged. */
  function ReplaceLastComma(s: string): (r: string)
    ensures (forall i: nat :: !MatchesAt(s, i)) ==> r == s
    ensures forall i: nat :: MatchesAt(s, i) ==> r == s[..i] + " and " + s[i + 1..]
  {
    match LastComma(s)
    case None => s
    case Some(i) => s[..i] + " and " + s[i + 1..]
  }

  /** `getSpeakableListOfProducts`: the names joined by ", ", with the last comma
      replaced by " and ". */
  function SpeakableList(list: seq<Product>): (r: string)
    ensures |list| == 0 ==> r == ""
    ensures |list| >= 2 ==> |r| == |Join(Names(list), ", ")| + 4
  {
    var joined := Join(Names(list), ", ");
    assert |list| >= 2 ==> ',' in joined by {
      if |list| >= 2 { assert ',' in ", "; }
    }
    ReplaceLastComma(joined)
  }

  /** An empty list is read as the empty string. */
  lemma SpeakableListOfNone()
    ensures SpeakableList([]) == ""
  {
  }

  /** A single comma-free name is read as it is. */
  lemma SpeakableListOfOne(p: Product)
    requires ',' !in p.name
    ensures SpeakableList([p]) == p.name
  {
    assert Names([p]) == [p.name];
    assert forall i: nat :: !MatchesAt(p.name, i);
  }

  /** Replacing the comma of a final ", " before a comma-free tail gives
      " and ", then the kept space, then the tail. */
  lemma ReplaceFinalSeparator(init: string, last: string)
    requires ',' !in last
    ensures ReplaceLastComma(init + ", " + last) == init + " and " + " " + last
  {
    var s := init + ", " + last;
    var i := |init|;
    assert MatchesAt(s, i) by {
      forall j | i < j < |s| ensures s[j] != ',' {
        if j > i + 1 { assert s[j] == last[j - i - 2]; }
      }
    }
    assert s[..i] == init;
    assert s[i + 1..] == " " + last;
  }

  /** Two or more names whose last one is comma-free: the names before the last
      joined by ", ", then " and ", then the space the replaced comma was
      followed by, then the last name. */
  lemma SpeakableListOfMany(list: seq<Product>)
    requires |list| >= 2
    requires ',' !in list[|list| - 1].name
    ensures SpeakableList(list) == Join(Names(list[..|list| - 1]), ", ") + " and " + " " + list[|list| - 1].name
  {
    var n := |list|;
    var names := Names(list);
    JoinSnoc(names, ", ");
    assert names[..n - 1] == Names(list[..n - 1]);
    ReplaceFinalSeparator(Join(Names(list[..n - 1]), ", "), list[n - 1].name);
  }

  /** Three products named A, B and C are read as "A, B and  C": the space that
      followed the replaced comma stays, giving a double space. */
  lemma SpeakableListOfThree(a: Product, b: Product, c: Product)
    requires a.name == "A" && b.name == "B" && c.name == "C"
    ensures SpeakableList([a, b, c]) == "A, B and  C"
  {
    var list := [a, b, c];
    SpeakableListOfMany(list);
    assert list[..2] == [a, b];
    assert Names([a, b]) == ["A", "B"];
    assert Join(["A", "B"], ", ") == "A, B";
  }
}
