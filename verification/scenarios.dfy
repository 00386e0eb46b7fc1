/**
 * Whole sessions against a fresh database, each stating what the operator sees at every step.
 * They are proved from the contracts of the Store methods alone.
 */
module Scenarios {
  import opened Wrappers
  import opened IntText
  import opened Shop
  import opened StringOrder

  /** `int()` reads the quantity line "10" as 10. */
  lemma QuantityLine()
    ensures ParseInt("10") == Some(10)
  {
    DigitsAreGroup("10");
    ParseUnsignedGroup("10");
  }

  /** `int()` reads the stock-change lines "-3" and "-100" as -3 and -100. */
  lemma SaleLines()
    ensures ParseInt("-3") == Some(-3) && ParseInt("-100") == Some(-100)
  {
    DigitsAreGroup("3");
    ParseSignedGroup("-3", '-', "3");
    DecimalStringValue(100);
    DigitsAreGroup(DecimalString(100));
    assert DecimalString(100) == "100";
    ParseSignedGroup("-100", '-', "100");
  }

  /** The IDs that key counts of 1 and 3 give. */
  lemma IdsForCounts()
    ensures NewProductId(1) == "2" && NewProductId(3) == "4"
  {
  }

  /**
   * The first product added once a user exists and no product does: the "users" hash is the
   * one key, so the product gets ID "2", and afterwards the "all_products" set is a key too.
   */
  method FirstProduct(store: Store, name: string, category: string, price: string, quantity: string)
    returns (r: AddReply)
    requires store.parseFloat(price).Some? && ParseInt(quantity).Some?
    requires store.users != map[] && store.products == map[] && store.allProducts == {}
    modifies store
    ensures r == Added("2")
    ensures store.users != map[] && |store.products| == 1 && store.allProducts != {}
  {
    assert DbSize(store.users, store.products, store.allProducts) == 1;
    assert NewProductId(1) == "2";
    r := store.AddProduct(name, category, price, quantity);
    assert "2" in store.allProducts;
  }

  /** The second product: three keys (users, one product, all_products), so ID "4". */
  method SecondProduct(store: Store, name: string, category: string, price: string, quantity: string)
    returns (r: AddReply)
    requires store.parseFloat(price).Some? && ParseInt(quantity).Some?
    requires store.users != map[] && |store.products| == 1 && store.allProducts != {}
    modifies store
    ensures r == Added("4")
    ensures store.products ==
      old(store.products)["4" := Product(name, category, store.parseFloat(price).value,
                                         ParseInt(quantity).value)]
  {
    IdsForCounts();
    r := store.AddProduct(name, category, price, quantity);
  }

  /**
   * In a fresh database, once a user has registered (which is the only way to reach the
   * inventory menu), the first two products get IDs "2" and "4".
   */
  method FirstIds(digest: string -> Digest, parseFloat: string -> Option<Price>,
                  username: string, password: string, name: string, category: string,
                  price: string, quantity: string)
    returns (first: AddReply, second: AddReply)
    requires parseFloat(price).Some? && ParseInt(quantity).Some?
    ensures first == Added("2") && second == Added("4")
  {
    var store := new Store(map[], map[], {}, digest, parseFloat);
    var registration := store.RegisterUser(username, password);
    first := FirstProduct(store, name, category, price, quantity);
    second := SecondProduct(store, name, category, price, quantity);
  }

  /**
   * Ten in stock (a quantity line such as "10", by QuantityLine): selling three leaves seven,
   * and then selling a hundred is refused and the seven stay. The lines typed are any that
   * `int()` reads as -3 and -100 ("-3" and "-100" are such lines, by SaleLines).
   */
  method SellThenOversell(store: Store, id: string, minusThree: string, minusHundred: string)
    returns (sold: StockReply, oversold: StockReply)
    requires id in store.products && store.products[id].quantity == 10
    requires ParseInt(minusThree) == Some(-3) && ParseInt(minusHundred) == Some(-100)
    modifies store
    ensures sold == StockUpdated(7) && oversold == NotEnoughStock
    ensures id in store.products && store.products[id].quantity == 7
  {
    sold := store.UpdateStock(id, minusThree);
    oversold := store.UpdateStock(id, minusHundred);
  }

  /**
   * Deleting the only product succeeds once and then reports it missing, and the inventory
   * is empty afterwards.
   */
  method DeleteTwice(store: Store, id: string) returns (deleted: DeleteReply, again: DeleteReply,
                                                        listing: Inventory)
    requires store.Valid() && store.products.Keys == {id}
    modifies store
    ensures deleted == ProductDeleted && again == ProductNotFound && listing == NoProducts
    ensures store.Valid()
  {
    deleted := store.DeleteProduct(id);
    again := store.DeleteProduct(id);
    listing := store.ViewInventory();
  }

  /** Deleting "2" when "2" and "4" are on file leaves "4" alone. */
  method DeleteOlder(store: Store) returns (deleted: DeleteReply)
    requires store.Valid() && store.users != map[]
    requires store.products.Keys == {NewProductId(1), NewProductId(3)}
    modifies store
    ensures deleted == ProductDeleted
    ensures store.Valid() && store.users != map[]
    ensures "4" in store.products && |store.products| == 1
  {
    IdsForCounts();
    deleted := store.DeleteProduct("2");
    assert store.products.Keys == {"4"};
  }

  /**
   * With products "2" and "4" on file, deleting "2" and adding a product hands out "4" again,
   * and the new product silently replaces the one that had it.
   */
  method IdReuseAfterDelete(store: Store, name: string, category: string, price: string,
                            quantity: string)
    returns (deleted: DeleteReply, added: AddReply)
    requires store.Valid() && store.users != map[]
    requires store.products.Keys == {NewProductId(1), NewProductId(3)}
    requires store.parseFloat(price).Some? && ParseInt(quantity).Some?
    modifies store
    ensures deleted == ProductDeleted && added == Added("4")
    ensures "4" in store.products && |store.products| == 1
    ensures store.products["4"] ==
      Product(name, category, store.parseFloat(price).value, ParseInt(quantity).value)
  {
    deleted := DeleteOlder(store);
    added := SecondProduct(store, name, category, price, quantity);
  }

  /**
   * A new user can log in with their password and not with one of a different digest; a
   * second registration of the name is refused and keeps the first digest; an unknown name
   * is reported as such.
   */
  method RegisterThenLogin(users: map<string, string>, products: map<string, Product>,
                           allProducts: set<string>, digest: string -> Digest,
                           parseFloat: string -> Option<Price>,
                           username: string, password: string, other: string, stranger: string)
    returns (registered: Registration, again: Registration, good: LoginReply, bad: LoginReply,
             unknown: LoginReply, stored: string)
    requires username !in users && stranger !in users && stranger != username
    requires digest(other) != digest(password)
    ensures registered == Registered && again == UsernameTaken
    ensures stored == digest(password)
    ensures good == Welcome(username) && bad == IncorrectPassword && unknown == UsernameNotFound
  {
    var store := new Store(users, products, allProducts, digest, parseFloat);
    registered := store.RegisterUser(username, password);
    again := store.RegisterUser(username, other);
    stored := store.users[username];
    good := store.LoginUser(username, password);
    bad := store.LoginUser(username, other);
    unknown := store.LoginUser(stranger, password);
  }
}
