/**
 * The inventory shop: user registration and login against the "users" hash, and product
 * records kept as `product:<id>` hashes indexed by the "all_products" set, all in one Redis
 * database that the program treats as its own.
 */
module Shop {
  import opened Wrappers
  import opened IntText
  import opened StringOrder

  predicate IsHexDigit(c: char) {
    '0' <= c <= '9' || 'a' <= c <= 'f'
  }

  /** What `hexdigest()` of SHA-256 returns: 64 lower-case hexadecimal characters. */
  predicate IsDigest(s: string) {
    |s| == 64 && forall i :: 0 <= i < |s| ==> IsHexDigit(s[i])
  }

  type Digest = s: string | IsDigest(s)
    witness seq(64, _ => '0')

  /** A price as `float()` parsed it; it is only stored and shown again, never computed with. */
  datatype Price = Price(repr: string)

  /** The four fields of a `product:<id>` hash. */
  datatype Product = Product(name: string, category: string, price: Price, quantity: int)

  /** One line of the inventory listing. */
  datatype Row = Row(id: string, product: Product)

  /** The message each operation ends with. */
  datatype Registration = UsernameTaken | Registered
  datatype LoginReply = UsernameNotFound | IncorrectPassword | Welcome(user: string)
  datatype AddReply = InvalidInput | Added(id: string)
  datatype Inventory = NoProducts | Listing(rows: seq<Row>)
  datatype StockReply = ProductIdNotFound | InvalidNumber | NotEnoughStock | StockUpdated(newQuantity: int)
  datatype DeleteReply = ProductDeleted | ProductNotFound

  /**
   * DBSIZE: the number of keys in the database, which holds nothing but this program's keys.
   * Redis removes a hash or a set once it is empty, so "users" and "all_products" count only
   * while they have members; every product hash has its four fields and always counts.
   */
  function DbSize(users: map<string, string>, products: map<string, Product>, allProducts: set<string>): (n: nat)
    ensures |products| <= n <= |products| + 2
    ensures n == 0 <==> users == map[] && products == map[] && allProducts == {}
  {
    |products| + (if users != map[] then 1 else 0) + (if allProducts != {} then 1 else 0)
  }

  /** `str(int(dbsize) + 1)`: the ID the next product gets, which `int()` reads back as dbsize + 1. */
  function NewProductId(dbsize: nat): (id: string)
    ensures ParseInt(id) == Some(dbsize + 1)
  {
    IntRoundTrip(dbsize + 1);
    DecimalString(dbsize + 1)
  }

  /** Two different database sizes never give the same ID; equal sizes always do. */
  lemma NewProductIdInjective(m: nat, n: nat)
    ensures NewProductId(m) == NewProductId(n) <==> m == n
  {
    if m != n {
      DecimalStringInjective(m + 1, n + 1);
    }
  }

  predicate RowsAscending(rows: seq<Row>) {
    forall i, j :: 0 <= i < j < |rows| ==> Less(rows[i].id, rows[j].id)
  }

  predicate Lists(rows: seq<Row>, id: string) {
    exists k :: 0 <= k < |rows| && rows[k].id == id
  }

  /** The rows the listing loop prints for `ids`, in that order: those IDs that still have a record. */
  function Present(ids: seq<string>, products: map<string, Product>): (rows: seq<Row>)
    ensures forall k :: 0 <= k < |rows| ==>
      rows[k].id in ids && rows[k].id in products && rows[k].product == products[rows[k].id]
  {
    if ids == [] then []
    else
      var last := ids[|ids| - 1];
      var before := Present(ids[..|ids| - 1], products);
      if last in products then before + [Row(last, products[last])] else before
  }

  /** Every ID of `ids` that has a record gets a row. */
  lemma {:induction false} PresentListsAll(ids: seq<string>, products: map<string, Product>)
    ensures forall id :: id in ids && id in products ==> Lists(Present(ids, products), id)
  {
    if ids != [] {
      var prefix := ids[..|ids| - 1];
      var last := ids[|ids| - 1];
      PresentListsAll(prefix, products);
      var before := Present(prefix, products);
      var rows := Present(ids, products);
      assert ids == prefix + [last];
      forall id | id in ids && id in products
        ensures Lists(rows, id)
      {
        if id == last {
          assert rows[|before|].id == last;
        } else {
          assert id in prefix;
          var k :| 0 <= k < |before| && before[k].id == id;
          assert rows[k] == before[k];
        }
      }
    }
  }

  /** IDs taken in ascending order stay in ascending order once orphans are skipped. */
  lemma {:induction false} PresentAscending(ids: seq<string>, products: map<string, Product>)
    requires Ascending(ids)
    ensures RowsAscending(Present(ids, products))
  {
    if ids != [] {
      var prefix := ids[..|ids| - 1];
      var last := ids[|ids| - 1];
      PresentAscending(prefix, products);
      var before := Present(prefix, products);
      forall k | 0 <= k < |before|
        ensures Less(before[k].id, last)
      {
        var j :| 0 <= j < |prefix| && prefix[j] == before[k].id;
        assert ids[j] == prefix[j];
      }
    }
  }

  /**
   * The Redis database the program talks to. Each method is one menu operation, with the
   * lines the operator types passed in as arguments.
   */
  class Store {
    /** The "users" hash: username to password digest. */
    var users: map<string, string>
    /** The `product:<id>` hashes, by ID. */
    var products: map<string, Product>
    /** The "all_products" set of product IDs. */
    var allProducts: set<string>
    /** SHA-256 hex digest of the UTF-8 encoding of a password. */
    const digest: string -> Digest
    /** `float()` on the typed price line; `None` where it raises ValueError. */
    const parseFloat: string -> Option<Price>

    /**
     * The index set names exactly the products that have a record, and every stored
     * password is a digest.
     */
    ghost predicate Valid()
      reads this
    {
      && allProducts == products.Keys
      && forall u :: u in users ==> IsDigest(users[u])
    }

    /** Connects to a database holding the given keys. */
    constructor (users: map<string, string>, products: map<string, Product>, allProducts: set<string>,
                 digest: string -> Digest, parseFloat: string -> Option<Price>)
      ensures this.users == users && this.products == products && this.allProducts == allProducts
      ensures this.digest == digest && this.parseFloat == parseFloat
    {
      this.users := users;
      this.products := products;
      this.allProducts := allProducts;
      this.digest := digest;
      this.parseFloat := parseFloat;
    }

    /** hash_password: a fixed-length hex digest; equal passwords give equal digests. */
    function HashPassword(password: string): (h: string)
      ensures IsDigest(h)
    {
      digest(password)
    }

    /**
     * register_user. A taken username is refused before the password is asked for and
     * nothing changes; otherwise the digest of the password is stored under the username.
     * The Python function returns False either way, so registering never logs anyone in.
     */
    method RegisterUser(username: string, password: string) returns (r: Registration)
      modifies this
      ensures r == UsernameTaken <==> old(username in users)
      ensures r == UsernameTaken ==> unchanged(this)
      ensures r == Registered ==>
        && users == old(users)[username := HashPassword(password)]
        && products == old(products) && allProducts == old(allProducts)
      ensures old(Valid()) ==> Valid()
    {
      if username in users {
        return UsernameTaken;
      }
      var pwdHash := HashPassword(password);
      users := users[username := pwdHash];
      r := Registered;
    }

    /**
     * login_user: the session is the username exactly when the stored digest equals the
     * digest of the password. A missing (or empty) stored digest reads as an unknown user.
     */
    method LoginUser(username: string, password: string) returns (r: LoginReply)
      ensures r.Welcome? <==> username in users && users[username] == HashPassword(password)
      ensures r.Welcome? ==> r.user == username
      ensures r == UsernameNotFound <==> username !in users || users[username] == ""
      ensures Valid() ==> (r == UsernameNotFound <==> username !in users)
    {
      var storedHash := if username in users then Some(users[username]) else None;
      if storedHash.None? || storedHash.value == "" {
        return UsernameNotFound;
      }
      var inputHash := HashPassword(password);
      if inputHash == storedHash.value {
        r := Welcome(username);
      } else {
        r := IncorrectPassword;
      }
    }

    /**
     * add_product. An unparsable price or quantity changes nothing. Otherwise the ID is one
     * more than the number of keys, written in decimal; the record under that ID is set to
     * the four given fields (replacing a live product that already has the ID) and the ID
     * joins the index set. A negative quantity is accepted.
     */
    method AddProduct(name: string, category: string, priceText: string, quantityText: string)
      returns (r: AddReply)
      modifies this
      ensures r == InvalidInput <==> parseFloat(priceText).None? || ParseInt(quantityText).None?
      ensures r == InvalidInput ==> unchanged(this)
      ensures r.Added? ==>
        && r.id == NewProductId(old(DbSize(users, products, allProducts)))
        && products == old(products)[r.id := Product(name, category, parseFloat(priceText).value,
                                                     ParseInt(quantityText).value)]
        && allProducts == old(allProducts) + {r.id}
        && users == old(users)
      ensures old(Valid()) ==> Valid()
    {
      var price := parseFloat(priceText);
      if price.None? {
        return InvalidInput;
      }
      var qty := ParseInt(quantityText);
      if qty.None? {
        return InvalidInput;
      }
      var productId := NewProductId(DbSize(users, products, allProducts));
      products := products[productId := Product(name, category, price.value, qty.value)];
      allProducts := allProducts + {productId};
      r := Added(productId);
    }

    /**
     * view_inventory: read-only. An empty index set gives the "no products" message;
     * otherwise one row per indexed ID that still has a record, with that record, in
     * ascending string order of the IDs. Indexed IDs without a record are skipped.
     */
    method ViewInventory() returns (r: Inventory)
      ensures r == NoProducts <==> allProducts == {}
      ensures r.Listing? ==>
        && RowsAscending(r.rows)
        && (forall k :: 0 <= k < |r.rows| ==>
              r.rows[k].id in products && r.rows[k].product == products[r.rows[k].id])
        && (forall id :: Lists(r.rows, id) <==> id in allProducts && id in products)
    {
      if allProducts == {} {
        return NoProducts;
      }
      var ids := Sorted(allProducts);
      var rows: seq<Row> := [];
      for i := 0 to |ids|
        invariant rows == Present(ids[..i], products)
      {
        var pid := ids[i];
        assert ids[..i + 1][..i] == ids[..i];
        if pid in products {
          rows := rows + [Row(pid, products[pid])];
        }
      }
      assert ids[..|ids|] == ids;
      PresentAscending(ids, products);
      PresentListsAll(ids, products);
      r := Listing(rows);
    }

    /**
     * update_stock. Nothing changes when the ID has no record, when the amount does not parse,
     * or when the stock would go below zero. Otherwise the quantity becomes exactly the old
     * quantity plus the amount, and nothing else changes.
     */
    method UpdateStock(pid: string, amountText: string) returns (r: StockReply)
      modifies this
      ensures r == ProductIdNotFound <==> old(pid !in products)
      ensures r == InvalidNumber <==> old(pid in products) && ParseInt(amountText).None?
      ensures r == NotEnoughStock <==>
        old(pid in products) && ParseInt(amountText).Some? &&
        old(products[pid].quantity) + ParseInt(amountText).value < 0
      ensures !r.StockUpdated? ==> unchanged(this)
      ensures r.StockUpdated? ==>
        && r.newQuantity >= 0
        && r.newQuantity == old(products[pid].quantity) + ParseInt(amountText).value
        && products == old(products)[pid := old(products[pid]).(quantity := r.newQuantity)]
        && allProducts == old(allProducts) && users == old(users)
      ensures old(Valid()) ==> Valid()
    {
      if pid !in products {
        return ProductIdNotFound;
      }
      var amount := ParseInt(amountText);
      if amount.None? {
        return InvalidNumber;
      }
      // Redis hands the quantity back as the text it stored.
      var stored := IntToString(products[pid].quantity);
      IntRoundTrip(products[pid].quantity);
      var currentQty := ParseInt(stored).value;
      var newQty := currentQty + amount.value;
      if newQty < 0 {
        return NotEnoughStock;
      }
      products := products[pid := products[pid].(quantity := newQty)];
      r := StockUpdated(newQty);
    }

    /**
     * delete_product. DEL removes the record if there is one; only when it removed something
     * is the ID taken out of the index set. Otherwise nothing changes.
     */
    method DeleteProduct(pid: string) returns (r: DeleteReply)
      modifies this
      ensures r == ProductDeleted <==> old(pid in products)
      ensures r == ProductDeleted ==>
        && products == old(products) - {pid}
        && allProducts == old(allProducts) - {pid}
        && users == old(users)
      ensures r == ProductNotFound ==> unchanged(this)
      ensures old(Valid()) ==> Valid()
    {
      var removed := if pid in products then 1 else 0;
      products := products - {pid};
      if removed != 0 {
        allProducts := allProducts - {pid};
        r := ProductDeleted;
      } else {
        assert products == old(products);
        r := ProductNotFound;
      }
    }
  }
}
