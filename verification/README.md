# Redis inventory and login CLI, modelled in Dafny

`main.py` is a console program. An operator registers or logs in against a `users`
hash in Redis. After logging in, they add, list, restock and delete products. Each
product is a `product:<id>` hash, and the IDs are also collected in an
`all_products` set.

This project models the functions behind the menus: `hash_password`,
`register_user`, `login_user`, `add_product`, `view_inventory`, `update_stock` and
`delete_product`. Each is a method of the class `Shop.Store`, whose fields are the
three parts of the database the program uses:

- `users`: the `users` hash, mapping a username to a password digest.
- `products`: the `product:<id>` hashes, keyed by ID.
- `allProducts`: the `all_products` set.

Each method takes the lines the operator would type at the `input()` prompts. It
returns the outcome the program reports, for example `UsernameTaken` or
`StockUpdated(7)`.

Python's own conversions are modelled where the program depends on them:

- `IntText` models `int()` on a typed line of ASCII text (surrounding whitespace, a
  sign, and `_` between digits) and `str()` of an integer. `IntText.IntRoundTrip`
  shows that `int()` reads back what `str()` writes. The converse does not hold:
  `int()` also accepts lines such as `"007"`, `" 5"`, `"+5"` and `"1_0"`, which
  `str()` never writes.
- `float()` is not modelled; it is a function supplied to the store (see "Left out").
- `StringOrder` models the code-point order that `sorted()` uses on the ID strings.
  `StringOrder.Sorted` is a method that yields the set in that order.
- `Shop.DbSize` models DBSIZE. Redis drops an empty hash or set, so `users` and
  `all_products` each count as one key only while they have members.

`Scenarios` strings whole sessions together and proves what the operator sees at
each step.

The module `Shop` keeps one ghost invariant, `Store.Valid()`:

- `all_products` names exactly the products that have a record;
- every stored password is a 64-character hex digest.

Every mutating method ensures `old(Valid()) ==> Valid()`.

### Behaviour of main.py worth knowing

The model keeps each of these behaviours as `main.py` has it:

- **The first ID.** IDs are `str(DBSIZE + 1)`, and `users` is already a key once
  someone has registered, which is the only way to reach the menu. So in a fresh
  database the first product gets `"2"` and the second gets `"4"`, not `"1"` and
  `"2"` (`Scenarios.FirstIds`).
- **IDs are not unique.** After a delete, DBSIZE can return to an earlier value.
  `add_product` then reuses a live ID and overwrites that product
  (`Scenarios.IdReuseAfterDelete`). No uniqueness is claimed. What is proved is
  that the ID is injective in the key count (`Shop.NewProductIdInjective`).
- **No sign check on input.** `add_product` accepts any price `float()` takes and
  any quantity `int()` takes, including negative ones. Only `update_stock` refuses
  a result below zero.
- **Empty stored digest.** `login_user` tests `not stored_hash`, so an empty stored
  digest also reads as an unknown user. Under `Valid()` this cannot happen.
- **Listing order.** The listing sorts IDs as strings, so `"10"` comes before `"2"`
  (`StringOrder.IdsSortAsStrings`). The model keeps that order.

## Model

| member | source | states |
|---|---|---|
| Shop.Store.constructor | main.py:6-8 | the connection starts on the keys already in the database, with the digest and `float()` the program uses |
| Shop.Store.HashPassword | main.py:16-18 | the digest of a password is 64 lower-case hexadecimal characters |
| Shop.Store.RegisterUser | main.py:20-35 | refused exactly when the username is already in `users`, and then nothing changes; otherwise `users` gains `username ↦ hash(password)` and nothing else changes; the reply is never a session; `Valid` is preserved |
| Shop.Store.LoginUser | main.py:37-56 | read-only; the session is the username exactly when the stored digest equals the password's digest; "not found" exactly when there is no (or an empty) stored digest, and under `Valid` exactly when the user is absent |
| Shop.DbSize | main.py:73 | the key count lies between the number of products and that number plus two, and is zero exactly when the database is empty |
| Shop.NewProductId | main.py:73 | `int()` reads the new ID back as DBSIZE + 1 |
| Shop.NewProductIdInjective | main.py:73 | two key counts give the same ID if and only if they are equal |
| Shop.Store.AddProduct | main.py:60-82 | "invalid input" exactly when price or quantity does not parse, and then nothing changes; otherwise the ID is `str(DBSIZE + 1)`, its record becomes exactly the four fields (overwriting any record with that ID), the ID joins `all_products`, and `users` is untouched; `Valid` is preserved |
| Shop.Store.ViewInventory | main.py:84-99 | read-only; "no products" exactly when `all_products` is empty; otherwise the rows are in ascending string order, each shows its ID's current record, and an ID is listed exactly when it is in `all_products` and has a record (orphans skipped) |
| StringOrder.Sorted | main.py:95 | `sorted()` on the ID set: the result is strictly ascending, holds exactly the set's members, and has the same length |
| StringOrder.LeastExists | main.py:95 | every non-empty set of strings has a least element under the comparison `sorted()` uses |
| StringOrder.LessTransitive | main.py:95 | that comparison is transitive |
| StringOrder.LessTotal | main.py:95 | any two different strings are comparable |
| StringOrder.LessIrreflexive | main.py:95 | no string is less than itself |
| StringOrder.IdsSortAsStrings | main.py:95 | ID `"1"` sorts before `"10"`, and `"10"` sorts before `"2"` |
| Shop.PresentAscending | main.py:95-99 | skipping orphan IDs keeps the rows of an ascending ID sequence ascending |
| Shop.PresentListsAll | main.py:95-99 | every ID in the sequence that has a record gets a row |
| Shop.Store.UpdateStock | main.py:101-121 | "not found" exactly when the ID has no record; "invalid number" exactly when the amount does not parse; "not enough stock" exactly when old quantity + amount < 0; in all three nothing changes; otherwise the new quantity is exactly old + amount, is at least 0, and is the only change |
| Shop.Store.DeleteProduct | main.py:123-131 | succeeds exactly when the ID has a record; then the ID leaves both `products` and `all_products` and nothing else changes; otherwise nothing changes |
| IntText.Strip | main.py:110 | the whitespace `int()` strips (space, tab, line feed, vertical tab, form feed, carriage return) is gone from both ends of the result |
| IntText.ParseSignedGroup | main.py:110 | `int()` accepts a `+` or `-` followed by digits with single `_` between digits, and gives their value with that sign |
| IntText.ParseUnsignedGroup | main.py:66 | `int()` accepts digits with single `_` between digits, and gives their value |
| IntText.ParseIntShape | main.py:64-69 | what `int()` refuses: a blank line, and any line that does not end (once stripped) in a digit; a negative result comes only from a leading `-` |
| IntText.SeparatorNotStripped | main.py:66 | a line starting with one of the separators U+001C..U+001F is refused, though `str.isspace` counts them as whitespace |
| IntText.DecimalString | main.py:73 | `str(n)` for n ≥ 0: a non-empty string of decimal digits, starting with `0` only for zero |
| IntText.IntToString | main.py:118 | `str(i)`, the text Redis stores for a quantity (also used for IDs at main.py:73): non-empty, starting with `-` exactly when i is negative |
| StringOrder.Less | main.py:95 | Python's `<` on strings, which `sorted()` uses (code point by code point): a proper prefix sorts before the longer string, and a string is never less than itself |
| IntText.IntRoundTrip | main.py:66 | `int(str(i)) == i` for every integer, which is how a stored quantity is read back (main.py:111) |
| IntText.DecimalStringInjective | main.py:73 | different naturals have different decimal strings |
| IntText.ParseIntIgnoresLeadingSpace | main.py:66 | `int()` gives the same result with a whitespace character in front of the line |
| IntText.ParseIntIgnoresTrailingSpace | main.py:110 | `int()` gives the same result with a whitespace character after the line |
| IntText.DecimalStringValue | main.py:73 | the decimal digits of a natural read back as that natural |
| Scenarios.QuantityLine | main.py:66 | `int("10")` is 10 |
| Scenarios.SaleLines | main.py:110 | `int("-3")` is -3 and `int("-100")` is -100 |
| Scenarios.FirstProduct | main.py:73-81 | with one user and no products, the product gets ID `"2"` |
| Scenarios.SecondProduct | main.py:73-81 | with one user and one indexed product, the product gets ID `"4"` and that record is set |
| Scenarios.FirstIds | main.py:20-82 | register, then add twice in a fresh database: IDs `"2"` and `"4"` |
| Scenarios.SellThenOversell | main.py:105-121 | from 10 in stock, selling 3 gives 7; then selling 100 is refused and 7 remain |
| Scenarios.DeleteTwice | main.py:123-131 | deleting the only product succeeds, a second delete of it reports "not found", and the listing is empty afterwards |
| Scenarios.DeleteOlder | main.py:127-128 | with `"2"` and `"4"` on file, deleting `"2"` leaves only `"4"` |
| Scenarios.IdReuseAfterDelete | main.py:73-81 | after that delete, the next product is handed ID `"4"` again and replaces the live product |
| Scenarios.RegisterThenLogin | main.py:20-56 | a new user is registered; a second registration is refused and keeps the first digest; login with the password succeeds; login with a password of another digest is refused; an unknown name is "not found" |

## Left out

- The Redis connection (`ping`, the connection-failure exit) and every store error after start-up are not modelled. The database is the state of `Store`, and each call succeeds.
- The menus, prompts, `print` and column formatting are not modelled. Each method takes the typed lines as arguments, and its reply stands for the message printed.
- SHA-256 is not modelled. `Store.digest` stands for `hashlib.sha256(...).hexdigest()`, supplied from outside, and the model knows only that it returns 64 hex characters.
- `float()` is not modelled. `Store.parseFloat` stands for it, and `Price` holds the value as text that is only stored and shown.
- IntText.ParseInt: covers `int()` on ASCII text only. Unicode digits and Unicode whitespace (which `int()` also strips) are not modelled, nor is the limit of 4300 digits that Python puts on converting between integers and decimal text in either direction.
- Shop.Store.UpdateStock: the 4300-digit limit also applies to `str()`. When the new quantity has more than 4300 digits, writing it back raises ValueError inside the `try` of main.py:109-121. Python then prints "Invalid number." and changes nothing, while the model returns `StockUpdated`.
- Redis writes each field as text. The model stores the parsed values, and reading back a quantity goes through `str()`/`int()` (`IntText.IntRoundTrip`).
- Non-atomic steps: the model applies `hset` with `sadd`, and `delete` with `srem`, together. A crash between the two steps is not modelled, so neither is the orphan state it would leave. The listing still skips orphans, since a database the program connects to may already hold them.
- Shop.DbSize: assumes the database holds only this program's keys. Foreign keys would also raise the count.
- Concurrent clients are not modelled. The program is single-process, and IDs are not safe under concurrent writers in any case.
