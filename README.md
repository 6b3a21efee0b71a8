# Cart and checkout of a small storefront, in Dafny

This project models the two parts of a Flask storefront that hold real logic.

**The cart API.** `POST /api/cart` changes the single process-wide cart. The
cart is a table of lines. Each line has a store-assigned id, a product id and
a quantity. A request names a product and an action:

- `add` is the default when no action is given. It raises the quantity of the
  product's line by one, or appends a new line with quantity 1.
- `remove` lowers the quantity by one. A line whose quantity is 1 or less is
  deleted instead.
- `set` needs a `quantity` key. It replaces the quantity when the new value is
  positive, and deletes the line otherwise. A product without a line is left
  alone.
- Any other action changes nothing.

**The checkout page.** `/checkout` sends an empty cart back to the cart page
before it looks at the form. Otherwise it validates the submitted form. The
form's own `validate` step runs after the library's field validators. When the
payment method is `credit`, it requires the four card fields, in order. It then
requires 13 to 19 digits in the card number and a passing Luhn check (ISO/IEC
7812-1, Annex B). Each failure appends one error to one field.

Files:

- `wrappers.dfy` holds `Option`.
- `luhn.dfy` holds the Luhn reference sum and the reverse-then-accumulate loop
  of the form, proved equal. It also proves single-digit error detection and
  the test numbers.
- `checkout_form.dfy` holds `CheckoutForm.validate` as a method that returns
  the verdict and the one error it appended. It also holds the digit
  extraction and its properties.
- `cart_service.dfy` holds three things:
  - pure functions `Added`, `Removed`, `QuantitySet` and `Applied` on a
    `CartState` value, with lemmas about what each does and the invariant
    each keeps;
  - the class `Cart`, whose methods change its `lines` in place and are proved
    to match those functions;
  - the `Checkout` gate.

The lemmas about `remove` and `set` assume the cart invariant: one line per
product and every quantity at least 1. The empty cart satisfies it, and every
request keeps it (`AppliedKeepsInv`), so every cart the handler sees has it.

Three points of the code's behaviour that are easy to misread:

- The payment method that needs card data is the literal `credit`
  (models/ecommerce/forms.py:23, 51).
- `add` does not check that the product exists (app.py:209-216). The model
  takes the product id as a plain integer and saves the line. What happens
  afterwards to a line for a missing product, and the requests the store
  rejects for out-of-range integers, are listed under "Left out".
- A `set` with a positive quantity on a product without a line does nothing
  (app.py:228-233).

## Model

| member | source | states |
|---|---|---|
| `CartService.Find` | app.py:211 | the result is the index of the first line holding the product, and it is absent exactly when no line holds it |
| `CartService.Added` | app.py:209-216 | the `add` action on a cart value: the lines of every other product stay exactly as they were, in order, and the id counter never goes back |
| `CartService.Removed` | app.py:217-224 | the `remove` action on a cart value: the lines of every other product stay exactly as they were, in order, no line is added and the id counter is unchanged |
| `CartService.QuantitySet` | app.py:225-233 | the `set` action with a quantity on a cart value: the lines of every other product stay exactly as they were, in order, no line is added and the id counter is unchanged |
| `CartService.Applied` | app.py:204-233 | one posted request, with the action defaulting to `add` and `set` needing a `quantity` key: whatever the action, only the lines of the named product can change |
| `CartService.AddedEffect` | app.py:209-216 | `add` raises the product's quantity by exactly 1 and changes no other product. Without a line, exactly one line (next id, quantity 1) is appended after the unchanged lines. With a line, only that line's quantity changes, and its id and place stay |
| `CartService.AddedTimesEffect` | app.py:211-213 | `n` successive `add` requests raise the product's quantity by exactly `n` |
| `CartService.AddedTimesFromAbsent` | app.py:211-216 | starting with no line for the product, `n` `add` requests leave quantity `n` |
| `CartService.RemovedEffect` | app.py:217-224 | `remove` lowers a quantity above 1 by exactly 1, in place: the line keeps its id and its place, and every other line stays as it was. It deletes a line at quantity 1, leaving no line for the product. It changes nothing when the product has no line, and changes no other product |
| `CartService.QuantitySetEffect` | app.py:225-233 | `set q` on an existing line makes its quantity exactly `q` when `q > 0`, in place: the line keeps its id and its place, and every other line stays as it was. It deletes the line when `q <= 0`. It leaves the cart unchanged when the product has no line, and changes no other product |
| `CartService.OtherRequestsChangeNothing` | app.py:207-233 | an action other than `add`/`remove`/`set`, or a `set` without a `quantity` key, leaves the cart unchanged |
| `CartService.AddedKeepsInv` | app.py:209-216 | `add` keeps the invariant: one line per product, quantities at least 1, ids ascending and below the next id |
| `CartService.RemovedKeepsInv` | app.py:217-224 | `remove` keeps the invariant |
| `CartService.QuantitySetKeepsInv` | app.py:225-233 | `set` keeps the invariant |
| `CartService.AppliedKeepsInv` | app.py:204-235 | every request, whatever its action, keeps the invariant |
| `CartService.AddThenRemove` | app.py:209-224 | `add p` followed by `remove p` gives back the original lines, whether or not `p` had a line |
| `CartService.Cart.constructor` | models/ecommerce/models.py:29-32 | a new cart is empty, satisfies the invariant, and numbers rows from 1 |
| `CartService.Cart.Add` | app.py:209-216 | updates the lines in place to exactly `Added` of the old state and keeps the invariant |
| `CartService.Cart.Remove` | app.py:217-224 | updates the lines in place to exactly `Removed` of the old state and keeps the invariant |
| `CartService.Cart.Set` | app.py:225-233 | updates the lines in place to exactly `QuantitySet` of the old state and keeps the invariant |
| `CartService.Cart.Apply` | app.py:204-235 | the request handler: its new state is `Applied` of the old state, and it keeps the invariant |
| `CartService.Cart.Checkout` | app.py:155-170 | redirects to the cart exactly when the cart is empty, so validation never runs then. Places the order exactly when the cart is non-empty, the form is submitted and validation accepts it. Any error shown comes from a failed submitted validation. For a submitted `credit` form with a non-empty cart, the page shows exactly the error validation appended: the first blank card field's message, otherwise the length error, otherwise the checksum error. A failed library validation shows the form with no custom error. It changes nothing, because it has no `modifies` clause |
| `CheckoutForm.CardEntries` | models/ecommerce/forms.py:52-57 | the four card fields in the order they are checked, each once, each paired with its own data, the card number first. Their four messages differ from each other and from the two card number messages |
| `CheckoutForm.IsSpace` | models/ecommerce/forms.py:60 | the ASCII whitespace that stripping removes. None of it is a digit |
| `CheckoutForm.TrimStart` | models/ecommerce/forms.py:60 | the input with its leading whitespace removed: a suffix of the input that is empty exactly when the input is all whitespace, and otherwise starts with a non-whitespace character |
| `CheckoutForm.TrimEnd` | models/ecommerce/forms.py:60 | the input with its trailing whitespace removed: a prefix of the input that is empty exactly when the input is all whitespace, and otherwise ends with a non-whitespace character |
| `CheckoutForm.Strip` | models/ecommerce/forms.py:60 | whitespace stripped from both ends: nothing is left exactly when the input is all whitespace, and what is left neither starts nor ends with whitespace |
| `CheckoutForm.TrimStartRemovesOnlySpace` | models/ecommerce/forms.py:60 | every character `TrimStart` removes from the front is whitespace |
| `CheckoutForm.TrimEndRemovesOnlySpace` | models/ecommerce/forms.py:60 | every character `TrimEnd` removes from the back is whitespace |
| `CheckoutForm.StripRemovesOnlyEndSpace` | models/ecommerce/forms.py:60 | what stripping keeps is one contiguous stretch of the input, and everything removed before and after it is whitespace |
| `CheckoutForm.BlankIsStrippedEmpty` | models/ecommerce/forms.py:60 | the form's test for a missing field (no data, or empty data, or nothing left after stripping) holds exactly when `IsBlank` does: the field has no data or holds nothing but whitespace |
| `CheckoutForm.FirstBlank` | models/ecommerce/forms.py:59-62 | the index of the first card field that has no data or only whitespace, and none exactly when all four have content |
| `CheckoutForm.Digits` | models/ecommerce/forms.py:66 | the extracted values are all digits 0..9 and never more than the characters of the input |
| `CheckoutForm.DigitsAppend` | models/ecommerce/forms.py:66 | extraction keeps the original order: the digits of `s + t` are those of `s` then those of `t` |
| `CheckoutForm.DigitsIgnoreSeparator` | models/ecommerce/forms.py:66 | inserting a non-digit character anywhere does not change the extracted digits |
| `CheckoutForm.DigitsOfDigitString` | models/ecommerce/forms.py:66 | a string of digit characters keeps every one, each with its own value |
| `CheckoutForm.Validate` | models/ecommerce/forms.py:45-89 | the result is true exactly when the form is accepted. A failed base validation returns false and looks at no card field. A payment method other than `credit` passes even with blank card fields. For `credit`, the first blank card field (number, expiry, CVV, name) gets exactly one error. Otherwise a digit count outside [13, 19] gets the length error on the card number, before any checksum. Otherwise a failed Luhn check gets the checksum error on the card number. Success appends no error |
| `CheckoutForm.SeparatorKeepsVerdict` | models/ecommerce/forms.py:64-83 | a non-digit separator in the card number changes neither the length verdict nor the Luhn verdict |
| `CheckoutForm.TwelveDigitsRejected` | models/ecommerce/forms.py:67-69 | a card number with 12 digits is rejected, whatever its checksum |
| `CheckoutForm.TestCardNumberAccepted` | models/ecommerce/forms.py:64-83 | `4532015112830366` is accepted |
| `CheckoutForm.TestCardNumberOffByOneRejected` | models/ecommerce/forms.py:64-83 | `4532015112830367` is rejected |
| `CheckoutForm.TestCardNumberGroupedAccepted` | models/ecommerce/forms.py:64-83 | `4532 0151 1283 0366` is accepted |
| `Luhn.DoubleDigit` | models/ecommerce/forms.py:75-78 | for a digit, the doubled-and-reduced value stays in 0..9 and equals the sum of the decimal digits of its double |
| `Luhn.ReversedSumShift` | models/ecommerce/forms.py:74-75 | only the parity of the enumeration index decides which digits are doubled |
| `Luhn.ReversedSumIsLuhnSum` | models/ecommerce/forms.py:72-79 | summing the reversed digits and doubling those at odd indices gives the Luhn total of the number, which counts pairs from the right |
| `Luhn.Reverse` | models/ecommerce/forms.py:73 | reverses the array in place |
| `Luhn.LuhnChecksum` | models/ecommerce/forms.py:72-79 | the copy, reverse-in-place and accumulate loop returns exactly the Luhn total of the digits |
| `Luhn.LuhnSumUpdate` | models/ecommerce/forms.py:74-79 | changing one digit changes the total by exactly the difference of the two digits' weights at that position |
| `Luhn.WeightInjective` | models/ecommerce/forms.py:75-78 | two different digits never weigh the same at the same position |
| `Luhn.SingleDigitErrorDetected` | models/ecommerce/forms.py:64-83 | changing any single digit of an accepted number to another digit makes it rejected |
| `Luhn.TestNumbers` | models/ecommerce/forms.py:72-83 | the digits 4532015112830366 pass the Luhn check and 4532015112830367 fail it |

## Left out

- Flask routing, templates, JSON output, `flash`, `redirect` and CSRF are left
  out. `Checkout` returns which page the handler answers with.
- The database session, `commit` and `rollback` are left out, and so is
  foreign-key enforcement. The cart is an in-memory sequence. Each request is
  one atomic step of the class.
- Store-assigned ids are a counter that starts at 1 and only grows. SQLite
  can hand out the largest id again after that row is deleted. The model
  keeps ids ascending in table order, which is the order the full query
  returns.
- The order summary (subtotal, 10% tax, total, app.py:176-178) and
  `to_dict`'s `total_price` are left out. They are floating-point arithmetic.
- The listing `GET /api/cart` (app.py:238-249) and `get_products` are left
  out. In the model, the cart's `lines` field is the listing, in order.
- A line for a product that does not exist is left out of the responses.
  `add` commits such a line, because it never checks the product
  (app.py:209-216) and SQLite does not enforce foreign keys by default. The
  listing then reads the line's product (app.py:244-247) and fails with a
  server error, on that request and on every later `GET /api/cart`, until
  the line is removed. The `/checkout` page's totals also read the product
  (app.py:176), so showing the form for that cart fails too. The model
  returns `ShowForm` there and does not capture the failure.
- The library's declarative validators (`DataRequired`, `Length`, `Email`,
  `Optional`) are the single input `baseValid`. That input is independent
  of the card fields, so the model also admits forms the library would
  already reject. For example, its `Length(min=13, max=19)` on the raw card
  number (models/ecommerce/forms.py:29-31) means the "more than 19 digits"
  error of forms.py:67 cannot arise in the program. The `submitted` flag stands
  for whether the request was a form submission.
- Only ASCII text is modelled. With ASCII digits, `int(d)` cannot raise, so
  the `except (ValueError, IndexError)` branch (forms.py:85-87) cannot be
  reached and is not modelled. The same goes for the non-ASCII characters
  that `isdigit()` accepts and the non-ASCII whitespace that `strip()`
  removes.
- Request preconditions are assumed, not modelled:
  - a missing `product_id` (app.py:206);
  - a `quantity` that `int()` cannot convert (app.py:227);
  - an `action` key sent as JSON `null`.
  A request carries the product id as an integer and the quantity as the
  integer already converted.
- Integer width is left out. Quantities and product ids are unbounded
  integers in the model. The store keeps them in SQLite `INTEGER` columns
  (models/ecommerce/models.py:31-32), which hold signed 64-bit values, and
  the database driver refuses a value outside that range. Such a request
  fails with a server error and leaves the cart unchanged, where the model
  computes a new state. This covers three cases:
  - a `set` to 2^63 or more (app.py:231);
  - an `add` on a line whose quantity is already 2^63 - 1 (app.py:213);
  - any `product_id` outside the range (the queries at app.py:211, 219
    and 228).
- Sharing the one global cart between concurrent requests is left out. It is
  a concurrency concern.
