# PDV Adegas — business rules of the point-of-sale pages

PDV Adegas is a point-of-sale front end for a wine and spirits shop. Nearly
all of it is page layout. This project models, in Dafny, the four pages that
carry rules of their own:

- **Login** (`login.dfy`):
  - the CPF mask applied on every keystroke;
  - the CPF check-digit validation, written as the two accumulation loops of
    the page and proved equal to a functional definition;
  - the accept/reject decision of the login form.
  - (A CPF is the Brazilian taxpayer number.)
- **Orders** (`orders.dfy`):
  - the cart as a class whose `cart` field is replaced by add, change
    quantity and remove;
  - the item and price totals;
  - the empty-cart guard of checkout;
  - the barcode submit.
- **Payment** (`payment.dfy`):
  - the card-number, expiry and CVV input filters;
  - the cash change;
  - the per-method validation of the confirm button;
  - the processing → complete state machine, as a class.
- **Products** (`products.dfy`):
  - the catalogue as a class;
  - the search filter;
  - adding a product from the form and deleting by id;
  - the stock badge and the inventory figures.

Shared modules:

- `text.dfy`: the `replace(/\D/g, "")` digit filter, ASCII case mapping,
  `includes` and `trim`.
- `wrappers.dfy`: `Option` and `Result`.

The payment page is a small state machine. Confirming runs the validation and,
when it passes, leaves the payment processing until the timer fires and
completes it. The model records in a ghost field whether the last
confirmation passed, and every operation of the page keeps the invariant that
processing and completion only follow an accepted payment.

Money is integer cents: 89.90 is `8990`. A numeric text field is an
`Option<int>`, where `None` means the text is empty or does not parse.

A quantity that drops to zero does not remove the cart line: `updateQuantity`
returns the old line unchanged when `quantity + change <= 0`
(src/pages/Orders.tsx:54). The filter that follows it
(src/pages/Orders.tsx:57) therefore never removes anything, and "−" on a line
holding one unit does nothing. `Orders.KeepPositiveIdentity`
and `Orders.DecrementAtOneKeepsLine` prove this.

Product ids are `length + 1` when a product is added, so they are not unique
in general. `Products.DuplicateIdAfterDelete` proves it: delete product 1 from
a catalogue with ids 1..n, then add a product, and two products have id n.
`Products.SeedsDuplicateId` shows the same for the six starting products.

## Model

| member | source | states |
|---|---|---|
| Text.Digits | src/pages/Login.tsx:17 | the non-digit filter returns only digits and is never longer than its input |
| Text.DigitsIdempotent | src/pages/Login.tsx:28 | filtering digits twice gives the same as filtering once |
| Text.DigitsSeparated | src/pages/Login.tsx:20-22 | a non-digit separator between two strings disappears under the filter |
| Text.ToLower | src/pages/Products.tsx:43-44 | the ASCII model of `toLowerCase` keeps the length, maps each character to its lower case and leaves no upper-case ASCII letter |
| Text.ToUpper | src/pages/Payment.tsx:254 | the ASCII model of `toUpperCase` keeps the length, maps each character to its upper case and leaves no lower-case ASCII letter |
| Text.Contains | src/pages/Products.tsx:43-45 | `includes`: the term occurs somewhere in the text, read from the start; `Text.ContainsAt` proves this is exactly "at some offset" |
| Text.ContainsAt | src/pages/Products.tsx:43-45 | `includes` holds exactly when the term occurs at some offset of the text |
| Text.ContainsEmpty | src/pages/Products.tsx:43-45 | every text includes the empty term |
| Text.TrimStart | src/pages/Payment.tsx:34 | the result is a suffix of the input, what is cut off is all white space, and it does not start with white space |
| Text.TrimEnd | src/pages/Payment.tsx:34 | the result is a prefix of the input, what is cut off is all white space, and it does not end with white space |
| Text.Trim | src/pages/Payment.tsx:34 | `trim` leaves no white space at either end |
| Text.TrimCutsOnlySpace | src/pages/Payment.tsx:34 | `trim` returns a slice of its input, and everything it cuts off on either side is white space |
| Text.TrimUnchanged | src/pages/Payment.tsx:34 | `trim` of a text with no white space at either end returns it unchanged |
| Login.DigitValue | src/pages/Login.tsx:36-49 | `parseInt` of a one-character substring: a digit character gives its value 0..9 |
| Login.AllSame | src/pages/Login.tsx:31 | the `/^(\d)\1{10}$/` test: every character equals the first |
| Login.WeightedSum | src/pages/Login.tsx:36-38 | the weighted digit sum is never negative on digits |
| Login.CheckDigit | src/pages/Login.tsx:39-40 | `(sum * 10) % 11`, with 10 read as 0, is a digit 0..9 |
| Login.CheckDigitStandardRule | src/pages/Login.tsx:39-40 | the check digit is 0 when `sum % 11 < 2` and `11 - sum % 11` otherwise |
| Login.ValidCpfDigits | src/pages/Login.tsx:30-51 | the definition of a valid digit string: all digits, exactly 11 of them, not all the same, and both check digits equal to CheckDigit of the weighted sums |
| Login.ValidCpf | src/pages/Login.tsx:27-52 | a CPF as typed is valid when its digits, after the non-digit filter, are |
| Login.ValidateCpf | src/pages/Login.tsx:27-52 | the two accumulation loops return exactly ValidCpf; anything without exactly 11 digits is refused; 11 identical digits are refused |
| Login.ValidCpfDependsOnDigits | src/pages/Login.tsx:28 | validation depends only on the digits: `ValidCpf(s) == ValidCpf(Digits(s))` |
| Login.RepdigitSum | src/pages/Login.tsx:36-46 | on a run of one digit the weighted sum is that digit times the sum of the weights |
| Login.RepdigitsInvalid | src/pages/Login.tsx:31-49 | each of the ten repeated-digit numbers passes both check-digit tests, and is invalid all the same: the repeated-digit test alone rejects it |
| Login.FirstRun | src/pages/Login.tsx:20-22 | the match of `(\d{3})(\d)` is four consecutive digits, and no match starts earlier; None means no match anywhere |
| Login.InsertAtFirstRun | src/pages/Login.tsx:20-22 | one `replace` without the `g` flag: the separator goes after the first three digits of the leftmost match, and a string without a match is returned unchanged |
| Login.InsertAtFirstRunDigits | src/pages/Login.tsx:20-22 | one replacement inserts a separator only: the digits are unchanged |
| Login.FirstInsertion | src/pages/Login.tsx:20 | on 4 to 11 digits the first replacement puts a dot after the third digit; on at most 6 digits nothing is left to match |
| Login.SecondInsertion | src/pages/Login.tsx:21 | on 7 to 11 digits the second replacement puts a dot after the sixth digit; on at most 9 digits nothing is left to match |
| Login.ThirdInsertion | src/pages/Login.tsx:22 | on 10 or 11 digits the third replacement puts a dash after the ninth digit |
| Login.FormatCpf | src/pages/Login.tsx:16-25 | `formatCPF`: the three replacements on the digits when there are at most 11 of them, the input as typed otherwise |
| Login.FormatCpfIsMask | src/pages/Login.tsx:16-23 | with at most 11 digits, `formatCPF` is the mask `DDD.DDD.DDD-DD`, each separator present only when a digit follows it |
| Login.CpfMaskDigits | src/pages/Login.tsx:17-22 | removing the separators from the mask gives back the digits |
| Login.FormatCpfKeepsDigits | src/pages/Login.tsx:16-23 | with at most 11 digits, the formatted CPF has exactly the input's digits, in order |
| Login.FormatCpfIdempotent | src/pages/Login.tsx:16-25 | re-formatting a formatted CPF changes nothing; input with more than 11 digits is returned as typed |
| Login.FormattedCpfValidatesAlike | src/pages/Login.tsx:54-63 | the formatted CPF kept in the field validates exactly as the text typed |
| Login.FormatNineDigits | src/pages/Login.tsx:16-23 | `123456789` formats as `123.456.789` |
| Login.FormatTenDigits | src/pages/Login.tsx:16-23 | `1234567890` formats as `123.456.789-0` |
| Login.FormatElevenDigits | src/pages/Login.tsx:16-23 | `12345678909` formats as `123.456.789-09` |
| Login.FormatCpfExample | src/pages/Login.tsx:16-23 | on a digit string of at most 11 characters, `formatCPF` gives the mask |
| Login.DemoCpfValid | src/pages/Login.tsx:153 | the example shown on the page, `123.456.789-09`, is valid |
| Login.DemoDigitsValid | src/pages/Login.tsx:27-52 | `12345678909` passes both checks |
| Login.DemoCpfWrongDigit | src/pages/Login.tsx:47-49 | changing the example's last digit to 0, `12345678900`, fails the second check |
| Login.MaskedValid | src/pages/Login.tsx:28 | the mask of a valid digit string is valid |
| Login.FirstCheckSum | src/pages/Login.tsx:36-38 | the first weighted sum of the example is 210 |
| Login.SecondCheckSum | src/pages/Login.tsx:44-46 | the second weighted sum of the example is 255 |
| Login.HandleLogin | src/pages/Login.tsx:59-77 | accepted iff the CPF is valid and the password has at least 6 characters; an invalid CPF is reported before a short password |
| Orders.Find | src/pages/Orders.tsx:35 | `find` succeeds iff a line has the id, and returns a line of the cart with that id |
| Orders.Incremented | src/pages/Orders.tsx:38-42 | the `map` of addToCart adds 1 to lines with the id and leaves every other line as it was |
| Orders.AddedToCart | src/pages/Orders.tsx:34-45 | a product already in the cart gets 1 more unit, with the length and every other line unchanged; a new one is appended with quantity 1; unique ids and positive quantities are kept |
| Orders.Changed | src/pages/Orders.tsx:51-56 | the `map` of updateQuantity sets `q + change` on the line with the id when that is positive, and otherwise keeps the line as it was |
| Orders.KeepPositive | src/pages/Orders.tsx:57 | the filter keeps exactly the lines with a positive quantity |
| Orders.KeepPositiveIdentity | src/pages/Orders.tsx:57 | on a cart whose quantities are all positive the filter removes nothing |
| Orders.UpdatedQuantity | src/pages/Orders.tsx:50-58 | the cart keeps its length; the line with the id takes `q + change` when that is positive and is kept as it was otherwise; an id not in the cart changes nothing; unique ids and positive quantities are kept |
| Orders.DecrementAtOneKeepsLine | src/pages/Orders.tsx:53-57 | "−" on a line holding one unit leaves the cart unchanged |
| Orders.Without | src/pages/Orders.tsx:61 | removal keeps exactly the lines with another id and never lengthens the cart |
| Orders.WithoutAbsent | src/pages/Orders.tsx:61 | removing an id not in the cart changes nothing |
| Orders.WithoutWellFormed | src/pages/Orders.tsx:60-61 | removal keeps ids unique and quantities positive |
| Orders.WithoutAppend | src/pages/Orders.tsx:61 | removal works line by line, so the order of the remaining lines is kept |
| Orders.RemovesExactlyOne | src/pages/Orders.tsx:60-61 | with unique ids, removing the id of line k gives the cart without line k, the rest in order |
| Orders.TotalItems | src/pages/Orders.tsx:65 | the item count is 0 for an empty cart and at least the number of lines when quantities are positive |
| Orders.LineTotal | src/pages/Orders.tsx:66 | one line's share of the total: price × quantity, in cents |
| Orders.TotalPrice | src/pages/Orders.tsx:66 | the total of an empty cart is 0 |
| Orders.TotalPriceNonNegative | src/pages/Orders.tsx:66 | with positive quantities and prices that are not negative, the total is not negative |
| Orders.TotalsAppend | src/pages/Orders.tsx:65-66 | both sums distribute over concatenation |
| Orders.AddToCartTotals | src/pages/Orders.tsx:34-45 | adding a product raises the item count by 1; the total rises by the price stored on the line that receives the unit (the existing line's own price when the id is already in the cart, the product's price otherwise) |
| Orders.IncrementedTotals | src/pages/Orders.tsx:38-42 | incrementing the line with the id raises the item count by 1 and the total by that line's price |
| Orders.RemoveTotals | src/pages/Orders.tsx:60-66 | removing line k lowers the item count by its quantity and the total by its price × quantity |
| Orders.TotalsExample | src/pages/Orders.tsx:26-31 | two red wines at 89.90 and one IPA at 18.50 make 3 items and 198.30 |
| Orders.OrderPage.constructor | src/pages/Orders.tsx:22-23 | the page opens with an empty cart and an empty code field |
| Orders.OrderPage.AddToCart | src/pages/Orders.tsx:34-48 | the new cart is AddedToCart of the old one and stays well formed |
| Orders.OrderPage.UpdateQuantity | src/pages/Orders.tsx:50-58 | the new cart is UpdatedQuantity of the old one, the same length, and stays well formed |
| Orders.OrderPage.RemoveFromCart | src/pages/Orders.tsx:60-63 | the new cart is the old one without the id and stays well formed |
| Orders.OrderPage.Checkout | src/pages/Orders.tsx:68-76 | an empty cart is refused; otherwise the cart goes on with `total` equal to its TotalPrice |
| Orders.OrderPage.SetSearchCode | src/pages/Orders.tsx:133 | the code field takes the typed text; the cart is unchanged |
| Orders.OrderPage.ScanBarcode | src/pages/Orders.tsx:78-86 | an empty code changes nothing; otherwise the picked product is added and the code field cleared |
| Payment.GroupsOf4 | src/pages/Payment.tsx:34 | `replace(/(\d{4})(?=\d)/g, "$1 ")` on a digit string: a space after every group of four that another digit follows |
| Payment.FormatCardNumber | src/pages/Payment.tsx:32-35 | `formatCardNumber`: the grouping of the input's digits, trimmed |
| Payment.GroupsOf4Layout | src/pages/Payment.tsx:34 | grouping n digits gives `n + (n - 1) / 4` characters, a space exactly at every fifth position and digits elsewhere |
| Payment.GroupsOf4Digits | src/pages/Payment.tsx:33-34 | the grouping only inserts spaces: its digits are the input |
| Payment.GroupsOf4Ends | src/pages/Payment.tsx:34 | a non-empty grouping starts and ends with a digit |
| Payment.FormatCardNumberShape | src/pages/Payment.tsx:32-35 | the card number shows exactly the input's digits in order, in groups of four split by single spaces, with nothing for `trim` to remove |
| Payment.FormatCardNumberIdempotent | src/pages/Payment.tsx:238-241 | re-formatting the shown number on the next keystroke changes nothing |
| Payment.FormatExpiry | src/pages/Payment.tsx:37-43 | `formatExpiry`: with two or more digits, the first two, a slash and the next two at most; the digits themselves otherwise |
| Payment.FormatExpiryShape | src/pages/Payment.tsx:37-43 | fewer than two digits come back as their digits; otherwise two digits, a slash and at most two more; at most 5 characters; the digits kept are the first four typed |
| Payment.FormatExpiryIdempotent | src/pages/Payment.tsx:266-269 | re-formatting the shown expiry changes nothing |
| Payment.ReceivedValue | src/pages/Payment.tsx:46 | `parseFloat(received) \|\| 0`: the amount in cents, 0 when the text does not parse |
| Payment.ChangeDue | src/pages/Payment.tsx:45-48 | the change is never negative, and it is either 0 or what was received beyond the total |
| Payment.CardComplete | src/pages/Payment.tsx:56 | the card check: number, name, expiry and CVV are all non-empty |
| Payment.Validation | src/pages/Payment.tsx:54-70 | a card is accepted iff all four fields are filled; cash is accepted iff the amount received is at least the total; Pix is always accepted |
| Payment.PaymentPage.constructor | src/pages/Payment.tsx:14-30 | the page opens on card, not processing, not complete, with empty fields and no change; the invariant holds |
| Payment.PaymentPage.SelectMethod | src/pages/Payment.tsx:173 | only the method changes |
| Payment.PaymentPage.SetCardNumber | src/pages/Payment.tsx:238-241 | only the card number changes, to the formatted input |
| Payment.PaymentPage.SetCardName | src/pages/Payment.tsx:252-255 | only the name changes, to the input in upper case |
| Payment.PaymentPage.SetExpiry | src/pages/Payment.tsx:266-269 | only the expiry changes, to the formatted input |
| Payment.PaymentPage.SetCvv | src/pages/Payment.tsx:281-284 | only the CVV changes, to the input's digits |
| Payment.PaymentPage.CalculateChange | src/pages/Payment.tsx:45-49 | the amount is recorded and the change becomes ChangeDue, never negative |
| Payment.PaymentPage.HandlePayment | src/pages/Payment.tsx:51-78 | callable only while not processing (the button is disabled then, line 364) and not complete (the button is not shown then, line 80); the outcome is Validation of the current state; processing is on iff the payment was accepted, and that acceptance is recorded; nothing completes yet |
| Payment.PaymentPage.ProcessingElapsed | src/pages/Payment.tsx:73-77 | the timer fires only while processing, that is after an accepted payment; then processing is off and the payment complete |
| Payment.ExactCashPayment | src/pages/Payment.tsx:63-77 | paying exactly the total in cash is accepted, completes, and leaves no change |
| Payment.IncompleteCardPayment | src/pages/Payment.tsx:55-60 | a card payment without a CVV is rejected and does not complete |
| Products.Seeds | src/pages/Products.tsx:25-32 | the six starting products with their ids, names, categories, prices in cents, stock and barcodes |
| Products.Filtered | src/pages/Products.tsx:42-46 | the search keeps exactly the products whose name or category include the term in any letter case, or whose barcode includes it as typed |
| Products.Matches | src/pages/Products.tsx:43-45 | the search test: the lower-cased name or category includes the lower-cased term, or the barcode includes the term as typed |
| Products.FilteredAppend | src/pages/Products.tsx:42-46 | the search works product by product, so the catalogue order is kept |
| Products.EmptySearchKeepsAll | src/pages/Products.tsx:42-46 | an empty search term shows every product |
| Products.SearchByNameIgnoresCase | src/pages/Products.tsx:43 | a term equal to a product's name up to letter case finds that product |
| Products.FormComplete | src/pages/Products.tsx:51 | the required fields: name, category, price and stock are all filled; the barcode is optional |
| Products.NewProduct | src/pages/Products.tsx:56-63 | the new product has id `length + 1`, the form's fields, and the form's barcode or else `789` followed by the random suffix |
| Products.WithoutId | src/pages/Products.tsx:72 | deletion keeps exactly the products with another id |
| Products.WithoutIdAppend | src/pages/Products.tsx:72 | deletion works product by product, so the order of the rest is kept |
| Products.WithoutIdAbsent | src/pages/Products.tsx:72 | deleting an id no product has changes nothing |
| Products.AddKeepsDenseIds | src/pages/Products.tsx:56-65 | adding to a catalogue with ids 1..n gives ids 1..n+1, all distinct |
| Products.DuplicateIdAfterDelete | src/pages/Products.tsx:56-72 | deleting id 1 from a catalogue with ids 1..n (n ≥ 2) and then adding gives two products with id n |
| Products.SeedsDuplicateId | src/pages/Products.tsx:25-72 | for the six starting products, delete-then-add produces a second id 6 |
| Products.SeedsDense | src/pages/Products.tsx:25-32 | the six starting products have ids 1 to 6 |
| Products.GetStockBadge | src/pages/Products.tsx:76-80 | out of stock iff the stock is 0; low iff it is below 10 and not 0 (negatives included); available iff it is 10 or more |
| Products.BadgeMonotone | src/pages/Products.tsx:76-80 | for stock that is not negative, more stock never gives a worse badge |
| Products.StockTotal | src/pages/Products.tsx:249 | the "items in stock" figure: the sum of the stock counts |
| Products.InventoryValue | src/pages/Products.tsx:235 | the "total value" figure: the sum of price × stock, in cents |
| Products.TotalsAppend | src/pages/Products.tsx:235-249 | the stock and value sums distribute over concatenation |
| Products.TotalsNonNegative | src/pages/Products.tsx:235-249 | with no negative stock or price, neither figure is negative |
| Products.SeedFigures | src/pages/Products.tsx:222-249 | the starting figures are 6 products, 125 in stock and R$ 9380.60 |
| Products.ProductsPage.constructor | src/pages/Products.tsx:23-40 | the page opens with the six products, an empty search and an empty form |
| Products.ProductsPage.Visible | src/pages/Products.tsx:42-46 | the listed products are exactly the catalogue's products matching the search |
| Products.ProductsPage.SetSearchTerm | src/pages/Products.tsx:118 | only the search term changes |
| Products.ProductsPage.SetForm | src/pages/Products.tsx:143-192 | only the form changes |
| Products.ProductsPage.AddProduct | src/pages/Products.tsx:48-69 | with a required field empty nothing changes; otherwise exactly the new product is appended and the form cleared |
| Products.ProductsPage.DeleteProduct | src/pages/Products.tsx:71-74 | every product with the id goes and the rest keep their order; an unknown id changes nothing |

## Left out

- Page layout and components are not modelled. This covers JSX, styling, icons, dialogs, the item/itens label and the "Pagamento Aprovado" screen. All of About, Index and Dashboard is out, including the hard-coded figures and the login guard. None of it holds business rules.
- Browser I/O is not modelled: routing (`navigate`, `location.state`), `localStorage` and `toast` messages. Checkout returns the cart and its total as a value instead of navigating. The payment page takes its total as a constructor parameter; the cart it receives is only displayed.
- Login's `isLoading` flag and its one-second timer are not modelled. The timer stores the CPF and navigates; `Login.HandleLogin` stops at the accept/reject decision.
- The payment delay is one atomic step, `Payment.PaymentPage.ProcessingElapsed`. Elapsed time is not modelled. The disabled button is modelled as the precondition of `Payment.PaymentPage.HandlePayment`.
- Randomness is taken as a parameter. The product a barcode submit adds is any product (`pick`), not one of the six listed. The random part of a generated barcode is any string (`randomSuffix`), not the decimal digits of a number below 10^10.
- Parsing is abstracted. `parseFloat` of the cash amount is an `Option<int>` in cents, and `None` counts as 0, as `|| 0` does. The model has no NaN and no fractions of a cent.
- Products.FormComplete: the page checks only that the price and stock texts are non-empty. Non-empty text that does not parse still passes that check and yields a NaN price or stock. The model cannot represent this, and treats such text as an empty field.
- Products.NewProduct: `parseInt` truncates a decimal stock such as "2.5" to 2. The model takes the stock already parsed.
- Floating-point money and its rounding are not modelled: amounts are exact cents. Neither is `toFixed(2)` display. This hides a real defect: in JavaScript, 3 × 89.90 is `269.70000000000005` (6× and 7× also round up), the page shows `R$ 269.70`, and a cashier who types `269.70` is refused with "Valor recebido é menor que o total" (src/pages/Payment.tsx:64-66). `Payment.ExactCashPayment` and the cash branch of `Payment.Validation` hold only under exact cents.
- Text.ToLower, Text.ToUpper: only the ASCII letters change case. JavaScript also maps accented and other Unicode letters, and its case mapping can change the length (`"ß".toUpperCase()` is `"SS"`); the length-keeping ensures are about the ASCII mapping only.
- Text.Trim: only ASCII white space is removed. Here `trim` only ever sees digits and spaces, so this changes nothing.
- The `maxLength` attributes of the inputs (14, 19, 5 and 4 characters) are not modelled. They are browser-side truncation; the formatters are modelled on input of any length.
- Login.HandleLogin: the password length counts characters. JavaScript counts UTF-16 code units, which differ only outside the Basic Multilingual Plane.
