# Store simulation core: products, comments and the turn roster

A Dafny model of the core of a small store simulation written in Java. The
simulation keeps a catalogue of products with stock levels, lets clients
leave comments on products, and runs a fixed number of turns. Each turn
one client, taken from a roster, places orders.

The model covers three pieces:

- `Products` (from `src/Producto.java`). The class `Product` holds the
  stock, price, minimum stock, priority, manufacturer, name and
  identifier of a product. It models the validating constructor, order
  fulfilment (`entregar`), the unchecked stock adjustment (`varCantidad`),
  the two checked setters and structural equality. The restock amounts per
  priority tier (25, 75, 150) are kept as constants. Java `int` is modelled
  as `Int32`, and its wrap-around is written out in `JavaInt.Wrap`. The
  `float` price is a `real`.
- `CommentableProducts` (from `src/ProductoComentable.java`). The class
  `CommentableProduct` is the base product plus an insertion-ordered list of
  comments. A comment is published only when no earlier comment has the same
  author, which keeps at most one comment per author. The rendering of the
  comments is a left fold. It is defined once as the function
  `RenderComments`, and the loop method `RecoverComments` is proved against
  it. How one comment renders itself is a parameter `render`.
- `Simulations` (from `src/Simulacion.java`). The class `Simulation` holds
  the turn roster. It models the client-loading loop and the roster-padding
  loop of `inicializarSimulacion`, and the turn loop of `ejecutarTurnos`
  down to which client takes each turn.

Where the code and its messages disagree, the model follows the code:

- `esCorrecto` requires the minimum stock to be strictly positive
  (`src/Producto.java:226`). The constructor's exception text says 0 is
  allowed (`src/Producto.java:46-47`). `SetMinStock` therefore refuses 0.
- `setPrecio` is documented as returning whether the change was *not*
  accepted (`src/Producto.java:153`). The code returns `true` when the new
  price is accepted (`src/Producto.java:156-160`), and so does `SetPrice`.
- The comment rating is documented as 1 to 5 (`src/ProductoComentable.java:28`)
  but `comentar` never checks it. `AddComment` does not check it either.

## Model

| member | source | states |
|---|---|---|
| `Products.IsCorrect` | src/Producto.java:225-227 | true iff quantity >= 0, price > 0 and minimum stock >= 1; a minimum stock of 0 is incorrect |
| `Products.RestockAmounts` | src/Producto.java:19-21 | the restock amounts are 25, 75 and 150 for the low, medium and high tiers, in increasing order |
| `JavaInt.Wrap` | src/Producto.java:183 | Java `int` addition: the exact sum when it fits in 32 bits, and in every case a value congruent to it modulo 2^32 |
| `Products.Product.constructor` | src/Producto.java:49-56 | a product built from correct arguments is valid and holds exactly the given attributes and identifier |
| `Products.Product.Create` | src/Producto.java:44-57 | construction fails, and no object exists, exactly when quantity < 0, price <= 0 or minimum stock <= 0; otherwise a fresh valid product holds the given attributes |
| `Products.Product.HasSufficientStock` | src/Producto.java:208-210 | for a non-negative stock, true iff 0 < amount <= stock |
| `Products.Product.BelowMinimum` | src/Producto.java:215-217 | true iff the stock is strictly below the minimum, so a stock equal to the minimum is not below it; a valid product with no stock always is, because a valid minimum is at least 1 |
| `Products.Product.AdjustQuantity` | src/Producto.java:182-184 | adds delta to the stock with 32-bit wrap-around and changes nothing else; the exact sum when it fits; validity is kept only when the new stock stays non-negative |
| `Products.Product.Deliver` | src/Producto.java:192-200 | succeeds iff there is sufficient stock, i.e. 0 < amount <= stock; on success the stock drops by exactly the amount; on failure nothing changes; validity is preserved |
| `Products.Product.SetPrice` | src/Producto.java:155-161 | returns true and commits iff the product stays correct with the new price; on false no attribute changes; validity is preserved |
| `Products.Product.SetMinStock` | src/Producto.java:169-175 | returns true and commits iff the product stays correct with the new minimum (so 0 is refused); on false no attribute changes; validity is preserved |
| `Products.Product.Equals` | src/Producto.java:267-280 | true iff the two products agree on every attribute, identifier included (the same object always does) |
| `Products.DeliverTwice` | src/Producto.java:192-200 | two orders a then b on a valid product both succeed iff a, b > 0 and a + b <= stock, and then the stock drops by a + b |
| `Products.ZeroMinimumRejected` | src/Producto.java:169-175 | setting the minimum stock to 0 is always refused and leaves the product unchanged |
| `CommentableProducts.RenderComments` | src/ProductoComentable.java:54-63 | the rendering is empty exactly when there are no comments |
| `CommentableProducts.RenderAppend` | src/ProductoComentable.java:59-60 | rendering maps list concatenation to string concatenation, so comments render in insertion order |
| `CommentableProducts.RenderCons` | src/ProductoComentable.java:59-60 | the rendering is the decorator and the first comment's rendering, followed by the rendering of the rest |
| `CommentableProducts.SwappedCommentsRenderDifferently` | src/ProductoComentable.java:86-87 | for any comment rendering, two comments whose renderings differ but have equal length render differently in the two orders, so equality of commentable products depends on comment order |
| `CommentableProducts.RenderingNotInjective` | src/ProductoComentable.java:86-87 | the rendering does not determine the comments: one comment whose text is the decorator followed by "x" by one author renders like the two comments "" and "x" by two different authors; both lists keep at most one comment per author, so two commentable products with different comment lists can compare equal |
| `CommentableProducts.CommentableProduct.constructor` | src/ProductoComentable.java:22-25 | a commentable product built from correct arguments has a fresh valid base product with the given attributes and no comments |
| `CommentableProducts.CommentableProduct.Create` | src/ProductoComentable.java:22-25 | construction fails exactly when the base product's check fails; otherwise the base product holds the given attributes and the comment list is empty |
| `CommentableProducts.CommentableProduct.AddComment` | src/ProductoComentable.java:33-47 | returns false iff some existing comment has the same author, and then the list is unchanged; on true the comment is appended at the end with the earlier ones unchanged and in order; at most one comment per author is preserved |
| `CommentableProducts.CommentableProduct.RecoverComments` | src/ProductoComentable.java:54-63 | the accumulating loop yields the in-order fold of decorator plus rendering over all comments |
| `CommentableProducts.CommentableProduct.Equals` | src/ProductoComentable.java:80-89 | true iff the base products agree on every attribute and the comment renderings are equal |
| `CommentableProducts.CommentTwice` | src/ProductoComentable.java:33-47 | on an empty product, a first comment is published and a second by the same author is refused, leaving one comment |
| `Simulations.LoadedCount` | src/Simulacion.java:62-66 | the load loop takes all parsed clients up to 11, since it continues while the count is at most 10 |
| `Simulations.Simulation.constructor` | src/Simulacion.java:27-30 | a new simulation has an empty roster |
| `Simulations.Simulation.InitializeRoster` | src/Simulacion.java:62-73 | loads min(n, 11) clients in iterator order; padding succeeds iff the first padding index is in range, and then the roster is the loaded clients followed by the loaded client at index 10 - j for every turn j up to 9; otherwise `get` fails with index 10 - k on a list of size k, and the roster holds the k loaded clients |
| `Simulations.Simulation.ExecuteTurns` | src/Simulacion.java:84-86 | turn i is taken by roster entry i, one turn per entry; the last client is the final roster entry, and there is none for an empty roster |
| `Simulations.PaddingInBoundsFromSix` | src/Simulacion.java:71 | the padding index is in range iff at least 6 clients were loaded |
| `Simulations.PaddedRosterExtendsLoaded` | src/Simulacion.java:64-71 | padding only appends: the loaded clients stay first, unchanged and in order, and every padded entry is a loaded client |
| `Simulations.TurnCount` | src/Simulacion.java:62-84 | with 6 to 10 parsed clients 10 turns run; with 11 or more, 11 turns run |
| `Simulations.SevenClientsRoster` | src/Simulacion.java:70-71 | 7 loaded clients c0..c6 give the roster c0..c6, c3, c2, c1 |
| `Simulations.ThreeClientsOutOfBounds` | src/Simulacion.java:71 | with 3 parsed clients the first padding step fails with index 7 on a list of 3, and the roster holds only those 3 clients |
| `Simulations.ElevenOfTwelveClientsLoaded` | src/Simulacion.java:63 | with 12 parsed clients, 11 are loaded and 11 turns run |
| `Simulations.IntendedRoster` | src/Simulacion.java:68-73 | the corrected roster has exactly 10 entries when at least one client is parsed, and is empty otherwise |
| `Simulations.IntendedLoadCount` | src/Simulacion.java:60-66 | the corrected load loop takes all parsed clients up to 10 |
| `Simulations.IntendedRosterStartsWithLoaded` | src/Simulacion.java:68-73 | the corrected roster starts with the first min(n, 10) parsed clients, in order |
| `Simulations.IntendedRosterDrawsFromParsed` | src/Simulacion.java:68-73 | every entry of the corrected roster is one of the parsed clients |
| `Simulations.AsWrittenMatchesIntendedAtTen` | src/Simulacion.java:62-73 | with exactly 10 parsed clients the code as written builds the corrected roster |
| `Simulations.IntendedRosterThreeClients` | src/Simulacion.java:68-73 | 3 parsed clients give the corrected roster 0, 1, 2, 0, 1, 2, 0, 1, 2, 0 |
| `Simulations.AsWrittenDiffersFromIntendedAtSeven` | src/Simulacion.java:70-71 | with 7 clients the code as written succeeds but pads with c3, c2, c1, while the corrected roster pads with c0, c1, c2 |

## Left out

- Reading the input file (`CargadorInventario` and its SAX handler) is I/O. The parsed clients are a parameter of `InitializeRoster`, in iterator order.
- The log writer (`Registro`), the log file and the messages `main` prints are I/O.
- `ejecutarTurnos` is modelled only as far as which client takes each turn. `Cliente.realizarPedido`, `getTienda` and the end-of-run statistics are not part of this model.
- Restocking and order retry are not part of this model. Only the restock amount per tier is, as constants.
- `GeneradorIdentificador` and `Identificador` are not part of this model. An identifier is a value compared for equality, and every constructor takes a fresh one as a parameter.
- `hashCode` in both classes is left out. It builds on the identity hash, `String.hashCode` and rounding of a `float`.
- `toString`, `aRegistro` and the textual form of a comment are left out. `Comentario.toString` is the parameter `render`.
- The `float` price is a `real`. Rounding and NaN are not modelled, so a NaN price, which Java's `precio > 0f` also rejects, has no counterpart.
- The trivial getters and the unchecked setters of name, priority and manufacturer are not modelled. They assign one field and check nothing.
- `Producto.equals` accepting any `Object`, and the asymmetry between a plain product and a commentable one, are not modelled. `Equals` compares objects of the same class only.
- `ComportamientoComentario` is an interface without bodies, so it is not part of this model.
- `Products.Product.HasSufficientStock`: the iff with `0 < amount <= stock` is stated for a non-negative stock only. A negative stock is reachable only through `AdjustQuantity`, and there the wrapped subtraction of the body is the whole description.
- `Products.Product.constructor`: requires correct arguments, because a Dafny constructor cannot fail. `Products.Product.Create` models the throwing constructor of `Producto`.
- `CommentableProducts.CommentableProduct.constructor`: requires correct arguments for the same reason. `CommentableProducts.CommentableProduct.Create` models the throwing constructor.
- `Simulations.Simulation.InitializeRoster`: requires an empty roster. `main` always calls it on a freshly constructed simulation.

## Findings

| source | as written | input that shows it | evidently intended | confidence | as-written member | corrected member |
|---|---|---|---|---|---|---|
| src/Simulacion.java:71 | each padding step appends the element at index `NUMERO_TURNOS - clientesCargados` of the partly filled list | 3 parsed clients: the first step reads index 7 of a list of 3 and `ArrayList.get` throws, which nothing catches | repeat the loaded clients until there is one per turn | medium, not executed | `Simulations.ThreeClientsOutOfBounds` | `Simulations.IntendedRoster` |
| src/Simulacion.java:63 | the load loop runs while `clientesCargados <= NUMERO_TURNOS` | 12 parsed clients: 11 are loaded and 11 turns run | at most `NUMERO_TURNOS` clients and 10 turns, as the class comment and the loop's own comment say | medium, not executed | `Simulations.ElevenOfTwelveClientsLoaded` | `Simulations.IntendedRoster` |

The correction for the first row also changes the padding order for 6 to 9
loaded clients, where the code as written does not fail. With 7 clients the
code pads with c3, c2, c1 and the corrected roster with c0, c1, c2
(`Simulations.AsWrittenDiffersFromIntendedAtSeven`).
