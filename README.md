# Order engine of a retail back office, in Dafny

This project models the order ("pedido") engine of a Laravel + React back
office. It covers:

- the controller that creates, updates, deletes and marks orders as paid;
- the order, line and payment tables that these operations read and write;
- the four order pages: the new-order form, the edit form, the invoice and
  the order list;
- the development seeder that fills the catalog and the order tables.

Money is an exact `real`, and quantities and stock are `int`s. Each
module follows one source file:

| module | file | what it holds |
|---|---|---|
| `Esquema` | `database/migrations/2025_04_04_191953_create_pedidos_table.php` | The three tables as datatypes. The `estado` and `tipo_pago` enums with their string forms. The documented relations between the tax columns of a line row. The cascade from orders to payments. |
| `PedidoController` | `app/Http/Controllers/PedidoController.php` | Each operation as a function from the tables before to the response and the tables after: `Almacenar` (`store`), `Actualizar` (`update`), `Eliminar` (`destroy`), `MarcarPagado` (`marcarComoPagado`), and `Listar` (the filter of `index`). The lemmas say what each operation does. The class `BaseDeDatos` holds the tables as fields. Its methods run the source's loops (stock check and decrement, the `$syncData` loop, stock give-back) and are proved to compute those functions. |
| `FormularioCreacion` | `resources/js/pages/pedidos/create.tsx` | The form state and its handlers as functions from state to state. The total the page shows, and how what it submits meets `store`. |
| `FormularioEdicion` | `resources/js/pages/pedidos/edit.tsx` | The form loaded from an order, its handlers, the stock bound, the two totals it shows, and how what it submits meets `update`. |
| `Factura` | `resources/js/pages/pedidos/show.tsx` | The invoice grand total and its 15 % and 18 % tax lines. |
| `ListadoPedidos` | `resources/js/pages/pedidos/index.tsx` | The status badge of each row and the row actions offered. |
| `SembradoPedidos` | `database/seeders/PedidoProductoSeeder.php` | The seeder as the class `BaseSemilla`, with every random draw as an input. Each seeded order is proved to equal a specification function. That function is shown to be exactly what `store` would write for the same request. |
| `Listas` | — | `find`, `filter` and their lemmas, shared by the pages. |

The controller's atomic transactions are modelled as a snapshot of all
tables. `store` takes the snapshot before it writes anything, and
`Restaurar` puts it back when a line does not fit in stock (`DB::rollBack`).

Where the design of the system and the code disagree, the model follows
the code:

- The order total is the sum of quantity times price, with no tax.
- `update` does not give stock back and does not take it again; see
  Findings.
- No operation ever writes the status `cancelado`.

## Model

| member | source | states |
|---|---|---|
| `Esquema.EstadoDeNombre` | database/migrations/2025_04_04_191953_create_pedidos_table.php:17 | The `estado` column holds exactly the four enum names, and each name reads back as its own state. |
| `Esquema.TipoPagoDeNombre` | database/migrations/2025_04_04_191953_create_pedidos_table.php:43 | `tipo_pago` holds exactly the three payment-type names, and each name reads back as its own type. |
| `Esquema.FilaPivote` | database/migrations/2025_04_04_191953_create_pedidos_table.php:26-31 | A line row filled in as its column comments document has its total equal to quantity times price and its tax equal to total times rate / 100. Its tax-inclusive total is the subtotal times (1 + rate / 100). |
| `Esquema.Cascada` | database/migrations/2025_04_04_191953_create_pedidos_table.php:40 | Deleting an order keeps exactly the payments of the other orders. |
| `Esquema.CascadaSinReferencias` | database/migrations/2025_04_04_191953_create_pedidos_table.php:40 | Deleting an order that no payment refers to leaves the payment table unchanged. |
| `PedidoController.EstadoDe` | app/Http/Controllers/PedidoController.php:84-88 | The status is `pagado` iff the amount paid is at least the total, and `espera` iff it is above zero and below the total. It is `pendiente` iff it is at most zero and below the total. Every amount gets exactly one of the three statuses, never `cancelado`. |
| `PedidoController.EstadoMonotono` | app/Http/Controllers/PedidoController.php:84-88 | Paying more never takes an order out of `pagado`, nor into `pendiente`. |
| `PedidoController.ItemValido` | app/Http/Controllers/PedidoController.php:73-75 | A submitted line names an existing product, has an integer quantity of at least 1 and a price that is not negative. |
| `PedidoController.SolicitudValida` | app/Http/Controllers/PedidoController.php:70-77 | The `validate` rules of `store` (and, identically, of `update` at lines 150-157): an existing customer, at least one line, every line valid, an amount paid that is not negative. |
| `PedidoController.Total` | app/Http/Controllers/PedidoController.php:82 | The order total is the sum over the submitted lines of quantity times price (also line 162). |
| `PedidoController.Reservar` | app/Http/Controllers/PedidoController.php:98-115 | The stock loop over the lines in order: each line is checked against the stock the earlier lines left and the loop fails on the first line asking for more; otherwise every line's units are taken. |
| `PedidoController.Fila` | app/Http/Controllers/PedidoController.php:107-111 | The pivot row for one line: its product, quantity and price, and a total of quantity times price. |
| `PedidoController.Filas` | app/Http/Controllers/PedidoController.php:98-111 | One pivot row per submitted line, in the order of the lines. |
| `PedidoController.Liberar` | app/Http/Controllers/PedidoController.php:216-221 | The give-back loop of `destroy`: each of the order's rows adds its quantity to its product's stock. |
| `PedidoController.DatosSync` | app/Http/Controllers/PedidoController.php:177-184 | `$syncData` built by assignment per line: a new key is appended, a repeated one is overwritten by the later line. |
| `PedidoController.Sincronizar` | app/Http/Controllers/PedidoController.php:186 | `sync`: rows of products no longer listed are detached, kept ones stay in place with their new attributes, and products the order did not hold are attached after them in the order their keys entered `$syncData`. |
| `PedidoController.TotalNoNegativo` | app/Http/Controllers/PedidoController.php:72-82 | Lines that pass validation (quantity at least 1, price not negative) give a total that is not negative. |
| `PedidoController.ReservarEfecto` | app/Http/Controllers/PedidoController.php:98-115 | After a successful stock loop, each product has lost exactly the units its lines ask for, other products are unchanged, and no stock becomes negative. |
| `PedidoController.ReservarFalla` | app/Http/Controllers/PedidoController.php:98-104 | When the stock loop throws, it names a product whose lines ask for more units than its stock. |
| `PedidoController.ReservarExito` | app/Http/Controllers/PedidoController.php:98-115 | The stock loop succeeds iff no product is asked for more units in total than it has, whatever the order of the lines. |
| `PedidoController.FilasSuman` | app/Http/Controllers/PedidoController.php:82-111 | The pivot rows `store` attaches are one per line, and their `total` column adds up to the order total. |
| `PedidoController.FilasUnidades` | app/Http/Controllers/PedidoController.php:107-111 | The attached rows hold, per product, the units the lines asked for. |
| `PedidoController.LiberarEfecto` | app/Http/Controllers/PedidoController.php:216-221 | The give-back loop of `destroy` raises each product's stock by exactly the units the order's rows hold, and keeps every product. |
| `PedidoController.ReservarLiberar` | app/Http/Controllers/PedidoController.php:216-221 | Giving back the rows of a successful reservation restores every stock exactly. |
| `PedidoController.DatosSyncCorrecto` | app/Http/Controllers/PedidoController.php:177-184 | `$syncData` has one key per submitted product, with no repeated key. A product named on several lines takes the attributes of the last of them. |
| `PedidoController.SincronizarEfecto` | app/Http/Controllers/PedidoController.php:186 | After `sync`, the order holds exactly the products of `$syncData`, and each row carries the attributes `$syncData` gives it. |
| `PedidoController.SincronizarIdentidad` | app/Http/Controllers/PedidoController.php:177-186 | Submitting an order's rows back unchanged leaves them exactly as they were, when each product appears once and each row's total is quantity times price. |
| `PedidoController.ConstruirSyncData` | app/Http/Controllers/PedidoController.php:177-184 | The `$syncData` loop builds exactly the array of the specification, which is well formed and keyed by the submitted products. |
| `PedidoController.Listar` | app/Http/Controllers/PedidoController.php:17-31 | `index` lists exactly the user's orders that pass the filter. Under `pagado` they are all paid; under `no_pagado` none is. |
| `PedidoController.ListarParticion` | app/Http/Controllers/PedidoController.php:25-29 | Every order of the user is listed under `todos`, and under exactly one of `pagado` and `no_pagado`. |
| `PedidoController.Almacenar` | app/Http/Controllers/PedidoController.php:68-124 | A rejected `store` leaves every table as it was. Every outcome keeps the tables consistent. |
| `PedidoController.AlmacenarResultado` | app/Http/Controllers/PedidoController.php:68-124 | `store` gives a validation error iff a rule is broken. Otherwise it succeeds iff every product has the units asked of it. On success, the new order has a fresh id, the submitted customer, the signed-in user, the amount paid, the total of its lines and the status of that total. It gets one row per submitted line, in order, with that line's product, quantity and price and a row total of quantity times price; the rows add up to the order total. Each product loses the units asked for, and other orders, their rows, customers and payments are unchanged. |
| `PedidoController.AlmacenarLuegoEliminar` | app/Http/Controllers/PedidoController.php:208-233 | Deleting an order right after storing it restores every table; only the id counter has moved on. |
| `PedidoController.Actualizar` | app/Http/Controllers/PedidoController.php:148-195 | A rejected `update` leaves the tables as they were. Every outcome keeps them consistent and leaves stock untouched. |
| `PedidoController.ActualizarResultado` | app/Http/Controllers/PedidoController.php:148-195 | `update` answers not-found iff the order is unknown, and a validation error iff a rule is broken. On success, the order holds exactly the submitted products, each row with the quantity, price and subtotal of the last line naming it. The header carries the submitted customer and amount paid, the new total and its status, and keeps its owner. Other orders' headers and lines, payments, customers and stock are unchanged. |
| `PedidoController.Eliminar` | app/Http/Controllers/PedidoController.php:208-233 | A rejected `destroy` leaves the tables as they were, and every outcome keeps them consistent. |
| `PedidoController.EliminarResultado` | app/Http/Controllers/PedidoController.php:208-233 | `destroy` answers not-found iff the order is unknown. Otherwise each product gets back its units, the order, its rows and its payments are gone, and the other orders and their rows are unchanged, as are the other payments and the customers. |
| `PedidoController.MarcarPagado` | app/Http/Controllers/PedidoController.php:236-244 | Succeeds iff the order exists, and answers not-found otherwise. The amount paid becomes the order's total and the status `pagado`, which is also what the three-way rule gives for that amount; total, customer and owner stay. Every other order, the lines, stock, payments and customers are unchanged. |
| `PedidoController.ActualizarNoReconciliaStock` | app/Http/Controllers/PedidoController.php:148-195 | As written: from a stock of 10, storing 2, updating to 5 and deleting the order leaves 13 units. |
| `PedidoController.StockReconciliado` | app/Http/Controllers/PedidoController.php:177-186 | Corrected stock effect of `update`: the order's rows are given back and the rows `sync` writes are reserved. Per product, the new stock plus the new units equals the old stock plus the old units, and no stock becomes negative. |
| `PedidoController.StockReconciliadoCorrecto` | app/Http/Controllers/PedidoController.php:148-195 | The reconciled stock step succeeds iff no product is asked for more than its stock plus what the order held. Giving the new rows back then gives exactly the stock that giving the old rows back would. |
| `PedidoController.ActualizarConciliado` | app/Http/Controllers/PedidoController.php:148-195 | Corrected `update`: it writes what `update` writes, with the stock reconciled. A product that falls short changes nothing, and the tables stay consistent. |
| `PedidoController.ActualizarConciliadoConserva` | app/Http/Controllers/PedidoController.php:208-233 | Under the corrected update, deleting an order gives back the same stock whether or not it was updated first. |
| `PedidoController.SincronizarUnidades` | app/Http/Controllers/PedidoController.php:177-186 | With one row per product before and one line per product submitted, the rows `sync` leaves hold, per product, exactly the units submitted. |
| `PedidoController.SincronizarFilas` | app/Http/Controllers/PedidoController.php:177-186 | With one line per product, every row `sync` leaves is the row of a submitted line. |
| `PedidoController.SincronizadoCabe` | app/Http/Controllers/PedidoController.php:177-186 | With one row and one line per product, the corrected update fits in stock iff no product is asked for more than its stock plus what the order holds. |
| `PedidoController.BaseDeDatos.constructor` | database/migrations/2025_04_04_191953_create_pedidos_table.php:11-46 | Empty order, line and payment tables over the given customers and stock are consistent. |
| `PedidoController.BaseDeDatos.Restaurar` | app/Http/Controllers/PedidoController.php:120-123 | The rollback puts every table back as saved. |
| `PedidoController.BaseDeDatos.Store` | app/Http/Controllers/PedidoController.php:68-124 | The method's response and new tables are exactly `Almacenar`'s, and the tables stay consistent. |
| `PedidoController.BaseDeDatos.AdjuntarLineas` | app/Http/Controllers/PedidoController.php:98-115 | The line loop finishes iff the reservation succeeds, leaving the reserved stock and the rows of the lines. Otherwise it names the product the reservation fails on. Nothing else changes. |
| `PedidoController.BaseDeDatos.Update` | app/Http/Controllers/PedidoController.php:148-195 | The method's response and new tables are exactly `Actualizar`'s, and the tables stay consistent. |
| `PedidoController.BaseDeDatos.Destroy` | app/Http/Controllers/PedidoController.php:208-233 | The give-back loop and the delete produce exactly `Eliminar`'s response and tables. |
| `PedidoController.BaseDeDatos.MarcarComoPagado` | app/Http/Controllers/PedidoController.php:236-244 | The method's response and new tables are exactly `MarcarPagado`'s. |
| `FormularioCreacion.AgregarProducto` | resources/js/pages/pedidos/create.tsx:28-44 | The form changes iff the product is in the catalog with stock and not yet listed. It then gains one line of quantity 1 at the catalog price. Unique ids and the stock bound are kept. |
| `FormularioCreacion.ActualizarCantidad` | resources/js/pages/pedidos/create.tsx:46-53 | A quantity above stock, or for an unknown product, changes nothing. Otherwise exactly that product's lines take the new quantity, with ids, prices and the stock bound kept. |
| `FormularioCreacion.CalcularTotal` | resources/js/pages/pedidos/create.tsx:59-60 | The page's total: the sum over the lines of price times quantity. |
| `FormularioCreacion.CantidadCeroAceptada` | resources/js/pages/pedidos/create.tsx:46-53 | The page accepts quantity 0, and `store`'s validation then rejects the request. |
| `FormularioCreacion.EliminarProducto` | resources/js/pages/pedidos/create.tsx:55-57 | Exactly that product's lines go; the others stay, in their order and with their repeats, as the list filter keeps them. With no such line the form is unchanged. Unique ids and the stock bound are kept. |
| `FormularioCreacion.TotalMostrado` | resources/js/pages/pedidos/create.tsx:59-60 | The total the page shows is the total `store` records. |
| `FormularioCreacion.FormularioCabeEnStock` | resources/js/pages/pedidos/create.tsx:28-53 | A form the handlers built, against an up-to-date catalog, passes every stock check of `store`. |
| `FormularioEdicion.GuardarSinCambios` | resources/js/pages/pedidos/edit.tsx:16-25 | Opening an order and saving it unchanged leaves its rows exactly as they were. |
| `FormularioEdicion.LineaInicial` | resources/js/pages/pedidos/edit.tsx:18-23 | A form line loaded from an order product: its id, pivot quantity and price, and its pivot rate or 0 when it has none. |
| `FormularioEdicion.FormularioInicial` | resources/js/pages/pedidos/edit.tsx:16-25 | The form as loaded: the order's customer and amount paid, and one line per order product. |
| `FormularioEdicion.AgregarProducto` | resources/js/pages/pedidos/edit.tsx:29-44 | The form changes iff the product is in the catalog and not yet listed. It then gains, at the end, one line of quantity 1 with the price and tax rate of the catalog entry `find` returns, and unique ids are kept. |
| `FormularioEdicion.CantidadOriginal` | resources/js/pages/pedidos/edit.tsx:50 | The quantity the order held of a product, or 0 when it held none. |
| `FormularioEdicion.ActualizarCantidad` | resources/js/pages/pedidos/edit.tsx:46-58 | Outside 1 to (stock + original quantity) nothing changes. Otherwise exactly that product's lines take the new quantity, and unique ids and the stock bound are kept. |
| `FormularioEdicion.EliminarProducto` | resources/js/pages/pedidos/edit.tsx:60-62 | Exactly that product's lines go; the others stay, in their order and with their repeats, as the list filter keeps them. With no such line the form is unchanged. Unique ids and the stock bound are kept. |
| `FormularioEdicion.StockVisualNoNegativo` | resources/js/pages/pedidos/edit.tsx:149-156 | A form within its stock bound never shows a negative stock. |
| `FormularioEdicion.StockVisual` | resources/js/pages/pedidos/edit.tsx:149-156 | The stock shown for a line: catalog stock plus the order's original quantity, minus the line's quantity; nothing for a product outside the catalog. |
| `FormularioEdicion.CalcularTotal` | resources/js/pages/pedidos/edit.tsx:64-68 | The page's total: the sum over the lines of (price + price times rate / 100) times quantity. |
| `FormularioEdicion.CalcularIsvTotal` | resources/js/pages/pedidos/edit.tsx:70-74 | The page's tax: the sum over the lines of price times rate / 100 times quantity. |
| `FormularioEdicion.TotalMostrado` | resources/js/pages/pedidos/edit.tsx:64-74 | The total the page shows is the total `update` records plus the tax the page shows. |
| `FormularioEdicion.SinIsv` | resources/js/pages/pedidos/edit.tsx:64-74 | Lines with rate 0 show no tax, and then the page's total is the server's. |
| `FormularioEdicion.InicialSinIsv` | resources/js/pages/pedidos/edit.tsx:22 | A form freshly loaded from an order shows no tax. |
| `FormularioEdicion.FormularioCabeEnStock` | resources/js/pages/pedidos/edit.tsx:46-58 | Every form within the page's bound fits in stock under the corrected update. |
| `Factura.TotalDocumentado` | resources/js/pages/pedidos/show.tsx:35 | For documented rows, the grand total is the untaxed total plus the tax. |
| `Factura.DesgloseIsv` | resources/js/pages/pedidos/show.tsx:36-41 | When every rate is 15 or 18, the two printed tax lines add up to all the tax. |
| `Factura.OtraTasaNoSeImprime` | resources/js/pages/pedidos/show.tsx:35-41 | A row at another rate counts in the grand total but in neither tax line. |
| `Factura.FacturaFrenteAlTotal` | resources/js/pages/pedidos/show.tsx:35 | The invoice's untaxed base equals the order total, and the grand total is that total plus the tax, which is never negative. |
| `Factura.TotalFactura` | resources/js/pages/pedidos/show.tsx:35 | The invoice total: the sum of the rows' tax-inclusive totals. |
| `Factura.Isv15` | resources/js/pages/pedidos/show.tsx:36-38 | The 15 % tax line: the tax of the rows whose rate is exactly 15, summed. |
| `Factura.Isv18` | resources/js/pages/pedidos/show.tsx:39-41 | The 18 % tax line: the tax of the rows whose rate is exactly 18, summed. |
| `ListadoPedidos.EstadoBadge` | resources/js/pages/pedidos/index.tsx:53-83 | A labelled badge iff the string is one of the four states; any other string is shown as it came. |
| `ListadoPedidos.InsigniasDistintas` | resources/js/pages/pedidos/index.tsx:53-83 | Different states never share a label or a colour. |
| `ListadoPedidos.AccionesPara` | resources/js/pages/pedidos/index.tsx:148-187 | Pay, edit and delete are offered iff the order is not `pagado`, and the invoice iff it is. |
| `ListadoPedidos.CanceladoSigueAbierto` | resources/js/pages/pedidos/index.tsx:148-187 | A `cancelado` order still offers pay, edit and delete. |
| `ListadoPedidos.PagarMuestraFactura` | resources/js/pages/pedidos/index.tsx:148-187 | After `marcarComoPagado` the row offers only the invoice, under a green `Pagado` badge. |
| `ListadoPedidos.AlmacenarMuestraAcciones` | resources/js/pages/pedidos/index.tsx:180-187 | A stored order offers the invoice iff the amount paid covers the total of its lines. |
| `ListadoPedidos.FiltroCoincideConAcciones` | resources/js/pages/pedidos/index.tsx:148-187 | Rows listed under `no_pagado` offer payment, and rows under `pagado` the invoice. |
| `SembradoPedidos.Disponibles` | database/seeders/PedidoProductoSeeder.php:85 | The products taken are distinct, from the shuffled table, each with a unit in stock. There are exactly min(drawn count, products with stock) of them, so at least one when one is asked for and one has stock, and none when nothing has stock. They are the first products with stock in the shuffle: none that comes earlier is skipped. |
| `SembradoPedidos.ConsecutivosCuenta` | database/seeders/PedidoProductoSeeder.php:37-38 | Twenty inserts hand out twenty distinct consecutive ids. |
| `SembradoPedidos.LineasSembradas` | database/seeders/PedidoProductoSeeder.php:87-103 | The seeded lines always fit in stock, and their total is not negative. |
| `SembradoPedidos.LineasSembradasValidas` | database/seeders/PedidoProductoSeeder.php:85-103 | The lines follow the products taken, in order, one unit each at the product's price. They are distinct and at most the drawn count, with none when nothing has stock. |
| `SembradoPedidos.ReservaPosible` | database/seeders/PedidoProductoSeeder.php:85-101 | Distinct one-unit lines on products with stock can always be reserved. |
| `SembradoPedidos.MontoSorteado` | database/seeders/PedidoProductoSeeder.php:105 | The amount paid lies between 0 and the total. |
| `SembradoPedidos.Cabecera` | database/seeders/PedidoProductoSeeder.php:105-116 | The closed order has the seeder's user, the line total and an amount paid within it, and the status is the controller's three-way rule. |
| `SembradoPedidos.Sembrar` | database/seeders/PedidoProductoSeeder.php:69-117 | One pass of the order loop: the order is inserted under the next id with the taken products' lines, its stock is reserved, and its header closed with the drawn payment. |
| `SembradoPedidos.AsentarPorPasos` | database/seeders/PedidoProductoSeeder.php:74-116 | The insert, the line loop and the closing update together write exactly the specified order. |
| `SembradoPedidos.SembrarComoAlmacenar` | database/seeders/PedidoProductoSeeder.php:69-117 | When the seeder asks for at least one product and some product of the shuffle has stock, the seeded order is exactly what `store` writes for that customer, those lines and that amount paid. |
| `SembradoPedidos.SembrarVacio` | database/seeders/PedidoProductoSeeder.php:84-116 | When no product has stock, the order has no rows, a zero total, nothing paid and status `pagado`, and no stock changes. |
| `SembradoPedidos.SembrarAgregaUno` | database/seeders/PedidoProductoSeeder.php:74-82 | Exactly one order is added under a fresh id, and the earlier orders are unchanged. |
| `SembradoPedidos.SembrarStock` | database/seeders/PedidoProductoSeeder.php:101 | Every product is kept, and no stock goes below zero. |
| `SembradoPedidos.SembrarValido` | database/seeders/PedidoProductoSeeder.php:69-117 | Seeding an order keeps the tables consistent, with every product priced. Customers and payments are unchanged. |
| `SembradoPedidos.BaseSemilla.constructor` | database/seeders/PedidoProductoSeeder.php:18-19 | The seeder starts from the existing customers and categories, with empty consistent tables. |
| `SembradoPedidos.BaseSemilla.CrearProducto` | database/seeders/PedidoProductoSeeder.php:38-50 | A product insert takes the next id with the drawn price and stock. |
| `SembradoPedidos.BaseSemilla.CrearProductos` | database/seeders/PedidoProductoSeeder.php:37-66 | The product loop adds exactly the next ids, one per draw, and leaves the orders alone. |
| `SembradoPedidos.BaseSemilla.InsertarPedido` | database/seeders/PedidoProductoSeeder.php:74-82 | The order insert takes a fresh id, a zero total, nothing paid, the drawn status and no rows. |
| `SembradoPedidos.BaseSemilla.EscribirLineas` | database/seeders/PedidoProductoSeeder.php:87-103 | The line loop writes the rows and reserved stock of the specification and returns the line total. |
| `SembradoPedidos.BaseSemilla.CerrarPedido` | database/seeders/PedidoProductoSeeder.php:105-116 | The closing update sets the total, the amount paid and the status by the three-way rule. |
| `SembradoPedidos.BaseSemilla.SembrarPedido` | database/seeders/PedidoProductoSeeder.php:70-116 | One pass of the order loop writes exactly the specified order under a fresh id, and keeps the tables consistent. |
| `SembradoPedidos.BaseSemilla.SembrarPedidos` | database/seeders/PedidoProductoSeeder.php:69-117 | The order loop adds exactly the next ids, one per draw, and never touches earlier orders. |
| `SembradoPedidos.BaseSemilla.Run` | database/seeders/PedidoProductoSeeder.php:14-117 | Without categories, customers or images nothing changes. Otherwise 20 new products and 50 new orders exist under consecutive ids. |

## Left out

- Decimal(10, 2) columns, `randomFloat(2, …)` and the 2-decimal rounding of amounts: money is an exact `real`. Floating point and `NaN` in the pages are not modelled.
- Conversions between strings and numbers (`Number(…)`, `toString`, `toFixed`), and the invoice's `===` comparison of a decimal column with a number. The model compares exact values.
- The loaders `create`, `edit` and `show` of the controller, and the JSX of every page, are display only. Disabled options in the selects are not modelled either.
- The pagination and `latest()` ordering of `index`: `Listar` keeps the order of its input.
- Authentication: the signed-in user's id is a parameter.
- Concurrency and transaction isolation: every operation runs alone.
- Auto-increment ids consumed by a rolled-back insert: the counter is restored with the other tables.
- The controller does not write the `isv_porcentaje`, `isv_total` and `total_con_isv` columns: `LineaPedido` holds only the columns the controller writes.
- The server sends the edit page no `isv` field and the invoice page no `productos` prop. The model takes both as inputs, and the invoice is modelled over rows filled in as the migration documents.
- Faker, image copying, product names and `categoria_id` in the seeder. The `inRandomOrder()` shuffle is the input `orden`, and `rand(1, 5)` is the input `cuantos`.
- Failing inserts: the model takes the order insert of `store` and every pivot insert to succeed. As the files read, `Pedido::$fillable` (app/Models/Pedido.php:12-17) leaves out `user_id`, a NOT NULL foreign key of the pedidos table, and the pivot's `isv_porcentaje`, `isv_total` and `total_con_isv` columns are NOT NULL without a default while neither `attach`, `sync` nor the seeder writes them. Read literally, every `store` and every seeded line would then fail and take the rollback path. The model follows the evident intent instead.
- SembradoPedidos.Disponibles: a negative count takes every product with stock; the seeder never draws one.
- SembradoPedidos.BaseSemilla.SembrarPedidos: requires only a distinct shuffle and a fraction between 0 and 1 per draw, not the full draw ranges, which `Run` demands.
- Catalog, customer and category maintenance, users and the Eloquent model classes are outside this model.
- No operation moves an order into `cancelado`, so none is modelled.

## Findings

| source | as written | input that shows it | evidently intended | confidence | as-written member | corrected member |
|---|---|---|---|---|---|---|
| app/Http/Controllers/PedidoController.php:148-195 | `update` replaces an order's lines without touching stock, while `destroy` (lines 216-221) gives back whatever the rows hold at that moment. | Stock of product 7 is 10. `store` 2 units of 7, `update` the order to 5 units, then `destroy` it: the stock is 13. | `update` gives back the order's current rows and then reserves the rows it writes against that, failing when a product falls short. Deleting afterwards then gives back the same stock as deleting before the update. The edit page's bound (stock + original quantity) presumes this. | not executed | `PedidoController.ActualizarNoReconciliaStock` | `PedidoController.ActualizarConciliadoConserva` |
