# JGRM-ECOMMERCE storefront, modelled in Dafny

JGRM-ECOMMERCE is a React storefront. It has a product catalogue with search and filters, an offers strip and a carousel on the home page, a cart panel and a checkout page. It also has sign-up, sign-in with optional two-factor authentication (2FA) through an authenticator app, a profile page, a purchase history, a contact form and a form for creating products. This project models the logic inside those page components and the shared services they use. It states what that logic does as Dafny contracts and lemmas, and the Dafny verifier proves them.

The model follows the program's structure: one module per source component, plus two shared modules.

- **Shared modules.** `Common` holds optional values, the shape of an HTTP reply or error, the `{ type, message }` status banner, the product record, router navigations and the browser's `localStorage`. `Text` holds the JavaScript string operations the components use: `trim`, the digit filter `replace(/\D/g, '')`, `split`, `slice`, `repeat`, ASCII `toLowerCase`/`toUpperCase` and `includes`.
- **Stateful components become classes.** A component whose handlers change its state step by step (`useState` setters, a ref, storage) is a `class`. Its fields are that state, and each handler is a `method` whose `ensures` gives the whole new state.
- **Pure logic becomes functions.** Pure expressions, such as validators, message tables, filters, folds and index arithmetic, are functions. Lemmas about them state the properties the code relies on.
- **Outside inputs become parameters.** A server reply is a parameter of the handler that awaits it. So is the random order of a shuffle. Timers and intervals are separate event methods (`TransitionEnded`, `Tick`, `HideSentNotice`). A call through the shared HTTP client first passes through the modelled response interceptor, so a 401 reply erases the stored token before the component sees the rejection.
- **Navigation is recorded.** A `navigate(path, { state: { email } })` call appends a `Navigation` to a `navigations` field. Nothing is rendered.

| module | file | source |
|---|---|---|
| `CartContext` | cart_context.dfy | src/JSX-Components/Services/CartContext.jsx |
| `AuthContext` | auth_context.dfy | src/JSX-Components/Services/AuthContext.jsx |
| `AxiosConfig` | axios_config.dfy | src/JSX-Components/Services/AxiosConfig.js |
| `IniciarSesion` | iniciar_sesion.dfy | src/JSX-Components/InicioSesion/IniciarSesion.jsx |
| `TwoFactorLoginModal` | two_factor_login_modal.dfy | src/JSX-Components/InicioSesion/TwoFactorLoginModal.jsx |
| `TwoFAAuth` | two_fa_auth.dfy | src/JSX-Components/InicioSesion/TwoFAAuth.jsx |
| `Register` | register.dfy | src/JSX-Components/InicioSesion/Register.jsx |
| `ConfigurarPerfil` | configurar_perfil.dfy | src/JSX-Components/Profile/ConfigurarPerfil.jsx |
| `CreateProduct` | create_product.dfy | src/JSX-Components/Crear-Producto/CreateProduct.jsx |
| `CreateProductPrice` | create_product_price.dfy | src/JSX-Components/Crear-Producto/CreateProductPrice.jsx |
| `Contacto` | contacto.dfy | src/JSX-Components/Contacto/Contacto.jsx |
| `ListProducts` | list_products.dfy | src/JSX-Components/Services/ListProducts.jsx |
| `ProductsFilter` | products_filter.dfy | src/JSX-Components/Search/ProductsFilter.jsx |
| `CatalogoOfertas` | catalogo_ofertas.dfy | src/JSX-Components/Pagina-inicio/CatalogoOfertas.jsx |
| `CartPage` | cart_page.dfy | src/JSX-Components/Cart.jsx |
| `Checkout` | checkout.dfy | src/JSX-Components/Checkout/Checkout.jsx |
| `Carousel` | carousel.dfy | src/JSX-Components/Pagina-inicio/Carousel.jsx |
| `App` | app.dfy | src/App.jsx |
| `NavBar` | navbar.dfy | src/JSX-Components/navbar.jsx |
| `HistorialCompras` | historial_compras.dfy | src/JSX-Components/Profile/HistorialCompras.jsx |
| `SessionRevoked` | session_revoked.dfy | src/JSX-Components/Security/SessionRevoked.jsx |

JavaScript truthiness of an optional string is `Truthy`: the value is present and not `''`. `a || b` on strings is `OrElse`. A JavaScript `length` counts UTF-16 code units: `JsLength` counts two for a character above U+FFFF, and every length rule of the model uses it. An input's `maxLength` keeps the longest prefix that fits (`TakeUnits`).

## Model

| member | source | states |
|---|---|---|
| App.IsValidRoute | src/App.jsx:23-42 | the navigation bar and footer show exactly on the seven listed pathnames and on `/producto/` followed by one or more decimal digits |
| App.ProductPagesShown | src/App.jsx:40-41 | every `/producto/<digits>` page shows the navigation bar |
| App.AuthPagesHidden | src/App.jsx:23-42 | `/log-in`, `/register` and a product path with a non-numeric id hide it |
| App.PlaceholderOnlyByList | src/App.jsx:31 | the literal `/producto/:id` is shown only because it is listed; it fails the digit pattern |
| App.ProductPathSegments | src/App.jsx:40 | the product-path pattern holds exactly when the pathname splits on `/` into an empty segment, `producto` and a non-empty run of digits |
| AxiosConfig.WithBearer | src/JSX-Components/Services/AxiosConfig.js:10-19 | a truthy stored token sets `Authorization: Bearer <token>`; no token leaves the headers as they were; no other header changes |
| AxiosConfig.StorageAfterReply | src/JSX-Components/Services/AxiosConfig.js:29-35 | a 401 rejection removes the token key and nothing else; any other reply leaves storage unchanged |
| AxiosConfig.InterceptRequest | src/JSX-Components/Services/AxiosConfig.js:8-20 | the same config goes out, with the URL kept and headers equal to `WithBearer` of the stored token |
| AxiosConfig.InterceptResponse | src/JSX-Components/Services/AxiosConfig.js:27-36 | the reply is passed on unchanged, and storage becomes `StorageAfterReply` |
| AxiosConfig.UnauthorizedDropsBearer | src/JSX-Components/Services/AxiosConfig.js:13-14 | after a 401 reply, the next request carries no bearer header |
| AuthContext.LoginErrorMessage | src/JSX-Components/Services/AuthContext.jsx:49-58 | a 401 gives "Credenciales inválidas", a 403 "Usuario no verificado", otherwise the server's message if truthy, else "Error en el servidor"; never empty |
| AuthContext.LoginResult | src/JSX-Components/Services/AuthContext.jsx:34-60 | login resolves exactly when the request succeeds; it yields the data exactly when the token is truthy, and `undefined` otherwise; a rejection throws a non-empty message |
| AuthContext.UserOf | src/JSX-Components/Services/AuthContext.jsx:42-45 | the recorded user holds only the e-mail and name of the reply |
| AuthContext.AuthProvider.constructor | src/JSX-Components/Services/AuthContext.jsx:7-8 | starts with no user and loading |
| AuthContext.AuthProvider.Mount | src/JSX-Components/Services/AuthContext.jsx:11-18 | with a stored token: the start-up request's outcome (user kept, or user and token dropped); without one: nothing but loading cleared |
| AuthContext.AuthProvider.CheckAuth | src/JSX-Components/Services/AuthContext.jsx:21-32 | success records the returned user; failure removes the token and the user, so nobody is authenticated; loading is always cleared |
| AuthContext.AuthProvider.Login | src/JSX-Components/Services/AuthContext.jsx:34-60 | the outcome is `LoginResult(reply)`; with a token, it is stored and the user recorded, so the user is authenticated; otherwise the user is unchanged and storage changes only as the interceptor makes it |
| AuthContext.AuthProvider.Logout | src/JSX-Components/Services/AuthContext.jsx:62-65 | token and user removed, so nobody is authenticated; loading unchanged |
| CartContext.AddLine | src/JSX-Components/Services/CartContext.jsx:10-22 | a new product is appended with quantity 1 after the old lines; an existing one has exactly its line(s) raised by one, with order and products kept |
| CartContext.RemoveId | src/JSX-Components/Services/CartContext.jsx:27 | the result keeps, in order, exactly the lines of other products; a cart without the product is returned unchanged |
| CartContext.LinesOfUnique | src/JSX-Components/Services/CartContext.jsx:11-21 | in a cart with unique ids, a product has one line if present and none otherwise |
| CartContext.TotalAfterIncrement | src/JSX-Components/Services/CartContext.jsx:14-18 | the increment map adds one unit per matching line |
| CartContext.TotalAfterAdd | src/JSX-Components/Services/CartContext.jsx:9-24 | `addToCart` raises `getTotalItems` by exactly one |
| CartContext.TotalAfterRemove | src/JSX-Components/Services/CartContext.jsx:26-28 | `removeFromCart` lowers the total by exactly the product's units |
| CartContext.TotalAfterSetQuantity | src/JSX-Components/Services/CartContext.jsx:36-40 | setting a quantity replaces the product's units by the new quantity per line |
| CartContext.TotalBounds | src/JSX-Components/Services/CartContext.jsx:48-50 | the total is at least the number of lines, and 0 exactly for an empty cart |
| CartContext.AddLinePreserves | src/JSX-Components/Services/CartContext.jsx:10-22 | adding keeps ids unique and quantities at least 1 |
| CartContext.RemoveIdPreserves | src/JSX-Components/Services/CartContext.jsx:27 | removing keeps ids unique and quantities at least 1 |
| CartContext.CartStore.constructor | src/JSX-Components/Services/CartContext.jsx:6-7 | an empty, closed cart |
| CartContext.CartStore.AddToCart | src/JSX-Components/Services/CartContext.jsx:9-24 | lines become `AddLine` of the old lines, the panel opens, and the invariant holds |
| CartContext.CartStore.RemoveFromCart | src/JSX-Components/Services/CartContext.jsx:26-28 | lines become `RemoveId` of the old lines; the panel flag is unchanged |
| CartContext.CartStore.UpdateQuantity | src/JSX-Components/Services/CartContext.jsx:30-41 | a quantity of 0 or less removes the product; a positive one sets it on the matching line, keeping the number of lines, and changes nothing for an absent product |
| CartContext.CartStore.ClearCart | src/JSX-Components/Services/CartContext.jsx:43-46 | no lines, panel closed |
| CartContext.CartStore.SetIsOpen | src/JSX-Components/Services/CartContext.jsx:7 | sets only the panel flag |
| CartContext.CartStore.GetTotalItems | src/JSX-Components/Services/CartContext.jsx:48-50 | the summed quantity is at least the number of lines, and 0 exactly for an empty cart |
| Carousel.NextIndex | src/JSX-Components/Pagina-inicio/Carousel.jsx:51 | for a valid index, the next one stays in range and equals `(i + 1) mod n` |
| Carousel.PrevIndex | src/JSX-Components/Pagina-inicio/Carousel.jsx:40 | for a valid index, the previous one stays in range and equals `(i - 1) mod n` |
| Carousel.NextPrevInverse | src/JSX-Components/Pagina-inicio/Carousel.jsx:36-56 | back undoes forward, and forward undoes back |
| Carousel.AdvanceWraps | src/JSX-Components/Pagina-inicio/Carousel.jsx:51 | up to `n` forward steps wrap past the last slide at most once |
| Carousel.FullCycle | src/JSX-Components/Pagina-inicio/Carousel.jsx:51 | `n` forward steps return to the starting slide |
| Carousel.Slides.constructor | src/JSX-Components/Pagina-inicio/Carousel.jsx:31-32 | starts at slide 0, not moving |
| Carousel.Slides.TrackOffsetPercent | src/JSX-Components/Pagina-inicio/Carousel.jsx:72 | the track shifts by a whole number of slide widths, between 0 and `(n - 1) * 100` percent |
| Carousel.Slides.GoToPrevious | src/JSX-Components/Pagina-inicio/Carousel.jsx:36-45 | ignored while moving; otherwise moves to `PrevIndex` and locks the arrows |
| Carousel.Slides.GoToNext | src/JSX-Components/Pagina-inicio/Carousel.jsx:47-56 | ignored while moving; otherwise moves to `NextIndex` and locks the arrows |
| Carousel.Slides.TransitionEnded | src/JSX-Components/Pagina-inicio/Carousel.jsx:42-44 | the timer unlocks the arrows and keeps the index |
| Carousel.Slides.AutoAdvance | src/JSX-Components/Pagina-inicio/Carousel.jsx:59-65 | the interval moves to `NextIndex` whatever the lock says, and keeps the index in range |
| Carousel.Slides.SetIndex | src/JSX-Components/Pagina-inicio/Carousel.jsx:13 | a dot click selects that slide |
| Carousel.NextThenPrevious | src/JSX-Components/Pagina-inicio/Carousel.jsx:36-56 | forward, the release timer, then back returns to the starting slide |
| CartPage.FoldIsSum | src/JSX-Components/Cart.jsx:16 | the `reduce` left fold from an accumulator equals the accumulator plus the line-by-line sum of amounts |
| CartPage.CalculateSubtotal | src/JSX-Components/Cart.jsx:15-17 | the subtotal is the sum of price times quantity over the lines, 0 for an empty cart |
| CartPage.SumAfterIncrement | src/JSX-Components/Cart.jsx:112 | raising a product's lines by one adds their unit prices to the sum |
| CartPage.SumAfterRemove | src/JSX-Components/Cart.jsx:123 | dropping a product's lines takes their amounts off the sum |
| CartPage.OnlyLine | src/JSX-Components/Cart.jsx:84-85 | in a cart with unique ids, a listed product's price and amount are those of its single line |
| CartPage.SubtotalAfterPlus | src/JSX-Components/Cart.jsx:112 | the plus button raises the subtotal by exactly that product's unit price |
| CartPage.SubtotalAfterMinus | src/JSX-Components/Cart.jsx:123 | the minus button takes that whole line's amount off the subtotal (it removes the line, not one unit) |
| CartPage.CartPanel.constructor | src/JSX-Components/Cart.jsx:10-11 | the panel reads the given store |
| CartPage.CartPanel.Subtotal | src/JSX-Components/Cart.jsx:147-156 | the shown subtotal is the sum of line amounts of the store |
| CartPage.CartPanel.Plus | src/JSX-Components/Cart.jsx:111-116 | `addToCart(product)` on a listed line: the store's `AddLine`, subtotal up by the unit price, summary still shown, and the cart panel open as `addToCart` leaves it |
| CartPage.CartPanel.Minus | src/JSX-Components/Cart.jsx:122-127 | `removeFromCart(id)`: the store's `RemoveId`, the line's amount off the subtotal, one line fewer, the open flag unchanged |
| CartPage.CartPanel.Trash | src/JSX-Components/Cart.jsx:130-135 | `clearCart` empties the whole cart whichever line was clicked: subtotal 0, summary hidden, panel closed |
| CartPage.RemovedOneLine | src/JSX-Components/Cart.jsx:123 | removing a product present once shortens the cart by exactly one line |
| CartPage.NeverRendersAsWritten | src/JSX-Components/Cart.jsx:11-82 | as written, rendering the panel throws a `TypeError` whatever the cart holds, since the context supplies no `cart` and `cart.length` is read |
| CartPage.WiredRenders | src/JSX-Components/Cart.jsx:20-21 | wired to the context's `isOpen` and `cartItems`, the panel renders, shows exactly while the store is open, and then lists every line |
| CartPage.AddedProductListed | src/JSX-Components/Cart.jsx:82-84 | after `addToCart`, the open panel lists the added product and every product listed before |
| CartPage.CartPanel.Close | src/JSX-Components/Cart.jsx:55-58 | the close button closes the dialog, which then lists nothing; the cart's lines are kept |
| CatalogoOfertas.Prepared | src/JSX-Components/Pagina-inicio/CatalogoOfertas.jsx:26-31 | only on-sale products, one per on-sale product of the reply |
| CatalogoOfertas.Selected | src/JSX-Components/Pagina-inicio/CatalogoOfertas.jsx:33 | the first `min(9, length)` products of the shuffled list |
| CatalogoOfertas.Offers.constructor | src/JSX-Components/Pagina-inicio/CatalogoOfertas.jsx:8-10 | no products, loading, no error |
| CatalogoOfertas.Offers.Load | src/JSX-Components/Pagina-inicio/CatalogoOfertas.jsx:22-45 | on success: at most nine products, all on sale and drawn from the prepared list, in the shuffled order; loading and error cleared. On failure: loading and error both set, products kept |
| CatalogoOfertas.ShownAreOnSaleUploads | src/JSX-Components/Pagina-inicio/CatalogoOfertas.jsx:27-31 | every prepared product is an on-sale product of the reply with the uploads prefix on its image |
| Checkout.LineAmounts | src/JSX-Components/Checkout/Checkout.jsx:25-35 | one amount per line, in order, each price times quantity |
| Checkout.TotalPrice | src/JSX-Components/Checkout/Checkout.jsx:10 | the `reduce` total; 0 for an empty cart |
| Checkout.TotalIsSumOfShownAmounts | src/JSX-Components/Checkout/Checkout.jsx:10-39 | the total equals the sum of the amounts shown beside the lines |
| Checkout.CheckoutPage.constructor | src/JSX-Components/Checkout/Checkout.jsx:7-8 | reads the given store; nothing navigated yet |
| Checkout.CheckoutPage.Total | src/JSX-Components/Checkout/Checkout.jsx:37-40 | the shown total is the sum of the shown line amounts |
| Checkout.CheckoutPage.ContinueShopping | src/JSX-Components/Checkout/Checkout.jsx:45-50 | "Seguir comprando" navigates to `/` |
| ConfigurarPerfil.ProfileOf | src/JSX-Components/Profile/ConfigurarPerfil.jsx:20-30 | without a user every start value is `''`; with one, its name, phone and identification, each `''` where missing |
| ConfigurarPerfil.Validate | src/JSX-Components/Profile/ConfigurarPerfil.jsx:57-125 | a blank value (after `trim`) gives that form's "no puede estar vacío" message. Otherwise a user name passes; a phone passes exactly when its digits match `^[0-9]{7,15}$` and gets the invalid-phone text otherwise; an identification shorter than 5 UTF-16 code units gets the too-short text and passes otherwise |
| ConfigurarPerfil.UsernameAccepted | src/JSX-Components/Profile/ConfigurarPerfil.jsx:57-60 | a user name is sent exactly when it is not blank |
| ConfigurarPerfil.PhoneAccepted | src/JSX-Components/Profile/ConfigurarPerfil.jsx:83-93 | a phone number is sent exactly when it holds 7 to 15 digits, whatever else it holds; a refused non-blank number gets the invalid-phone message |
| ConfigurarPerfil.IdentificationAccepted | src/JSX-Components/Profile/ConfigurarPerfil.jsx:117-125 | an identification number is sent exactly when it is not blank and at least 5 UTF-16 code units long, spaces included; for text without characters above U+FFFF, at least 5 characters |
| ConfigurarPerfil.FormattedPhoneSentAsTyped | src/JSX-Components/Profile/ConfigurarPerfil.jsx:90-102 | `300-123-4567` passes the phone rule; the body carries the typed text, dashes included |
| ConfigurarPerfil.ProfilePage.constructor | src/JSX-Components/Profile/ConfigurarPerfil.jsx:14-30 | the first tab, no messages, not loading; the shown profile and the edit buffer both start from the user |
| ConfigurarPerfil.ProfilePage.CheckAuthentication | src/JSX-Components/Profile/ConfigurarPerfil.jsx:41-45 | leaves for `/log-in` exactly when nobody is authenticated; nothing but the navigation record may change |
| ConfigurarPerfil.ProfilePage.SelectTab | src/JSX-Components/Profile/ConfigurarPerfil.jsx:161 | the active tab becomes the chosen one, and nothing else may change |
| ConfigurarPerfil.ProfilePage.HandleInputChange | src/JSX-Components/Profile/ConfigurarPerfil.jsx:47-53 | the named field of the edit buffer takes the typed value and its other fields are kept; nothing outside the edit buffer may change |
| ConfigurarPerfil.ProfilePage.SubmitUpdate | src/JSX-Components/Profile/ConfigurarPerfil.jsx:55-144 | an invalid value shows its message and sends nothing. A valid one is sent to the form's endpoint. Success copies it to the shown profile with the success message. Failure shows the server's message or the form's fallback. The 401 interceptor applies and loading ends false. The edit buffer, the tab and the navigation record are outside what it may change |
| ConfigurarPerfil.ProfilePage.Send | src/JSX-Components/Profile/ConfigurarPerfil.jsx:62-78 | the `try`/`catch`/`finally` of a submit, as stated by `Sent` |
| ConfigurarPerfil.ProfilePage.SuccessTimerFired | src/JSX-Components/Profile/ConfigurarPerfil.jsx:72 | the 3-second timer clears the success message, and nothing else may change |
| ConfigurarPerfil.ProfilePage.ErrorTimerFired | src/JSX-Components/Profile/ConfigurarPerfil.jsx:75 | the 3-second timer clears the error message, and nothing else may change |
| ConfigurarPerfil.ProfilePage.GoHome | src/JSX-Components/Profile/ConfigurarPerfil.jsx:177 | the back button navigates to `/`; nothing but the navigation record may change |
| Contacto.ValidEmailHasShape | src/JSX-Components/Contacto/Contacto.jsx:49 | every address the computed test accepts matches `^[A-Z0-9._%+-]+@[A-Z0-9.-]+\.[A-Z]{2,}$` with the `i` flag |
| Contacto.ShapeIsValidEmail | src/JSX-Components/Contacto/Contacto.jsx:49 | every address matching the expression passes the computed test |
| Contacto.ValidEmailMatchesShape | src/JSX-Components/Contacto/Contacto.jsx:49 | the computed test and the expression accept exactly the same addresses |
| Contacto.SubmitError | src/JSX-Components/Contacto/Contacto.jsx:39-55 | the first failing check in the order name, blank e-mail, e-mail pattern, message; none exactly when all pass |
| Contacto.ValidEmailNotBlank | src/JSX-Components/Contacto/Contacto.jsx:46-51 | a well-formed address is never blank |
| Contacto.ContactForm.constructor | src/JSX-Components/Contacto/Contacto.jsx:9-14 | empty fields, no message, not sent |
| Contacto.ContactForm.Shown | src/JSX-Components/Contacto/Contacto.jsx:125 | the line under the form is shown only for a non-empty `error.para` |
| Contacto.ContactForm.HandleChangeNombre | src/JSX-Components/Contacto/Contacto.jsx:16-21 | sets the name; a non-blank value clears the `nombre` key; the shown line never changes |
| Contacto.ContactForm.HandleChangeCorreo | src/JSX-Components/Contacto/Contacto.jsx:23-28 | sets the e-mail; a non-blank value clears the `correo` key; the shown line never changes |
| Contacto.ContactForm.HandleChangeTexto | src/JSX-Components/Contacto/Contacto.jsx:30-35 | sets the message; a non-blank value clears the `correo` key, not one of its own; the shown line never changes |
| Contacto.ContactForm.HandleSubmit | src/JSX-Components/Contacto/Contacto.jsx:37-77 | a failing check records only `para` with that message, keeps the fields and clears the notice. Otherwise the message is handed on, the fields and errors are cleared, and the notice shows |
| Contacto.ContactForm.HideSentNotice | src/JSX-Components/Contacto/Contacto.jsx:74-76 | the 3-second timer hides the notice, and nothing else may change |
| Contacto.SentFormComplete | src/JSX-Components/Contacto/Contacto.jsx:37-65 | a form that is sent had a non-blank name, an address matching the expression and a non-blank message |
| CreateProduct.SubcategoriesFor | src/JSX-Components/Crear-Producto/CreateProduct.jsx:132-157 | the options of the chosen category: three for each category of the menu, `Otro` for `Otro`, none for any other value |
| CreateProduct.SubcategoriesOfMenu | src/JSX-Components/Crear-Producto/CreateProduct.jsx:273-280 | a value gets options exactly when it is one of the seven categories of the menu |
| CreateProduct.NameError | src/JSX-Components/Crear-Producto/CreateProduct.jsx:46-47 | a message exactly when the trimmed name is shorter than 3 UTF-16 code units. A blank name gets `NameRequired` ("El nombre del producto es obligatorio"); a non-blank short one gets `NameTooShort` ("…al menos 3 caracteres") |
| CreateProduct.DescriptionError | src/JSX-Components/Crear-Producto/CreateProduct.jsx:49-52 | a message exactly when the trimmed description is shorter than 10 or longer than 100 UTF-16 code units. A blank one gets `DescriptionRequired`; a non-blank one out of bounds gets `DescriptionOutOfBounds` |
| CreateProduct.PriceError | src/JSX-Components/Crear-Producto/CreateProduct.jsx:54 | `PriceRequired` ("El precio es obligatorio") exactly when the trimmed price is empty |
| CreateProduct.ImageError | src/JSX-Components/Crear-Producto/CreateProduct.jsx:56 | `ImageRequired` exactly when the image is falsy (`null` or `''`; a file is always truthy) |
| CreateProduct.CategoryError | src/JSX-Components/Crear-Producto/CreateProduct.jsx:58-60 | `CategoryRequired` exactly when no category is chosen |
| CreateProduct.ValidateForm | src/JSX-Components/Crear-Producto/CreateProduct.jsx:44-63 | each field has a message exactly when it is missing or out of bounds. The name and description entries are `NameError` and `DescriptionError` of the field, with their per-case texts; price, image and category carry their fixed texts |
| CreateProduct.ValidateFormEmpty | src/JSX-Components/Crear-Producto/CreateProduct.jsx:67-71 | no message at all exactly when every field is within its bounds |
| CreateProduct.ProductForm.constructor | src/JSX-Components/Crear-Producto/CreateProduct.jsx:12-23 | empty fields, no image, no errors, no options, the no-file name, no message |
| CreateProduct.ProductForm.GoToLogin | src/JSX-Components/Crear-Producto/CreateProduct.jsx:26-40 | the sign-in link shown without a user navigates to `/log-in`; nothing but the navigation record may change |
| CreateProduct.ProductForm.Product | src/JSX-Components/Crear-Producto/CreateProduct.jsx:72-80 | the sent product carries the form's fields, with the selected subcategory as `subCategoriaProduct` |
| CreateProduct.ProductForm.SaveProduct | src/JSX-Components/Crear-Producto/CreateProduct.jsx:65-81 | a product is sent exactly when validation finds nothing. It is the form's product, and the errors stay. Otherwise the messages are shown and nothing is sent |
| CreateProduct.ProductForm.SaveSucceeded | src/JSX-Components/Crear-Producto/CreateProduct.jsx:81-100 | after the service resolves, every field is reset, the image becomes `''`, the options are emptied, and the success message shows |
| CreateProduct.ProductForm.HideSuccessMessage | src/JSX-Components/Crear-Producto/CreateProduct.jsx:97-99 | the 3-second timer hides the message, and nothing else may change |
| CreateProduct.ProductForm.HandleChange | src/JSX-Components/Crear-Producto/CreateProduct.jsx:106-171 | each event gives the whole field record (`Fields`) as the old one with one change. The checkbox sets the on-sale flag. A file sets the image and file name. Each named field sets its own value. A category also sets its options to `SubcategoriesFor` and clears the subcategory. An unknown name changes nothing. Errors, navigations and messages are outside what it may change |
| CreateProduct.ProductForm.HandleDrop | src/JSX-Components/Crear-Producto/CreateProduct.jsx:173-182 | a first dropped file that is an image is taken with its name; otherwise only the image message "Solo se permiten archivos de imagen" is set; nothing but the image, the file name and the errors may change |
| CreateProduct.ProductForm.HandleFileChange | src/JSX-Components/Crear-Producto/CreateProduct.jsx:204-217 | an image file is taken with its name and the image message cleared to `''`. A non-image sets the image message. No file resets only the file name; nothing but the image, the file name and the errors may change |
| CreateProduct.ProductForm.HandleRemoveFile | src/JSX-Components/Crear-Producto/CreateProduct.jsx:188-197 | image gone, the no-file name back, the image message reset to `null`; nothing but the image, the file name and the errors may change |
| CreateProductPrice.KeepPriceChars | src/JSX-Components/Crear-Producto/CreateProductPrice.jsx:12 | only digits and points remain, and the text never grows |
| CreateProductPrice.KeepPriceCharsOfPriceChars | src/JSX-Components/Crear-Producto/CreateProductPrice.jsx:12 | text of digits and points passes the filter unchanged |
| CreateProductPrice.KeepPriceCharsAppend | src/JSX-Components/Crear-Producto/CreateProductPrice.jsx:12 | the global replace works character by character: filtering a concatenation is concatenating the filtered parts |
| CreateProductPrice.KeepPriceCharsSingle | src/JSX-Components/Crear-Producto/CreateProductPrice.jsx:12 | a single digit or point is kept, and any other single character is removed |
| CreateProductPrice.KeepPriceCharsIsFilter | src/JSX-Components/Crear-Producto/CreateProductPrice.jsx:12 | the result is a sub-multiset of the input that keeps every digit and point as often as the input has it |
| CreateProductPrice.FormatPrice | src/JSX-Components/Crear-Producto/CreateProductPrice.jsx:11-21 | text without a point is just the filtered text |
| CreateProductPrice.FormatPriceShape | src/JSX-Components/Crear-Producto/CreateProductPrice.jsx:13-19 | with a point: the whole part, one point, then two decimals (one point typed) or all later digits with the extra points dropped |
| CreateProductPrice.FormatPriceWellFormed | src/JSX-Components/Crear-Producto/CreateProductPrice.jsx:11-21 | the formatted price holds only digits and at most one point |
| CreateProductPrice.FormatPriceDecimals | src/JSX-Components/Crear-Producto/CreateProductPrice.jsx:17-19 | with one point, at most two decimals are kept |
| CreateProductPrice.FormatPriceIdempotent | src/JSX-Components/Crear-Producto/CreateProductPrice.jsx:11-21 | while at most one point was typed, formatting the formatted price changes nothing |
| CreateProductPrice.SecondPointKeepsDecimals | src/JSX-Components/Crear-Producto/CreateProductPrice.jsx:14-16 | a second point is dropped and every digit after it kept, past two decimals |
| CreateProductPrice.CutsToTwoDecimals | src/JSX-Components/Crear-Producto/CreateProductPrice.jsx:17-19 | a price with one point keeps exactly its first two decimals |
| CreateProductPrice.ReformatCutsDecimals | src/JSX-Components/Crear-Producto/CreateProductPrice.jsx:11-21 | `1.2345` (the result of typing `1.2.345`) is cut to `1.23` on the next keystroke, so formatting is not idempotent in general |
| CreateProductPrice.PriceInput.constructor | src/JSX-Components/Crear-Producto/CreateProductPrice.jsx:5 | the field starts from the form's value |
| CreateProductPrice.PriceInput.SyncFromForm | src/JSX-Components/Crear-Producto/CreateProductPrice.jsx:7-9 | the effect copies the form's value into the field |
| CreateProductPrice.PriceInput.HandlePriceChange | src/JSX-Components/Crear-Producto/CreateProductPrice.jsx:23-28 | the field and the form's `productPrice` both become the formatted text; every other form field, the form's errors, navigations and success message are kept |
| HistorialCompras.SessionStorage.SetItem | src/JSX-Components/Profile/HistorialCompras.jsx:95-96 | stores the list under the key, other keys unchanged |
| HistorialCompras.StatusText | src/JSX-Components/Profile/HistorialCompras.jsx:111-145 | `completed`, `pending` and `cancelled` get their labels; "Desconocido" exactly for any other status |
| HistorialCompras.StatusTextsDistinct | src/JSX-Components/Profile/HistorialCompras.jsx:111-145 | different known statuses get different labels |
| HistorialCompras.ItemAmount | src/JSX-Components/Profile/HistorialCompras.jsx:352-357 | a one-unit line's amount is its price |
| HistorialCompras.ItemsAmount | src/JSX-Components/Profile/HistorialCompras.jsx:352-357 | the sum of line amounts; 0 for no lines, never negative for non-negative lines |
| HistorialCompras.ItemsAmountAppend | src/JSX-Components/Profile/HistorialCompras.jsx:352-357 | the amount of two runs of lines together is the sum of their amounts, so any split of an order adds up |
| HistorialCompras.SampleTotalsMatchLines | src/JSX-Components/Profile/HistorialCompras.jsx:59-91 | each loaded order's total equals the sum of its line amounts |
| HistorialCompras.ItemsLabel | src/JSX-Components/Profile/HistorialCompras.jsx:284 | "producto" exactly for one item, "productos" otherwise |
| HistorialCompras.NextExpanded | src/JSX-Components/Profile/HistorialCompras.jsx:157-159 | a click unfolds the order exactly when it was not the unfolded one |
| HistorialCompras.NextExpandedTwice | src/JSX-Components/Profile/HistorialCompras.jsx:157-159 | two clicks on the same order restore the earlier state |
| HistorialCompras.InitialOrders | src/JSX-Components/Profile/HistorialCompras.jsx:16-20 | the saved list if the key is present, otherwise none |
| HistorialCompras.PurchaseHistory.constructor | src/JSX-Components/Profile/HistorialCompras.jsx:16-27 | starts with the saved orders; loading and "not yet loaded" exactly when nothing is saved |
| HistorialCompras.PurchaseHistory.Mount | src/JSX-Components/Profile/HistorialCompras.jsx:38-109 | signed out: go to `/log-in` and load nothing. Already loaded: nothing changes. Otherwise the orders are fetched as `FetchOrders` states |
| HistorialCompras.PurchaseHistory.FetchOrders | src/JSX-Components/Profile/HistorialCompras.jsx:51-103 | the orders shown and loading ended. A successful save stores them and marks them loaded. A failing save shows the load error and leaves them unmarked |
| HistorialCompras.PurchaseHistory.ToggleOrder | src/JSX-Components/Profile/HistorialCompras.jsx:157-159 | only the unfolded order changes, to `NextExpanded` |
| HistorialCompras.SavedHistorySkipsLoading | src/JSX-Components/Profile/HistorialCompras.jsx:16-27 | after a successful load, a later visit in the session starts with the orders and without loading |
| IniciarSesion.MessageStatus | src/JSX-Components/InicioSesion/IniciarSesion.jsx:94-115 | a message containing "Credenciales inválidas" gives the wrong-credentials error; else one containing "Usuario no verificado" or "verifica tu correo" the verify-first warning; else one containing "no encontrado" the unknown-user error; any other message is shown as an error as it is. The banner is a warning exactly in the second case, and never empty |
| IniciarSesion.ServerMessageBanner | src/JSX-Components/InicioSesion/IniciarSesion.jsx:94-115 | a failed sign-in whose reply is neither 401 nor 403 and carries a truthy server message is shown as `MessageStatus` of that message |
| IniciarSesion.NotFoundBanner | src/JSX-Components/InicioSesion/IniciarSesion.jsx:105-109 | a reply whose server message is "Usuario no encontrado" is shown as the error "El usuario no existe en el sistema" |
| IniciarSesion.FailuresUseMessage | src/JSX-Components/InicioSesion/IniciarSesion.jsx:94-159 | every failure of `login` reaches the page with a non-empty message and so takes the message branch: the `response.data.error`, 401, 403 and connection fallbacks after it are never shown |
| IniciarSesion.CodeStatus | src/JSX-Components/InicioSesion/IniciarSesion.jsx:116-143 | the server's own message wins when present; the banner is a warning exactly for `USER_NOT_VERIFIED` and never empty |
| IniciarSesion.LoginFailureStatus | src/JSX-Components/InicioSesion/IniciarSesion.jsx:90-159 | a failure always gets an error or warning banner with a non-empty text; a non-empty message decides it through the message branch |
| IniciarSesion.LoginBanner | src/JSX-Components/InicioSesion/IniciarSesion.jsx:49-160 | every failure of `login` ends in an error or warning banner |
| IniciarSesion.CodeDialogNeedsToken | src/JSX-Components/InicioSesion/IniciarSesion.jsx:55-65 | the "2FA required" banner appears exactly when the server asked for a code on an account with 2FA and also sent a token |
| IniciarSesion.SuccessBannerNeedsToken | src/JSX-Components/InicioSesion/IniciarSesion.jsx:67-88 | the success banner appears exactly for a reply with a token that reports success and asks for no code |
| IniciarSesion.UnauthorizedBanner | src/JSX-Components/InicioSesion/IniciarSesion.jsx:94-99 | a 401 reaches the page as "Credenciales inválidas" and is shown as the wrong-credentials text |
| IniciarSesion.ForbiddenBanner | src/JSX-Components/InicioSesion/IniciarSesion.jsx:100-104 | a 403 is shown as the warning to verify the e-mail address first |
| IniciarSesion.UnreachableServerBanner | src/JSX-Components/InicioSesion/IniciarSesion.jsx:110-115 | with no server reply the provider's "Error en el servidor" is shown unchanged as an error |
| IniciarSesion.TokenlessReplyBanner | src/JSX-Components/InicioSesion/IniciarSesion.jsx:50-56 | a reply without a token makes `login` resolve `undefined`; reading it throws, and that TypeError's text takes the message branch |
| IniciarSesion.VerifyFailure | src/JSX-Components/InicioSesion/IniciarSesion.jsx:180-203 | nothing is thrown exactly when `login` resolved a successful result. What `login` threw is thrown again with its own message. A result still asking for 2FA throws `InvalidCode` ("Código 2FA inválido…"). Any other result throws `RetryLogin` ("Error al iniciar sesión…") |
| IniciarSesion.VerifyFailureHasMessage | src/JSX-Components/InicioSesion/IniciarSesion.jsx:190-203 | every failure of the code step reaches the dialog with a non-empty message |
| IniciarSesion.VerifyAcceptsOnlyTokens | src/JSX-Components/InicioSesion/IniciarSesion.jsx:180-188 | the code step succeeds exactly on a reply that carries a token and says `success` |
| IniciarSesion.LoginPage.constructor | src/JSX-Components/InicioSesion/IniciarSesion.jsx:15-24 | empty fields, empty banner, nothing loading, no dialog, no kept credentials |
| IniciarSesion.LoginPage.ApplySearchParams | src/JSX-Components/InicioSesion/IniciarSesion.jsx:30-39 | with `registered=true`, the greeting naming the e-mail parameter (the text "null" when it is missing) and the e-mail field prefilled; otherwise nothing changes |
| IniciarSesion.LoginPage.SetEmail | src/JSX-Components/InicioSesion/IniciarSesion.jsx:353 | only the e-mail field changes |
| IniciarSesion.LoginPage.SetPassword | src/JSX-Components/InicioSesion/IniciarSesion.jsx:381 | only the password field changes |
| IniciarSesion.LoginPage.HandleLogin | src/JSX-Components/InicioSesion/IniciarSesion.jsx:41-161 | the banner is `LoginBanner` of the provider's outcome. A code request keeps the credentials and opens the dialog. A direct success offers 2FA set-up, or goes home when credentials were kept. A reply with a token leaves the user signed in |
| IniciarSesion.LoginPage.ShowLoginOutcome | src/JSX-Components/InicioSesion/IniciarSesion.jsx:55-160 | the same page state as `HandleLogin`, for each outcome of `login` |
| IniciarSesion.LoginPage.LoadingScreenDone | src/JSX-Components/InicioSesion/IniciarSesion.jsx:242-246 | the loading screen closes; banner and navigation unchanged |
| IniciarSesion.LoginPage.Handle2FALoginVerify | src/JSX-Components/InicioSesion/IniciarSesion.jsx:164-205 | without kept credentials nothing happens. Otherwise a success closes the dialog, forgets the credentials, goes home and leaves the user signed in. A failure throws `VerifyFailure` to the dialog and keeps the credentials. The user and stored token change exactly as `login` changes them: a token reply records the user and the token, and the auth loading flag is untouched |
| IniciarSesion.LoginPage.HandleTwoFactorChoice | src/JSX-Components/InicioSesion/IniciarSesion.jsx:207-228 | the offer closes. "google" goes to 2FA set-up with the e-mail only when a token is stored, otherwise it shows the no-session error. Any other choice goes home |
| IniciarSesion.LoginPage.CloseCodeDialog | src/JSX-Components/InicioSesion/IniciarSesion.jsx:251-254 | the dialog closes and the kept credentials are forgotten |
| TwoFactorLoginModal.MaskedEmail | src/JSX-Components/InicioSesion/TwoFactorLoginModal.jsx:26-31 | an empty address shows nothing; an address without `@` is shown as it is |
| TwoFactorLoginModal.MaskLocal | src/JSX-Components/InicioSesion/TwoFactorLoginModal.jsx:29-30 | the local part keeps its length, its first two characters, and every later character becomes `*` |
| TwoFactorLoginModal.MaskedSingleAt | src/JSX-Components/InicioSesion/TwoFactorLoginModal.jsx:26-31 | `user@domain` is shown as the starred local part, `@` and the domain, with the same length as the address |
| TwoFactorLoginModal.MaskedDropsAfterSecondAt | src/JSX-Components/InicioSesion/TwoFactorLoginModal.jsx:27 | the destructuring keeps only the first two pieces, so everything after a second `@` is dropped |
| TwoFactorLoginModal.UnmaskedWithoutDomain | src/JSX-Components/InicioSesion/TwoFactorLoginModal.jsx:28 | an address whose second piece is empty (`a@` or `a@@b`) is shown unmasked |
| TwoFactorLoginModal.CodeInput | src/JSX-Components/InicioSesion/TwoFactorLoginModal.jsx:81-83 | at most six characters, all decimal digits; a typed text of at most six code units that is all digits is kept as it is |
| TwoFactorLoginModal.CodeIsTypedDigits | src/JSX-Components/InicioSesion/TwoFactorLoginModal.jsx:81-83 | `maxLength` keeps the longest prefix of the typed text that fits in six UTF-16 code units (the next character would not fit), and the code is exactly that prefix's digits, in order, none skipped; for text without characters above U+FFFF the prefix is the first six characters |
| TwoFactorLoginModal.CodeDialog.constructor | src/JSX-Components/InicioSesion/TwoFactorLoginModal.jsx:7-8 | empty code and error |
| TwoFactorLoginModal.CodeDialog.ShownEmail | src/JSX-Components/InicioSesion/TwoFactorLoginModal.jsx:26-31 | nothing is shown when the page keeps no credentials |
| TwoFactorLoginModal.CodeDialog.HandleCodeChange | src/JSX-Components/InicioSesion/TwoFactorLoginModal.jsx:83 | the code becomes `CodeInput` of what was typed; nothing else may change |
| TwoFactorLoginModal.CodeDialog.HandleSubmit | src/JSX-Components/InicioSesion/TwoFactorLoginModal.jsx:10-24 | a code that is not six characters shows the length error and changes nothing else: no page field, user or token. Otherwise the page changes exactly as `handle2FALoginVerify` changes it, the user is signed in on success, and the error line is what it throws, or empty. The frame names every field it may touch |
| TwoFAAuth.SetupErrorMessage | src/JSX-Components/InicioSesion/TwoFAAuth.jsx:42-53 | a 409 gives the "already enabled" text; otherwise the body's `error`, then its `message`, then the generic text; never empty |
| TwoFAAuth.QrSource | src/JSX-Components/InicioSesion/TwoFAAuth.jsx:209-211 | no image exactly when the image text is empty; a shown `src` always starts with `data:`, and an image that already does is kept as it is |
| TwoFAAuth.QrSourceIdempotent | src/JSX-Components/InicioSesion/TwoFAAuth.jsx:211 | feeding a computed `src` back in leaves it unchanged |
| TwoFAAuth.SetupPage.constructor | src/JSX-Components/InicioSesion/TwoFAAuth.jsx:12-18 | the e-mail is the router state's e-mail or empty; nothing loading, no secret, no image, empty banner |
| TwoFAAuth.SetupPage.ShownEmail | src/JSX-Components/InicioSesion/TwoFAAuth.jsx:20-26 | nothing is shown without an e-mail |
| TwoFAAuth.SetupPage.ShownSecret | src/JSX-Components/InicioSesion/TwoFAAuth.jsx:227 | the secret when there is one, a row of dots otherwise; never empty |
| TwoFAAuth.SetupPage.RequestSetupData | src/JSX-Components/InicioSesion/TwoFAAuth.jsx:28-57 | a reply sets the secret and the image, or empty texts for missing fields, and shows its description or message as information. A failure keeps them and shows `SetupErrorMessage`. Loading ends either way, and the shared client's 401 handling applies to the stored token |
| TwoFAAuth.SetupPage.HandleCodeChange | src/JSX-Components/InicioSesion/TwoFAAuth.jsx:145-150 | the code becomes `CodeInput` of what was typed, as in the sign-in dialog; nothing else may change |
| TwoFAAuth.SetupPage.HandleVerifyCode | src/JSX-Components/InicioSesion/TwoFAAuth.jsx:59-92 | a code whose trimmed text is shorter than six UTF-16 code units only warns and sends nothing. A six-digit code is sent once. Success shows the success banner, marks success and goes home. Failure shows the server's message or the invalid-code text. Only loading, success, the banner, the navigation record, the request record and storage may change |
| TwoFAAuth.SetupPage.SendCode | src/JSX-Components/InicioSesion/TwoFAAuth.jsx:69-91 | the code is appended to the enable requests and the answer is reported as `HandleVerifyCode` states; it may change no more than `HandleVerifyCode` |
| TwoFAAuth.SetupPage.Leave | src/JSX-Components/InicioSesion/TwoFAAuth.jsx:187-194 | "back home" goes to `/`, "cancel" to `/log-in`; nothing but the navigation record may change |
| Register.OverLimitMessage | src/JSX-Components/InicioSesion/Register.jsx:38-60 | the over-limit text of each field, 40 to 51 characters long |
| Register.LimitMessage | src/JSX-Components/InicioSesion/Register.jsx:16-20 | the limit notice of each field, 59 to 67 characters long |
| Register.OverLimitIsNotLimit | src/JSX-Components/InicioSesion/Register.jsx:16-60 | no over-limit text equals any limit notice |
| Register.OverLimitMessagesDistinct | src/JSX-Components/InicioSesion/Register.jsx:38-60 | two fields share an over-limit text exactly when they are the same field |
| Register.LimitMessagesDistinct | src/JSX-Components/InicioSesion/Register.jsx:16-20 | two fields share a limit notice exactly when they are the same field |
| Register.ErrorAfterChange | src/JSX-Components/InicioSesion/Register.jsx:33-84 | an over-long value shows that field's over-limit text; reaching the limit from below shows its limit notice |
| Register.ChangeClearsOwnMessages | src/JSX-Components/InicioSesion/Register.jsx:42-84 | an accepted change never leaves the field's own over-limit text, nor its limit notice below the limit; the line ends empty, unchanged or as the limit notice |
| Register.ChangeKeepsOtherNotice | src/JSX-Components/InicioSesion/Register.jsx:42-84 | another field's limit notice survives a change that does not reach this field's limit |
| Register.RegisterUser | src/JSX-Components/Services/UserService.jsx:5-24 | resolves exactly for a created reply or a 500 whose body carries the user; every rejection carries a non-empty message |
| Register.RegistrationError | src/JSX-Components/InicioSesion/Register.jsx:124-129 | a 409 gives the "already registered" text, otherwise the thrown message; never empty |
| Register.RegistrationErrorFromService | src/JSX-Components/InicioSesion/Register.jsx:124-129 | since the service always throws a message, the page's fallback text never appears |
| Register.FirstOverLimit | src/JSX-Components/InicioSesion/Register.jsx:95-108 | none exactly when every field is within its limit; otherwise a field over its limit, first in the submit's order |
| Register.WithinLimitsGet | src/JSX-Components/InicioSesion/Register.jsx:12-14 | within limits, each field is bounded by its own limit |
| Register.WithPreservesLimits | src/JSX-Components/InicioSesion/Register.jsx:86-89 | storing a value within its field's limit keeps every field within its limit |
| Register.WideUsernameOverLimit | src/JSX-Components/InicioSesion/Register.jsx:36-40 | a user name of eleven characters above U+FFFF (22 code units) is over the 20-unit limit, both while typing and at submit |
| Register.RegisterPage.constructor | src/JSX-Components/InicioSesion/Register.jsx:23-30 | empty fields within limits, no error, nothing loading |
| Register.RegisterPage.HandleChange | src/JSX-Components/InicioSesion/Register.jsx:33-90 | an over-long value is refused and only sets the over-limit text; otherwise it is stored and the error line becomes `ErrorAfterChange`; every field stays within its limit; lengths are UTF-16 code units; nothing but the fields and the error line may change |
| Register.RegisterPage.HandleSubmit | src/JSX-Components/InicioSesion/Register.jsx:92-136 | a field over its limit only shows its text. An accepted registration completes and goes to `/verify-code` with the e-mail. A rejection shows `RegistrationError`. The loading flag follows the completion flag read at render time |
| ListProducts.FilterProducts | src/JSX-Components/Services/ListProducts.jsx:40-62 | the shown products are, in order, exactly the loaded products that match the search term, the category, the subcategory, the price range and the on-sale filter |
| ListProducts.FilterProductsCounts | src/JSX-Components/Services/ListProducts.jsx:40-62 | counted with repetitions, each matching product is shown as often as it was loaded, and a non-matching one never |
| ListProducts.EmptySearchMatches | src/JSX-Components/Services/ListProducts.jsx:41-43 | an empty search term matches every product |
| ListProducts.DefaultFiltersShowAll | src/JSX-Components/Search/Catalog.jsx:6-12 | with the catalogue's initial filters and an empty search, every product priced within the range is shown, in order |
| ListProducts.CrossedRangeShowsNothing | src/JSX-Components/Services/ListProducts.jsx:55-57 | a minimum above the maximum shows nothing |
| ListProducts.FilterIdempotent | src/JSX-Components/Services/ListProducts.jsx:40-62 | filtering the filtered list again changes nothing |
| ListProducts.OnSaleNarrows | src/JSX-Components/Services/ListProducts.jsx:59 | turning on the on-sale filter leaves exactly the on-sale products of the list shown without it |
| ListProducts.FilterOnSale | src/JSX-Components/Pagina-inicio/CatalogoOfertas.jsx:27 | keeps exactly the on-sale products, and only products of the list |
| ListProducts.WithImageBase | src/JSX-Components/Services/ListProducts.jsx:24-27 | each product keeps its place and every field but the image, which is put under the uploads URL |
| ListProducts.WithImageBaseOnSale | src/JSX-Components/Pagina-inicio/CatalogoOfertas.jsx:27-31 | filtering on sale and then prefixing image URLs gives the same list as doing it the other way round |
| ListProducts.FilterOnSaleAppend | src/JSX-Components/Pagina-inicio/CatalogoOfertas.jsx:27 | the on-sale filter distributes over concatenation |
| ListProducts.ProductList.constructor | src/JSX-Components/Services/ListProducts.jsx:8-10 | no products, loading, no error, and the catalogue's initial filters and empty search |
| ListProducts.ProductList.Shown | src/JSX-Components/Services/ListProducts.jsx:40-62 | the loaded products, in order, that match the current filters and search term, and all of them |
| ListProducts.ProductList.Load | src/JSX-Components/Services/ListProducts.jsx:20-37 | a reply stores the products with full image URLs; a failure sets the error flag; loading ends either way |
| ListProducts.ProductList.HandleSearchChange | src/JSX-Components/Services/ListProducts.jsx:64-66 | only the search term changes |
| ListProducts.ProductList.SetFilters | src/JSX-Components/Search/Catalog.jsx:14-16 | only the filters change |
| ProductsFilter.SubcategoriesFor | src/JSX-Components/Search/ProductsFilter.jsx:16-21 | exactly the four listed categories have options, three each |
| ProductsFilter.FilterPanel.Current | src/JSX-Components/Search/ProductsFilter.jsx:49 | the `filters` object carries the panel's category, subcategory, price range and on-sale flag |
| ProductsFilter.FilterPanel.constructor | src/JSX-Components/Search/ProductsFilter.jsx:4-7 | no category or subcategory, the range 0 to 10 000 000, on-sale off |
| ProductsFilter.FilterPanel.Mount | src/JSX-Components/Search/ProductsFilter.jsx:48-50 | the catalogue's filters become the panel's state, replacing the catalogue's own initial range. The catalogue's products, search term, loading and error flags are unchanged, and only its filters are in the frame |
| ProductsFilter.FilterPanel.SubcategoryMenu | src/JSX-Components/Search/ProductsFilter.jsx:129-133 | the subcategory group shows only for a chosen category with options, three of them |
| ProductsFilter.FilterPanel.HandleCategoryChange | src/JSX-Components/Search/ProductsFilter.jsx:23-29 | the new category with no subcategory, handed to the catalogue together with the unchanged range and flag. Of the catalogue only the filters change: products, search term, loading and error stay |
| ProductsFilter.FilterPanel.HandleSubcategoryChange | src/JSX-Components/Search/ProductsFilter.jsx:31-34 | only the subcategory changes, and the catalogue receives the panel's new state. Of the catalogue only the filters change |
| ProductsFilter.FilterPanel.HandlePriceChange | src/JSX-Components/Search/ProductsFilter.jsx:36-41 | slider 0 moves the minimum and slider 1 the maximum; the catalogue receives the panel's new state. Of the catalogue only the filters change |
| ProductsFilter.FilterPanel.HandleOnSaleChange | src/JSX-Components/Search/ProductsFilter.jsx:43-46 | only the on-sale flag changes, and the catalogue receives the panel's new state. Of the catalogue only the filters change |
| NavBar.PascalCase | src/JSX-Components/navbar.jsx:13-16 | a missing or empty string gives `''`; otherwise the same length, every character after the first kept, the first no longer a lower-case letter, and the same text ignoring case |
| NavBar.PascalCaseIdempotent | src/JSX-Components/navbar.jsx:13-16 | capitalising a capitalised name changes nothing |
| NavBar.UserName | src/JSX-Components/navbar.jsx:86 | the user's name when there is a user with a non-empty name, otherwise `''` |
| NavBar.NavigationBar.constructor | src/JSX-Components/navbar.jsx:22 | the account menu starts closed |
| NavBar.NavigationBar.DisplayName | src/JSX-Components/navbar.jsx:86 | empty when nobody is signed in; as long as the user's name |
| NavBar.NavigationBar.ToggleMenu | src/JSX-Components/navbar.jsx:24-26 | the menu flips between open and closed |
| NavBar.NavigationBar.HandleLogout | src/JSX-Components/navbar.jsx:28-32 | the token is removed and the user forgotten, so nobody is signed in and no name is shown; the menu closes and the page goes to `/log-in`. The auth loading flag is unchanged |
| SessionRevoked.TickValue | src/JSX-Components/Security/SessionRevoked.jsx:17-23 | one tick counts down by one above 1 and drops to 0 otherwise; never negative |
| SessionRevoked.CountsDown | src/JSX-Components/Security/SessionRevoked.jsx:14-27 | the first `c - 1` ticks from `c` count down by one each and do not navigate |
| SessionRevoked.LastTickNavigates | src/JSX-Components/Security/SessionRevoked.jsx:14-27 | from `c >= 1`, the `c`-th tick navigates, exactly once, and leaves the countdown at 0 |
| SessionRevoked.FifthTickNavigates | src/JSX-Components/Security/SessionRevoked.jsx:12-27 | from 5: four silent ticks, then the fifth goes to the sign-in page at 0 |
| SessionRevoked.NeverNegative | src/JSX-Components/Security/SessionRevoked.jsx:17-23 | however many ticks arrive, the countdown stays between 0 and its start |
| SessionRevoked.ViewFor | src/JSX-Components/Security/SessionRevoked.jsx:29-130 | the success view exactly for `status=success`, the error view exactly for `status=error`, otherwise the loading view |
| SessionRevoked.ReasonMessage | src/JSX-Components/Security/SessionRevoked.jsx:79-101 | the text of each known reason; the generic text for any other or missing reason; never empty |
| SessionRevoked.GreetingName | src/JSX-Components/Security/SessionRevoked.jsx:47 | the `user` parameter when non-empty, otherwise "Usuario"; never empty |
| SessionRevoked.RevokedPage.constructor | src/JSX-Components/Security/SessionRevoked.jsx:8-12 | the countdown starts at 5 with no navigation |
| SessionRevoked.RevokedPage.Tick | src/JSX-Components/Security/SessionRevoked.jsx:16-24 | the countdown becomes `TickValue` of the old one, and a tick from 1 or less goes to `/log-in` |
| SessionRevoked.RevokedPage.GoToLogin | src/JSX-Components/Security/SessionRevoked.jsx:68 | goes to `/log-in` |
| SessionRevoked.RevokedPage.ContactSupport | src/JSX-Components/Security/SessionRevoked.jsx:113 | in the error view, goes to `/contacto` |
| Common.OrElse | src/JSX-Components/Security/SessionRevoked.jsx:47 | `a \|\| b` on strings: the first value when it is non-empty, otherwise the second |
| Common.LocalStorage.GetItem | src/JSX-Components/Services/AuthContext.jsx:68 | the stored value exactly when the key is present |
| Common.LocalStorage.SetItem | src/JSX-Components/Services/AuthContext.jsx:39 | stores the value under the key, other keys unchanged |
| Common.LocalStorage.RemoveItem | src/JSX-Components/Services/AuthContext.jsx:63 | removes the key, other keys unchanged |

## Left out

- Rendering is not modelled: JSX trees, styling, animations and dialog transitions. Only the state a view reads is kept, such as `CartPanel.SummaryShown`, `LoginPage.SubmitDisabled` and `CodeDialog.SubmitEnabled`.
- Console logging is left out everywhere; it changes no state.
- The network is not modelled. Each reply is a parameter of the handler that awaits it. `UserService.jsx` and `ProductServices.jsx` are not part of this model, apart from the way `registerUser` turns a reply into a resolved value or a thrown message (`Register.RegisterUser`).
- Storage is not modelled as browser storage. `localStorage` and `sessionStorage` are map fields. JSON serialisation of the saved order history is replaced by the list itself, since a saved list is always a non-empty, truthy string.
- Timers have no durations. A `setTimeout` or `setInterval` callback is a separate event method. Where the source navigates after a 1.5-second delay (after the 2FA sign-in, 2FA set-up and registration), the model records the navigation when the request completes.
- Randomness is a parameter. The `Math.random` comparator of the offers strip is any rearrangement of the on-sale products, given to `CatalogoOfertas.Offers.Load`.
- Locale-dependent formatting is left out: `Intl.NumberFormat` currency text and `toLocaleDateString`. Case mapping is ASCII only.
- The full-page OAuth redirects through `window.location` on the sign-in and sign-up pages are left out.
- React Router's own matching is left out (case-insensitive paths, trailing slashes). `App.IsValidRoute` models only the component's own test on `location.pathname`.
- `setIsSticky` and the navbar context are left out; they hold one display flag.
- IniciarSesion.LoginBanner: when `login` resolves `undefined`, reading `result.requires2FA` throws a `TypeError` whose text is the JavaScript engine's. The model fixes it to V8's wording (`TypeErrorOnUndefined`).
- Cart.jsx reads `cart`, `isCartOpen` and `closeCart` from the cart context, which provides `cartItems`, `isOpen` and `setIsOpen` instead (see Findings). `CartPage.CartPanel` is wired to the provided keys, as the component evidently intends.
- Cart.jsx and navbar.jsx test the function `isAuthenticated` as if it were a flag; a function is always truthy. The model keeps that: the panel never shows its sign-in prompt, and the navigation bar always shows the account menu, with an empty name when nobody is signed in.
- The navbar's cart badge (`getTotalItems`) and its `openCart` call are left out. The context has no `openCart`, and the total itself is `CartContext.CartStore.GetTotalItems`.
- `TwoFAAuth.SetupPage.ShownEmail` reuses `TwoFactorLoginModal.MaskedEmail`, because TwoFAAuth.jsx:20-26 repeats the same masking expression.
- CreateProduct.ProductForm.HandleChange: a file-input event always carries a file. In the source, an empty file list throws at `files[0].name`.
- CreateProduct.ProductForm.SaveProduct: a rejected save only logs in the source, so the model leaves the form as it was.
- Carousel.Slides.AutoAdvance and Carousel.Slides.TrackOffsetPercent require at least one slide. The carousel's slide list is a fixed, non-empty array; with none, the source would compute `NaN`.
- CatalogoOfertas.Offers.Load: a failed load sets `loading` back to true, as the source does, so the loading text stays beside the error.
- SessionRevoked.ReasonMessage: the lookup `errorMessages[reason]` would also find keys inherited from `Object.prototype`, such as `constructor`. Only the two own keys and the fallback are modelled.
- SessionRevoked.RevokedPage.Tick: after the navigation the page unmounts and the interval is cleared. The model keeps ticking at 0, and each further tick navigates again.
- ProductsFilter.SubcategoriesFor: lookups of inherited `Object.prototype` keys are not modelled; only the four own categories have options.
- Contacto.ContactForm.constructor: the source's initial `error` state is the string `''`, not an object. Reading `error.para` from it gives `undefined`, so no message shows. The model starts with every entry absent, which shows the same thing.
- HistorialCompras.PurchaseHistory.FetchOrders: the orders are the fixed sample list the component loads; no backend is called. A failing session-storage save is the `storageFull` parameter.
- Money amounts are whole pesos (`int`). In the source, prices are JavaScript numbers, the price field accepts two decimals (`CreateProductPrice.FormatPrice`), and `price * quantity` and the `reduce` sums are floating point; the model's sums are exact.
- TwoFactorLoginModal.MaskedEmail: `slice(0, 2)` and `length` are taken in characters, not UTF-16 code units. The two differ only for addresses with characters above U+FFFF.
- Register.RegisterPage.HandleChange: the inputs' `maxLength` attributes (Register.jsx:190, 208, 226) are not modelled, so any typed value reaches the handler and its over-limit branch is reachable.

## Findings

| source | as written | input that shows it | evidently intended | confidence | as-written member | corrected member |
|---|---|---|---|---|---|---|
| src/JSX-Components/Cart.jsx:11 | takes `cart`, `isCartOpen` and `closeCart` from `useCart()`, which supplies none of them; `cart.length` at line 82 then reads from `undefined` | any cart, such as the empty one at start-up (App.jsx mounts the panel on every page) | `cartItems`, `isOpen` and `() => setIsOpen(false)` | high, not executed | CartPage.NeverRendersAsWritten | CartPage.WiredRenders |
