/** The product list screen of src/screens/ProductsScreen.js: `products` is replaced only by
    a successful load, and the error banner takes the grid's place while there is an error. */
module ProductsScreen {
  import opened Wrappers
  import opened ErrorHandler
  import ErrorUtils
  import opened ProductGrid

  /** What the screen's content area shows. */
  datatype Content = ErrorBanner(info: ErrorInfo) | Grid(products: seq<Product>, loading: bool)

  class ProductsScreen {
    var products: seq<Product>
    const handler: Handler

    ghost predicate Valid()
      reads this, handler
    {
      handler.customMessages == ErrorUtils.ProductsMessages && handler.Valid()
    }

    constructor ()
      ensures products == [] && fresh(handler)
      ensures handler.State() == HookState(None, false)
      ensures Valid()
    {
      products := [];
      handler := new Handler(ErrorUtils.ProductsMessages);
    }

    /** loadProducts. `fetched` is how GET /products settles. The list is replaced by
        exactly the returned one on success and kept on failure; nothing is thrown. */
    method LoadProducts(fetched: Result<seq<Product>, Fault>, timestamp: string)
      requires Valid()
      modifies this, handler
      ensures Valid()
      ensures products == if fetched.Success? then fetched.value else old(products)
      ensures handler.State() == HookState(
        if fetched.Failure? then Some(handler.Describe(fetched.error, "Product loading", timestamp)) else None,
        false)
    {
      var data, _ := handler.ExecuteWithErrorHandling(fetched, "Product loading", timestamp);
      if data.Success? {
        products := data.value;
      }
    }

    /** The banner's onRetry: loadProducts again. */
    method OnRetry(fetched: Result<seq<Product>, Fault>, timestamp: string)
      requires Valid()
      modifies this, handler
      ensures Valid()
      ensures products == if fetched.Success? then fetched.value else old(products)
      ensures handler.State() == HookState(
        if fetched.Failure? then Some(handler.Describe(fetched.error, "Product loading", timestamp)) else None,
        false)
    {
      LoadProducts(fetched, timestamp);
    }

    /** The grid's pull-to-refresh: loadProducts again. */
    method OnRefresh(fetched: Result<seq<Product>, Fault>, timestamp: string)
      requires Valid()
      modifies this, handler
      ensures Valid()
      ensures products == if fetched.Success? then fetched.value else old(products)
      ensures handler.State() == HookState(
        if fetched.Failure? then Some(handler.Describe(fetched.error, "Product loading", timestamp)) else None,
        false)
    {
      LoadProducts(fetched, timestamp);
    }

    /** The content: the banner for a non-null error, else the grid. */
    function Shown(): (c: Content)
      reads this, handler
      ensures c.ErrorBanner? <==> handler.error.Some?
      ensures c.ErrorBanner? ==> c.info == handler.error.value
      ensures c.Grid? ==> c.products == products && c.loading == handler.isLoading
    {
      if handler.error.Some? then ErrorBanner(handler.error.value) else Grid(products, handler.isLoading)
    }
  }

  /** Under the PRODUCTS overrides a dropped connection reads 'Could not load products.
      Please check your connection.' when the fault carries no message of its own; a fault
      that does carry one shows that message instead. */
  lemma ConnectionLostMessage(f: Fault)
    requires f.response.None? && f.request
    ensures GetErrorMessage(f, ErrorUtils.ProductsMessages) ==
      if f.HasMessage() then f.message.value
      else "Could not load products. Please check your connection."
  {
  }
}
