/** The quantity selector and add-to-cart state of src/screens/ProductDetailScreen.js. */
module ProductDetailScreen {

  class ProductDetail {
    var quantity: int
    var showSuccessMessage: bool
    var imageError: bool

    ghost predicate Valid()
      reads this
    {
      quantity >= 1
    }

    constructor ()
      ensures quantity == 1 && !showSuccessMessage && !imageError
      ensures Valid()
    {
      quantity := 1;
      showSuccessMessage := false;
      imageError := false;
    }

    /** increaseQuantity: one more. */
    method IncreaseQuantity()
      requires Valid()
      modifies this
      ensures Valid()
      ensures quantity == old(quantity) + 1
      ensures showSuccessMessage == old(showSuccessMessage) && imageError == old(imageError)
    {
      quantity := quantity + 1;
    }

    /** decreaseQuantity: one fewer, only above 1. */
    method DecreaseQuantity()
      requires Valid()
      modifies this
      ensures Valid()
      ensures quantity == if old(quantity) > 1 then old(quantity) - 1 else old(quantity)
      ensures showSuccessMessage == old(showSuccessMessage) && imageError == old(imageError)
    {
      if quantity > 1 {
        quantity := quantity - 1;
      }
    }

    /** handleAddToBag: show the toast; the quantity stays. */
    method HandleAddToBag()
      requires Valid()
      modifies this
      ensures Valid()
      ensures showSuccessMessage
      ensures quantity == old(quantity) && imageError == old(imageError)
    {
      showSuccessMessage := true;
    }

    /** setShowSuccessMessage as handed to the toast, which hides itself with it. */
    method SetShowSuccessMessage(v: bool)
      requires Valid()
      modifies this
      ensures Valid()
      ensures showSuccessMessage == v
      ensures quantity == old(quantity) && imageError == old(imageError)
    {
      showSuccessMessage := v;
    }

    /** The image's onError: from then on the placeholder is shown; nothing resets it. */
    method OnImageError()
      requires Valid()
      modifies this
      ensures Valid()
      ensures imageError
      ensures quantity == old(quantity) && showSuccessMessage == old(showSuccessMessage)
    {
      imageError := true;
    }

    /** The '-' control's `disabled`. An enabled '-' always really decrements. */
    function DecrementDisabled(): (d: bool)
      reads this
      requires Valid()
      ensures d <==> quantity == 1 || showSuccessMessage
      ensures !d ==> quantity > 1
    {
      quantity == 1 || showSuccessMessage
    }

    /** The '+' control's `disabled`. */
    function IncrementDisabled(): bool
      reads this
    {
      showSuccessMessage
    }

    /** ADD TO CART's `disabled`. */
    function AddToCartDisabled(): bool
      reads this
    {
      showSuccessMessage
    }
  }

  /** The toast locks every control while it shows; without it, '+' and ADD TO CART are
      enabled and '-' is disabled only at quantity 1. */
  lemma ToastLocksControls(p: ProductDetail)
    requires p.Valid()
    ensures p.showSuccessMessage ==> p.DecrementDisabled() && p.IncrementDisabled() && p.AddToCartDisabled()
    ensures !p.showSuccessMessage ==>
      !p.IncrementDisabled() && !p.AddToCartDisabled() && (p.DecrementDisabled() <==> p.quantity == 1)
  {
  }
}
