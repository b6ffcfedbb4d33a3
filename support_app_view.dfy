/**
 * The state of the support screen (`SupportAppView`): the catalog it shows,
 * the purchase that may be in flight and the two alerts, with the steps that
 * change them. The store itself is outside the model: what it returns is a
 * parameter of the step that receives it.
 */
module SupportApp {
  import opened Wrappers
  import opened TipJar
  import opened Catalog

  /** How a call to the store's `purchase(product:)` ends. */
  datatype PurchaseOutcome =
    | Completed   // returned, and the user did not cancel
    | Cancelled   // returned with `userCancelled` set
    | Threw       // threw an error

  /** The part of the store's customer record the screen reads. */
  datatype CustomerInfo = CustomerInfo(activeEntitlements: set<string>)

  /** `customerInfo?.entitlements.active.isEmpty`: absent when there is no record. */
  function ActiveIsEmpty(info: Option<CustomerInfo>): (r: Option<bool>)
    ensures r.None? <==> info.None?
  {
    match info
    case None => None
    case Some(c) => Some(c.activeEntitlements == {})
  }

  /** The condition of the "subscribed" badge: `... .isEmpty == false`. */
  predicate IsSubscribed(info: Option<CustomerInfo>): (subscribed: bool)
    ensures subscribed <==> info.Some? && info.value.activeEntitlements != {}
  {
    ActiveIsEmpty(info) == Some(false)
  }

  /** The condition of the subscription footer: `... .isEmpty == true`. */
  predicate ShowsSubscriptionInfo(info: Option<CustomerInfo>): (shown: bool)
    ensures shown <==> info.Some? && info.value.activeEntitlements == {}
  {
    ActiveIsEmpty(info) == Some(true)
  }

  /**
   * The badge's condition and the footer's never hold together, and neither
   * holds before any record has arrived.
   */
  lemma SubscriptionDisplay(info: Option<CustomerInfo>)
    ensures !(IsSubscribed(info) && ShowsSubscriptionInfo(info))
    ensures !IsSubscribed(info) && !ShowsSubscriptionInfo(info) <==> info.None?
  {
  }

  class SupportAppView {
    var loadingProducts: bool
    var products: seq<Product>
    var subscription: Option<Product>
    var isProcessingPurchase: bool
    var purchaseSuccessDisplayed: bool
    var purchaseErrorDisplayed: bool

    /** The shown tips are price-ordered and never the subscription; the subscription is the supporter product. */
    ghost predicate Valid()
      reads this
    {
      && SortedByPrice(products)
      && (forall i :: 0 <= i < |products| ==> products[i].id != SupporterId())
      && (subscription.Some? ==> subscription.value.id == SupporterId())
    }

    /**
     * The subscription row shows the "subscribed" badge: loading is over, a
     * supporter product came back and the record has an active entitlement.
     */
    predicate ShowsSubscribedBadge(info: Option<CustomerInfo>): (shown: bool)
      reads this
      ensures shown <==> !loadingProducts && subscription.Some? && info.Some? && info.value.activeEntitlements != {}
    {
      !loadingProducts && subscription.Some? && IsSubscribed(info)
    }

    /**
     * The subscription row offers the supporter product's purchase button
     * instead: loading is over, a supporter product came back and the badge's
     * condition fails, which includes the case where no record has arrived.
     */
    predicate OffersSubscription(info: Option<CustomerInfo>): (offered: bool)
      reads this
      ensures offered <==> !loadingProducts && subscription.Some? && (info.None? || info.value.activeEntitlements == {})
    {
      !loadingProducts && subscription.Some? && !IsSubscribed(info)
    }

    /** The `@State` initial values. */
    constructor ()
      ensures Valid()
      ensures !loadingProducts && products == [] && subscription == None
      ensures !isProcessingPurchase && !purchaseSuccessDisplayed && !purchaseErrorDisplayed
    {
      loadingProducts := false;
      products := [];
      subscription := None;
      isProcessingPurchase := false;
      purchaseSuccessDisplayed := false;
      purchaseErrorDisplayed := false;
    }

    /** `onAppear`: start loading and ask the store for every tier's product. */
    method OnAppear() returns (requested: seq<string>)
      requires Valid()
      modifies this
      ensures Valid()
      ensures loadingProducts
      ensures requested == RequestedIds()
      ensures products == old(products) && subscription == old(subscription)
      ensures isProcessingPurchase == old(isProcessingPurchase)
      ensures purchaseSuccessDisplayed == old(purchaseSuccessDisplayed)
      ensures purchaseErrorDisplayed == old(purchaseErrorDisplayed)
    {
      loadingProducts := true;
      requested := RequestedIds();
    }

    /** The `getProducts` callback of `fetchStoreProducts`, given what the store returned. */
    method ReceiveProducts(returned: seq<Product>)
      modifies this
      ensures Valid()
      ensures !loadingProducts
      ensures subscription == FirstWithId(returned, SupporterId())
      ensures products == Tips(returned)
      ensures forall p :: multiset(products)[p] == if p.id == SupporterId() then 0 else multiset(returned)[p]
      ensures isProcessingPurchase == old(isProcessingPurchase)
      ensures purchaseSuccessDisplayed == old(purchaseSuccessDisplayed)
      ensures purchaseErrorDisplayed == old(purchaseErrorDisplayed)
    {
      subscription := FirstWithId(returned, SupporterId());
      products := Tips(returned);
      loadingProducts := false;
    }

    /**
     * The synchronous start of `purchase(product:)`: claim the single
     * purchase slot, or do nothing when a purchase is already in flight.
     */
    method BeginPurchase() returns (started: bool)
      requires Valid()
      modifies this
      ensures Valid()
      ensures started <==> !old(isProcessingPurchase)
      ensures !started ==> unchanged(this)
      ensures isProcessingPurchase
      ensures loadingProducts == old(loadingProducts)
      ensures products == old(products) && subscription == old(subscription)
      ensures purchaseSuccessDisplayed == old(purchaseSuccessDisplayed)
      ensures purchaseErrorDisplayed == old(purchaseErrorDisplayed)
    {
      started := !isProcessingPurchase;
      if started {
        isProcessingPurchase := true;
      }
    }

    /**
     * The rest of `purchase(product:)`, once the store's call has ended:
     * raise the alert the outcome calls for and release the slot, on every
     * path.
     */
    method FinishPurchase(outcome: PurchaseOutcome)
      requires Valid()
      modifies this
      ensures Valid()
      ensures !isProcessingPurchase
      ensures purchaseSuccessDisplayed <==> old(purchaseSuccessDisplayed) || outcome == Completed
      ensures purchaseErrorDisplayed <==> old(purchaseErrorDisplayed) || outcome == Threw
      ensures loadingProducts == old(loadingProducts)
      ensures products == old(products) && subscription == old(subscription)
    {
      match outcome {
        case Completed =>
          purchaseSuccessDisplayed := true;
        case Cancelled =>
        case Threw =>
          purchaseErrorDisplayed := true;
      }
      isProcessingPurchase := false;
    }

    /** `purchase(product:)` with the store's call taken as one step ending in `outcome`. */
    method Purchase(outcome: PurchaseOutcome)
      requires Valid()
      modifies this
      ensures Valid()
      ensures old(isProcessingPurchase) ==> unchanged(this)
      ensures !old(isProcessingPurchase) ==>
        && !isProcessingPurchase
        && (purchaseSuccessDisplayed <==> old(purchaseSuccessDisplayed) || outcome == Completed)
        && (purchaseErrorDisplayed <==> old(purchaseErrorDisplayed) || outcome == Threw)
      ensures !((purchaseSuccessDisplayed && !old(purchaseSuccessDisplayed)) &&
                (purchaseErrorDisplayed && !old(purchaseErrorDisplayed)))
      ensures loadingProducts == old(loadingProducts)
      ensures products == old(products) && subscription == old(subscription)
    {
      var started := BeginPurchase();
      if started {
        FinishPurchase(outcome);
      }
    }

    /** The OK button of the success alert. */
    method DismissSuccessAlert()
      requires Valid()
      modifies this`purchaseSuccessDisplayed
      ensures Valid()
      ensures !purchaseSuccessDisplayed
    {
      purchaseSuccessDisplayed := false;
    }

    /** The OK button of the error alert. */
    method DismissErrorAlert()
      requires Valid()
      modifies this`purchaseErrorDisplayed
      ensures Valid()
      ensures !purchaseErrorDisplayed
    {
      purchaseErrorDisplayed := false;
    }
  }

  /** The row of each state of the subscription section (lines 158-185). */
  lemma SubscriptionRow(view: SupportAppView, info: Option<CustomerInfo>)
    ensures !(view.ShowsSubscribedBadge(info) && view.OffersSubscription(info))
    ensures view.ShowsSubscribedBadge(info) || view.OffersSubscription(info) <==>
            !view.loadingProducts && view.subscription.Some?
  {
  }

  /** The subscription row is always for a product that decodes to the supporter tier. */
  lemma SubscriptionIsSupporterTier(view: SupportAppView)
    requires view.Valid()
    ensures view.subscription.Some? ==>
      CanDecode(view.subscription.value.id) && Decode(view.subscription.value.id) == Supporter
  {
  }

  /**
   * The tips section decodes each shown product (lines 199-200). When those
   * products carry requested identifiers, no decode traps and none yields
   * the supporter tier.
   */
  lemma TipRowsDecode(view: SupportAppView)
    requires view.Valid()
    requires forall i :: 0 <= i < |view.products| ==> view.products[i].id in RequestedIds()
    ensures forall i :: 0 <= i < |view.products| ==>
      CanDecode(view.products[i].id) && Decode(view.products[i].id) != Supporter
  {
    RequestedIdsAreTheTiers();
    forall i | 0 <= i < |view.products|
      ensures CanDecode(view.products[i].id) && Decode(view.products[i].id) != Supporter
    {
      var t :| ProductId(t) == view.products[i].id;
      DecodeProductId(t);
    }
  }

  /**
   * A client of the screen: a second tap while a purchase is in flight is
   * dropped, a cancelled purchase raises no alert, a failed one raises the
   * error alert only, and the slot is free again after each.
   */
  method PurchaseScenarios()
  {
    var view := new SupportAppView();
    var requested := view.OnAppear();
    assert view.loadingProducts && |requested| == 5;
    view.ReceiveProducts([]);
    assert !view.loadingProducts && view.products == [] && view.subscription == None;

    var first := view.BeginPurchase();
    var second := view.BeginPurchase();
    assert first && !second && view.isProcessingPurchase;
    view.FinishPurchase(Completed);
    assert !view.isProcessingPurchase && view.purchaseSuccessDisplayed && !view.purchaseErrorDisplayed;
    view.DismissSuccessAlert();

    view.Purchase(Cancelled);
    assert !view.isProcessingPurchase && !view.purchaseSuccessDisplayed && !view.purchaseErrorDisplayed;

    view.Purchase(Threw);
    assert !view.isProcessingPurchase && !view.purchaseSuccessDisplayed && view.purchaseErrorDisplayed;
    view.DismissErrorAlert();
    assert !view.purchaseErrorDisplayed;

    assert IsSubscribed(Some(CustomerInfo({"supporter"})));
  }
}
