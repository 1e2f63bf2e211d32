/** The order list of src/pages/AdminCommandes.tsx: a status filter, a case-insensitive
    search on order number and client, and the badge style of each status. */
module AdminCommandes {
  import opened Wrappers
  import opened Seqs
  import opened Text

  /** An order row as the admin pages read it; a missing column is `None`. */
  datatype Order = Order(
    id: string, orderNumber: Option<string>, clientRef: Option<string>, status: Option<string>)

  /** The status filter value that keeps every status. */
  const AnyStatus := "tous"

  /** `matchStatut`. */
  predicate StatusMatches(o: Order, statusFilter: string) {
    statusFilter == AnyStatus || o.status == Some(statusFilter)
  }

  /** `field?.toLowerCase().includes(recherche.toLowerCase())`: a missing field never matches. */
  predicate FieldMatches(field: Option<string>, search: string) {
    field.Some? && Contains(Lower(field.value), Lower(search))
  }

  /** `matchRecherche`: an empty search keeps everything. */
  predicate SearchMatches(o: Order, search: string) {
    search == "" || FieldMatches(o.orderNumber, search) || FieldMatches(o.clientRef, search)
  }

  /** The filter callback of `commandesFiltrees`. */
  function Keeps(statusFilter: string, search: string): Order -> bool {
    (o: Order) => StatusMatches(o, statusFilter) && SearchMatches(o, search)
  }

  /** `commandesFiltrees`: the orders passing both tests; an undefined list gives []. */
  function FilteredOrders(orders: Option<seq<Order>>, statusFilter: string, search: string): (r: seq<Order>)
    ensures orders.None? ==> r == []
    ensures forall i :: 0 <= i < |r| ==> (
      && orders.Some? && r[i] in orders.value
      && StatusMatches(r[i], statusFilter) && SearchMatches(r[i], search))
    ensures orders.Some? ==>
      forall i | 0 <= i < |orders.value| ::
        StatusMatches(orders.value[i], statusFilter) && SearchMatches(orders.value[i], search) ==>
        orders.value[i] in r
  {
    match orders
    case None => []
    case Some(os) =>
      var r := Filter(os, Keeps(statusFilter, search));
      assert forall i :: 0 <= i < |r| ==> Keeps(statusFilter, search)(r[i]);
      r
  }

  /** With status "tous" and an empty search the list is shown unchanged; any filter shows an
      order-preserving subsequence of it, whose statuses all equal a status filter. */
  lemma FilteredOrdersShape(os: seq<Order>, statusFilter: string, search: string)
    ensures FilteredOrders(Some(os), AnyStatus, "") == os
    ensures IsSubsequence(FilteredOrders(Some(os), statusFilter, search), os)
    ensures statusFilter != AnyStatus ==>
      forall o :: o in FilteredOrders(Some(os), statusFilter, search) ==> o.status == Some(statusFilter)
  {
    FilterKeepsAll(os, Keeps(AnyStatus, ""));
    FilterIsSubsequence(os, Keeps(statusFilter, search));
  }

  /** A non-empty search keeps an order exactly when the lower-cased query occurs at some
      position of its lower-cased order number or client; missing fields never match. */
  lemma SearchMeaning(o: Order, search: string)
    requires search != ""
    ensures SearchMatches(o, search) <==>
      (o.orderNumber.Some? && exists i :: OccursAt(Lower(o.orderNumber.value), Lower(search), i)) ||
      (o.clientRef.Some? && exists i :: OccursAt(Lower(o.clientRef.value), Lower(search), i))
    ensures o.orderNumber.None? && o.clientRef.None? ==> !SearchMatches(o, search)
  {
    if o.orderNumber.Some? {
      ContainsIff(Lower(o.orderNumber.value), Lower(search));
    }
    if o.clientRef.Some? {
      ContainsIff(Lower(o.clientRef.value), Lower(search));
    }
  }

  /** The search ignores letter case: a query and its lower-cased form select the same orders. */
  lemma SearchIgnoresCase(orders: Option<seq<Order>>, statusFilter: string, search: string)
    ensures FilteredOrders(orders, statusFilter, Lower(search)) ==
            FilteredOrders(orders, statusFilter, search)
  {
    if orders.Some? {
      LowerIdempotent(search);
      assert Lower(search) == "" <==> search == "";
      FilterCongruence(orders.value, Keeps(statusFilter, Lower(search)), Keeps(statusFilter, search));
    }
  }

  // ---------------------------------------------------------------------------------------
  // `getBadgeVariant`

  /** The badge styles. */
  datatype Variant = Default | Secondary | Destructive | Outline

  /** `getBadgeVariant`: the switch over the status labels. */
  function BadgeVariant(status: string): (v: Variant)
    ensures v == Destructive <==> status == "En attente de confirmation" || status == "Annulée"
    ensures v == Outline <==> status == "Récupérée"
    ensures v == Default <==> status == "Confirmée" || status == "Prête à récupérer"
    ensures v == Secondary <==>
      status !in {"En attente de confirmation", "Annulée", "Récupérée", "Confirmée", "Prête à récupérer"}
  {
    if status == "En attente de confirmation" then Destructive
    else if status == "Confirmée" then Default
    else if status == "En préparation" then Secondary
    else if status == "Prête à récupérer" then Default
    else if status == "Récupérée" then Outline
    else if status == "Annulée" then Destructive
    else Secondary
  }
}
