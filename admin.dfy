/** The dashboard of src/pages/Admin.tsx: counters over the order, event-request and client
    lists, and the five-row preview panels. The lists come from data hooks and may be
    `undefined`. */
module Admin {
  import opened Wrappers
  import opened Seqs
  import AdminCommandes
  import AirtableMappers

  type Order = AdminCommandes.Order
  type Client = AirtableMappers.Client

  /** The status of a new order. */
  const AwaitingConfirmation := "En attente de confirmation"

  /** The status of a new event request. */
  const InitialRequest := "Demande initiale"

  /** An event-request row as the dashboard reads it (`statutEvenement`). */
  datatype EventRequestRow = EventRequestRow(id: string, name: Option<string>, status: Option<string>)

  // ---------------------------------------------------------------------------------------
  // Counters

  /** `list?.filter(p).length || 0`. */
  function CountWhere<T(==)>(list: Option<seq<T>>, p: T -> bool): (n: nat)
    ensures list.None? ==> n == 0
    ensures list.Some? ==> n <= |list.value|
    ensures list.Some? ==> (n == |list.value| <==> forall i :: 0 <= i < |list.value| ==> p(list.value[i]))
    ensures list.Some? ==> (n == 0 <==> forall i :: 0 <= i < |list.value| ==> !p(list.value[i]))
  {
    match list
    case None => 0
    case Some(xs) =>
      var kept := Filter(xs, p);
      FilterKeepsAll(xs, p);
      assert |kept| > 0 ==> p(kept[0]);
      |kept|
  }

  /** The count adds up element by element: it is the number of elements satisfying `p`. */
  lemma CountWhereAdds<T>(a: seq<T>, b: seq<T>, x: T, p: T -> bool)
    ensures CountWhere(Some(a + b), p) == CountWhere(Some(a), p) + CountWhere(Some(b), p)
    ensures CountWhere(Some([x]), p) == if p(x) then 1 else 0
  {
    FilterConcat(a, b, p);
    assert Filter([x], p) == (if p(x) then [x] else []) + Filter([x][1..], p);
  }

  /** The filter callback `c => c.statutCommande === status`. */
  function OrderHasStatus(status: string): Order -> bool {
    (o: Order) => o.status == Some(status)
  }

  /** The filter callback `e => e.statutEvenement === status`. */
  function RequestHasStatus(status: string): EventRequestRow -> bool {
    (e: EventRequestRow) => e.status == Some(status)
  }

  /** `nouvellesCommandes`. */
  function NewOrderCount(orders: Option<seq<Order>>): (n: nat)
    ensures orders.None? ==> n == 0
    ensures orders.Some? ==> n <= |orders.value|
    ensures orders.Some? ==>
      (n == 0 <==> forall i :: 0 <= i < |orders.value| ==> orders.value[i].status != Some(AwaitingConfirmation))
  {
    var n := CountWhere(orders, OrderHasStatus(AwaitingConfirmation));
    assert orders.Some? ==> forall i :: 0 <= i < |orders.value| ==>
      (OrderHasStatus(AwaitingConfirmation)(orders.value[i]) <==> orders.value[i].status == Some(AwaitingConfirmation));
    n
  }

  /** `nouvellesDemandesEvenements`. */
  function NewRequestCount(requests: Option<seq<EventRequestRow>>): (n: nat)
    ensures requests.None? ==> n == 0
    ensures requests.Some? ==> n <= |requests.value|
    ensures requests.Some? ==>
      (n == 0 <==> forall i :: 0 <= i < |requests.value| ==> requests.value[i].status != Some(InitialRequest))
  {
    var n := CountWhere(requests, RequestHasStatus(InitialRequest));
    assert requests.Some? ==> forall i :: 0 <= i < |requests.value| ==>
      (RequestHasStatus(InitialRequest)(requests.value[i]) <==> requests.value[i].status == Some(InitialRequest));
    n
  }

  /** The new-order count is exactly the number of orders whose status is "En attente de
      confirmation": it adds up over concatenation and counts one for such an order. */
  lemma NewOrderCountCounts(a: seq<Order>, b: seq<Order>, o: Order)
    ensures NewOrderCount(Some(a + b)) == NewOrderCount(Some(a)) + NewOrderCount(Some(b))
    ensures NewOrderCount(Some([o])) == if o.status == Some(AwaitingConfirmation) then 1 else 0
  {
    CountWhereAdds(a, b, o, OrderHasStatus(AwaitingConfirmation));
  }

  /** The new-request count is exactly the number of requests whose status is
      "Demande initiale". */
  lemma NewRequestCountCounts(a: seq<EventRequestRow>, b: seq<EventRequestRow>, e: EventRequestRow)
    ensures NewRequestCount(Some(a + b)) == NewRequestCount(Some(a)) + NewRequestCount(Some(b))
    ensures NewRequestCount(Some([e])) == if e.status == Some(InitialRequest) then 1 else 0
  {
    CountWhereAdds(a, b, e, RequestHasStatus(InitialRequest));
  }

  /** `totalClients`: `clients?.length || 0`. */
  function TotalClients(clients: Option<seq<Client>>): (n: nat)
    ensures clients.None? ==> n == 0
    ensures clients.Some? ==> n == |clients.value|
  {
    match clients
    case None => 0
    case Some(cs) => |cs|
  }

  /** Fed by the client mapper, the total is the number of records fetched, and 0 while there
      is no data. */
  lemma TotalClientsCountsRecords(data: Option<AirtableMappers.AirtableResponse>)
    ensures TotalClients(Some(AirtableMappers.Clients(data))) ==
      if data.None? then 0 else |data.value.records|
  {
  }

  // ---------------------------------------------------------------------------------------
  // Preview panels

  /** What a preview panel shows: up to five rows, or the "none found" message. */
  datatype Panel<T> = Rows(rows: seq<T>) | NoneFound

  /** As written: `list?.slice(0, 5).map(row) || <p>Aucune … trouvée</p>`. An array, even an
      empty one, is truthy, so the message appears only for an undefined list. */
  function PreviewAsWritten<T>(list: Option<seq<T>>): (p: Panel<T>)
    ensures p.NoneFound? <==> list.None?
    ensures p.Rows? ==> p.rows == Take(list.value, 5)
  {
    match list
    case None => NoneFound
    case Some(xs) => Rows(Take(xs, 5))
  }

  /** An empty order list shows a panel with no row and no message. */
  lemma EmptyListShowsBlankPanel()
    ensures PreviewAsWritten<Order>(Some([])) == Rows([])
  {
  }

  /** The client list comes from the client mapper, which never yields `undefined`: with no
      data the clients panel is blank and "Aucun client trouvé" can never be displayed. */
  lemma ClientMessageUnreachable(data: Option<AirtableMappers.AirtableResponse>)
    ensures PreviewAsWritten(Some(AirtableMappers.Clients(data))).Rows?
    ensures data.None? ==> PreviewAsWritten(Some(AirtableMappers.Clients(data))) == Rows([])
  {
  }

  /** The preview as intended: the first min(5, n) items in their original order, and the
      "none found" message exactly when there is nothing to list. */
  function Preview<T>(list: Option<seq<T>>): (p: Panel<T>)
    ensures p.NoneFound? <==> list.None? || |list.value| == 0
    ensures p.Rows? ==> (
      && 1 <= |p.rows| <= 5
      && |p.rows| == (if |list.value| < 5 then |list.value| else 5)
      && p.rows == list.value[..|p.rows|])
  {
    match list
    case None => NoneFound
    case Some(xs) => if |xs| == 0 then NoneFound else Rows(Take(xs, 5))
  }
}
