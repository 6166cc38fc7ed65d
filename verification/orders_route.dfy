/** The mock orders endpoint of the frontend
    (frontend/src/app/api/orders/route.ts): an in-memory order list that
    GET searches by customer name or id and pages, and that POST appends
    to. The random id of a new order is passed in. */
module OrdersRoute {
  import opened Wrappers
  import opened Json
  import opened Paging
  import Records

  const CUSTOMER_NAME: string := "customerName"
  const ID: string := "id"

  /** The two demonstration orders the module starts with. */
  function InitialOrders(): (orders: seq<Entry>)
    ensures |orders| == 2
    ensures forall k :: 0 <= k < |orders| ==> Field(orders[k], CUSTOMER_NAME).Some? && Field(orders[k], ID).Some?
  {
    [ map[ID := JStr("1"), CUSTOMER_NAME := JStr("John Doe"), "date" := JStr("2024-03-15"),
          "status" := JStr("Completed"), "total" := JNum(299.99)],
      map[ID := JStr("2"), CUSTOMER_NAME := JStr("Jane Smith"), "date" := JStr("2024-03-14"),
          "status" := JStr("Processing"), "total" := JNum(149.99)] ]
  }

  class OrderStore {
    var orders: seq<Entry>

    constructor ()
      ensures orders == InitialOrders()
    {
      orders := InitialOrders();
    }

    /** GET: the requested page of the orders whose customer name, or
        failing that whose id, contains the query ignoring case; 500 when
        an order lacks a string customer name, or lacks a string id and its
        name does not match. */
    function Get(page: int, limit: int, query: string): (r: Result<ListReply, Records.HttpError>)
      reads this
      requires limit >= 1
      ensures r == List(orders, page, limit, query, CUSTOMER_NAME, ID)
      ensures r.Success? ==> forall e :: e in r.value.items ==>
        e in orders && MatchEntry(e, query, CUSTOMER_NAME, ID) == Some(true)
      ensures r.Success? ==> r.value.total <= |orders|
    {
      var r := List(orders, page, limit, query, CUSTOMER_NAME, ID);
      assert r.Success? ==> forall e :: e in r.value.items ==> e in Search(orders, query, CUSTOMER_NAME, ID).value;
      r
    }

    /** POST: a body that is not JSON gives 500 and changes nothing;
        otherwise the new order `{ id, ...body }` is appended and returned. */
    method Post(body: Option<Json>, generatedId: string) returns (r: Result<Entry, Records.HttpError>)
      modifies this
      ensures body.None? ==> r == Failure(Records.ServerError) && orders == old(orders)
      ensures body.Some? ==> r == Success(NewEntry(body.value, generatedId)) && orders == old(orders) + [r.value]
    {
      if body.None? {
        return Failure(Records.ServerError);
      }
      var order := NewEntry(body.value, generatedId);
      orders := orders + [order];
      r := Success(order);
    }
  }

  /** With no query the first page of the initial data lists both orders on
      one page. */
  lemma InitialListing()
    ensures List(InitialOrders(), 1, 10, "", CUSTOMER_NAME, ID) ==
      Success(ListReply(InitialOrders(), 2, 1, 1, 10))
  {
    SinglePageListing(InitialOrders(), 10);
  }

  /** With no query, orders that all carry a string customer name and fit in
      one page are listed whole on page 1. */
  lemma SinglePageListing(orders: seq<Entry>, limit: int)
    requires 1 <= |orders| <= limit
    requires forall k :: 0 <= k < |orders| ==> Field(orders[k], CUSTOMER_NAME).Some?
    ensures List(orders, 1, limit, "", CUSTOMER_NAME, ID) == Success(ListReply(orders, |orders|, 1, 1, limit))
  {
    EmptyQueryMatchesAll(orders, CUSTOMER_NAME, ID);
    assert Page(orders, 1, limit) == orders[0..|orders|] == orders;
    OnePage(|orders|, limit);
  }

  /** Once an order without a string customer name has been posted, every
      later GET fails, whatever its query and page. */
  lemma NamelessOrderBreaksListing(orders: seq<Entry>, body: Json, generatedId: string,
                                   page: int, limit: int, query: string)
    requires limit >= 1
    requires body.JObj? && (CUSTOMER_NAME !in body.fields || !body.fields[CUSTOMER_NAME].JStr?)
    ensures List(orders + [NewEntry(body, generatedId)], page, limit, query, CUSTOMER_NAME, ID) ==
      Failure(Records.ServerError)
  {
    var all := orders + [NewEntry(body, generatedId)];
    assert MatchEntry(all[|all| - 1], query, CUSTOMER_NAME, ID).None?;
  }
}
