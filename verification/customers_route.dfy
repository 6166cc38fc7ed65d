/** The mock customers endpoint of the frontend
    (frontend/src/app/api/customers/route.ts): an in-memory customer list
    that GET searches by name or e-mail and pages, and that POST appends to.
    The random id of a new customer is passed in. */
module CustomersRoute {
  import opened Wrappers
  import opened Json
  import opened Paging
  import opened Text
  import Records

  const NAME: string := "name"
  const EMAIL: string := "email"

  /** The one demonstration customer the module starts with. */
  function InitialCustomers(): (customers: seq<Entry>)
    ensures |customers| == 1
    ensures forall k :: 0 <= k < |customers| ==> Field(customers[k], NAME).Some? && Field(customers[k], EMAIL).Some?
  {
    [ map["id" := JStr("1"), NAME := JStr("John Doe"), EMAIL := JStr("john@example.com"),
          "phone" := JStr("+1234567890"), "city" := JStr("New York"), "country" := JStr("USA")] ]
  }

  class CustomerStore {
    var customers: seq<Entry>

    constructor ()
      ensures customers == InitialCustomers()
    {
      customers := InitialCustomers();
    }

    /** GET: the requested page of the customers whose name, or failing
        that whose e-mail, contains the query ignoring case; 500 when a
        customer lacks a string name, or lacks a string e-mail and its name
        does not match. */
    function Get(page: int, limit: int, query: string): (r: Result<ListReply, Records.HttpError>)
      reads this
      requires limit >= 1
      ensures r == List(customers, page, limit, query, NAME, EMAIL)
      ensures r.Success? ==> forall e :: e in r.value.items ==>
        e in customers && MatchEntry(e, query, NAME, EMAIL) == Some(true)
      ensures r.Success? ==> r.value.total <= |customers|
    {
      var r := List(customers, page, limit, query, NAME, EMAIL);
      assert r.Success? ==> forall e :: e in r.value.items ==> e in Search(customers, query, NAME, EMAIL).value;
      r
    }

    /** POST: a body that is not JSON gives 500 and changes nothing;
        otherwise the new customer `{ id, ...body }` is appended and
        returned. */
    method Post(body: Option<Json>, generatedId: string) returns (r: Result<Entry, Records.HttpError>)
      modifies this
      ensures body.None? ==> r == Failure(Records.ServerError) && customers == old(customers)
      ensures body.Some? ==> r == Success(NewEntry(body.value, generatedId)) && customers == old(customers) + [r.value]
    {
      if body.None? {
        return Failure(Records.ServerError);
      }
      var customer := NewEntry(body.value, generatedId);
      customers := customers + [customer];
      r := Success(customer);
    }
  }

  /** A customer posted with a name is found again by that name: with a
      query equal to it, the new customer is on the pages of the reply. */
  lemma PostedCustomerFound(customers: seq<Entry>, body: Json, generatedId: string, name: string)
    requires body.JObj? && NAME in body.fields && body.fields[NAME] == JStr(name)
    requires Search(customers + [NewEntry(body, generatedId)], name, NAME, EMAIL).Some?
    ensures NewEntry(body, generatedId) in Search(customers + [NewEntry(body, generatedId)], name, NAME, EMAIL).value
  {
    var e := NewEntry(body, generatedId);
    assert Field(e, NAME) == Some(name);
    assert OccursAt(LowerAscii(name), LowerAscii(name), 0);
    assert e in customers + [e];
  }
}
