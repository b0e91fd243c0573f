/** The Application model and the values it is built from: its status
    enumeration, its Plan, the attribute array handed to `update()`, and the
    `readyForNbnOrdering` query scope that picks the records to order. */
module Records {

  datatype Option<+T> = None | Some(value: T)

  /** ApplicationStatus: Prelim is set upstream, Order means "awaiting order",
      Complete and OrderFailed are the two outcomes of an order attempt. */
  datatype Status = Prelim | Order | Complete | OrderFailed

  /** A plan as this pipeline sees it: an immutable snapshot of its type
      ("nbn", "opticomm", "mobile", stored as a string column) and its name. */
  datatype Plan = Plan(planType: string, name: string)

  const NbnPlanType: string := "nbn"

  /** One application row. Of the modelled columns, the order pipeline
      writes only `status` and `orderId`; the others are `const`. */
  class Application {
    const id: nat
    const address1: string
    const address2: Option<string>
    const city: string
    const state: string
    const postcode: string
    const plan: Plan
    var status: Status
    var orderId: Option<string>

    constructor (id: nat, address1: string, address2: Option<string>, city: string,
                 state: string, postcode: string, plan: Plan,
                 status: Status, orderId: Option<string>)
      ensures this.id == id && this.address1 == address1 && this.address2 == address2
      ensures this.city == city && this.state == state && this.postcode == postcode
      ensures this.plan == plan && this.status == status && this.orderId == orderId
    {
      this.id := id;
      this.address1 := address1;
      this.address2 := address2;
      this.city := city;
      this.state := state;
      this.postcode := postcode;
      this.plan := plan;
      this.status := status;
      this.orderId := orderId;
    }

    /** Eloquent's `update([...])`: one write of the given attributes. The
        status is always given; order_id is written only when the array holds it. */
    method Update(u: Update)
      modifies this
      ensures status == u.status
      ensures orderId == OrderIdAfter(u, old(orderId))
    {
      status := u.status;
      match u.orderId {
        case Write(v) => orderId := v;
        case Untouched =>
      }
    }
  }

  /** Whether an attribute array carries the `order_id` key, and with what value. */
  datatype OrderIdWrite = Untouched | Write(value: Option<string>)

  /** The attribute array of one `update()` call. */
  datatype Update = Update(status: Status, orderId: OrderIdWrite)

  /** The order id a record holds after `u` is applied to one holding `prior`. */
  function OrderIdAfter(u: Update, prior: Option<string>): Option<string>
  {
    match u.orderId
    case Write(v) => v
    case Untouched => prior
  }

  /** The `readyForNbnOrdering` scope, one row at a time. */
  predicate IsReadyForNbnOrdering(a: Application)
    reads a
  {
    a.plan.planType == NbnPlanType && a.status == Order
  }

  /** `Application::readyForNbnOrdering()->get()` over the table. */
  function ReadyForNbnOrdering(table: seq<Application>): seq<Application>
    reads table
  {
    if table == [] then []
    else if IsReadyForNbnOrdering(table[0]) then [table[0]] + ReadyForNbnOrdering(table[1..])
    else ReadyForNbnOrdering(table[1..])
  }

  /** The selection holds the rows that pass the scope, each as often as it
      occurs in the table, and nothing else. */
  lemma {:induction false} ReadyForNbnOrderingExact(table: seq<Application>)
    ensures forall a :: a in ReadyForNbnOrdering(table) ==> a in table
    ensures forall a :: a in table ==>
              multiset(ReadyForNbnOrdering(table))[a]
              == if IsReadyForNbnOrdering(a) then multiset(table)[a] else 0
    ensures forall a :: a in table ==> (a in ReadyForNbnOrdering(table) <==> IsReadyForNbnOrdering(a))
  {
    if table != [] {
      ReadyForNbnOrderingExact(table[1..]);
      assert table == [table[0]] + table[1..];
    }
  }

  /** The statuses the scope excludes, whatever the plan. */
  lemma {:induction false} NonOrderStatusExcluded(table: seq<Application>, a: Application)
    requires a in table && a.status != Order
    ensures a !in ReadyForNbnOrdering(table)
  {
    ReadyForNbnOrderingExact(table);
  }

  /** Plans of any other type are excluded, whatever the status. */
  lemma {:induction false} NonNbnPlanExcluded(table: seq<Application>, a: Application)
    requires a in table && a.plan.planType != NbnPlanType
    ensures a !in ReadyForNbnOrdering(table)
  {
    ReadyForNbnOrderingExact(table);
  }

  /** A table in which every row is ready is selected whole. */
  lemma {:induction false} AllReadySelectedWhole(table: seq<Application>)
    requires forall i :: 0 <= i < |table| ==> IsReadyForNbnOrdering(table[i])
    ensures ReadyForNbnOrdering(table) == table
  {
    if table != [] {
      AllReadySelectedWhole(table[1..]);
    }
  }

  /** A table with no ready row selects nothing. */
  lemma {:induction false} NoneReadySelectsNothing(table: seq<Application>)
    requires forall i :: 0 <= i < |table| ==> !IsReadyForNbnOrdering(table[i])
    ensures ReadyForNbnOrdering(table) == []
  {
    if table != [] {
      NoneReadySelectsNothing(table[1..]);
    }
  }
}
