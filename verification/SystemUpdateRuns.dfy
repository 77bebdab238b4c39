/** System updates that come to an end: components delivered part by part, and the commit. */
module SystemUpdateRuns {
  import opened Bytes
  import opened SystemUpdate

  type Event = (Request, World)

  /** A component and the parts its bytes are sent in. */
  datatype Delivery = Delivery(c: Component, parts: seq<seq<byte>>)

  predicate Deliverable(p: Platform, d: Delivery) {
    && d.c.id != 0 && d.c.known && 0 < d.c.size == |Concat(d.parts)| && p.hash(Concat(d.parts)) == d.c.sha
    && forall k :: 0 <= k < |d.parts| ==> 0 < |d.parts[k]| <= p.chunkMax
  }

  function Ids(deliveries: seq<Delivery>): (ids: seq<nat>)
    ensures |ids| == |deliveries|
  {
    seq(|deliveries|, i requires 0 <= i < |deliveries| => deliveries[i].c.id)
  }

  function DataEvents(op: nat, id: nat, offset: nat, parts: seq<seq<byte>>): seq<Event>
    decreases |parts|
  {
    if parts == [] then []
    else [(Data(op, id, offset, parts[0]), FAIR)] + DataEvents(op, id, offset + |parts[0]|, parts[1..])
  }

  function DataCalls(c: Component, offset: nat, parts: seq<seq<byte>>): seq<Call>
    decreases |parts|
  {
    if parts == [] then []
    else [WriteComponent(c, offset, parts[0], true)] + DataCalls(c, offset + |parts[0]|, parts[1..])
  }

  function DeliveryEvents(op: nat, d: Delivery): seq<Event> {
    [(ComponentBegin(op, d.c), FAIR)] + (DataEvents(op, d.c.id, 0, d.parts) + [(ComponentEnd(op, d.c.id), FAIR)])
  }

  function DeliveryCalls(d: Delivery): seq<Call> {
    [BeginComponent(d.c, true)] + (DataCalls(d.c, 0, d.parts) + [EndComponent(d.c, d.c.sha, true)])
  }

  function AllEvents(op: nat, deliveries: seq<Delivery>): seq<Event> {
    if deliveries == [] then [] else DeliveryEvents(op, deliveries[0]) + AllEvents(op, deliveries[1..])
  }

  function AllCalls(deliveries: seq<Delivery>): seq<Call> {
    if deliveries == [] then [] else DeliveryCalls(deliveries[0]) + AllCalls(deliveries[1..])
  }

  lemma Once(p: Platform, u: Update, e: Event)
    ensures Run(p, u, [e]) == Process(p, u, e.0, e.1).0
  {
    assert [e][1..] == [];
  }

  /** Receiving: component c, with these bytes already there. */
  predicate Receives(u: Update, op: nat, c: Component, bytes: seq<byte>) {
    u.phase == Receiving && u.op == op && u.component == c && u.bytes == bytes
  }

  lemma {:induction false} PartsArrive(p: Platform, u: Update, c: Component, bytes: seq<byte>, parts: seq<seq<byte>>)
    requires Receives(u, u.op, c, bytes) && |bytes| + |Concat(parts)| <= c.size
    requires forall k :: 0 <= k < |parts| ==> 0 < |parts[k]| <= p.chunkMax
    ensures var end := Run(p, u, DataEvents(u.op, c.id, |bytes|, parts));
            && Receives(end, u.op, c, bytes + Concat(parts))
            && end.trace == u.trace + DataCalls(c, |bytes|, parts)
            && end.done == u.done && end.count == u.count
    decreases |parts|
  {
    if parts == [] {
      assert bytes + [] == bytes && u.trace + [] == u.trace;
    } else {
      var e := (Data(u.op, c.id, |bytes|, parts[0]), FAIR);
      var next := Process(p, u, e.0, e.1).0;
      var more := bytes + parts[0];
      Once(p, u, e);
      RunAppend(p, u, [e], DataEvents(u.op, c.id, |more|, parts[1..]));
      PartsArrive(p, next, c, more, parts[1..]);
      Assoc(bytes, parts[0], Concat(parts[1..]));
      Assoc(u.trace, [WriteComponent(c, |bytes|, parts[0], true)], DataCalls(c, |more|, parts[1..]));
    }
  }

  /** One component is delivered. */
  lemma ComponentArrives(p: Platform, u: Update, d: Delivery)
    requires u.phase == Prepared && |u.done| < u.count && Deliverable(p, d) && d.c.id !in u.done
    ensures var end := Run(p, u, DeliveryEvents(u.op, d));
            && end.phase == (if |u.done| + 1 < u.count then Prepared else Verified)
            && end.op == u.op && end.count == u.count && end.done == u.done + [d.c.id]
            && end.trace == u.trace + DeliveryCalls(d)
  {
    var first, last: Event := (ComponentBegin(u.op, d.c), FAIR), (ComponentEnd(u.op, d.c.id), FAIR);
    var data := DataEvents(u.op, d.c.id, 0, d.parts);
    var begun := Process(p, u, first.0, FAIR).0;
    Once(p, u, first);
    RunAppend(p, u, [first], data + [last]);
    PartsArrive(p, begun, d.c, [], d.parts);
    assert [] + Concat(d.parts) == Concat(d.parts);
    RunAppend(p, begun, data, [last]);
    Once(p, Run(p, begun, data), last);
    Assoc(u.trace, [BeginComponent(d.c, true)], DataCalls(d.c, 0, d.parts));
    Assoc(u.trace, [BeginComponent(d.c, true)], DataCalls(d.c, 0, d.parts) + [EndComponent(d.c, d.c.sha, true)]);
    Assoc(u.trace + [BeginComponent(d.c, true)], DataCalls(d.c, 0, d.parts), [EndComponent(d.c, d.c.sha, true)]);
  }

  lemma {:induction false} ComponentsArrive(p: Platform, u: Update, deliveries: seq<Delivery>)
    requires deliveries != [] && u.phase == Prepared && |u.done| + |deliveries| == u.count
    requires forall k :: 0 <= k < |deliveries| ==> Deliverable(p, deliveries[k])
    requires Distinct(u.done + Ids(deliveries))
    ensures var end := Run(p, u, AllEvents(u.op, deliveries));
            && end.phase == Verified && end.op == u.op && end.count == u.count && |end.done| == u.count
            && end.trace == u.trace + AllCalls(deliveries)
    decreases |deliveries|
  {
    var d, rest := deliveries[0], deliveries[1..];
    var ids := u.done + Ids(deliveries);
    assert ids[|u.done|] == d.c.id && forall i :: 0 <= i < |u.done| ==> ids[i] == u.done[i];
    ComponentArrives(p, u, d);
    var next := Run(p, u, DeliveryEvents(u.op, d));
    RunAppend(p, u, DeliveryEvents(u.op, d), AllEvents(u.op, rest));
    if rest == [] {
      assert DeliveryCalls(d) + AllCalls(rest) == DeliveryCalls(d);
    } else {
      assert next.done + Ids(rest) == ids;
      ComponentsArrive(p, next, rest);
      Assoc(u.trace, DeliveryCalls(d), AllCalls(rest));
    }
  }

  /** A whole update: begun with a manifest of the announced digest, every component delivered, and committed. */
  function WholeUpdate(r: Request, deliveries: seq<Delivery>): seq<Event>
    requires r.Begin?
  {
    [(r, FAIR)] + (AllEvents(r.op, deliveries) + [(CommitRequest(r.op), FAIR)])
  }

  /** From any state with no update in progress, an update whose announcements are true is committed, with exactly
      the calls to the backend that it takes. */
  lemma UpdateSucceeds(p: Platform, u: Update, r: Request, deliveries: seq<Delivery>)
    requires !u.InProgress() && r.Begin? && r.op != 0 && r.manifest != [] && p.hash(r.manifest) == r.sha
    requires 0 < r.count == |deliveries| <= p.maxComponents && Distinct(Ids(deliveries))
    requires forall k :: 0 <= k < |deliveries| ==> Deliverable(p, deliveries[k])
    ensures var end := Run(p, u, WholeUpdate(r, deliveries));
            && end.phase == CommittedPhase && end.op == r.op && end.progress == 950
            && end.trace
            == u.trace + ([Prepare(r.op, r.count, true)] + (AllCalls(deliveries) + [Commit(r.op, true)]))
  {
    var started := Process(p, u, r, FAIR).0;
    var all, last: Event := AllEvents(r.op, deliveries), (CommitRequest(r.op), FAIR);
    Once(p, u, (r, FAIR));
    RunAppend(p, u, [(r, FAIR)], all + [last]);
    assert started.done + Ids(deliveries) == Ids(deliveries);
    ComponentsArrive(p, started, deliveries);
    RunAppend(p, started, all, [last]);
    Once(p, Run(p, started, all), last);
    Assoc(u.trace, [Prepare(r.op, r.count, true)], AllCalls(deliveries));
    Assoc(u.trace + [Prepare(r.op, r.count, true)], AllCalls(deliveries), [Commit(r.op, true)]);
    Assoc(u.trace, [Prepare(r.op, r.count, true)], AllCalls(deliveries) + [Commit(r.op, true)]);
  }
}
