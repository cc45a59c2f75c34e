/** The realtime hub as a transition system: snapshots are captured with increasing sequence numbers by several
    threads, published under the hub's lock in any order, and drained by clients whenever they like. */
module Hubs {
  import opened Base

  type ClientID = nat

  /** One client: its capacity-one queue, the newest sequence offered to it, and what it has received. */
  datatype Client = Client(queue: Option<nat>, last: nat, taken: seq<nat>)

  /** Where the offer to one client stands. Offers run under the lock, but the client may drain in between. */
  datatype Stage = Send | Discard | Resend

  datatype Offer = Offer(client: ClientID, stage: Stage)

  /** A captured snapshot on its way to all clients or to a new one. */
  datatype Publication = ToAll(n: nat) | ToOne(n: nat, client: ClientID)

  /** The publication holding the lock: whom it was for, who is left, and the offer in progress. */
  datatype Publishing = Publishing(n: nat, audience: set<ClientID>, left: set<ClientID>, offer: Option<Offer>)

  datatype Hub = Hub(
    sequence: nat,
    pending: set<Publication>,
    clients: map<ClientID, Client>,
    registered: set<ClientID>,
    holder: Option<Publishing>,
    closed: bool)

  datatype Event =
    | Register(id: ClientID)
    | Unregister(id: ClientID)
    | CaptureForAll
    | CaptureFor(id: ClientID)
    | Start(publication: Publication)
    | Approach(id: ClientID)
    | Advance
    | Finish
    | Take(id: ClientID)
    | Shutdown

  const EMPTY := Hub(0, {}, map[], {}, None, false)

  // ---------------------------------------------------------------- the steps

  function Receive(c: Client): Client {
    match c.queue
    case None => c
    case Some(n) => c.(queue := None, taken := c.taken + [n])
  }

  /** One of the three attempts of an offer: send; else discard what is queued; then send again. */
  function Attempt(c: Client, n: nat, stage: Stage): (Client, Option<Stage>) {
    match stage
    case Send => if c.queue.None? then (c.(queue := Some(n)), None) else (c, Some(Discard))
    case Discard => (c.(queue := None), Some(Resend))
    case Resend => (if c.queue.None? then c.(queue := Some(n)) else c, None)
  }

  /** One step of the hub; a step that is not enabled changes nothing. */
  function Next(h: Hub, e: Event): Hub {
    match e
    case Register(id) =>
      if h.holder.Some? || h.closed || id in h.clients then h
      else h.(clients := h.clients[id := Client(None, 0, [])], registered := h.registered + {id})
    case Unregister(id) =>
      if h.holder.Some? then h else h.(registered := h.registered - {id})
    case CaptureForAll =>
      h.(sequence := h.sequence + 1, pending := h.pending + {ToAll(h.sequence + 1)})
    case CaptureFor(id) =>
      h.(sequence := h.sequence + 1, pending := h.pending + {ToOne(h.sequence + 1, id)})
    case Start(p) =>
      if h.holder.Some? || p !in h.pending then h
      else
        var audience := if p.ToAll? then h.registered else if p.client in h.registered then {p.client} else {};
        h.(pending := h.pending - {p}, holder := Some(Publishing(p.n, audience, audience, None)))
    case Approach(id) =>
      if h.holder.None? || h.holder.value.offer.Some? || id !in h.holder.value.left || id !in h.clients then h
      else
        var held := h.holder.value.(left := h.holder.value.left - {id});
        if held.n <= h.clients[id].last then h.(holder := Some(held))
        else h.(clients := h.clients[id := h.clients[id].(last := held.n)],
                holder := Some(held.(offer := Some(Offer(id, Send)))))
    case Advance =>
      if h.holder.None? || h.holder.value.offer.None? || h.holder.value.offer.value.client !in h.clients then h
      else
        var held := h.holder.value;
        var offer := held.offer.value;
        var (c, stage) := Attempt(h.clients[offer.client], held.n, offer.stage);
        h.(clients := h.clients[offer.client := c],
           holder := Some(held.(offer := if stage.Some? then Some(offer.(stage := stage.value)) else None)))
    case Finish =>
      if h.holder.None? || h.holder.value.left != {} || h.holder.value.offer.Some? then h else h.(holder := None)
    case Take(id) =>
      if id !in h.clients then h else h.(clients := h.clients[id := Receive(h.clients[id])])
    case Shutdown =>
      if h.holder.Some? then h else h.(closed := true, registered := {})
  }

  function Run(h: Hub, events: seq<Event>): Hub {
    if |events| == 0 then h else Next(Run(h, events[..|events| - 1]), events[|events| - 1])
  }

  // ---------------------------------------------------------------- the invariant

  ghost predicate Increasing(ns: seq<nat>) {
    forall i, j :: 0 <= i < j < |ns| ==> ns[i] < ns[j]
  }

  ghost predicate Below(ns: seq<nat>, n: nat) {
    forall i :: 0 <= i < |ns| ==> ns[i] < n
  }

  /** What a client has received ascends, and what is queued is newer. */
  ghost predicate Ordered(c: Client) {
    Increasing(c.taken) && (c.queue.Some? ==> Below(c.taken, c.queue.value))
  }

  /** The newest snapshot offered is in the queue or was the last one received. */
  ghost predicate Delivered(c: Client) {
    if c.last == 0 then c.queue.None? && c.taken == []
    else c.queue == Some(c.last) || (c.queue.None? && |c.taken| > 0 && c.taken[|c.taken| - 1] == c.last)
  }

  /** Mid-offer everything the client has or had is older than the offer, and the retry finds room. */
  ghost predicate BeingOffered(c: Client, n: nat, stage: Stage) {
    && c.last == n && Below(c.taken, n) && (c.queue.Some? ==> c.queue.value < n)
    && (stage == Resend ==> c.queue.None?)
  }

  ghost predicate UnderOffer(h: Hub, id: ClientID) {
    h.holder.Some? && h.holder.value.offer.Some? && h.holder.value.offer.value.client == id
  }

  ghost predicate ClientInv(h: Hub, id: ClientID)
    requires id in h.clients
  {
    var c := h.clients[id];
    && Ordered(c) && c.last <= h.sequence
    && if UnderOffer(h, id) then BeingOffered(c, h.holder.value.n, h.holder.value.offer.value.stage) else Delivered(c)
  }

  ghost predicate HubInv(h: Hub) {
    && h.registered <= h.clients.Keys
    && (forall p :: p in h.pending ==> 0 < p.n <= h.sequence)
    && (forall id :: id in h.clients ==> ClientInv(h, id))
    && (h.holder.Some? ==> HolderInv(h, h.holder.value))
  }

  /** Whoever the publication has dealt with has been offered it or something newer. */
  ghost predicate HolderInv(h: Hub, held: Publishing) {
    && 0 < held.n <= h.sequence && held.audience <= h.clients.Keys && held.left <= held.audience
    && (held.offer.Some? ==> held.offer.value.client in h.clients)
    && forall id :: id in held.audience - held.left ==> held.n <= h.clients[id].last
  }

  // ---------------------------------------------------------------- every step keeps it

  lemma ReceiveKeeps(c: Client, n: nat, stage: Stage)
    requires Ordered(c)
    ensures Ordered(Receive(c)) && Receive(c).last == c.last
    ensures Delivered(c) ==> Delivered(Receive(c))
    ensures BeingOffered(c, n, stage) ==> BeingOffered(Receive(c), n, stage)
  {
  }

  lemma TakeKeeps(h: Hub, id: ClientID)
    requires HubInv(h)
    ensures HubInv(Next(h, Take(id)))
  {
    if id in h.clients {
      var h' := Next(h, Take(id));
      forall k | k in h'.clients ensures ClientInv(h', k) {
        assert ClientInv(h, k);
        ReceiveKeeps(h.clients[k], if h.holder.Some? then h.holder.value.n else 0,
                     if UnderOffer(h, k) then h.holder.value.offer.value.stage else Send);
      }
    }
  }

  lemma AttemptKeeps(c: Client, n: nat, stage: Stage)
    requires Ordered(c) && BeingOffered(c, n, stage) && n > 0
    ensures var (c', next) := Attempt(c, n, stage);
            && Ordered(c') && c'.last == c.last
            && if next.Some? then BeingOffered(c', n, next.value) else Delivered(c')
  {
  }

  lemma AdvanceKeeps(h: Hub)
    requires HubInv(h)
    ensures HubInv(Next(h, Advance))
  {
    if h.holder.Some? && h.holder.value.offer.Some? {
      var h' := Next(h, Advance);
      var offer := h.holder.value.offer.value;
      assert ClientInv(h, offer.client);
      AttemptKeeps(h.clients[offer.client], h.holder.value.n, offer.stage);
      forall k | k in h'.clients ensures ClientInv(h', k) {
        assert ClientInv(h, k);
      }
    }
  }

  lemma OfferIsNew(c: Client, n: nat)
    requires Ordered(c) && Delivered(c) && c.last < n
    ensures BeingOffered(c.(last := n), n, Send) && Ordered(c.(last := n))
  {
  }

  lemma ApproachKeeps(h: Hub, id: ClientID)
    requires HubInv(h)
    ensures HubInv(Next(h, Approach(id)))
  {
    var h' := Next(h, Approach(id));
    if h' != h {
      assert ClientInv(h, id);
      if h.clients[id].last < h.holder.value.n {
        OfferIsNew(h.clients[id], h.holder.value.n);
      }
      forall k | k in h'.clients ensures ClientInv(h', k) {
        assert ClientInv(h, k);
      }
    }
  }

  lemma StepKeeps(h: Hub, e: Event)
    requires HubInv(h)
    ensures HubInv(Next(h, e))
  {
    var h' := Next(h, e);
    match e
    case Take(id) => TakeKeeps(h, id);
    case Advance => AdvanceKeeps(h);
    case Approach(id) => ApproachKeeps(h, id);
    case _ =>
      forall k | k in h'.clients ensures ClientInv(h', k) {
        assert k in h.clients ==> ClientInv(h, k);
      }
  }

  /** In every interleaving of captures, publications, registrations and drains. */
  lemma {:induction false} RunKeeps(events: seq<Event>)
    ensures HubInv(Run(EMPTY, events))
  {
    if |events| > 0 {
      RunKeeps(events[..|events| - 1]);
      StepKeeps(Run(EMPTY, events[..|events| - 1]), events[|events| - 1]);
    }
  }

  /** Each client receives strictly increasing sequences, all of them really captured, and whenever no offer to
      it is in progress the newest snapshot offered to it is queued or already received. */
  lemma DeliveryIsOrderedAndLossless(events: seq<Event>, id: ClientID)
    ensures var h := Run(EMPTY, events);
            id in h.clients ==>
              && Increasing(h.clients[id].taken) && Below(h.clients[id].taken, h.sequence + 1)
              && (!UnderOffer(h, id) ==> Delivered(h.clients[id]))
  {
    RunKeeps(events);
    var h := Run(EMPTY, events);
    if id in h.clients {
      assert ClientInv(h, id);
      var c := h.clients[id];
      if !UnderOffer(h, id) && |c.taken| > 0 {
        assert c.taken[|c.taken| - 1] <= c.last;
      }
    }
  }

  /** A publication that finishes has reached its whole audience: everyone in it has the snapshot, or a newer
      one, in its queue or behind it. */
  lemma PublicationsReachTheirAudience(events: seq<Event>)
    ensures var h := Run(EMPTY, events);
            Next(h, Finish) != h ==>
              forall id :: id in h.holder.value.audience ==>
                id in h.clients && h.holder.value.n <= h.clients[id].last && Delivered(h.clients[id])
  {
    RunKeeps(events);
    var h := Run(EMPTY, events);
    if Next(h, Finish) != h {
      forall id | id in h.holder.value.audience
        ensures id in h.clients && h.holder.value.n <= h.clients[id].last && Delivered(h.clients[id])
      {
        assert id in h.holder.value.audience - h.holder.value.left;
        assert ClientInv(h, id);
      }
    }
  }

  /** An offer is over after at most three attempts, and its snapshot ends queued or received, however often the
      client drains in between. */
  lemma OffersEnd(c: Client, n: nat, drain1: bool, drain2: bool, drain3: bool)
    requires Ordered(c) && Delivered(c) && c.last < n
    ensures var a := if drain1 then Receive(c.(last := n)) else c.(last := n);
            var (b, stage) := Attempt(a, n, Send);
            if stage.None? then Delivered(b)
            else
              var d := Attempt(if drain2 then Receive(b) else b, n, Discard).0;
              var (f, done) := Attempt(if drain3 then Receive(d) else d, n, Resend);
              done.None? && f.queue == Some(n) && Delivered(f)
  {
  }

  // ---------------------------------------------------------------- the offer as the hub performs it

  /** A client's end of the queue. Its owner may drain the queue at any moment, also between two attempts. */
  class Mailbox {
    var queue: Option<nat>
    var lastSequence: nat
    ghost var taken: seq<nat>

    ghost function View(): Client
      reads this
    {
      Client(queue, lastSequence, taken)
    }

    constructor ()
      ensures View() == Client(None, 0, [])
    {
      queue, lastSequence, taken := None, 0, [];
    }

    /** What the owner may do while the hub is at work: receive, or not. */
    method MayDrain()
      modifies this
      ensures View() == old(View()) || View() == Receive(old(View()))
    {
      if * {
        if queue.Some? {
          taken := taken + [queue.value];
          queue := None;
        }
      }
    }

    /** Offers a snapshot without ever waiting: a stale one is ignored, a newer one replaces what is queued. */
    method OfferLocked(n: nat)
      requires Ordered(View()) && Delivered(View())
      modifies this
      ensures Ordered(View()) && Delivered(View())
      ensures lastSequence == if n <= old(lastSequence) then old(lastSequence) else n
      ensures old(taken) <= taken
    {
      if n <= lastSequence {
        return;
      }
      lastSequence := n;
      MayDrain();
      if queue.None? {
        queue := Some(n);
        return;
      }
      MayDrain();
      queue := None;
      MayDrain();
      if queue.None? {
        queue := Some(n);
      }
    }
  }
}
