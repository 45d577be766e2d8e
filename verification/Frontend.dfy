/** The API server's bookkeeping of requests and aborts: as a value, and as the manager that changes it in place. */
module Frontend {
  import opened Requests
  import opened Tokenizer

  // ---- the bookkeeping as a value

  /** Replies waiting to be streamed and whether their reader was woken, by uid; the uids whose abort is not
  acknowledged yet, and whether their waiter was woken. */
  datatype Front = Front(counter: nat, acks: map<int, seq<FrontMsg>>, events: map<int, bool>, pending: set<int>,
                         pendingEvents: map<int, bool>)

  function Drop<T>(m: map<int, T>, u: int): map<int, T> {
    m - {u}
  }

  function With(s: set<int>, u: int): set<int> {
    s + {u}
  }

  function Without(s: set<int>, u: int): set<int> {
    s - {u}
  }

  ghost predicate FrontOk(f: Front) {
    && f.acks.Keys == f.events.Keys && f.pending == f.pendingEvents.Keys
    && forall u | u in f.acks :: u < f.counter
  }

  ghost function NewUserOp(f: Front): Front {
    f.(counter := f.counter + 1, acks := f.acks[f.counter := []], events := f.events[f.counter := false])
  }

  ghost function HearOp(f: Front, m: FrontMsg): Front {
    match m
    case AbortAckReply(u) =>
      f.(acks := Drop(f.acks, u), events := Drop(f.events, u), pending := Without(f.pending, u),
         pendingEvents := Drop(f.pendingEvents, u))
    case UserReply(u, text, finished) =>
      if u !in f.acks || u in f.pending then f
      else f.(acks := f.acks[u := f.acks[u] + [m]], events := f.events[u := true])
  }

  ghost function MarkOp(f: Front, u: int): Front {
    f.(pending := With(f.pending, u),
       pendingEvents := if u in f.pendingEvents then f.pendingEvents else f.pendingEvents[u := false])
  }

  /** The reader of `u` wakes up and takes what waits for it. */
  ghost function TakeOp(f: Front, u: int): Front {
    if u in f.acks then f.(acks := f.acks[u := []], events := f.events[u := false]) else f
  }

  /** An acknowledgement removes its uid from all four maps and touches no other; a second one changes nothing. */
  lemma {:induction false} AckClears(f: Front, u: int)
    ensures var f' := HearOp(f, AbortAckReply(u));
            && u !in f'.acks && u !in f'.events && u !in f'.pending && u !in f'.pendingEvents
            && (forall v | v != u ::
                  && (v in f'.acks <==> v in f.acks) && (v in f.acks ==> f'.acks[v] == f.acks[v])
                  && (v in f'.events <==> v in f.events) && (v in f.events ==> f'.events[v] == f.events[v])
                  && (v in f'.pending <==> v in f.pending) && (v in f'.pendingEvents <==> v in f.pendingEvents))
            && HearOp(f', AbortAckReply(u)) == f'
  {
    var f' := HearOp(f, AbortAckReply(u));
    assert f'.acks - {u} == f'.acks && f'.events - {u} == f'.events;
    assert f'.pending - {u} == f'.pending && f'.pendingEvents - {u} == f'.pendingEvents;
  }

  lemma {:induction false} AckIs(f: Front, u: int)
    ensures HearOp(f, AbortAckReply(u))
         == Front(f.counter, Drop(f.acks, u), Drop(f.events, u), Without(f.pending, u), Drop(f.pendingEvents, u))
  {
  }

  lemma {:induction false} NewUserKeeps(f: Front)
    requires FrontOk(f)
    ensures FrontOk(NewUserOp(f))
  {
  }

  lemma {:induction false} HearKeeps(f: Front, m: FrontMsg)
    requires FrontOk(f)
    ensures FrontOk(HearOp(f, m))
  {
  }

  lemma {:induction false} MarkKeeps(f: Front, u: int)
    requires FrontOk(f)
    ensures FrontOk(MarkOp(f, u))
  {
  }

  lemma {:induction false} TakeKeeps(f: Front, u: int)
    requires FrontOk(f)
    ensures FrontOk(TakeOp(f, u))
  {
  }

  // ---- the manager in place

  /** A one-shot wake-up call. */
  class Event {
    var isSet: bool

    constructor ()
      ensures !isSet
    {
      isSet := false;
    }

    method Set()
      modifies this
      ensures isSet
    {
      isSet := true;
    }

    method Clear()
      modifies this
      ensures !isSet
    {
      isSet := false;
    }
  }

  ghost function Flags(m: map<int, Event>): (f: map<int, bool>)
    reads m.Values
    ensures f.Keys == m.Keys && forall u {:trigger f[u]} | u in m :: f[u] == m[u].isSet
  {
    map u | u in m :: m[u].isSet
  }

  lemma {:induction false} FlagsAre(m: map<int, Event>, flags: map<int, bool>)
    requires flags.Keys == m.Keys && forall u {:trigger m[u]} | u in m :: m[u].isSet == flags[u]
    ensures Flags(m) == flags
  {
    hide Flags;
    var f := Flags(m);
    forall u | u in f
      ensures f[u] == flags[u]
    {
      assert f[u] == m[u].isSet;
    }
  }

  /** No two uids share an event. */
  ghost predicate Apart(m: map<int, Event>, n: map<int, Event>) {
    && (forall u, v {:trigger m[u], m[v]} | u in m && v in m && u != v :: m[u] != m[v])
    && (forall u, v {:trigger n[u], n[v]} | u in n && v in n && u != v :: n[u] != n[v])
    && (forall u, v {:trigger m[u], n[v]} | u in m && v in n :: m[u] != n[v])
  }

  lemma {:induction false} TwoApart(m: map<int, Event>, n: map<int, Event>, u: int)
    requires Apart(m, n)
    ensures u in m && u in n ==> m[u] != n[u]
    ensures u in m ==> m[u] in m.Values
    ensures u in n ==> n[u] in n.Values
  {
  }

  /** A new event keeps the events apart, in either map. */
  lemma {:induction false} NewApart(m: map<int, Event>, n: map<int, Event>, u: int, ev: Event)
    requires Apart(m, n) && ev !in m.Values && ev !in n.Values
    ensures Apart(m[u := ev], n) && Apart(m, n[u := ev])
  {
    forall v | v in m
      ensures m[v] != ev
    {
      assert m[v] in m.Values;
    }
    forall v | v in n
      ensures n[v] != ev
    {
      assert n[v] in n.Values;
    }
  }

  class FrontendManager {
    var uidCounter: nat
    var ackMap: map<int, seq<FrontMsg>>
    var eventMap: map<int, Event>
    var abortPending: set<int>
    var abortPendingEvents: map<int, Event>

    constructor ()
      ensures Valid() && View() == Front(0, map[], map[], {}, map[])
    {
      uidCounter, ackMap, eventMap, abortPending, abortPendingEvents := 0, map[], map[], {}, map[];
    }

    ghost predicate Valid()
      reads this, eventMap.Values, abortPendingEvents.Values
    {
      FrontOk(View()) && Apart(eventMap, abortPendingEvents)
    }

    ghost function View(): Front
      reads this, eventMap.Values, abortPendingEvents.Values
    {
      Front(uidCounter, ackMap, Flags(eventMap), abortPending, Flags(abortPendingEvents))
    }

    method NewUser() returns (uid: nat)
      requires Valid()
      modifies this
      ensures Valid() && uid == old(uidCounter) && View() == NewUserOp(old(View()))
    {
      hide FrontOk, Flags, Apart;
      NewUserKeeps(View());
      uid := uidCounter;
      uidCounter := uidCounter + 1;
      var ev := new Event();
      ackMap := ackMap[uid := []];
      NewApart(eventMap, abortPendingEvents, uid, ev);
      eventMap := eventMap[uid := ev];
      FlagsAre(eventMap, old(Flags(eventMap))[uid := false]);
    }

    /** Drops the reader's state of a request and wakes the reader. */
    method DropReader(uid: int)
      requires Apart(eventMap, abortPendingEvents)
      modifies this`ackMap, this`eventMap, if uid in eventMap then {eventMap[uid]} else {}
      ensures Apart(eventMap, abortPendingEvents) && ackMap == Drop(old(ackMap), uid)
              && eventMap == Drop(old(eventMap), uid)
      ensures Flags(eventMap) == Drop(old(Flags(eventMap)), uid)
      ensures Flags(abortPendingEvents) == old(Flags(abortPendingEvents))
      ensures uid in old(eventMap) ==> old(eventMap)[uid].isSet
    {
      ackMap := Drop(ackMap, uid);
      if uid in eventMap {
        var ev := eventMap[uid];
        eventMap := Drop(eventMap, uid);
        ev.Set();
      }
      FlagsAre(eventMap, Drop(old(Flags(eventMap)), uid));
      FlagsAre(abortPendingEvents, old(Flags(abortPendingEvents)));
    }

    /** Drops the waiter for the acknowledgement and wakes it. */
    method DropWaiter(uid: int)
      requires Apart(eventMap, abortPendingEvents)
      modifies this`abortPendingEvents, if uid in abortPendingEvents then {abortPendingEvents[uid]} else {}
      ensures Apart(eventMap, abortPendingEvents) && Flags(eventMap) == old(Flags(eventMap))
      ensures abortPendingEvents == Drop(old(abortPendingEvents), uid)
      ensures Flags(abortPendingEvents) == Drop(old(Flags(abortPendingEvents)), uid)
      ensures uid in old(abortPendingEvents) ==> old(abortPendingEvents)[uid].isSet
    {
      if uid in abortPendingEvents {
        var ev := abortPendingEvents[uid];
        abortPendingEvents := Drop(abortPendingEvents, uid);
        ev.Set();
      }
      FlagsAre(eventMap, old(Flags(eventMap)));
      FlagsAre(abortPendingEvents, Drop(old(Flags(abortPendingEvents)), uid));
    }

    /** Handles an acknowledged abort: the request's state goes, its reader and its waiter are woken. */
    method HearAck(uid: int)
      requires Valid()
      modifies this, eventMap.Values, abortPendingEvents.Values
      ensures Valid() && View() == HearOp(old(View()), AbortAckReply(uid))
      ensures uid in old(eventMap) ==> old(eventMap)[uid].isSet
      ensures uid in old(abortPendingEvents) ==> old(abortPendingEvents)[uid].isSet
    {
      hide Flags, FrontOk, Apart, Drop, Without, HearOp;
      HearKeeps(View(), AbortAckReply(uid));
      AckIs(View(), uid);
      TwoApart(eventMap, abortPendingEvents, uid);
      abortPending := Without(abortPending, uid);
      DropReader(uid);
      DropWaiter(uid);
    }

    /** Handles a reply: one for an unknown request, or for one whose abort is pending, is dropped. */
    method HearReply(m: FrontMsg)
      requires Valid() && m.UserReply?
      modifies this, eventMap.Values
      ensures Valid() && View() == HearOp(old(View()), m)
    {
      if m.uid !in ackMap || m.uid in abortPending {
        return;
      }
      HearKeeps(View(), m);
      assert m.uid in View().events;
      ackMap := ackMap[m.uid := ackMap[m.uid] + [m]];
      eventMap[m.uid].Set();
      FlagsAre(eventMap, old(Flags(eventMap))[m.uid := true]);
      FlagsAre(abortPendingEvents, old(Flags(abortPendingEvents)));
    }

    /** One message of the listener. */
    method Hear(m: FrontMsg)
      requires Valid()
      modifies this, eventMap.Values, abortPendingEvents.Values
      ensures Valid() && View() == HearOp(old(View()), m)
    {
      match m
      case AbortAckReply(uid) => HearAck(uid);
      case UserReply(uid, text, finished) => HearReply(m);
    }

    /** The first half of an abort: marks the uid; the message is sent afterwards. */
    method MarkAbort(uid: int)
      requires Valid()
      modifies this
      ensures Valid() && View() == MarkOp(old(View()), uid)
    {
      hide FrontOk, With, Flags, Apart;
      MarkKeeps(View(), uid);
      abortPending := With(abortPending, uid);
      if uid !in abortPendingEvents {
        var ev := new Event();
        NewApart(eventMap, abortPendingEvents, uid, ev);
        abortPendingEvents := abortPendingEvents[uid := ev];
        FlagsAre(abortPendingEvents, old(Flags(abortPendingEvents))[uid := false]);
      }
    }

    /** One turn of a reader whose event was set: it takes the waiting replies, or learns that the request is gone. */
    method TakeReplies(uid: int, event: Event) returns (taken: Option<seq<FrontMsg>>)
      requires Valid() && (uid in eventMap ==> eventMap[uid] == event)
      requires uid !in eventMap ==> event !in eventMap.Values && event !in abortPendingEvents.Values
      modifies this`ackMap, event
      ensures Valid() && View() == TakeOp(old(View()), uid)
      ensures taken == if uid in old(ackMap) then Some(old(ackMap)[uid]) else None
    {
      hide Flags;
      TakeKeeps(View(), uid);
      assert uid in ackMap <==> uid in View().events;
      event.Clear();
      FlagsAre(abortPendingEvents, old(Flags(abortPendingEvents)));
      if uid !in ackMap {
        FlagsAre(eventMap, old(Flags(eventMap)));
        return None;
      }
      FlagsAre(eventMap, old(Flags(eventMap))[uid := false]);
      taken := Some(ackMap[uid]);
      ackMap := ackMap[uid := []];
    }
  }
}
