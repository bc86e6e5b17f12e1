/**
 The relay as a whole: any number of requests at once, the shared list of records, the set of
 connections in flight, and the summary that is read from the records at the end.
 */
module AdmissionRecords {
  import opened Values
  import opened AdmissionRelay

  type Id = nat

  datatype Done = Done(answer: Answer, keepalives: Option<nat>, delivered: bool)

  /** `observed`: could the owner table be read; `admitted`: was a new owner row seen. */
  datatype Row = Row(seqNo: nat, observed: Option<bool>, admitted: bool, done: Option<Done>)

  datatype Relay = Relay(rows: seq<Row>, inFlight: set<Id>, stopping: bool, reqs: map<Id, Req>, place: map<Id, nat>)

  const EMPTY := Relay([], {}, false, map[], map[])

  datatype Event = Arrive(id: Id) | Does(id: Id, act: Act) | Stop

  /** The failure path reads the relay's own flag. */
  predicate Possible(s: Relay, e: Event) {
    match e
    case Arrive(id) => id !in s.reqs
    case Does(id, act) =>
      id in s.reqs && id in s.place && May(s.reqs[id], act) && (act.Request? || act.Respond? ==> act.stopping == s.stopping)
    case Stop => true
  }

  /** What a step writes into the request's own record. */
  function Noted(row: Row, r: Req, act: Act): Row {
    match act
    case Prepare(Some(readable)) => row.(observed := Some(readable))
    case GiveUp => row.(observed := Some(false))
    case NoteAdmission => row.(admitted := true)
    case Record => if r.h.Recording? then row.(done := Some(Done(r.h.answer, r.h.keepalives, r.h.delivered))) else row
    case _ => row
  }

  function Connections(inFlight: set<Id>, id: Id, act: Act): set<Id> {
    match act
    case Register => inFlight + {id}
    case Unregister => inFlight - {id}
    case _ => inFlight
  }

  function After(s: Relay, e: Event): Relay
    requires Possible(s, e)
  {
    match e
    case Arrive(id) =>
      s.(rows := s.rows + [Row(|s.rows|, None, false, None)], reqs := s.reqs[id := NEW], place := s.place[id := |s.rows|])
    case Does(id, act) =>
      var k, r := s.place[id], s.reqs[id];
      s.(rows := if k < |s.rows| then s.rows[k := Noted(s.rows[k], r, act)] else s.rows,
         reqs := s.reqs[id := Step(r, act)], inFlight := Connections(s.inFlight, id, act))
    case Stop => s.(stopping := true)
  }

  ghost predicate Runs(s: Relay, events: seq<Event>, s': Relay)
    decreases |events|
  {
    if |events| == 0 then s == s' else Possible(s, events[0]) && Runs(After(s, events[0]), events[1..], s')
  }

  /******* What every step keeps *******/

  ghost predicate Owned(place: map<Id, nat>, k: nat) {
    exists id :: id in place && place[id] == k
  }

  ghost predicate Placed(s: Relay) {
    && s.reqs.Keys == s.place.Keys
    && (forall id :: id in s.place ==> s.place[id] < |s.rows|)
    && (forall id, id' :: id in s.place && id' in s.place && s.place[id] == s.place[id'] ==> id == id')
    && (forall k :: 0 <= k < |s.rows| ==> s.rows[k].seqNo == k && Owned(s.place, k))
  }

  predicate Holding(h: HandlerAt) {
    h.InFlight? || h.Awaiting? || h.Closing?
  }

  predicate RowTells(row: Row, r: Req) {
    && row.done == (if r.h.Finished? then Some(Done(r.h.answer, r.h.keepalives, r.h.delivered)) else None)
    && (row.admitted ==> SawAdmission(r.w) && !r.w.Admitted?)
  }

  ghost predicate Truthful(s: Relay, id: Id)
    requires id in s.reqs && id in s.place && s.place[id] < |s.rows|
  {
    && Inv(s.reqs[id]) && RowTells(s.rows[s.place[id]], s.reqs[id])
    && (id in s.inFlight <==> Holding(s.reqs[id].h))
  }

  ghost predicate Sound(s: Relay) {
    && Placed(s) && s.inFlight <= s.reqs.Keys
    && forall id :: id in s.reqs ==> Truthful(s, id)
  }

  lemma RowKeeps(row: Row, r: Req, act: Act)
    requires Inv(r) && RowTells(row, r) && May(r, act)
    ensures RowTells(Noted(row, r, act), Step(r, act))
  {
    if HandlerMay(r, act) {
      HandlerRow(row, r, act);
    } else {
      WatchRow(row, r, act);
    }
  }

  lemma HandlerRow(row: Row, r: Req, act: Act)
    requires Gated(r) && RowTells(row, r) && HandlerMay(r, act)
    ensures RowTells(Noted(row, r, act), HandlerStep(r, act))
  {
  }

  lemma WatchRow(row: Row, r: Req, act: Act)
    requires RowTells(row, r) && WatchMay(r, act)
    ensures RowTells(Noted(row, r, act), WatchStep(r, act))
  {
  }

  lemma HoldingKeeps(r: Req, act: Act)
    requires May(r, act)
    ensures Holding(Step(r, act).h) <==> act.Register? || (Holding(r.h) && !act.Unregister?)
  {
  }

  lemma ArrivePlaced(s: Relay, id: Id)
    requires Placed(s) && id !in s.reqs
    ensures Placed(After(s, Arrive(id)))
  {
    var s' := After(s, Arrive(id));
    forall k | 0 <= k < |s'.rows|
      ensures s'.rows[k].seqNo == k && Owned(s'.place, k)
    {
      if k < |s.rows| {
        assert s.rows[k].seqNo == k;
        var x :| x in s.place && s.place[x] == k;
        assert s'.place[x] == k;
      } else {
        assert s'.place[id] == k;
      }
    }
  }

  lemma ArriveSound(s: Relay, id: Id)
    requires Sound(s) && id !in s.reqs
    ensures Sound(After(s, Arrive(id)))
  {
    var s' := After(s, Arrive(id));
    ArrivePlaced(s, id);
    forall x | x in s'.reqs
      ensures Truthful(s', x)
    {
      if x != id {
        assert Truthful(s, x);
      }
    }
  }

  /** A step rewrites one row, and not its number. */
  lemma DoesFrame(s: Relay, id: Id, act: Act)
    requires Possible(s, Does(id, act))
    ensures var s' := After(s, Does(id, act));
            && s'.place == s.place && s'.reqs.Keys == s.reqs.Keys && |s'.rows| == |s.rows|
            && (forall k :: 0 <= k < |s.rows| ==> s'.rows[k].seqNo == s.rows[k].seqNo)
            && (forall k :: 0 <= k < |s.rows| && k != s.place[id] ==> s'.rows[k] == s.rows[k])
  {
    NotedNumber(if s.place[id] < |s.rows| then s.rows[s.place[id]] else Row(0, None, false, None), s.reqs[id], act);
  }

  lemma NotedNumber(row: Row, r: Req, act: Act)
    ensures Noted(row, r, act).seqNo == row.seqNo
  {
  }

  lemma DoesPlaced(s: Relay, id: Id, act: Act)
    requires Placed(s) && Possible(s, Does(id, act))
    ensures Placed(After(s, Does(id, act)))
  {
    var s' := After(s, Does(id, act));
    DoesFrame(s, id, act);
    forall k | 0 <= k < |s'.rows|
      ensures s'.rows[k].seqNo == k && Owned(s'.place, k)
    {
      assert s.rows[k].seqNo == k;
    }
  }

  lemma DoesSound(s: Relay, id: Id, act: Act)
    requires Sound(s) && Possible(s, Does(id, act))
    ensures Sound(After(s, Does(id, act)))
  {
    var s' := After(s, Does(id, act));
    DoesPlaced(s, id, act);
    forall x | x in s'.reqs
      ensures Truthful(s', x)
    {
      assert Truthful(s, x);
      if x == id {
        StepKeeps(s.reqs[id], act);
        RowKeeps(s.rows[s.place[id]], s.reqs[id], act);
        HoldingKeeps(s.reqs[id], act);
      } else {
        assert s.place[x] != s.place[id];
      }
    }
  }

  lemma AfterSound(s: Relay, e: Event)
    requires Sound(s) && Possible(s, e)
    ensures Sound(After(s, e))
  {
    match e
    case Arrive(id) => ArriveSound(s, id);
    case Does(id, act) => DoesSound(s, id, act);
    case Stop =>
      forall x | x in s.reqs
        ensures Truthful(After(s, e), x)
      {
        assert Truthful(s, x);
      }
  }

  lemma {:induction false} RunsSound(s: Relay, events: seq<Event>, s': Relay)
    requires Sound(s) && Runs(s, events, s')
    ensures Sound(s')
    decreases |events|
  {
    if |events| > 0 {
      AfterSound(s, events[0]);
      RunsSound(After(s, events[0]), events[1..], s');
    }
  }

  /**
   With any number of requests interleaved in any way: record `i` has number `i`; every request
   has exactly one record, completed exactly when its handler is through; the recorded
   `keepalives` is the number of interim responses the gate got; and a connection is listed in
   flight exactly between its registration and its release.
   */
  lemma EveryRecordIsTrue(events: seq<Event>, s: Relay, k: nat) returns (id: Id)
    requires Runs(EMPTY, events, s) && k < |s.rows|
    ensures id in s.reqs && id in s.place && s.place[id] == k && (forall x :: x in s.place && s.place[x] == k ==> x == id)
    ensures s.rows[k].seqNo == k
    ensures s.rows[k].done.Some? <==> s.reqs[id].h.Finished?
    ensures !ReadAll(s.reqs[id].wire).Garbled?
    ensures s.rows[k].done.Some? ==>
              && s.rows[k].done.value.keepalives == (if s.reqs[id].watched then Some(ReadAll(s.reqs[id].wire).n) else None)
              && (s.rows[k].done.value.delivered <==>
                  ReadAll(s.reqs[id].wire).Final? && ReadAll(s.reqs[id].wire).complete)
    ensures id in s.inFlight <==> Holding(s.reqs[id].h)
  {
    RunsSound(EMPTY, events, s);
    assert s.rows[k].seqNo == k;
    id :| id in s.place && s.place[id] == k;
    assert Truthful(s, id);
  }
}
