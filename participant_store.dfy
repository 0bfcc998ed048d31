/**
 * The participant collection: one document per call, keyed by the call identifier, holding
 * the recorded answers in arrival order.
 */
module ParticipantStore {
  import opened Wrappers

  /** One recorded answer: the call leg and the recording reference (`id` in the callback body). */
  datatype Response = Response(legId: string, recordingId: string)

  datatype Participant = Participant(callId: string, number: string, responses: seq<Response>)

  type Store = map<string, Participant>

  /** Every document sits under its own call identifier. */
  predicate WellKeyed(store: Store) {
    forall id :: id in store ==> store[id].callId == id
  }

  predicate NoDuplicates(rs: seq<Response>) {
    forall i, j :: 0 <= i < j < |rs| ==> rs[i] != rs[j]
  }

  /** The `$addToSet` update: append the answer unless an equal one is already there. */
  function AddToSet(rs: seq<Response>, r: Response): (rs': seq<Response>)
    ensures r in rs'
    ensures forall x :: x in rs' <==> x in rs || x == r
    ensures rs <= rs'
    ensures |rs'| == if r in rs then |rs| else |rs| + 1
  {
    if r in rs then rs else rs + [r]
  }

  /** Adding the same answer twice is the same as adding it once. */
  lemma AddToSetIdempotent(rs: seq<Response>, r: Response)
    ensures AddToSet(AddToSet(rs, r), r) == AddToSet(rs, r)
  {
  }

  /** `$addToSet` keeps a duplicate-free answer list duplicate-free. */
  lemma AddToSetKeepsNoDuplicates(rs: seq<Response>, r: Response)
    requires NoDuplicates(rs)
    ensures NoDuplicates(AddToSet(rs, r))
  {
  }

  /** The objects that hold the collection: `find`, `insertOne` and `updateOne` over its documents. */
  class ParticipantCollection {
    var participants: Store

    ghost predicate Valid()
      reads this
    {
      WellKeyed(participants)
    }

    constructor ()
      ensures Valid() && participants == map[]
    {
      participants := map[];
    }

    /** `find(eq("callId", callId)).first()`: the document for the call, if there is one. */
    function Find(callId: string): (r: Option<Participant>)
      requires Valid()
      reads this
      ensures r.Some? ==> r.value.callId == callId
      ensures r.Some? <==> callId in participants
      ensures r.Some? ==> r.value == participants[callId]
    {
      if callId in participants then Some(participants[callId]) else None
    }

    /** `insertOne`: adds a new document; only called for a call that has none yet. */
    method InsertOne(p: Participant)
      requires Valid()
      requires p.callId !in participants
      modifies this
      ensures Valid()
      ensures participants == old(participants)[p.callId := p]
    {
      participants := participants[p.callId := p];
    }

    /** `updateOne(eq("callId", callId), addToSet("responses", r))`: no effect when no document matches. */
    method UpdateAddToSet(callId: string, r: Response)
      requires Valid()
      modifies this
      ensures Valid()
      ensures callId !in old(participants) ==> participants == old(participants)
      ensures callId in old(participants) ==>
                participants == old(participants)[callId := old(participants)[callId].(responses := AddToSet(old(participants)[callId].responses, r))]
    {
      if callId in participants {
        var p := participants[callId];
        participants := participants[callId := p.(responses := AddToSet(p.responses, r))];
      }
    }
  }
}
