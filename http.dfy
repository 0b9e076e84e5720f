/** What a controller sends back with `res.status(...).json(...)`. */
module Http {
  import opened Schema

  /** A server-assigned document id. */
  type Id = nat

  /** A stored document as replies show it: its id and its fields. */
  datatype Doc<T> = Doc(id: Id, record: T)

  datatype Reply<T> =
    | Ok(value: T)                      // 200, the document(s)
    | Created(value: T)                 // 201, the new document
    | Removed(message: string)          // 200, { message }
    | BadRequest(message: string)       // 400, { message } or { error }
    | Invalid(errors: seq<Violation>)   // 400, { message: 'Validation error', errors }
    | Forbidden(message: string)        // 403
    | NotFound(message: string)         // 404
    | ServerError(message: string)      // 500
  {
    /** The HTTP status code of the reply. */
    function Status(): (code: nat)
      ensures 200 <= code < 600
      ensures (code == 200 || code == 201) <==> (Ok? || Created? || Removed?)
    {
      match this
      case Ok(_) => 200
      case Created(_) => 201
      case Removed(_) => 200
      case BadRequest(_) => 400
      case Invalid(_) => 400
      case Forbidden(_) => 403
      case NotFound(_) => 404
      case ServerError(_) => 500
    }
  }

  /** `Model.find({})`: every stored document, in insertion order. Ids are
      handed out in increasing order, so this is the documents with ids in
      `[lo, hi)` by ascending id. */
  function Listing<T>(docs: map<Id, T>, lo: Id, hi: Id): (list: seq<Doc<T>>)
    decreases hi - lo
  {
    if lo >= hi then []
    else if lo in docs then [Doc(lo, docs[lo])] + Listing(docs, lo + 1, hi)
    else Listing(docs, lo + 1, hi)
  }

  /** The listing holds each stored document in `[lo, hi)` exactly once,
      by ascending id, and nothing else. */
  lemma {:induction false} ListingSpec<T>(docs: map<Id, T>, lo: Id, hi: Id)
    decreases hi - lo
    ensures forall i, j :: 0 <= i < j < |Listing(docs, lo, hi)| ==>
      Listing(docs, lo, hi)[i].id < Listing(docs, lo, hi)[j].id
    ensures forall i :: 0 <= i < |Listing(docs, lo, hi)| ==>
      var d := Listing(docs, lo, hi)[i];
      lo <= d.id < hi && d.id in docs && docs[d.id] == d.record
    ensures forall id :: lo <= id < hi && id in docs ==> Doc(id, docs[id]) in Listing(docs, lo, hi)
  {
    if lo < hi {
      ListingSpec(docs, lo + 1, hi);
      var rest := Listing(docs, lo + 1, hi);
      if lo in docs {
        var list := [Doc(lo, docs[lo])] + rest;
        assert Listing(docs, lo, hi) == list;
        assert forall i :: 1 <= i < |list| ==> list[i] == rest[i - 1];
      }
    }
  }
}
