/**
  The document store as the data service sees it: an abstract client
  holding named collections of documents. Only the calls the service
  makes are modelled, each with the contract of the store's API.
 */
module Firestore {
  import opened Wrappers
  import opened Documents

  class DocumentStore {
    /** Every collection with its documents. */
    var data: Store

    constructor (initial: Store)
      ensures data == initial
    {
      data := initial;
    }

    /**
      `add_document`: `collection(c).document(id).set(fields)`. With an id,
      the document under that id is replaced whole; without one, the store
      draws an id no document of the collection has. The write may be
      refused with an API error, and then nothing changes.
     */
    method AddDocument(collectionId: string, documentId: Option<string>, fields: Fields)
      returns (r: Result<string, ApiClientError>)
      modifies this
      ensures r.Ok? && documentId.Some? ==> r.value == documentId.value
      ensures r.Ok? && documentId.None? ==> r.value !in Docs(old(data), collectionId)
      ensures r.Ok? ==> data == SetDocument(old(data), collectionId, r.value, fields)
      ensures r.Err? ==> data == old(data)
    {
      var refused: bool := *;
      if refused {
        return Err(ApiClientError);
      }
      var id: string;
      match documentId {
        case Some(given) =>
          id := given;
        case None =>
          FreshIdExists(Docs(data, collectionId).Keys);
          id :| id !in Docs(data, collectionId);
      }
      data := SetDocument(data, collectionId, id, fields);
      r := Ok(id);
    }

    /**
      `get_documents`: every document of the collection, each once, in an
      order the store chooses.
     */
    method GetDocuments(collectionId: string) returns (docs: seq<Snapshot>)
      ensures FreshEntries(docs, {})
      ensures LastWins(docs) == Docs(data, collectionId)
    {
      var coll := Docs(data, collectionId);
      var todo := coll.Keys;
      docs := [];
      while todo != {}
        invariant todo <= coll.Keys
        invariant FreshEntries(docs, todo)
        invariant LastWins(docs) == map id | id in coll.Keys - todo :: coll[id]
        decreases todo
      {
        var id :| id in todo;
        var entry := Snapshot(id, coll[id]);
        assert (docs + [entry])[..|docs|] == docs;
        docs := docs + [entry];
        todo := todo - {id};
      }
    }

    /** `get_document`: the document under `documentId`, or None when there is none. */
    method GetDocument(collectionId: string, documentId: string) returns (doc: Option<Fields>)
      ensures doc.Some? <==> documentId in Docs(data, collectionId)
      ensures doc.Some? ==> doc.value == Docs(data, collectionId)[documentId]
    {
      var coll := Docs(data, collectionId);
      if documentId in coll {
        doc := Some(coll[documentId]);
      } else {
        doc := None;
      }
    }

    /**
      `add_field_to_document`: merges `field` into an existing document,
      keeping its other fields; `found` is false, and nothing changes, when
      there is no such document.
     */
    method AddFieldToDocument(collectionId: string, documentId: string, field: Fields)
      returns (found: bool)
      modifies this
      ensures found <==> documentId in Docs(old(data), collectionId)
      ensures found ==>
        data == SetDocument(old(data), collectionId, documentId, Docs(old(data), collectionId)[documentId] + field)
      ensures !found ==> data == old(data)
    {
      var coll := Docs(data, collectionId);
      found := documentId in coll;
      if found {
        data := SetDocument(data, collectionId, documentId, coll[documentId] + field);
      }
    }
  }
}
