/**
 * `MockMongoClient`, the in-memory document store the pipeline writes raw
 * results to. Its only state is the dict `data`. Every attribute the client
 * does not define goes through `__getattr__`, which registers an empty entry
 * under that name and returns the client itself; `insert_one` and `find_one`
 * read `self.__collection__`, which is such an attribute, so all documents
 * land in one collection stored under the client object as key.
 */
module Session {

  import opened Wrappers
  import opened Values
  import Decimal

  /** A key of `data`: an attribute name `__getattr__` registered, or the client object itself. */
  datatype Slot = Attr(name: string) | Client

  /** A Python dict from document id to document, in insertion order. */
  type Collection = seq<(string, Document)>

  /** The value of the client's `data` dict. */
  type MongoData = map<Slot, Collection>

  /** The position of `key` in the collection, or `|c|` when it is not a key. */
  function IndexOfKey(c: Collection, key: string): (i: nat)
    ensures i <= |c|
    ensures i < |c| ==> c[i].0 == key
    ensures forall j :: 0 <= j < i ==> c[j].0 != key
  {
    if c == [] then 0
    else if c[0].0 == key then 0
    else 1 + IndexOfKey(c[1..], key)
  }

  /** `collection[key] = doc`: replaces the value in place for a known key, appends otherwise. */
  function Assign(c: Collection, key: string, doc: Document): Collection {
    var i := IndexOfKey(c, key);
    if i < |c| then c[i := (key, doc)] else c + [(key, doc)]
  }

  /** The invariant the client keeps: attribute entries stay empty, and document `i` has id `str(i)`. */
  ghost predicate WellFormed(data: MongoData) {
    && (forall name :: Attr(name) in data ==> data[Attr(name)] == [])
    && (Client in data ==>
          forall i :: 0 <= i < |data[Client]| ==> data[Client][i].0 == Decimal.NatToString(i))
  }

  /** The shared collection (`self.data.get(self.__collection__, {})`). */
  function SharedCollection(data: MongoData): Collection {
    if Client in data then data[Client] else []
  }

  /** The stored documents, oldest first. */
  function DocumentsOf(data: MongoData): (docs: seq<Document>)
    ensures |docs| == |SharedCollection(data)|
  {
    var c := SharedCollection(data);
    seq(|c|, i requires 0 <= i < |c| => c[i].1)
  }

  /**
   * `__getattr__(name)`: registers an empty entry under `name` if it is not
   * there yet and leaves every other entry as it was.
   */
  function GetAttr(data: MongoData, name: string): (r: MongoData)
    ensures Attr(name) in r && r[Attr(name)] == (if Attr(name) in data then data[Attr(name)] else [])
    ensures r.Keys == data.Keys + {Attr(name)}
    ensures forall s :: s in data ==> r[s] == data[s]
  {
    if Attr(name) in data then data else data[Attr(name) := []]
  }

  /**
   * `insert_one(document)`: stores the document in the shared collection under
   * `str(len(collection))` and returns that id.
   */
  function InsertOneOn(data: MongoData, doc: Document): (MongoData, string) {
    var d := GetAttr(data, "__collection__");
    var c := Assign(SharedCollection(d), Decimal.NatToString(|SharedCollection(d)|), doc);
    (GetAttr(d, "__collection__")[Client := c], Decimal.NatToString(|c| - 1))
  }

  /** `all(doc.get(k) == v for k, v in query.items())`. */
  predicate Matches(doc: Document, query: Document) {
    forall k :: k in query ==> PyEq(Get(doc, k, VNone), query[k])
  }

  /** The first document, oldest first, that matches the query, or `None`. */
  function FirstMatch(docs: seq<Document>, query: Document): Option<Document> {
    if docs == [] then None
    else if Matches(docs[0], query) then Some(docs[0])
    else FirstMatch(docs[1..], query)
  }

  /**
   * `FirstMatch` is the earliest matching document: it matches, nothing before
   * it does, and `None` means that no document matches.
   */
  lemma {:induction false} FirstMatchIsEarliest(docs: seq<Document>, query: Document)
    ensures FirstMatch(docs, query).Some? ==>
      exists i :: 0 <= i < |docs| && docs[i] == FirstMatch(docs, query).value && Matches(docs[i], query)
                  && forall j :: 0 <= j < i ==> !Matches(docs[j], query)
    ensures FirstMatch(docs, query).None? ==> forall i :: 0 <= i < |docs| ==> !Matches(docs[i], query)
  {
    if docs != [] && !Matches(docs[0], query) {
      var tail := docs[1..];
      FirstMatchIsEarliest(tail, query);
      assert forall j :: 1 <= j < |docs| ==> docs[j] == tail[j - 1];
      if FirstMatch(tail, query).Some? {
        var i :| 0 <= i < |tail| && tail[i] == FirstMatch(tail, query).value && Matches(tail[i], query)
                 && forall j :: 0 <= j < i ==> !Matches(tail[j], query);
        assert docs[i + 1] == tail[i];
      }
    }
  }

  /** `find_one(query)`: the collection scan, after the `__collection__` lookup. */
  function FindOneOn(data: MongoData, query: Document): (MongoData, Option<Document>) {
    var d := GetAttr(data, "__collection__");
    (d, FirstMatch(DocumentsOf(d), query))
  }

  lemma FreshId(c: Collection)
    requires forall i :: 0 <= i < |c| ==> c[i].0 == Decimal.NatToString(i)
    ensures IndexOfKey(c, Decimal.NatToString(|c|)) == |c|
  {
    var i := IndexOfKey(c, Decimal.NatToString(|c|));
    if i < |c| {
      Decimal.NatToStringInjective(i, |c|);
    }
  }

  /**
   * `insert_one` appends: the id is `str(n)` for the `n` documents stored
   * before, no earlier document is overwritten, the count grows by exactly
   * one, and the store stays well formed.
   */
  lemma InsertOneAppends(data: MongoData, doc: Document)
    requires WellFormed(data)
    ensures WellFormed(InsertOneOn(data, doc).0)
    ensures DocumentsOf(InsertOneOn(data, doc).0) == DocumentsOf(data) + [doc]
    ensures InsertOneOn(data, doc).1 == Decimal.NatToString(|DocumentsOf(data)|)
  {
    var d := GetAttr(data, "__collection__");
    var c := SharedCollection(d);
    assert c == SharedCollection(data);
    FreshId(c);
    var c' := Assign(c, Decimal.NatToString(|c|), doc);
    assert c' == c + [(Decimal.NatToString(|c|), doc)];
    var (d', id) := InsertOneOn(data, doc);
    assert SharedCollection(d') == c';
    assert DocumentsOf(d') == DocumentsOf(data) + [doc];
  }

  /** `find_one` changes no stored document. */
  lemma FindOneKeepsDocuments(data: MongoData, query: Document)
    ensures DocumentsOf(FindOneOn(data, query).0) == DocumentsOf(data)
    ensures WellFormed(data) ==> WellFormed(FindOneOn(data, query).0)
  {
    assert SharedCollection(FindOneOn(data, query).0) == SharedCollection(data);
  }

  /** An empty query matches every document, so `find_one({})` is the first one stored. */
  lemma FindOneEmptyQuery(data: MongoData)
    ensures FindOneOn(data, map[]).1 == if DocumentsOf(data) == [] then None else Some(DocumentsOf(data)[0])
  {
    FindOneKeepsDocuments(data, map[]);
  }

  /** Querying by all fields of a stored document finds a document (that one or an earlier equal one). */
  lemma FindOneFindsStoredDocument(data: MongoData, i: nat)
    requires i < |DocumentsOf(data)|
    ensures FindOneOn(data, DocumentsOf(data)[i]).1.Some?
  {
    var doc := DocumentsOf(data)[i];
    FindOneKeepsDocuments(data, doc);
    FirstMatchIsEarliest(DocumentsOf(data), doc);
    forall k | k in doc ensures PyEq(Get(doc, k, VNone), doc[k]) {
      PyEqReflexive(doc[k]);
    }
    assert Matches(DocumentsOf(FindOneOn(data, doc).0)[i], doc);
  }

  /** The client object: its `data` dict and the methods that use it. */
  class MockMongoClient {
    var data: MongoData

    ghost predicate Valid()
      reads this
    {
      WellFormed(data)
    }

    /** The stored documents, oldest first. */
    function Documents(): seq<Document>
      reads this
    {
      DocumentsOf(data)
    }

    constructor ()
      ensures Valid() && data == map[] && Documents() == []
    {
      data := map[];
    }

    /** `get_default_database`: the client itself. */
    method GetDefaultDatabase() returns (db: MockMongoClient)
      ensures db == this
    {
      db := this;
    }

    /** `__getattr__(name)`: registers `name` if absent and returns the client itself. */
    method GetAttribute(name: string) returns (self: MockMongoClient)
      requires Valid()
      modifies this
      ensures self == this && Valid()
      ensures data == GetAttr(old(data), name)
      ensures Documents() == old(Documents())
    {
      if Attr(name) !in data {
        data := data[Attr(name) := []];
      }
      self := this;
      assert SharedCollection(data) == SharedCollection(old(data));
    }

    /** `insert_one(document)`: appends under the next sequential id and returns it. */
    method InsertOne(doc: Document) returns (insertedId: string)
      requires Valid()
      modifies this
      ensures Valid()
      ensures (data, insertedId) == InsertOneOn(old(data), doc)
      ensures Documents() == old(Documents()) + [doc]
      ensures insertedId == Decimal.NatToString(|old(Documents())|)
    {
      InsertOneAppends(data, doc);
      var key := GetAttribute("__collection__");
      var collection := if Client in data then data[Client] else [];
      collection := Assign(collection, Decimal.NatToString(|collection|), doc);
      key := GetAttribute("__collection__");
      data := data[Client := collection];
      insertedId := Decimal.NatToString(|collection| - 1);
    }

    /**
     * `find_one(query)`: scans the shared collection oldest first and returns
     * the first document that agrees with every query pair, or `None`.
     */
    method FindOne(query: Document) returns (r: Option<Document>)
      requires Valid()
      modifies this
      ensures Valid()
      ensures (data, r) == FindOneOn(old(data), query)
      ensures Documents() == old(Documents())
    {
      FindOneKeepsDocuments(data, query);
      var key := GetAttribute("__collection__");
      var collection := if Client in data then data[Client] else [];
      var docs := DocumentsOf(data);
      var i := 0;
      while i < |collection|
        invariant i <= |collection|
        invariant forall j :: 0 <= j < i ==> !Matches(docs[j], query)
        invariant FirstMatch(docs, query) == FirstMatch(docs[i..], query)
      {
        assert docs[i..][1..] == docs[i + 1..];
        if Matches(collection[i].1, query) {
          return Some(collection[i].1);
        }
        i := i + 1;
      }
      r := None;
    }
  }
}
