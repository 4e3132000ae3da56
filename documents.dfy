/** The document store behind the REST controllers.

    Mongoose collections become sequences held by one store object: the
    documents, whose id is their position (ids are allocated in order and no
    document is ever deleted), the users, and the shared-document records.
    `find` returns records in the order they were stored. A request handler
    becomes a method or a function returning its HTTP response: the status
    code and either the JSON body or the message of the error it throws. */
module Documents {
  import opened Js

  type UserId = nat
  type DocId = nat

  datatype Collaborator = Collaborator(userId: UserId, email: string)

  datatype Document = Document(
    id: DocId,
    owner: UserId,
    title: JsValue,
    content: JsValue,
    collaborators: seq<Collaborator>)

  datatype User = User(id: UserId, email: string)

  datatype SharedDocument = SharedDocument(userID: UserId, documentId: DocId)

  datatype Body = One(doc: Document) | Many(docs: seq<Document>) | Error(message: string)

  datatype Response = Response(status: int, body: Body)

  const DocumentNotFound := Response(404, Error("Document not found"))

  /** `document.title = title || document.title` and the same for the
      content: a truthy new value replaces the old one, a falsy one keeps it;
      nothing else changes. */
  function Updated(doc: Document, title: JsValue, content: JsValue): (r: Document)
    ensures r.title == (if Truthy(title) then title else doc.title)
    ensures r.content == (if Truthy(content) then content else doc.content)
    ensures r.id == doc.id && r.owner == doc.owner && r.collaborators == doc.collaborators
  {
    doc.(title := Or(title, doc.title), content := Or(content, doc.content))
  }

  /** Updating twice with the same request is the same as updating once. */
  lemma UpdateIdempotent(doc: Document, title: JsValue, content: JsValue)
    ensures Updated(Updated(doc, title, content), title, content) == Updated(doc, title, content)
  {
  }

  /** `User.findOne({email})`: the first stored user with that email. */
  function FindUserByEmail(users: seq<User>, email: string): (r: Option<User>)
    ensures r.Some? ==> r.value in users && r.value.email == email
    ensures r.None? <==> forall j :: 0 <= j < |users| ==> users[j].email != email
    decreases |users|
  {
    if users == [] then None
    else if users[0].email == email then Some(users[0])
    else FindUserByEmail(users[1..], email)
  }

  /** `Document.find({owner})`: the documents of one owner, in stored order,
      each stored match exactly once. */
  function OwnedBy(docs: seq<Document>, owner: UserId): (r: seq<Document>)
    ensures |r| <= |docs|
    ensures forall d :: d in r <==> d in docs && d.owner == owner
    ensures forall d :: multiset(r)[d] == if d.owner == owner then multiset(docs)[d] else 0
    decreases |docs|
  {
    if docs == [] then []
    else
      assert docs == docs[..|docs| - 1] + [docs[|docs| - 1]];
      if docs[|docs| - 1].owner == owner then OwnedBy(docs[..|docs| - 1], owner) + [docs[|docs| - 1]]
      else OwnedBy(docs[..|docs| - 1], owner)
  }

  /** `SharedDocument.find({userID})`: one user's shared records, in stored
      order, each stored match exactly once. */
  function SharedWith(shared: seq<SharedDocument>, user: UserId): (r: seq<SharedDocument>)
    ensures |r| <= |shared|
    ensures forall s :: s in r <==> s in shared && s.userID == user
    ensures forall s :: multiset(r)[s] == if s.userID == user then multiset(shared)[s] else 0
    decreases |shared|
  {
    if shared == [] then []
    else
      assert shared == shared[..|shared| - 1] + [shared[|shared| - 1]];
      if shared[|shared| - 1].userID == user then SharedWith(shared[..|shared| - 1], user) + [shared[|shared| - 1]]
      else SharedWith(shared[..|shared| - 1], user)
  }

  /** `.populate('documentId')` followed by `.map(s => s.documentId)`: each
      record replaced by its document, in the records' order. */
  function Populate(docs: seq<Document>, records: seq<SharedDocument>): (r: seq<Document>)
    requires forall j :: 0 <= j < |records| ==> records[j].documentId < |docs|
    ensures |r| == |records|
    ensures forall j :: 0 <= j < |records| ==> r[j] == docs[records[j].documentId]
    decreases |records|
  {
    if records == [] then []
    else Populate(docs, records[..|records| - 1]) + [docs[records[|records| - 1].documentId]]
  }

  class DocumentStore {
    var documents: seq<Document>
    var users: seq<User>
    var shared: seq<SharedDocument>

    /** Each document sits at its own id, and every shared record names a stored document. */
    ghost predicate Valid()
      reads this
    {
      && (forall i :: 0 <= i < |documents| ==> documents[i].id == i)
      && (forall j :: 0 <= j < |shared| ==> shared[j].documentId < |documents|)
    }

    /** An empty store over the given users (user accounts are managed elsewhere). */
    constructor (users: seq<User>)
      ensures Valid()
      ensures documents == [] && this.users == users && shared == []
    {
      documents := [];
      this.users := users;
      shared := [];
    }

    /** createDocument: store a new document owned by the given user, with the
      given title and content and no collaborators, and answer 201 with it. */
    method CreateDocument(owner: UserId, title: JsValue, content: JsValue) returns (r: Response)
      requires Valid()
      modifies this`documents
      ensures Valid()
      ensures documents == old(documents) + [Document(|old(documents)|, owner, title, content, [])]
      ensures r == Response(201, One(documents[|old(documents)|]))
    {
      var doc := Document(|documents|, owner, title, content, []);
      documents := documents + [doc];
      r := Response(201, One(doc));
    }

    /** getDocument: the stored document, or 404 "Document not found". */
    function GetDocument(id: DocId): (r: Response)
      reads this
      requires Valid()
      ensures r.status == 404 <==> id >= |documents|
      ensures r.status == 404 ==> r.body == Error("Document not found")
      ensures r.status != 404 ==> r.status == 200 && r.body.One? && r.body.doc.id == id && r.body.doc in documents
    {
      if id < |documents| then Response(200, One(documents[id])) else DocumentNotFound
    }

    /** updateDocument: on a stored document, replace title and content where
      the request's values are truthy and answer with the saved document; on
      an unknown id, 404 and no change. */
    method UpdateDocument(id: DocId, title: JsValue, content: JsValue) returns (r: Response)
      requires Valid()
      modifies this`documents
      ensures Valid()
      ensures id >= |old(documents)| ==> documents == old(documents) && r == DocumentNotFound
      ensures id < |old(documents)| ==>
                && documents == old(documents)[id := Updated(old(documents)[id], title, content)]
                && r == Response(200, One(documents[id]))
    {
      if id >= |documents| {
        return DocumentNotFound;
      }
      var doc := Updated(documents[id], title, content);
      documents := documents[id := doc];
      r := Response(200, One(doc));
    }

    /** addCollaborator. The document is looked up first, then the user by
      email; either missing gives 404 and no change. `alreadyIncluded` is the
      result of the duplicate test on the document's collaborator list, which
      this model leaves uninterpreted: when it holds, 400 and no change.
      Otherwise exactly one collaborator entry is appended to the document,
      exactly one shared record is stored, and the answer is the document. */
    method AddCollaborator(id: DocId, email: string, alreadyIncluded: bool) returns (r: Response)
      requires Valid()
      modifies this`documents, this`shared
      ensures Valid()
      ensures id >= |old(documents)| ==>
                documents == old(documents) && shared == old(shared) && r == DocumentNotFound
      ensures id < |old(documents)| && FindUserByEmail(users, email).None? ==>
                documents == old(documents) && shared == old(shared) && r == Response(404, Error("User not found"))
      ensures id < |old(documents)| && FindUserByEmail(users, email).Some? && alreadyIncluded ==>
                documents == old(documents) && shared == old(shared) && r == Response(400, Error("Collaborator already exists"))
      ensures id < |old(documents)| && FindUserByEmail(users, email).Some? && !alreadyIncluded ==>
                var u := FindUserByEmail(users, email).value;
                && documents == old(documents)[id := old(documents)[id].(collaborators :=
                     old(documents)[id].collaborators + [Collaborator(u.id, u.email)])]
                && shared == old(shared) + [SharedDocument(u.id, id)]
                && r == Response(200, One(documents[id]))
    {
      if id >= |documents| {
        return DocumentNotFound;
      }
      var user := FindUserByEmail(users, email);
      if user.None? {
        return Response(404, Error("User not found"));
      }
      if alreadyIncluded {
        return Response(400, Error("Collaborator already exists"));
      }
      var u := user.value;
      var doc := documents[id];
      doc := doc.(collaborators := doc.collaborators + [Collaborator(u.id, u.email)]);
      documents := documents[id := doc];
      shared := shared + [SharedDocument(u.id, id)];
      r := Response(200, One(doc));
    }

    /** getUserDocuments: exactly the documents the user owns, in stored
      order, or 404 when there are none. */
    function GetUserDocuments(owner: UserId): (r: Response)
      reads this
      ensures r.status == 404 <==> forall i :: 0 <= i < |documents| ==> documents[i].owner != owner
      ensures r.status == 404 ==> r.body == Error("No documents found for this user")
      ensures r.status != 404 ==>
                && r.status == 200 && r.body.Many?
                && (forall d :: d in r.body.docs <==> d in documents && d.owner == owner)
                && (forall d :: multiset(r.body.docs)[d] == if d.owner == owner then multiset(documents)[d] else 0)
    {
      var owned := OwnedBy(documents, owner);
      if owned == [] then
        assert forall i :: 0 <= i < |documents| ==> documents[i] !in owned;
        Response(404, Error("No documents found for this user"))
      else
        assert owned[0] in documents && owned[0].owner == owner;
        assert exists i :: 0 <= i < |documents| && documents[i] == owned[0];
        Response(200, Many(owned))
    }

    /** getSharedDocuments: the user's shared records, in order, each replaced
      by its document, or 404 when the user has none. */
    function GetSharedDocuments(user: UserId): (r: Response)
      reads this
      requires Valid()
      ensures r.status == 404 <==> forall j :: 0 <= j < |shared| ==> shared[j].userID != user
      ensures r.status == 404 ==> r.body == Error("No shared documents found for this user")
      ensures r.status != 404 ==>
                && r.status == 200 && r.body.Many?
                && |r.body.docs| == |SharedWith(shared, user)|
                && forall j :: 0 <= j < |r.body.docs| ==>
                     SharedWith(shared, user)[j].userID == user &&
                     r.body.docs[j] == documents[SharedWith(shared, user)[j].documentId]
    {
      var records := SharedWith(shared, user);
      if records == [] then
        assert forall j :: 0 <= j < |shared| ==> shared[j] !in records;
        Response(404, Error("No shared documents found for this user"))
      else
        Response(200, Many(Populate(documents, records)))
    }
  }
}
