/** The create, update and delete handlers of controllers/propertyController.js,
    reduced to what they do with the cache and the order of their checks.
    The request-body validation chain is summed up by a boolean; the
    document-store calls (`findById`, `save`, `remove`) are parameters. */
module PropertyHandlers {
  import opened KeyValueStore
  import opened Invalidation

  /** A property document as loaded from the store; `Object.assign` updates
      its fields in place. `createdBy` is one of the fields. */
  class PropertyDoc {
    var fields: map<string, string>

    constructor (fields: map<string, string>)
      ensures this.fields == fields
    {
      this.fields := fields;
    }
  }

  /** What `Property.findById(req.params.id)` gave: the document, null, or a
      thrown error (an id that does not cast, a lost connection). */
  datatype FindResult = Found(doc: PropertyDoc) | NotFound | FindFailed

  /** The JSON payload of a reply. `ThrownError` carries a message produced
      by a library this model does not see. */
  datatype Payload =
    | Document(fields: map<string, string>)
    | ValidationErrors
    | ErrorText(text: string)
    | ThrownError
    | DeletedMessage

  datatype HttpReply = HttpReply(status: int, payload: Payload)

  const NotFoundText: string := "Property not found"
  const NotOwnerText: string := "Unauthorized: not the property owner"

  /** `property.createdBy.toString() !== req.user.id` can only be evaluated
      when the document has an owner; without one it throws. */
  predicate HasOwner(fields: map<string, string>) {
    "createdBy" in fields
  }

  predicate OwnedBy(fields: map<string, string>, userId: string) {
    HasOwner(fields) && fields["createdBy"] == userId
  }

  /** `createProperty`: a new document made of the body with the caller as
      owner, saved and answered with 201. It has no access to the cache. */
  function CreateProperty(valid: bool, body: map<string, string>, userId: string, saveOk: bool): (reply: HttpReply)
    ensures !valid ==> reply == HttpReply(400, ValidationErrors)
    ensures valid && !saveOk ==> reply == HttpReply(400, ThrownError)
    ensures valid && saveOk ==> reply.status == 201 && reply.payload.Document?
    ensures reply.payload.Document? ==>
              && OwnedBy(reply.payload.fields, userId)
              && reply.payload.fields.Keys == body.Keys + {"createdBy"}
              && forall k :: k in body && k != "createdBy" ==> reply.payload.fields[k] == body[k]
  {
    if !valid then HttpReply(400, ValidationErrors)
    else if !saveOk then HttpReply(400, ThrownError)
    else HttpReply(201, Document(body["createdBy" := userId]))
  }

  /** `updateProperty`: validation (400), existence (404), ownership (403),
      then invalidation, `Object.assign`, `save` and the reply. A thrown error
      anywhere in the `try` answers 400. The cache is invalidated exactly when
      all three checks pass, and before the save: a failing save still leaves
      the cache invalidated. */
  method UpdateProperty(store: Store, id: string, userId: string, valid: bool,
                        body: map<string, string>, found: FindResult, saveOk: bool)
    returns (reply: HttpReply)
    modifies store, if found.Found? then {found.doc} else {}
    ensures !valid ==> reply == HttpReply(400, ValidationErrors)
    ensures valid && found.FindFailed? ==> reply == HttpReply(400, ThrownError)
    ensures valid && found.NotFound? ==> reply == HttpReply(404, ErrorText(NotFoundText))
    ensures valid && found.Found? && !HasOwner(old(found.doc.fields)) ==> reply == HttpReply(400, ThrownError)
    ensures (valid && found.Found? && HasOwner(old(found.doc.fields)) && !OwnedBy(old(found.doc.fields), userId))
              ==> reply == HttpReply(403, ErrorText(NotOwnerText))
    ensures valid && found.Found? && OwnedBy(old(found.doc.fields), userId) ==>
              && store.State() == Invalidated(old(store.State()), InvalidationPrefix(UpdatePatterns(id)))
              && (var prefix := InvalidationPrefix(UpdatePatterns(id));
                  var matched := MatchingKeys(old(store.State()), prefix);
                  store.issued == old(store.issued) + [KeysCmd(prefix + "*")]
                    + (if old(store.up) && matched != {} then [DelCmd(matched)] else []))
              && found.doc.fields == old(found.doc.fields) + body
              && reply == (if saveOk then HttpReply(200, Document(found.doc.fields)) else HttpReply(400, ThrownError))
    ensures !(valid && found.Found? && OwnedBy(old(found.doc.fields), userId)) ==>
              && store.State() == old(store.State()) && store.issued == old(store.issued)
              && (found.Found? ==> found.doc.fields == old(found.doc.fields))
  {
    if !valid {
      return HttpReply(400, ValidationErrors);
    }
    match found
    case FindFailed =>
      reply := HttpReply(400, ThrownError);
    case NotFound =>
      reply := HttpReply(404, ErrorText(NotFoundText));
    case Found(doc) =>
      if !HasOwner(doc.fields) {
        // reading `createdBy.toString` of undefined throws
        return HttpReply(400, ThrownError);
      }
      if doc.fields["createdBy"] != userId {
        return HttpReply(403, ErrorText(NotOwnerText));
      }
      InvalidateCache(store, UpdatePatterns(id));
      doc.fields := doc.fields + body;
      if saveOk {
        reply := HttpReply(200, Document(doc.fields));
      } else {
        reply := HttpReply(400, ThrownError);
      }
  }

  /** `deleteProperty`: existence (404), ownership (403), then `remove`; a
      thrown error answers 500. It has no access to the cache. */
  method DeleteProperty(userId: string, found: FindResult, removeOk: bool) returns (reply: HttpReply)
    ensures found.FindFailed? ==> reply == HttpReply(500, ThrownError)
    ensures found.NotFound? ==> reply == HttpReply(404, ErrorText(NotFoundText))
    ensures found.Found? && !HasOwner(found.doc.fields) ==> reply == HttpReply(500, ThrownError)
    ensures (found.Found? && HasOwner(found.doc.fields) && !OwnedBy(found.doc.fields, userId))
              ==> reply == HttpReply(403, ErrorText(NotOwnerText))
    ensures found.Found? && OwnedBy(found.doc.fields, userId) ==>
              reply == if removeOk then HttpReply(200, DeletedMessage) else HttpReply(500, ThrownError)
  {
    match found
    case FindFailed =>
      reply := HttpReply(500, ThrownError);
    case NotFound =>
      reply := HttpReply(404, ErrorText(NotFoundText));
    case Found(doc) =>
      if !HasOwner(doc.fields) {
        reply := HttpReply(500, ThrownError);
      } else if doc.fields["createdBy"] != userId {
        reply := HttpReply(403, ErrorText(NotOwnerText));
      } else if removeOk {
        reply := HttpReply(200, DeletedMessage);
      } else {
        reply := HttpReply(500, ThrownError);
      }
  }
}
