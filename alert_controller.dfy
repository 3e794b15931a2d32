/** The alert handlers' decision logic: the creator override on create, the
    creator-or-admin rule on update and delete, and the preconditions of
    resolve. The alert collection is a map from alert id to stored document;
    each handler loads a document into a fresh `Alert`, changes it through the
    document's own methods and saves it back. */
module AlertController {
  import opened Wrappers
  import opened AlertModel
  import opened Responses
  import JsStrings

  /** The authenticated user the request carries. */
  datatype Requester = Requester(id: UserId, role: string)

  /** The outcome of the ownership test. `Throws` is the test itself failing:
      it reads the creator's id before looking at the role, so an alert
      without a creator makes it throw even for an administrator. */
  datatype Access = Permitted | Refused | Throws

  function Authorize(a: AlertDoc, user: Requester): (acc: Access)
    ensures acc == Throws <==> a.createdBy.None?
    ensures acc == Permitted <==> a.createdBy.Some? && (a.createdBy.value == user.id || user.role == "admin")
  {
    match a.createdBy
    case None => Throws
    case Some(creator) =>
      if creator != user.id && user.role != "admin" then Refused else Permitted
  }

  /** The rule on alerts that have a creator: the creator and administrators
      may change them, nobody else may. */
  lemma CreatorOrAdmin(a: AlertDoc, user: Requester, other: Requester)
    requires a.createdBy == Some(user.id)
    requires other.id != user.id && other.role != "admin"
    ensures Authorize(a, user) == Permitted
    ensures Authorize(a, Requester(other.id, "admin")) == Permitted
    ensures Authorize(a, other) == Refused
  {
  }

  type AlertStore = map<string, AlertDoc>

  /** `createAlert`: the body's fields, with `createdBy` replaced by the
      requester; saving runs the validators. `id` is the new document's id;
      an id already in use is the duplicate-key failure of the insert. */
  method CreateAlert(store: AlertStore, id: string, body: AlertInput, user: Requester, now: int)
    returns (res: Result<AlertDoc, HttpError>, store': AlertStore)
    ensures res.Success? <==> id !in store && IsValidAlert(NewAlert(body.(createdBy := Some(user.id)), now))
    ensures res.Success? ==>
      res.value == NewAlert(body.(createdBy := Some(user.id)), now)
      && res.value.createdBy == Some(user.id)
      && store' == store[id := res.value]
    ensures res.Failure? ==> res.error == ServerError("Failed to create alert") && store' == store
  {
    var alert := new Alert.FromDoc(NewAlert(body.(createdBy := Some(user.id)), now));
    var doc := alert.Doc();
    if id in store || Violations(doc) != [] {
      return Failure(ServerError("Failed to create alert")), store;
    }
    return Success(doc), store[id := doc];
  }

  /** A create body may carry the resolution fields, which pass through the
      same validators: a resolution that is still over 500 characters after
      trimming makes the create fail. The creator the body names never matters. */
  lemma CreateChecksBodyResolution(body: AlertInput, user: Requester, now: int)
    requires body.resolution.Some? && |JsStrings.Trim(body.resolution.value)| > 500
    ensures !IsValidAlert(NewAlert(body.(createdBy := Some(user.id)), now))
    ensures NewAlert(body.(createdBy := Some(user.id)), now).createdBy == Some(user.id)
  {
    LengthLimits(NewAlert(body.(createdBy := Some(user.id)), now));
  }

  /** `updateAlert`: not found, then the ownership test, then
      `Object.assign` and a validated save. */
  method UpdateAlert(store: AlertStore, id: string, patch: AlertPatch, user: Requester)
    returns (res: Result<AlertDoc, HttpError>, store': AlertStore)
    ensures id !in store ==> res == Failure(NotFound("Alert not found"))
    ensures id in store && Authorize(store[id], user) == Refused ==>
      res == Failure(Forbidden("Not authorized to update this alert"))
    ensures id in store && Authorize(store[id], user) == Throws ==>
      res == Failure(ServerError("Failed to update alert"))
    ensures res.Success? <==>
      id in store && Authorize(store[id], user) == Permitted && IsValidAlert(Patched(store[id], patch))
    ensures res.Success? ==> res.value == Patched(store[id], patch) && store' == store[id := res.value]
    ensures res.Failure? ==> store' == store
  {
    if id !in store {
      return Failure(NotFound("Alert not found")), store;
    }
    var access := Authorize(store[id], user);
    if access == Throws {
      return Failure(ServerError("Failed to update alert")), store;
    } else if access == Refused {
      return Failure(Forbidden("Not authorized to update this alert")), store;
    }
    var alert := new Alert.FromDoc(store[id]);
    alert.Assign(patch);
    var doc := alert.Doc();
    if Violations(doc) != [] {
      return Failure(ServerError("Failed to update alert")), store;
    }
    return Success(doc), store[id := doc];
  }

  /** `resolveAlert`: not found and already resolved are refused with the
      store unchanged; otherwise the alert is resolved by the requester and
      saved, which can still fail validation (a resolution over 500
      characters). Resolving needs no ownership. */
  method ResolveAlert(store: AlertStore, id: string, resolution: Option<string>, user: Requester, now: int)
    returns (res: Result<AlertDoc, HttpError>, store': AlertStore)
    ensures id !in store ==> res == Failure(NotFound("Alert not found")) && store' == store
    ensures id in store && store[id].status == Resolved ==>
      res == Failure(BadRequest("Alert is already resolved")) && store' == store
    ensures res.Success? <==>
      id in store && store[id].status != Resolved
      && IsValidAlert(ResolvedDoc(store[id], user.id, resolution, now))
    ensures res.Success? ==>
      res.value == ResolvedDoc(store[id], user.id, resolution, now)
      && res.value.status == Resolved && res.value.resolvedBy == Some(user.id)
      && res.value.resolvedAt == Some(now)
      && store' == store[id := res.value]
    ensures res.Failure? ==> store' == store
  {
    if id !in store {
      return Failure(NotFound("Alert not found")), store;
    }
    if store[id].status == Resolved {
      return Failure(BadRequest("Alert is already resolved")), store;
    }
    var alert := new Alert.FromDoc(store[id]);
    var saved := alert.Resolve(user.id, resolution, now);
    var doc := alert.Doc();
    if !saved {
      return Failure(ServerError("Failed to resolve alert")), store;
    }
    return Success(doc), store[id := doc];
  }

  /** `deleteAlert`: not found, then the ownership test, then removal. */
  method DeleteAlert(store: AlertStore, id: string, user: Requester)
    returns (res: Result<string, HttpError>, store': AlertStore)
    ensures id !in store ==> res == Failure(NotFound("Alert not found"))
    ensures id in store && Authorize(store[id], user) == Refused ==>
      res == Failure(Forbidden("Not authorized to delete this alert"))
    ensures id in store && Authorize(store[id], user) == Throws ==>
      res == Failure(ServerError("Failed to delete alert"))
    ensures res.Success? <==> id in store && Authorize(store[id], user) == Permitted
    ensures res.Success? ==> store' == store - {id} && id !in store'
    ensures res.Failure? ==> store' == store
  {
    if id !in store {
      return Failure(NotFound("Alert not found")), store;
    }
    var access := Authorize(store[id], user);
    if access == Throws {
      return Failure(ServerError("Failed to delete alert")), store;
    } else if access == Refused {
      return Failure(Forbidden("Not authorized to delete this alert")), store;
    }
    return Success("Alert deleted successfully"), store - {id};
  }
}
