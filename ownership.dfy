/** The ownership and identity guards of the Python backend.  A table is
    a sequence of rows; the two-condition `select ... where id == ? where
    user_id == ?` followed by `scalar` is the first row meeting both
    conditions.  A row whose `user_id` is NULL matches no user. */
module Ownership {
  import opened Wrappers
  import opened Js
  import Auth

  type HttpError = Auth.HttpError

  const PresentationDenied := Auth.HttpError(404, "Presentation not found or access denied")
  const TemplateDenied := Auth.HttpError(404, "Template not found or access denied")
  const AuthenticationRequired := Auth.HttpError(401, "Authentication required")
  const InvalidAuthenticationToken := Auth.HttpError(401, "Invalid authentication token")

  /** A row of either table: its key, its owner and the rest of its columns. */
  datatype Row<P> = Row(id: string, userId: Option<string>, payload: P)

  predicate Owned<P>(row: Row<P>, id: string, userId: string) {
    row.id == id && row.userId == Some(userId)
  }

  /** The query: the first row with the given id owned by the given user. */
  function ScalarWhere<P>(rows: seq<Row<P>>, id: string, userId: string): (r: Option<Row<P>>)
    ensures r.None? <==> forall i :: 0 <= i < |rows| ==> !Owned(rows[i], id, userId)
    ensures r.Some? ==> r.value in rows && Owned(r.value, id, userId)
  {
    if |rows| == 0 then None
    else if Owned(rows[0], id, userId) then Some(rows[0])
    else
      var r := ScalarWhere(rows[1..], id, userId);
      assert forall i :: 0 < i < |rows| ==> rows[i] == rows[1..][i - 1];
      r
  }

  /** `validate_presentation_ownership` */
  function ValidatePresentationOwnership<P>(presentations: seq<Row<P>>, presentationId: string, userId: string)
    : (r: Result<Row<P>, HttpError>)
    ensures r.Success? ==> r.value in presentations && r.value.id == presentationId && r.value.userId == Some(userId)
    ensures r.Failure? <==> forall i :: 0 <= i < |presentations| ==> !Owned(presentations[i], presentationId, userId)
    ensures r.Failure? ==> r.error == PresentationDenied
  {
    match ScalarWhere(presentations, presentationId, userId)
    case None => Failure(PresentationDenied)
    case Some(p) => Success(p)
  }

  /** `validate_template_ownership` */
  function ValidateTemplateOwnership<P>(templates: seq<Row<P>>, templateId: string, userId: string)
    : (r: Result<Row<P>, HttpError>)
    ensures r.Success? ==> r.value in templates && r.value.id == templateId && r.value.userId == Some(userId)
    ensures r.Failure? <==> forall i :: 0 <= i < |templates| ==> !Owned(templates[i], templateId, userId)
    ensures r.Failure? ==> r.error == TemplateDenied
  {
    match ScalarWhere(templates, templateId, userId)
    case None => Failure(TemplateDenied)
    case Some(t) => Success(t)
  }

  /** The rows a user owns, in table order. */
  function RowsOwnedBy<P>(rows: seq<Row<P>>, userId: string): (r: seq<Row<P>>)
    ensures forall row :: row in r ==> row in rows && row.userId == Some(userId)
    ensures forall row :: row in rows && row.userId == Some(userId) ==> row in r
  {
    if |rows| == 0 then []
    else
      assert forall row :: row in rows ==> row == rows[0] || row in rows[1..];
      (if rows[0].userId == Some(userId) then [rows[0]] else []) + RowsOwnedBy(rows[1..], userId)
  }

  /** The answer depends only on the caller's own rows: other users' rows,
      whatever their ids, change nothing. */
  lemma {:induction false} OwnershipSeesOnlyOwnRows<P>(rows: seq<Row<P>>, id: string, userId: string)
    ensures ScalarWhere(rows, id, userId) == ScalarWhere(RowsOwnedBy(rows, userId), id, userId)
  {
    if |rows| > 0 {
      OwnershipSeesOnlyOwnRows(rows[1..], id, userId);
      if rows[0].userId == Some(userId) {
        assert RowsOwnedBy(rows, userId) == [rows[0]] + RowsOwnedBy(rows[1..], userId);
        assert ([rows[0]] + RowsOwnedBy(rows[1..], userId))[1..] == RowsOwnedBy(rows[1..], userId);
      } else {
        assert RowsOwnedBy(rows, userId) == RowsOwnedBy(rows[1..], userId);
      }
    }
  }

  /** "Not found" and "owned by someone else" give the same answer: a
      presentation of another user is reported exactly as a missing one. */
  lemma NotOwnedIsIndistinguishableFromMissing<P>(presentations: seq<Row<P>>, presentationId: string, userId: string)
    requires forall i :: 0 <= i < |presentations| ==> presentations[i].userId != Some(userId)
    ensures ValidatePresentationOwnership(presentations, presentationId, userId)
         == ValidatePresentationOwnership([], presentationId, userId)
  {
  }

  /** `get_user_id_from_request`: `user` is `request.state.user`, absent
      when the attribute is missing or falsy. */
  function GetUserIdFromRequest(user: Option<Auth.User>): (r: Result<string, HttpError>)
    ensures user.None? ==> r == Failure(AuthenticationRequired)
    ensures user.Some? && !Truthy(user.value.userId) ==> r == Failure(InvalidAuthenticationToken)
    ensures r.Success? <==> user.Some? && Truthy(user.value.userId)
    ensures r.Success? ==> r.value == user.value.userId.value
  {
    if user.None? then Failure(AuthenticationRequired)
    else if !Truthy(user.value.userId) then Failure(InvalidAuthenticationToken)
    else Success(user.value.userId.value)
  }

  /** After `require_user` succeeds, the user id read back from the request
      is the token's `sub` claim, when that claim is a non-empty string. */
  lemma AuthenticatedRequestYieldsSubject(token: string, jwks: Auth.Jwks, audience: string, issuer: string,
                                           headerOf: string -> Option<Auth.TokenHeader>,
                                           decode: Auth.DecodeRequest -> Option<Auth.Claims>)
    requires Auth.VerifyToken(token, jwks, audience, issuer, headerOf, decode).Success?
    ensures var user := Auth.VerifyToken(token, jwks, audience, issuer, headerOf, decode).value;
            && (Truthy(user.claims.sub) ==> GetUserIdFromRequest(Some(user)) == Success(user.claims.sub.value))
            && (!Truthy(user.claims.sub) ==> GetUserIdFromRequest(Some(user)) == Failure(InvalidAuthenticationToken))
  {
  }
}
