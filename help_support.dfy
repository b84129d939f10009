/** The help-support query store (controllers/amit/helpSupportController.js), with the
    defaults of models/amit/helpSupportModel.js for new queries. */
module HelpSupport {
  import opened Options
  import Js
  import opened Store

  const FieldsRequiredMessage := "User ID and question are required."
  const UserNotFoundMessage := "User not found."
  const UserIdRequiredMessage := "User ID is required."
  const QueryIdRequiredMessage := "Query ID is required."
  const QueryNotFoundMessage := "Query not found."
  const SubmittedMessage := "Query submitted successfully."
  const DeletedMessage := "Query deleted successfully."
  const ServerErrorMessage := "Server error."

  /** The status values the schema allows; a new query starts `Open`. */
  datatype QueryStatus = Open | InProgress | Resolved | Closed

  datatype Query = Query(id: string, userId: string, question: string, response: Option<string>, status: QueryStatus)

  /** The store calls the three handlers make. */
  datatype Call = FindUser | Save | Find | FindByIdAndDelete

  datatype Reply =
    | Submitted(query: Query)            // 201 { success, message: SubmittedMessage, query }
    | Queries(queries: seq<Query>)       // 200 { success, queries }
    | Deleted                            // 200 { success, message: DeletedMessage }
    | Refused(status: nat, message: string)  // 400 or 404 { message }
    | ServerError(error: string)         // 500 { message: "Server error.", error }
  {
    function Status(): nat {
      match this
      case Submitted(_) => 201
      case Queries(_) => 200
      case Deleted => 200
      case Refused(s, _) => s
      case ServerError(_) => 500
    }

    /** The `message` field of the JSON body, when it has one. */
    function Message(): Option<string> {
      match this
      case Submitted(_) => Some(SubmittedMessage)
      case Queries(_) => None
      case Deleted => Some(DeletedMessage)
      case Refused(_, m) => Some(m)
      case ServerError(_) => Some(ServerErrorMessage)
    }
  }

  datatype Outcome = Outcome(reply: Reply, queries: seq<Query>)

  ghost predicate UniqueIds(queries: seq<Query>) {
    forall i, j :: 0 <= i < j < |queries| ==> queries[i].id != queries[j].id
  }

  /** `createSupportQuery`: presence guard, user lookup, then one insert with the schema's
      defaults (no response yet, status Open). */
  function CreateOutcome(
    queries: seq<Query>, userId: Option<string>, question: Option<string>, users: set<string>, fault: Fault<Call>
  ): (o: Outcome)
    ensures o.reply == Refused(400, FieldsRequiredMessage) <==> !(Js.Filled(userId) && Js.Filled(question))
    ensures o.reply == Refused(404, UserNotFoundMessage) <==>
      Js.Filled(userId) && Js.Filled(question) && !FailsAt(fault, FindUser) && userId.value !in users
    ensures o.reply.ServerError? <==>
      Js.Filled(userId) && Js.Filled(question)
      && (FailsAt(fault, FindUser) || (userId.value in users && FailsAt(fault, Save)))
    ensures o.reply.ServerError? ==> fault.FailAt? && o.reply.error == fault.message
    ensures o.reply.Submitted? <==>
      Js.Filled(userId) && Js.Filled(question) && !FailsAt(fault, FindUser) && userId.value in users
      && !FailsAt(fault, Save)
    ensures !o.reply.Submitted? ==> o.queries == queries
    ensures o.reply.Submitted? ==>
      o.queries == queries + [o.reply.query] && o.reply.query.id != "" && (forall k :: 0 <= k < |queries| ==> queries[k].id != o.reply.query.id)
      && o.reply.query.userId == userId.value && o.reply.query.question == question.value
      && o.reply.query.response == None && o.reply.query.status == Open
    ensures UniqueIds(queries) ==> UniqueIds(o.queries)
  {
    if !(Js.Filled(userId) && Js.Filled(question)) then Outcome(Refused(400, FieldsRequiredMessage), queries)
    else if FailsAt(fault, FindUser) then Outcome(ServerError(fault.message), queries)
    else if userId.value !in users then Outcome(Refused(404, UserNotFoundMessage), queries)
    else if FailsAt(fault, Save) then Outcome(ServerError(fault.message), queries)
    else
      var id := FreshId(queries, (q: Query) => q.id);
      var q := Query(id, userId.value, question.value, None, Open);
      Outcome(Submitted(q), queries + [q])
  }

  /** The user's queries, in store order (`HelpSupport.find({ userId })`). */
  function ByUser(queries: seq<Query>, userId: string): (r: seq<Query>)
    ensures forall k :: 0 <= k < |r| ==> r[k].userId == userId && r[k] in queries
    ensures forall k :: 0 <= k < |queries| && queries[k].userId == userId ==> queries[k] in r
    ensures forall q {:trigger multiset(r)[q]} :: multiset(r)[q] == if q.userId == userId then multiset(queries)[q] else 0
    ensures Subsequence(r, queries)
  {
    Filter((q: Query) => q.userId == userId, queries)
  }

  /** `deleteQuery`: presence guard, then `findByIdAndDelete`; an unknown id is a 404. */
  function DeleteOutcome(queries: seq<Query>, queryId: string, fault: Fault<Call>): (o: Outcome)
    ensures o.reply == Refused(400, QueryIdRequiredMessage) <==> queryId == ""
    ensures o.reply.ServerError? <==> queryId != "" && FailsAt(fault, FindByIdAndDelete)
    ensures o.reply.ServerError? ==> o.reply.error == fault.message
    ensures o.reply == Refused(404, QueryNotFoundMessage) <==>
      queryId != "" && !FailsAt(fault, FindByIdAndDelete) && forall k :: 0 <= k < |queries| ==> queries[k].id != queryId
    ensures o.reply == Deleted <==>
      queryId != "" && !FailsAt(fault, FindByIdAndDelete) && exists k :: 0 <= k < |queries| && queries[k].id == queryId
    ensures o.reply != Deleted ==> o.queries == queries
    ensures o.reply == Deleted ==> |o.queries| == |queries| - 1
    ensures o.reply == Deleted && UniqueIds(queries) ==> o.queries == Filter((q: Query) => q.id != queryId, queries)
    ensures UniqueIds(queries) ==> UniqueIds(o.queries)
  {
    if queryId == "" then Outcome(Refused(400, QueryIdRequiredMessage), queries)
    else if FailsAt(fault, FindByIdAndDelete) then Outcome(ServerError(fault.message), queries)
    else
      match IndexWhere((q: Query) => q.id == queryId, queries)
      case None => Outcome(Refused(404, QueryNotFoundMessage), queries)
      case Some(k) =>
        var rest := RemoveAt(queries, k);
        assert UniqueIds(queries) ==> rest == Filter((q: Query) => q.id != queryId, queries) by {
          if UniqueIds(queries) {
            RemoveAtIsFilter((q: Query) => q.id != queryId, queries, k);
          }
        }
        Outcome(Deleted, rest)
  }

  /** Deleting the query just submitted, by the id it was given, restores the collection. */
  lemma CreateThenDelete(
    queries: seq<Query>, userId: Option<string>, question: Option<string>, users: set<string>, fault: Fault<Call>)
    requires CreateOutcome(queries, userId, question, users, fault).reply.Submitted?
    ensures var o := CreateOutcome(queries, userId, question, users, fault);
      DeleteOutcome(o.queries, o.reply.query.id, NoFault) == Outcome(Deleted, queries)
  {
    var o := CreateOutcome(queries, userId, question, users, fault);
    var id := o.reply.query.id;
    assert o.queries[|queries|].id == id;
    assert IndexWhere((q: Query) => q.id == id, o.queries) == Some(|queries|);
    assert RemoveAt(o.queries, |queries|) == queries;
  }

  /** Once a query is deleted, a second delete of the same id finds nothing. */
  lemma DeleteTwiceNotFound(queries: seq<Query>, queryId: string, fault: Fault<Call>)
    requires UniqueIds(queries)
    requires DeleteOutcome(queries, queryId, fault).reply == Deleted
    ensures DeleteOutcome(DeleteOutcome(queries, queryId, fault).queries, queryId, NoFault).reply
      == Refused(404, QueryNotFoundMessage)
  {
  }

  /** A submitted query appears at the end of its user's list; other users' lists are as before. */
  lemma CreateThenList(
    queries: seq<Query>, userId: Option<string>, question: Option<string>, users: set<string>, fault: Fault<Call>, u: string)
    requires CreateOutcome(queries, userId, question, users, fault).reply.Submitted?
    ensures var o := CreateOutcome(queries, userId, question, users, fault);
      ByUser(o.queries, u) == ByUser(queries, u) + (if u == userId.value then [o.reply.query] else [])
  {
    var o := CreateOutcome(queries, userId, question, users, fault);
    FilterConcat((q: Query) => q.userId == u, queries, [o.reply.query]);
  }

  class QueryStore {
    var queries: seq<Query>

    ghost predicate Valid()
      reads this
    {
      UniqueIds(queries)
    }

    constructor ()
      ensures Valid() && queries == []
    {
      queries := [];
    }

    method CreateSupportQuery(userId: Option<string>, question: Option<string>, users: set<string>, fault: Fault<Call>)
      returns (res: Reply)
      requires Valid()
      modifies this
      ensures Valid()
      ensures var o := CreateOutcome(old(queries), userId, question, users, fault);
        res == o.reply && queries == o.queries
    {
      if !(Js.Filled(userId) && Js.Filled(question)) {
        return Refused(400, FieldsRequiredMessage);
      }
      if FailsAt(fault, FindUser) {
        return ServerError(fault.message);
      }
      if userId.value !in users {
        return Refused(404, UserNotFoundMessage);
      }
      if FailsAt(fault, Save) {
        return ServerError(fault.message);
      }
      var q := Query(FreshId(queries, (q: Query) => q.id), userId.value, question.value, None, Open);
      queries := queries + [q];
      res := Submitted(q);
    }

    /** `getUserQueries`: reads the collection and changes nothing. */
    method GetUserQueries(userId: string, fault: Fault<Call>) returns (res: Reply)
      ensures userId == "" ==> res == Refused(400, UserIdRequiredMessage)
      ensures userId != "" && FailsAt(fault, Find) ==> res == ServerError(fault.message)
      ensures userId != "" && !FailsAt(fault, Find) ==> res == Queries(ByUser(queries, userId))
    {
      if userId == "" {
        return Refused(400, UserIdRequiredMessage);
      }
      if FailsAt(fault, Find) {
        return ServerError(fault.message);
      }
      res := Queries(ByUser(queries, userId));
    }

    method DeleteQuery(queryId: string, fault: Fault<Call>) returns (res: Reply)
      requires Valid()
      modifies this
      ensures Valid()
      ensures var o := DeleteOutcome(old(queries), queryId, fault); res == o.reply && queries == o.queries
    {
      if queryId == "" {
        return Refused(400, QueryIdRequiredMessage);
      }
      if FailsAt(fault, FindByIdAndDelete) {
        return ServerError(fault.message);
      }
      var found := IndexWhere((q: Query) => q.id == queryId, queries);
      if found.None? {
        return Refused(404, QueryNotFoundMessage);
      }
      queries := RemoveAt(queries, found.value);
      res := Deleted;
    }
  }
}
