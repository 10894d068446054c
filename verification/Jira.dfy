/**
 The Jira adapter: which payloads it accepts, the live precondition check and the mutations,
 as requests to the Jira server. Jira's answer to the check is taken as its HTTP status with
 the issue's status name and update stamp, null where the answer has none.
 */
module Jira {
  import opened Wrappers
  import opened Json
  import JsonPrinter
  import opened LooseEquality
  import opened Schemas
  import opened ActionProtocol
  import ActionTheorems

  // ---- Payload schemas ----

  predicate NonEmptyText(payload: Dict, key: string) {
    key in payload && payload[key].Str? && payload[key].s != ""
  }

  predicate UpdateIssuePayload(payload: Dict) {
    && NonEmptyText(payload, "issue_key")
    && "fields" in payload && payload["fields"].Obj? && payload["fields"].members != map[]
  }

  predicate AddCommentPayload(payload: Dict) {
    NonEmptyText(payload, "issue_key") && NonEmptyText(payload, "body")
  }

  function ValidatePayload(actionType: string, payload: Dict): Validation {
    if actionType == "update_issue" then (if UpdateIssuePayload(payload) then Valid else Invalid)
    else if actionType == "add_comment" then (if AddCommentPayload(payload) then Valid else Invalid)
    else Unsupported
  }

  /** A proposed comment may be reworded; field updates execute as proposed. */
  function EditableFields(actionType: string): set<string> {
    if actionType == "add_comment" then {"body"} else {}
  }

  const JIRA: Adapter := Adapter(true, ValidatePayload, EditableFields)

  // ---- Requests ----

  /** What Jira is asked to do; the issue in a check is the payload's value as it stands. */
  datatype Call =
    | GetIssue(subject: Json)
    | EditIssue(issue: string, fields: Dict)
    | AddComment(issue: string, text: string)

  datatype IssueReply = IssueReply(code: int, statusName: Json, updated: Json)

  datatype MutationReply = MutationReply(code: int, commentId: Option<string>)

  /** Python's truth of a value. */
  predicate Truthy(j: Json) {
    match j
    case Null => false
    case Bool(b) => b
    case Num(t) => NumValue(t) != 0.0
    case Str(s) => s != ""
    case Arr(items) => items != []
    case Obj(members) => members != map[]
  }

  function CheckCalls(action: ProposedAction): seq<Call> {
    var issue := Get(action.payload, "issue_key");
    if Truthy(issue) then [GetIssue(issue)] else []
  }

  /** What the issue must look like for the precondition to hold; other names are not looked at. */
  predicate Holds(reply: IssueReply, name: string, expected: Json) {
    && (name == "expected_status" ==> PyEq(reply.statusName, expected))
    && (name == "expected_updated" ==> PyEq(reply.updated, expected))
  }

  function Precheck(action: ProposedAction, reply: IssueReply): CheckOutcome {
    if !Truthy(Get(action.payload, "issue_key")) || reply.code == 404 then Drifted
    else if reply.code >= 400 then CheckFailed
    else if forall name | name in action.preconditions :: Holds(reply, name, action.preconditions[name]) then Fine
    else Drifted
  }

  /** The one request a mutation consists of; none when the payload is refused. */
  function MutationCalls(actionType: string, approved: Dict): seq<Call> {
    if !ValidatePayload(actionType, approved).Valid? then []
    else if actionType == "update_issue" then [EditIssue(approved["issue_key"].s, approved["fields"].members)]
    else [AddComment(approved["issue_key"].s, approved["body"].s)]
  }

  /**
   What may be sent for an approved payload: one edit with exactly its issue and fields, one
   comment with exactly its issue and body, or nothing.
   */
  ghost predicate SentAsApproved(actionType: string, approved: Dict, sent: seq<Call>) {
    && |sent| <= 1
    && (forall k, fields :: sent == [EditIssue(k, fields)] <==>
          && actionType == "update_issue" && k != "" && fields != map[]
          && Get(approved, "issue_key") == Str(k) && Get(approved, "fields") == Obj(fields))
    && (forall k, text :: sent == [AddComment(k, text)] <==>
          && actionType == "add_comment" && k != "" && text != ""
          && Get(approved, "issue_key") == Str(k) && Get(approved, "body") == Str(text))
    && (forall subject :: sent != [GetIssue(subject)])
  }

  lemma CallsAsApproved(actionType: string, approved: Dict)
    ensures SentAsApproved(actionType, approved, MutationCalls(actionType, approved))
  {
  }

  function Texts(keys: seq<string>): seq<Json> {
    seq(|keys|, i requires 0 <= i < |keys| => Str(keys[i]))
  }

  function MutationOutcome(baseUrl: string, actionType: string, approved: Dict, reply: MutationReply): ExecOutcome {
    match ValidatePayload(actionType, approved)
    case Unsupported => NotSupported
    case Invalid => BadPayload
    case Valid =>
      if reply.code >= 400 then Refused
      else
        var issue := approved["issue_key"];
        var url := baseUrl + "/browse/" + issue.s;
        if actionType == "update_issue" then
          var updated := Arr(Texts(JsonPrinter.SortedKeys(approved["fields"].members.Keys)));
          Done(map["issue_key" := issue, "updated_fields" := updated], Some(url))
        else
          var (id, shown) :=
            if reply.commentId.Some? then (Str(reply.commentId.value), reply.commentId.value) else (Null, "None");
          Done(map["issue_key" := issue, "comment_id" := id], Some(url + "?focusedCommentId=" + shown))
  }

  /** The Jira server as the adapter sees it: the requests it has been sent. */
  class Site {
    const baseUrl: string
    var calls: seq<Call>

    constructor (baseUrl: string)
      ensures this.baseUrl == baseUrl && calls == []
    {
      this.baseUrl, calls := baseUrl, [];
    }

    /** Fetches the live issue and compares it with the action's preconditions, one by one. */
    method CheckPreconditions(action: ProposedAction, reply: IssueReply) returns (r: CheckOutcome)
      modifies this
      ensures calls == old(calls) + CheckCalls(action)
      ensures r == Precheck(action, reply)
    {
      var issue := Get(action.payload, "issue_key");
      if !Truthy(issue) {
        return Drifted;
      }
      calls := calls + [GetIssue(issue)];
      if reply.code == 404 {
        return Drifted;
      }
      if reply.code >= 400 {
        return CheckFailed;
      }
      var rest := action.preconditions.Keys;
      while rest != {}
        invariant rest <= action.preconditions.Keys
        invariant forall name | name in action.preconditions && name !in rest ::
                    Holds(reply, name, action.preconditions[name])
        decreases |rest|
      {
        var name :| name in rest;
        var expected := action.preconditions[name];
        if (name == "expected_status" && !PyEq(reply.statusName, expected))
           || (name == "expected_updated" && !PyEq(reply.updated, expected)) {
          return Drifted;
        }
        rest := rest - {name};
      }
      return Fine;
    }

    /** The single approved mutation; the payload is validated once more. */
    method Execute(action: ProposedAction, approved: Dict, reply: MutationReply) returns (r: ExecOutcome)
      modifies this
      ensures calls == old(calls) + MutationCalls(action.actionType, approved)
      ensures old(calls) <= calls && SentAsApproved(action.actionType, approved, calls[|old(calls)|..])
      ensures r == MutationOutcome(baseUrl, action.actionType, approved, reply)
    {
      hide SentAsApproved;
      CallsAsApproved(action.actionType, approved);
      ghost var sent := MutationCalls(action.actionType, approved);
      assert (calls + sent)[|calls|..] == sent;
      var validation := ValidatePayload(action.actionType, approved);
      if validation.Unsupported? {
        return NotSupported;
      } else if validation.Invalid? {
        return BadPayload;
      }
      var issue := approved["issue_key"].s;
      var url := baseUrl + "/browse/" + issue;
      if action.actionType == "update_issue" {
        var fields := approved["fields"].members;
        calls := calls + [EditIssue(issue, fields)];
        if reply.code >= 400 {
          return Refused;
        }
        var updated := Arr(Texts(JsonPrinter.SortedKeys(fields.Keys)));
        return Done(map["issue_key" := Str(issue), "updated_fields" := updated], Some(url));
      }
      calls := calls + [AddComment(issue, approved["body"].s)];
      if reply.code >= 400 {
        return Refused;
      }
      if reply.commentId.None? {
        return Done(map["issue_key" := Str(issue), "comment_id" := Null], Some(url + "?focusedCommentId=" + "None"));
      }
      var id := reply.commentId.value;
      return Done(map["issue_key" := Str(issue), "comment_id" := Str(id)], Some(url + "?focusedCommentId=" + id));
    }
  }

  // ---- What the adapter accepts and answers ----

  /** Which payloads are valid, for every action type. */
  lemma PayloadsAccepted(actionType: string, payload: Dict)
    ensures var named := Get(payload, "issue_key").Str? && Get(payload, "issue_key").s != "";
            var (fields, body) := (Get(payload, "fields"), Get(payload, "body"));
            ValidatePayload(actionType, payload)
            == if actionType !in {"update_issue", "add_comment"} then Unsupported
               else if named && actionType == "update_issue" && fields.Obj? && fields.members != map[] then Valid
               else if named && actionType == "add_comment" && body.Str? && body.s != "" then Valid
               else Invalid
  {
  }

  /** No request is made for a payload without an issue: one that is missing, null, false, zero or empty. */
  lemma NoIssueNoCheck(action: ProposedAction)
    ensures var issue := Get(action.payload, "issue_key");
            CheckCalls(action)
            == if issue in {Null, Bool(false), Str(""), Arr([]), Obj(map[])}
                  || (issue.Num? && NumValue(issue.token) == 0.0)
               then [] else [GetIssue(issue)]
  {
    hide NumValue;
  }

  /** Jira jobs and proposals belong to the user whose token is sent. */
  lemma JiraActsAsUser()
    ensures JIRA.userPat
  {
  }

  /** The check passes exactly when the issue is there, in the status and at the stamp the action expects. */
  lemma CheckPasses(action: ProposedAction, reply: IssueReply, issue: string)
    requires Get(action.payload, "issue_key") == Str(issue)
    ensures var status, updated := "expected_status", "expected_updated";
            var expected := action.preconditions;
            Precheck(action, reply)
            == if issue == "" || reply.code == 404 then Drifted
               else if reply.code >= 400 then CheckFailed
               else if (status in expected && !PyEq(reply.statusName, expected[status]))
                       || (updated in expected && !PyEq(reply.updated, expected[updated])) then Drifted
               else Fine
  {
    hide PyEq;
  }

  /** What a mutation of a valid payload returns: the issue, its address, and the new comment or the changed fields. */
  lemma MutationReturns(baseUrl: string, actionType: string, approved: Dict, reply: MutationReply)
    requires ValidatePayload(actionType, approved) == Valid
    ensures var outcome := MutationOutcome(baseUrl, actionType, approved, reply);
            && (outcome.Done? <==> reply.code < 400) && (!outcome.Done? ==> outcome == Refused)
            && (outcome.Done? ==>
                  var (issue, result) := (approved["issue_key"].s, outcome.result);
                  && "issue_key" in result && result["issue_key"] == Str(issue) && outcome.resourceUrl.Some?
                  && if actionType == "update_issue" then
                       && outcome.resourceUrl.value == baseUrl + "/browse/" + issue
                       && result.Keys == {"issue_key", "updated_fields"} && result["updated_fields"].Arr?
                       && forall name: string ::
                            Str(name) in result["updated_fields"].items <==> name in approved["fields"].members
                     else
                       && result.Keys == {"issue_key", "comment_id"}
                       && (match reply.commentId
                           case Some(id) =>
                             && result["comment_id"] == Str(id)
                             && outcome.resourceUrl.value == baseUrl + "/browse/" + issue + "?focusedCommentId=" + id
                           case None =>
                             && result["comment_id"] == Null
                             && outcome.resourceUrl.value == baseUrl + "/browse/" + issue + "?focusedCommentId=None"))
  {
    if actionType == "update_issue" && reply.code < 400 {
      TextsOf(JsonPrinter.SortedKeys(approved["fields"].members.Keys));
    }
  }

  lemma TextsOf(keys: seq<string>)
    ensures forall name: string :: Str(name) in Texts(keys) <==> name in keys
  {
    forall name: string | name in keys ensures Str(name) in Texts(keys) {
      var i :| 0 <= i < |keys| && keys[i] == name;
      assert Texts(keys)[i] == Str(name);
    }
  }

  // ---- What is checked is what is changed ----

  /** Outside the editable fields the payloads agree, a missing key counting as null. */
  lemma AgreesOutsideEditable(action: ProposedAction, approved: Dict)
    ensures UnexpectedFields(action, approved) == {}
       <==> forall key | key !in action.editableFields :: PyEq(Get(action.payload, key), Get(approved, key))
  {
    forall key | key !in action.payload.Keys + approved.Keys
      ensures PyEq(Get(action.payload, key), Get(approved, key))
    {
    }
    if UnexpectedFields(action, approved) == {} {
      forall key | key !in action.editableFields ensures PyEq(Get(action.payload, key), Get(approved, key)) {
        assert key !in UnexpectedFields(action, approved);
      }
    }
  }

  /** The issue and content a mutation request carries, against the proposed payload. */
  predicate MutatesAsProposed(action: ProposedAction, call: Call) {
    match call
    case GetIssue(_) => false
    case EditIssue(issue, fields) =>
      && action.actionType == "update_issue"
      && Get(action.payload, "issue_key") == Str(issue)
      && PyEq(Get(action.payload, "fields"), Obj(fields))
    case AddComment(issue, _) =>
      action.actionType == "add_comment" && Get(action.payload, "issue_key") == Str(issue)
  }

  /**
   For every call of the mutation in every run on Jira: the check asked for exactly one issue,
   the mutation is one request on that same issue, with exactly the approved fields or body; an
   update carries fields equal to the proposed ones and a comment differs from the proposed
   payload in `body` alone.
   */
  lemma CheckedIssueIsMutated(env: Env, w: World, i: nat)
    requires env.adapter == JIRA && ActionTheorems.Reachable(env, w) && i < |w.log| && w.log[i].Called?
    ensures var e := w.log[i];
            var (checks, mutations) := (CheckCalls(e.action), MutationCalls(e.action.actionType, e.approved));
            && |checks| == 1 && |mutations| == 1
            && MutatesAsProposed(e.action, mutations[0])
            && checks[0] == GetIssue(Str(mutations[0].issue))
            && SentAsApproved(e.action.actionType, e.approved, mutations)
            && (forall key | !(e.action.actionType == "add_comment" && key == "body") ::
                  PyEq(Get(e.action.payload, key), Get(e.approved, key)))
  {
    hide ActionTheorems.Reachable, UnexpectedFields, SentAsApproved;
    ActionTheorems.OnlyVettedCalls(env, w, i);
    var e := w.log[i];
    CallsAsApproved(e.action.actionType, e.approved);
    AgreesOutsideEditable(e.action, e.approved);
    assert PyEq(Get(e.action.payload, "issue_key"), Get(e.approved, "issue_key"));
    if e.action.actionType == "update_issue" {
      assert PyEq(Get(e.action.payload, "fields"), Get(e.approved, "fields"));
    }
  }

  /** Every accepted payload for this update sends the proposed fields, as JSON values. */
  ghost predicate SendsProposedFields(action: ProposedAction)
    requires UpdateIssuePayload(action.payload)
  {
    forall approved: Dict | UnexpectedFields(action, approved) == {} && UpdateIssuePayload(approved) ::
      SameJson(action.payload["fields"], approved["fields"])
  }

  /**
   An update is certain to send the fields the human was shown exactly when they contain no
   boolean, 0 or 1: `true` may be approved as 1 and is then sent as 1.
   */
  lemma FieldsAsProposed(action: ProposedAction)
    requires UpdateIssuePayload(action.payload) && action.editableFields == EditableFields("update_issue")
    ensures SendsProposedFields(action) <==> Unmistakable(action.payload["fields"])
  {
    var fields := action.payload["fields"];
    if Unmistakable(fields) {
      forall approved: Dict | UnexpectedFields(action, approved) == {} && UpdateIssuePayload(approved)
        ensures SameJson(fields, approved["fields"])
      {
        AgreesOutsideEditable(action, approved);
        assert PyEq(Get(action.payload, "fields"), Get(approved, "fields"));
        UnmistakableIsSame(fields, approved["fields"]);
      }
    } else {
      var other := Mistaken(fields);
      var approved := action.payload["fields" := other];
      OnlyFieldsDiffer(action, other);
      assert approved["issue_key"] == action.payload["issue_key"];
      assert other.members.Keys != {};
      assert UpdateIssuePayload(approved);
    }
  }

  lemma OnlyFieldsDiffer(action: ProposedAction, other: Json)
    requires "fields" in action.payload && PyEq(action.payload["fields"], other)
    ensures UnexpectedFields(action, action.payload["fields" := other]) == {}
  {
    var approved := action.payload["fields" := other];
    forall key | key in action.payload.Keys + approved.Keys ensures PyEq(Get(action.payload, key), Get(approved, key)) {
      PyEqReflexive(action.payload[key]);
    }
  }
}
