/**
 * The pure decision logic of the notifier: the credentials check, the
 * validation of the review API's answer and the formatting of one homework
 * record into a notification.
 */
module Homework {
  import opened JsonValues

  /** The fixed verdict table: the three review statuses and their display text. */
  const Verdicts: map<string, string> := map[
    "approved" := "Работа проверена: ревьюеру всё понравилось. Ура!",
    "reviewing" := "Работа взята на проверку ревьюером.",
    "rejected" := "Работа проверена: у ревьюера есть замечания."
  ]

  /** The opening of every status notification, up to the quote before the name. */
  const StatusChanged: string := "Изменился статус проверки работы \""

  /**
   * Every failure path raises the value of a logging call, which is `None`;
   * what Python actually raises is then a TypeError with this text.
   */
  const RaiseNoneText: string := "exceptions must derive from BaseException"

  /** Why a response or a record was rejected, one kind per place that raises. */
  datatype Fault =
    | ResponseNotDict                  // the answer is not a JSON object
    | HomeworksNotList                 // `homeworks` is absent or not an array
    | MissingKeys(missing: set<string>) // required top-level keys are absent
    | RecordNotDict(typeName: string)  // `.get` called on a record that is not an object
    | NameMissing                      // `homework_name` is absent
    | StatusMissing                    // `status` is absent
    | StatusUnhashable(typeName: string) // the status is an array or object
    | UnknownStatus                    // the status is not a key of the verdict table
    | NameUnhashable(typeName: string) // the name is an array or object, used as a dict key

  /** The text of the Python exception that a failure of this kind raises. */
  function Describe(f: Fault): (text: string)
    ensures RaisesNone(f) ==> text == RaiseNoneText
    ensures f.RecordNotDict? ==> text == "'" + f.typeName + "' object has no attribute 'get'"
    ensures f.StatusUnhashable? || f.NameUnhashable? ==> text == "unhashable type: '" + f.typeName + "'"
  {
    match f
    case RecordNotDict(t) => "'" + t + "' object has no attribute 'get'"
    case StatusUnhashable(t) => "unhashable type: '" + t + "'"
    case NameUnhashable(t) => "unhashable type: '" + t + "'"
    case _ => RaiseNoneText
  }

  /** Python truthiness of an environment lookup: present and non-empty. */
  predicate Truthy(credential: Option<string>)
  {
    credential.Some? && credential.value != ""
  }

  /** Python's `all(...)` over a tuple of environment lookups. */
  function AllTruthy(credentials: seq<Option<string>>): (r: bool)
    ensures r <==> forall i :: 0 <= i < |credentials| ==> Truthy(credentials[i])
  {
    if credentials == [] then true
    else Truthy(credentials[0]) && AllTruthy(credentials[1..])
  }

  /** The start-up check: every one of the three credentials is set and non-empty. */
  function CheckTokens(practicumToken: Option<string>, telegramChatId: Option<string>,
                       telegramToken: Option<string>): (ok: bool)
    ensures ok <==> Truthy(practicumToken) && Truthy(telegramChatId) && Truthy(telegramToken)
    ensures practicumToken.None? || telegramChatId.None? || telegramToken.None? ==> !ok
  {
    var credentials := [practicumToken, telegramChatId, telegramToken];
    assert credentials[0] == practicumToken && credentials[1] == telegramChatId;
    assert credentials[2] == telegramToken;
    AllTruthy(credentials)
  }

  /** The answer carries an array under `homeworks` (Python's `get` gives None when it is absent). */
  predicate HasHomeworkList(response: Json)
    requires response.JObject?
  {
    Get(response.fields, "homeworks").JList?
  }

  /**
   * Validation of the review API's answer. The checks run in a fixed order:
   * not an object, then `homeworks` not an array (which also catches its
   * absence), then the missing-keys check, which by then can only find
   * `current_date` missing.
   */
  function CheckResponse(response: Json): (r: Result<seq<Json>, Fault>)
    ensures !response.JObject? ==> r == Failure(ResponseNotDict)
    ensures response.JObject? && !HasHomeworkList(response) ==> r == Failure(HomeworksNotList)
    ensures response.JObject? && HasHomeworkList(response) ==>
              (r.Success? <==> "current_date" in response.fields)
    ensures r.Failure? && r.error.MissingKeys? ==> r.error.missing == {"current_date"}
    ensures r.Success? ==>
              && response.JObject?
              && "homeworks" in response.fields && "current_date" in response.fields
              && response.fields["homeworks"] == JList(r.value)
  {
    if !response.JObject? then Failure(ResponseNotDict)
    else if !HasHomeworkList(response) then Failure(HomeworksNotList)
    else
      var missing := {"homeworks", "current_date"} - response.fields.Keys;
      if missing != {} then
        assert "homeworks" in response.fields;
        assert missing == {"current_date"} by {
          forall key | key in missing ensures key == "current_date" { }
        }
        Failure(MissingKeys(missing))
      else
        assert "current_date" !in missing;
        Success(response.fields["homeworks"].items)
  }

  /** A status the verdict table knows. */
  predicate KnownStatus(status: Json)
  {
    status.JStr? && status.s in Verdicts
  }

  /** The notification for a homework whose status changed to one with `verdict`. */
  function StatusMessage(name: Json, verdict: string): string
  {
    StatusChanged + Display(name) + "\". " + verdict
  }

  /**
   * Formatting of one homework record. It fails when the record is not an
   * object, when `homework_name` or `status` is absent, and when the status
   * is not one of the three verdict keys; otherwise the message names the
   * homework and gives that status's verdict.
   */
  function ParseStatus(homework: Json): (r: Result<string, Fault>)
    ensures r.Success? <==>
              && homework.JObject?
              && "homework_name" in homework.fields
              && "status" in homework.fields
              && KnownStatus(homework.fields["status"])
    ensures !homework.JObject? ==> r == Failure(RecordNotDict(TypeName(homework)))
    ensures homework.JObject? && "homework_name" !in homework.fields ==> r == Failure(NameMissing)
    ensures homework.JObject? && "homework_name" in homework.fields && "status" !in homework.fields ==>
              r == Failure(StatusMissing)
    ensures homework.JObject? && "homework_name" in homework.fields && "status" in homework.fields ==>
              var status := homework.fields["status"];
              && (status.JList? || status.JObject? ==> r == Failure(StatusUnhashable(TypeName(status))))
              && (!(status.JList? || status.JObject?) && !KnownStatus(status) ==> r == Failure(UnknownStatus))
    ensures r.Success? ==>
              r.value == StatusMessage(homework.fields["homework_name"],
                                       Verdicts[homework.fields["status"].s])
  {
    if !homework.JObject? then Failure(RecordNotDict(TypeName(homework)))
    else if "homework_name" !in homework.fields then Failure(NameMissing)
    else if "status" !in homework.fields then Failure(StatusMissing)
    else
      var name := homework.fields["homework_name"];
      var status := homework.fields["status"];
      if KeyOf(status).None? then Failure(StatusUnhashable(TypeName(status)))
      else if !KnownStatus(status) then Failure(UnknownStatus)
      else Success(StatusMessage(name, Verdicts[status.s]))
  }

  /** A failure that comes from `raise <logging call>`, as opposed to a Python runtime error. */
  predicate RaisesNone(f: Fault)
  {
    !(f.RecordNotDict? || f.StatusUnhashable? || f.NameUnhashable?)
  }

  /** Every check in CheckResponse raises None, so all its failures read alike. */
  lemma ResponseFailuresReadAlike(r1: Json, r2: Json)
    requires CheckResponse(r1).Failure? && CheckResponse(r2).Failure?
    ensures RaisesNone(CheckResponse(r1).error)
    ensures Describe(CheckResponse(r1).error) == Describe(CheckResponse(r2).error) == RaiseNoneText
  {
  }

  /** A record that is an object but lacks a field or has an unknown string status fails with the same text. */
  lemma RecordFailureText(homework: Json)
    requires homework.JObject?
    requires ParseStatus(homework).Failure?
    requires "status" in homework.fields ==> KeyOf(homework.fields["status"]).Some?
    ensures Describe(ParseStatus(homework).error) == RaiseNoneText
  {
  }

  /** Distinct statuses have distinct verdict texts. */
  lemma VerdictsDistinct(s1: string, s2: string)
    requires s1 in Verdicts && s2 in Verdicts
    ensures Verdicts[s1] == Verdicts[s2] <==> s1 == s2
  {
    var a, v, r := Verdicts["approved"], Verdicts["reviewing"], Verdicts["rejected"];
    assert a[7] != v[7];
    assert a[18] != r[18];
    assert v[7] != r[7];
  }

  /**
   * For one homework name, two notifications are equal exactly when the
   * statuses are: the de-duplication by message is de-duplication by status.
   */
  lemma SameNameMessagesAgreeIffStatusesAgree(h1: Json, h2: Json)
    requires ParseStatus(h1).Success? && ParseStatus(h2).Success?
    requires h1.fields["homework_name"] == h2.fields["homework_name"]
    ensures ParseStatus(h1).value == ParseStatus(h2).value <==>
            h1.fields["status"] == h2.fields["status"]
  {
    var s1, s2 := h1.fields["status"].s, h2.fields["status"].s;
    var head := StatusChanged + Display(h1.fields["homework_name"]) + "\". ";
    assert ParseStatus(h1).value == head + Verdicts[s1];
    assert ParseStatus(h2).value == head + Verdicts[s2];
    if ParseStatus(h1).value == ParseStatus(h2).value {
      assert Verdicts[s1] == (head + Verdicts[s1])[|head|..];
      assert Verdicts[s2] == (head + Verdicts[s2])[|head|..];
    }
    VerdictsDistinct(s1, s2);
  }
}
