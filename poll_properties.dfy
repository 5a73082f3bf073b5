/**
 * What one and two consecutive cycles of the polling loop guarantee: when
 * the cursor moves, what a failing record leaves behind, how repeated
 * statuses and repeated errors are suppressed, and where the reserved
 * "error" slot collides with a homework of that name.
 */
module PollProperties {
  import opened JsonValues
  import opened Homework
  import opened PollCycle

  /** The index of the first record that does not format, or the length when all do. */
  function FirstUnformatted(homeworks: seq<Json>): (j: nat)
    ensures j <= |homeworks|
    ensures forall i :: 0 <= i < j ==> Formats(homeworks[i])
    ensures j < |homeworks| ==> !Formats(homeworks[j])
    decreases |homeworks|
  {
    if homeworks == [] then 0
    else if !Formats(homeworks[0]) then 0
    else 1 + FirstUnformatted(homeworks[1..])
  }

  /** A cycle succeeds when the fetch and the validation do and every record formats. */
  predicate Succeeds(fetch: Fetch)
  {
    && fetch.Fetched?
    && CheckResponse(fetch.response).Success?
    && forall i :: 0 <= i < |CheckResponse(fetch.response).value| ==>
         Formats(CheckResponse(fetch.response).value[i])
  }

  /** The text of the exception that ends a failing cycle, None when it succeeds. */
  function CycleError(fetch: Fetch): (e: Option<string>)
    ensures e.None? <==> Succeeds(fetch)
  {
    match fetch
    case FetchFailed(text) => Some(text)
    case Fetched(response) =>
      match CheckResponse(response)
      case Failure(f) => Some(Describe(f))
      case Success(homeworks) =>
        var j := FirstUnformatted(homeworks);
        if j < |homeworks| then Some(Describe(Rejection(homeworks[j]))) else None
  }

  /** A cycle that fails before any record is looked at. */
  predicate FailsEarly(fetch: Fetch)
  {
    fetch.FetchFailed? || CheckResponse(fetch.response).Failure?
  }

  /** The state when control leaves the `try` block: after the records that were processed. */
  function Reached(st: State, fetch: Fetch): (r: State)
    requires WellFormed(st)
    ensures WellFormed(r) && r.cursor == st.cursor
    ensures FailsEarly(fetch) ==> r == st
  {
    match fetch
    case FetchFailed(_) => st
    case Fetched(response) =>
      match CheckResponse(response)
      case Failure(_) => st
      case Success(homeworks) => NotifyAll(st, homeworks).st
  }

  /** The loop runs through every record exactly when every record formats. */
  lemma {:induction false} NotifyAllDoneIff(st: State, homeworks: seq<Json>)
    ensures NotifyAll(st, homeworks).Done? <==>
            forall i :: 0 <= i < |homeworks| ==> Formats(homeworks[i])
    decreases |homeworks|
  {
    if homeworks != [] {
      var r := Notify(st, homeworks[0]);
      if r.Success? {
        NotifyAllDoneIff(r.value, homeworks[1..]);
        assert forall i :: 1 <= i < |homeworks| ==> homeworks[i] == homeworks[1..][i - 1];
      }
    }
  }

  /**
   * A loop stopped by a failure stopped at the first record that does not
   * format, in the state the records before it left, with that record's failure.
   */
  lemma {:induction false} NotifyAllStopsAtFirstFailure(st: State, homeworks: seq<Json>)
    ensures var p, j := NotifyAll(st, homeworks), FirstUnformatted(homeworks);
            && (p.Stopped? <==> j < |homeworks|)
            && (j < |homeworks| ==>
                  NotifyAll(st, homeworks[..j]) == Done(p.st) && p.failure == Rejection(homeworks[j]))
    decreases |homeworks|
  {
    if homeworks != [] {
      var r := Notify(st, homeworks[0]);
      if r.Success? {
        var tail := homeworks[1..];
        NotifyAllStopsAtFirstFailure(r.value, tail);
        var j := FirstUnformatted(homeworks);
        assert j == 1 + FirstUnformatted(tail);
        if j < |homeworks| {
          assert homeworks[..j][0] == homeworks[0];
          assert homeworks[..j][1..] == tail[..j - 1];
          assert homeworks[j] == tail[j - 1];
        }
      } else {
        assert homeworks[..0] == [];
      }
    }
  }

  /**
   * A cycle is the `try` block up to where it stopped, then the `except`
   * branch with the cycle's error, or the `else` branch with the new cursor.
   */
  lemma CycleDecomposes(st: State, fetch: Fetch)
    requires WellFormed(st)
    ensures CycleError(fetch).Some? ==>
              Cycle(st, fetch) == OnFailure(Reached(st, fetch), CycleError(fetch).value)
    ensures CycleError(fetch).None? ==>
              var reached := Reached(st, fetch);
              Cycle(st, fetch) == reached.(cursor := fetch.response.fields["current_date"],
                                           lastSend := reached.lastSend[ErrorKey := None])
  {
    if fetch.Fetched? && CheckResponse(fetch.response).Success? {
      var homeworks := CheckResponse(fetch.response).value;
      NotifyAllStopsAtFirstFailure(st, homeworks);
    }
  }

  /**
   * The cursor becomes `current_date` only when the cycle succeeds, and the
   * error slot then holds nothing; a failing cycle keeps the cursor and
   * leaves its own error message in the slot.
   */
  lemma CycleOutcome(st: State, fetch: Fetch)
    requires WellFormed(st)
    ensures var r := Cycle(st, fetch);
            && r.cursor == (if Succeeds(fetch) then fetch.response.fields["current_date"] else st.cursor)
            && r.lastSend[ErrorKey] ==
                 (if Succeeds(fetch) then None else Some(FailureMessage(CycleError(fetch).value)))
  {
    CycleDecomposes(st, fetch);
  }

  /**
   * A record that fails midway: the records before it stay sent and
   * recorded, the cursor does not move, and the failure is reported after them.
   */
  lemma FailedRecordKeepsEarlierWork(st: State, response: Json)
    requires WellFormed(st)
    requires CheckResponse(response).Success?
    requires FirstUnformatted(CheckResponse(response).value) < |CheckResponse(response).value|
    ensures var homeworks := CheckResponse(response).value;
            var j := FirstUnformatted(homeworks);
            var before := NotifyAll(st, homeworks[..j]);
            var r := Cycle(st, Fetched(response));
            && before.Done?
            && r.cursor == st.cursor
            && |before.st.outbox| <= |r.outbox| && r.outbox[..|before.st.outbox|] == before.st.outbox
            && (forall k :: k in before.st.lastSend && k != ErrorKey ==>
                  k in r.lastSend && r.lastSend[k] == before.st.lastSend[k])
            && r.lastSend[ErrorKey] == Some(FailureMessage(Describe(Rejection(homeworks[j]))))
  {
    var homeworks := CheckResponse(response).value;
    NotifyAllStopsAtFirstFailure(st, homeworks);
    CycleDecomposes(st, Fetched(response));
  }

  /** A message that starts like every status notification. */
  predicate IsStatusMessage(m: string)
  {
    |StatusChanged| <= |m| && m[..|StatusChanged|] == StatusChanged
  }

  /** A status notification is never a failure notification: they open differently. */
  lemma StatusMessageIsNotFailureMessage(homework: Json, text: string)
    requires ParseStatus(homework).Success?
    ensures IsStatusMessage(ParseStatus(homework).value)
    ensures ParseStatus(homework).value != FailureMessage(text)
  {
    var m := ParseStatus(homework).value;
    assert m == StatusChanged + (m[|StatusChanged|..]);
    assert m[0] == StatusChanged[0] != FailureMessage(text)[0];
  }

  /** The records only ever write status notifications into the dict. */
  lemma {:induction false} NotifyAllWritesStatusMessages(st: State, homeworks: seq<Json>)
    ensures var p := NotifyAll(st, homeworks);
            forall k :: k in p.st.lastSend ==>
              (k in st.lastSend && p.st.lastSend[k] == st.lastSend[k])
              || (p.st.lastSend[k].Some? && IsStatusMessage(p.st.lastSend[k].value))
    decreases |homeworks|
  {
    if homeworks != [] {
      var r := Notify(st, homeworks[0]);
      if r.Success? {
        NotifyAllWritesStatusMessages(r.value, homeworks[1..]);
        StatusMessageIsNotFailureMessage(homeworks[0], "");
      }
    }
  }

  /** The same failure, before any record is processed, twice in a row: one notification. */
  lemma SameEarlyErrorSentOnce(st: State, first: Fetch, second: Fetch)
    requires WellFormed(st)
    requires FailsEarly(first) && FailsEarly(second)
    requires CycleError(first) == CycleError(second)
    ensures Cycle(Cycle(st, first), second) == Cycle(st, first)
  {
    var once := Cycle(st, first);
    CycleDecomposes(st, first);
    CycleDecomposes(once, second);
  }

  /**
   * Two malformed answers in a row, whatever is wrong with each, give one
   * notification: every validation failure raises the same exception.
   */
  lemma MalformedResponsesReportedOnce(st: State, first: Json, second: Json)
    requires WellFormed(st)
    requires CheckResponse(first).Failure? && CheckResponse(second).Failure?
    ensures Cycle(Cycle(st, Fetched(first)), Fetched(second)) == Cycle(st, Fetched(first))
  {
    ResponseFailuresReadAlike(first, second);
    SameEarlyErrorSentOnce(st, Fetched(first), Fetched(second));
  }

  /**
   * A failing cycle after one that failed with a different error always
   * reports its own error, after whatever its records sent.
   */
  lemma NewErrorReported(st: State, first: Fetch, second: Fetch)
    requires WellFormed(st)
    requires CycleError(first).Some? && CycleError(second).Some?
    requires CycleError(first) != CycleError(second)
    ensures var once := Cycle(st, first);
            Cycle(once, second).outbox ==
              Reached(once, second).outbox + [FailureMessage(CycleError(second).value)]
  {
    var once := Cycle(st, first);
    var t1, t2 := CycleError(first).value, CycleError(second).value;
    CycleOutcome(st, first);
    CycleDecomposes(once, second);
    var reached := Reached(once, second);
    assert FailureMessage(t1) != FailureMessage(t2) by {
      assert t1 == FailureMessage(t1)[|FailurePrefix|..];
      assert t2 == FailureMessage(t2)[|FailurePrefix|..];
    }
    if !FailsEarly(second) {
      NotifyAllWritesStatusMessages(once, CheckResponse(second.response).value);
      var slot := reached.lastSend[ErrorKey];
      if slot.Some? && IsStatusMessage(slot.value) {
        assert slot.value[0] == slot.value[..|StatusChanged|][0] == StatusChanged[0];
        assert slot.value[0] != FailureMessage(t2)[0];
      }
    }
  }

  /**
   * The same error in two consecutive failing cycles is sent once, also when
   * the second cycle fails after processing records: it only sends what its
   * records sent. This needs the error slot to reach the `except` branch as
   * the first cycle left it, that is, no record named "error" overwrote it.
   */
  lemma SameErrorSentOnce(st: State, first: Fetch, second: Fetch)
    requires WellFormed(st)
    requires CycleError(first).Some? && CycleError(first) == CycleError(second)
    requires var once := Cycle(st, first);
             Reached(once, second).lastSend[ErrorKey] == once.lastSend[ErrorKey]
    ensures var once := Cycle(st, first);
            && Cycle(once, second).outbox == Reached(once, second).outbox
            && Cycle(once, second).lastSend == Reached(once, second).lastSend
  {
    var once := Cycle(st, first);
    CycleOutcome(st, first);
    CycleDecomposes(once, second);
  }

  /**
   * After a successful cycle any failure is reported, even the one reported
   * before it, after whatever the failing cycle's records sent.
   */
  lemma SuccessClearsErrorMemory(st: State, good: Fetch, bad: Fetch)
    requires WellFormed(st)
    requires Succeeds(good)
    requires CycleError(bad).Some?
    ensures var once := Cycle(st, good);
            Cycle(once, bad).outbox ==
              Reached(once, bad).outbox + [FailureMessage(CycleError(bad).value)]
  {
    var once := Cycle(st, good);
    var text := CycleError(bad).value;
    CycleOutcome(st, good);
    CycleDecomposes(once, bad);
    var reached := Reached(once, bad);
    if !FailsEarly(bad) {
      NotifyAllWritesStatusMessages(once, CheckResponse(bad.response).value);
      var slot := reached.lastSend[ErrorKey];
      if slot.Some? && IsStatusMessage(slot.value) {
        assert slot.value[0] == slot.value[..|StatusChanged|][0] == StatusChanged[0];
        assert slot.value[0] != FailureMessage(text)[0];
      }
    }
  }

  /** The dict keys of a list of records that all format. */
  function KeySet(homeworks: seq<Json>): (keys: set<Key>)
    requires forall i :: 0 <= i < |homeworks| ==> Formats(homeworks[i])
    ensures forall i :: 0 <= i < |homeworks| ==> NameKey(homeworks[i]) in keys
    decreases |homeworks|
  {
    if homeworks == [] then {} else {NameKey(homeworks[0])} + KeySet(homeworks[1..])
  }

  /** Records that all format, no two under one name, none named like the error slot. */
  predicate DistinctNames(homeworks: seq<Json>)
  {
    && (forall i :: 0 <= i < |homeworks| ==> Formats(homeworks[i]))
    && (forall i, j :: 0 <= i < j < |homeworks| ==> NameKey(homeworks[i]) != NameKey(homeworks[j]))
    && ErrorKey !in KeySet(homeworks)
  }

  /** The loop leaves the entries of names it did not see as they were. */
  lemma {:induction false} NotifyAllFrame(st: State, homeworks: seq<Json>, k: Key)
    requires forall i :: 0 <= i < |homeworks| ==> Formats(homeworks[i])
    requires k in st.lastSend && k !in KeySet(homeworks)
    ensures NotifyAll(st, homeworks).st.lastSend[k] == st.lastSend[k]
    decreases |homeworks|
  {
    if homeworks != [] {
      var next := Notify(st, homeworks[0]).value;
      NotifyAllFrame(next, homeworks[1..], k);
    }
  }

  /** After the loop over records with distinct names, each name holds its own record's message. */
  lemma {:induction false} NotifyAllRecordsEach(st: State, homeworks: seq<Json>)
    requires forall i :: 0 <= i < |homeworks| ==> Formats(homeworks[i])
    requires forall i, j :: 0 <= i < j < |homeworks| ==> NameKey(homeworks[i]) != NameKey(homeworks[j])
    ensures NotifyAll(st, homeworks).Done?
    ensures forall i :: 0 <= i < |homeworks| ==>
              Recorded(NotifyAll(st, homeworks).st.lastSend, NameKey(homeworks[i]),
                       ParseStatus(homeworks[i]).value)
    decreases |homeworks|
  {
    if homeworks != [] {
      var next := Notify(st, homeworks[0]).value;
      var tail := homeworks[1..];
      var final := NotifyAll(next, tail).st;
      NotifyAllRecordsEach(next, tail);
      forall i | 0 <= i < |homeworks|
        ensures Recorded(final.lastSend, NameKey(homeworks[i]), ParseStatus(homeworks[i]).value)
      {
        if i == 0 {
          forall t | 0 <= t < |tail| ensures NameKey(tail[t]) != NameKey(homeworks[0]) {
            assert tail[t] == homeworks[t + 1];
          }
          KeyNotInKeySet(tail, NameKey(homeworks[0]));
          NotifyAllFrame(next, tail, NameKey(homeworks[0]));
        } else {
          assert homeworks[i] == tail[i - 1];
        }
      }
    }
  }

  /** KeySet holds only the records' keys. */
  lemma {:induction false} KeyNotInKeySet(homeworks: seq<Json>, k: Key)
    requires forall i :: 0 <= i < |homeworks| ==> Formats(homeworks[i])
    requires forall i :: 0 <= i < |homeworks| ==> NameKey(homeworks[i]) != k
    ensures k !in KeySet(homeworks)
    decreases |homeworks|
  {
    if homeworks != [] {
      KeyNotInKeySet(homeworks[1..], k);
    }
  }

  /** When every record's message is already recorded under its name, the loop changes nothing. */
  lemma {:induction false} NotifyAllSilent(st: State, homeworks: seq<Json>)
    requires forall i :: 0 <= i < |homeworks| ==> Formats(homeworks[i])
    requires forall i :: 0 <= i < |homeworks| ==>
               Recorded(st.lastSend, NameKey(homeworks[i]), ParseStatus(homeworks[i]).value)
    ensures NotifyAll(st, homeworks) == Done(st)
    decreases |homeworks|
  {
    if homeworks != [] {
      assert Notify(st, homeworks[0]) == Success(st);
      NotifyAllSilent(st, homeworks[1..]);
    }
  }

  /**
   * Polling again and receiving the same records sends nothing new: the
   * second cycle only moves the cursor to the new `current_date`.
   */
  lemma RepeatedRecordsSendNothing(st: State, first: Json, second: Json)
    requires WellFormed(st)
    requires Succeeds(Fetched(first))
    requires CheckResponse(second) == CheckResponse(first)
    requires DistinctNames(CheckResponse(first).value)
    ensures var once := Cycle(st, Fetched(first));
            var twice := Cycle(once, Fetched(second));
            && twice.outbox == once.outbox
            && twice.lastSend == once.lastSend
            && twice.cursor == second.fields["current_date"]
  {
    var homeworks := CheckResponse(first).value;
    var once := Cycle(st, Fetched(first));
    NotifyAllRecordsEach(st, homeworks);
    var done := NotifyAll(st, homeworks).st;
    forall i | 0 <= i < |homeworks|
      ensures Recorded(once.lastSend, NameKey(homeworks[i]), ParseStatus(homeworks[i]).value)
    {
      assert NameKey(homeworks[i]) != ErrorKey;
    }
    NotifyAllSilent(once, homeworks);
    CycleOutcome(st, Fetched(first));
    assert once.lastSend[ErrorKey := None] == once.lastSend;
  }

  /** The loop over records that all format runs through a prefix and then the rest. */
  lemma {:induction false} NotifyAllSplit(st: State, homeworks: seq<Json>, j: nat)
    requires j <= |homeworks|
    requires forall i :: 0 <= i < j ==> Formats(homeworks[i])
    ensures NotifyAll(st, homeworks[..j]).Done?
    ensures NotifyAll(st, homeworks) == NotifyAll(NotifyAll(st, homeworks[..j]).st, homeworks[j..])
    decreases j
  {
    if j == 0 {
      assert homeworks[..0] == [] && homeworks[0..] == homeworks;
    } else {
      var next := Notify(st, homeworks[0]).value;
      NotifyAllSplit(next, homeworks[1..], j - 1);
      assert homeworks[..j][0] == homeworks[0];
      assert homeworks[..j][1..] == homeworks[1..][..j - 1];
      assert homeworks[1..][j - 1..] == homeworks[j..];
    }
  }

  /**
   * The error slot shares the dict with homework names: after any successful
   * cycle, a successful answer that holds a homework named "error" sends that
   * record's message again, because the `else` branch wiped what its
   * notification recorded. Records before it under other names leave the
   * slot alone.
   */
  lemma HomeworkNamedErrorResent(st: State, good: Fetch, response: Json, j: nat)
    requires WellFormed(st)
    requires Succeeds(good) && Succeeds(Fetched(response))
    requires j < |CheckResponse(response).value|
    requires NameKey(CheckResponse(response).value[j]) == ErrorKey
    requires forall i :: 0 <= i < j ==> NameKey(CheckResponse(response).value[i]) != ErrorKey
    ensures var once := Cycle(st, good);
            var twice := Cycle(once, Fetched(response));
            |once.outbox| <= |twice.outbox|
            && ParseStatus(CheckResponse(response).value[j]).value in twice.outbox[|once.outbox|..]
  {
    var homeworks := CheckResponse(response).value;
    var once := Cycle(st, good);
    var twice := Cycle(once, Fetched(response));
    var message := ParseStatus(homeworks[j]).value;
    CycleOutcome(st, good);
    CycleDecomposes(once, Fetched(response));
    NotifyAllSplit(once, homeworks, j);
    var before := homeworks[..j];
    var reached := NotifyAll(once, before).st;
    KeyNotInKeySet(before, ErrorKey);
    NotifyAllFrame(once, before, ErrorKey);
    var sent := Notify(reached, homeworks[j]).value;
    assert sent.outbox == reached.outbox + [message];
    assert homeworks[j..][0] == homeworks[j] && homeworks[j..][1..] == homeworks[j + 1..];
    var final := NotifyAll(sent, homeworks[j + 1..]).st;
    assert twice.outbox == final.outbox;
    assert final.outbox[|reached.outbox|] == message;
    assert twice.outbox[|once.outbox|..][|reached.outbox| - |once.outbox|] == message;
  }

  /**
   * For a homework already notified, a new record under the same name is
   * sent exactly when its status differs from the one notified.
   */
  lemma StatusChangeIsSent(st: State, notified: Json, current: Json)
    requires Formats(notified) && Formats(current)
    requires notified.fields["homework_name"] == current.fields["homework_name"]
    requires Recorded(st.lastSend, NameKey(notified), ParseStatus(notified).value)
    ensures var r := Notify(st, current).value;
            && (notified.fields["status"] == current.fields["status"] ==> r == st)
            && (notified.fields["status"] != current.fields["status"] ==>
                  r.outbox == st.outbox + [ParseStatus(current).value])
  {
    SameNameMessagesAgreeIffStatusesAgree(notified, current);
  }

  /**
   * The end-to-end run: one "reviewing" record at `current_date` 1000 sends
   * one message and moves the cursor to 1000; the same answer at 1100 sends
   * nothing and moves the cursor to 1100.
   */
  lemma EndToEnd(startTime: int)
    ensures var hw1 := JObject(map["homework_name" := JStr("hw1"), "status" := JStr("reviewing")]);
            var once := Cycle(Initial(startTime),
                              Fetched(JObject(map["homeworks" := JList([hw1]), "current_date" := JInt(1000)])));
            var twice := Cycle(once,
                               Fetched(JObject(map["homeworks" := JList([hw1]), "current_date" := JInt(1100)])));
            && once.outbox == [StatusMessage(JStr("hw1"), Verdicts["reviewing"])]
            && once.cursor == JInt(1000)
            && twice.outbox == once.outbox
            && twice.cursor == JInt(1100)
  {
    var hw1 := JObject(map["homework_name" := JStr("hw1"), "status" := JStr("reviewing")]);
    var first := JObject(map["homeworks" := JList([hw1]), "current_date" := JInt(1000)]);
    var second := JObject(map["homeworks" := JList([hw1]), "current_date" := JInt(1100)]);
    assert ParseStatus(hw1).Success?;
    assert Formats(hw1);
    assert CheckResponse(first) == Success([hw1]);
    assert CheckResponse(second) == Success([hw1]);
    assert KeySet([hw1]) == {KStr("hw1")};
    var message := ParseStatus(hw1).value;
    assert message == StatusMessage(JStr("hw1"), Verdicts["reviewing"]);
    var sent := Notify(Initial(startTime), hw1).value;
    assert sent.outbox == [message];
    assert NotifyAll(Initial(startTime), [hw1]) == NotifyAll(sent, []);
    RepeatedRecordsSendNothing(Initial(startTime), first, second);
  }
}
