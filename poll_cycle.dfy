/**
 * One cycle of the notifier's polling loop: fetch, validate, notify each
 * homework whose message changed, advance the cursor, and report a failure
 * once per distinct error. The state is the de-duplication dict `last_send`
 * (homework name to last message, plus a reserved "error" slot), the cursor
 * and the messages handed to the chat client.
 */
module PollCycle {
  import opened JsonValues
  import opened Homework

  /** The reserved slot of `last_send` that holds the last reported failure. */
  const ErrorKey: Key := KStr("error")

  /** The opening of every failure notification. */
  const FailurePrefix: string := "Сбой в программе: "

  /** What the HTTP request of a cycle produced: an exception's text, or a decoded body. */
  datatype Fetch = FetchFailed(text: string) | Fetched(response: Json)

  /**
   * The notifier's state between cycles. `outbox` lists every message handed
   * to the chat client; a delivery error is swallowed there, so the rest of
   * the state does not depend on whether delivery succeeded.
   */
  datatype State = State(lastSend: map<Key, Option<string>>, cursor: Json, outbox: seq<string>)

  /** How far the loop over the records got: through all of them, or stopped by a failure. */
  datatype Progress = Done(st: State) | Stopped(st: State, failure: Fault)

  /** The error slot is always present: it is created at start-up and no key is ever removed. */
  predicate WellFormed(st: State)
  {
    ErrorKey in st.lastSend
  }

  /** The state at start-up: only the error slot, empty; the cursor is the start time. */
  function Initial(startTime: int): (st: State)
    ensures WellFormed(st) && st.outbox == []
    ensures st.lastSend == map[ErrorKey := None] && st.cursor == JInt(startTime)
  {
    State(map[ErrorKey := None], JInt(startTime), [])
  }

  /** `last_send.get(key) == message`. */
  predicate Recorded(lastSend: map<Key, Option<string>>, key: Key, message: string)
  {
    key in lastSend && lastSend[key] == Some(message)
  }

  /** A record that formats and whose name can serve as a dict key. */
  predicate Formats(homework: Json)
  {
    ParseStatus(homework).Success? && KeyOf(homework.fields["homework_name"]).Some?
  }

  /** The dict key of a record that formats. */
  function NameKey(homework: Json): Key
    requires Formats(homework)
  {
    KeyOf(homework.fields["homework_name"]).value
  }

  /** Why a record that does not format stops the cycle. */
  function Rejection(homework: Json): Fault
    requires !Formats(homework)
  {
    if ParseStatus(homework).Failure? then ParseStatus(homework).error
    else NameUnhashable(TypeName(homework.fields["homework_name"]))
  }

  /**
   * One pass of the loop over the records: format the record and, when the
   * message differs from the one recorded under its name, send it and record
   * it. Nothing but that name's entry and the outbox changes.
   */
  function Notify(st: State, homework: Json): (r: Result<State, Fault>)
    ensures r.Success? <==> Formats(homework)
    ensures r.Failure? ==> r.error == Rejection(homework)
    ensures r.Success? ==>
              var message, key := ParseStatus(homework).value, NameKey(homework);
              && r.value.cursor == st.cursor
              && Recorded(r.value.lastSend, key, message)
              && r.value.lastSend.Keys == st.lastSend.Keys + {key}
              && (forall other :: other in st.lastSend && other != key ==>
                    r.value.lastSend[other] == st.lastSend[other])
              && r.value.outbox == if Recorded(st.lastSend, key, message) then st.outbox
                                   else st.outbox + [message]
  {
    match ParseStatus(homework)
    case Failure(f) => Failure(f)
    case Success(message) =>
      var name := homework.fields["homework_name"];
      match KeyOf(name)
      case None => Failure(NameUnhashable(TypeName(name)))
      case Some(key) =>
        if Recorded(st.lastSend, key, message) then Success(st)
        else Success(st.(outbox := st.outbox + [message], lastSend := st.lastSend[key := Some(message)]))
  }

  /**
   * The loop over the records in server order. A failing record stops it;
   * what the records before it sent and recorded stays. The loop never
   * drops a key, never moves the cursor and only appends to the outbox.
   */
  function NotifyAll(st: State, homeworks: seq<Json>): (p: Progress)
    ensures st.lastSend.Keys <= p.st.lastSend.Keys
    ensures p.st.cursor == st.cursor
    ensures |st.outbox| <= |p.st.outbox| && p.st.outbox[..|st.outbox|] == st.outbox
    decreases |homeworks|
  {
    if homeworks == [] then Done(st)
    else
      match Notify(st, homeworks[0])
      case Failure(f) => Stopped(st, f)
      case Success(next) => NotifyAll(next, homeworks[1..])
  }

  /** The message that reports a failure with the given exception text. */
  function FailureMessage(text: string): string
  {
    FailurePrefix + text
  }

  /** The `except` branch: report the failure unless it is the one last reported, and record it. */
  function OnFailure(st: State, text: string): (r: State)
    requires WellFormed(st)
    ensures WellFormed(r) && r.cursor == st.cursor
    ensures r.lastSend == st.lastSend[ErrorKey := Some(FailureMessage(text))]
    ensures r.outbox == if st.lastSend[ErrorKey] == Some(FailureMessage(text)) then st.outbox
                        else st.outbox + [FailureMessage(text)]
  {
    var message := FailureMessage(text);
    if st.lastSend[ErrorKey] != Some(message) then
      st.(outbox := st.outbox + [message], lastSend := st.lastSend[ErrorKey := Some(message)])
    else
      st
  }

  /** One whole cycle, as the body of the polling loop runs it. */
  function Cycle(st: State, fetch: Fetch): (r: State)
    requires WellFormed(st)
    ensures WellFormed(r)
    ensures |st.outbox| <= |r.outbox| && r.outbox[..|st.outbox|] == st.outbox
    ensures st.lastSend.Keys <= r.lastSend.Keys
  {
    match fetch
    case FetchFailed(text) => OnFailure(st, text)
    case Fetched(response) =>
      match CheckResponse(response)
      case Failure(f) => OnFailure(st, Describe(f))
      case Success(homeworks) =>
        match NotifyAll(st, homeworks)
        case Stopped(reached, f) => OnFailure(reached, Describe(f))
        case Done(reached) =>
          reached.(cursor := response.fields["current_date"],
                   lastSend := reached.lastSend[ErrorKey := None])
  }

  /**
   * The running notifier. The fields are the loop's local state: the
   * de-duplication dict, the cursor and the messages sent so far.
   */
  class Poller {
    var lastSend: map<Key, Option<string>>
    var timestamp: Json
    var outbox: seq<string>

    function Snapshot(): State
      reads this
    {
      State(lastSend, timestamp, outbox)
    }

    ghost predicate Valid()
      reads this
    {
      WellFormed(Snapshot())
    }

    /** Start-up, after the credentials check: the dict holds only the empty error slot. */
    constructor (startTime: int)
      ensures Valid()
      ensures Snapshot() == Initial(startTime)
    {
      lastSend := map[ErrorKey := None];
      timestamp := JInt(startTime);
      outbox := [];
    }

    /** Hands a message to the chat client; a delivery error is swallowed. */
    method SendMessage(message: string)
      modifies this`outbox
      ensures outbox == old(outbox) + [message]
    {
      outbox := outbox + [message];
    }

    /** The `except` branch of the cycle. */
    method ReportFailure(text: string)
      requires Valid()
      modifies this`lastSend, this`outbox
      ensures Valid()
      ensures Snapshot() == OnFailure(old(Snapshot()), text)
    {
      var message := FailureMessage(text);
      if lastSend[ErrorKey] != Some(message) {
        SendMessage(message);
        lastSend := lastSend[ErrorKey := Some(message)];
      }
    }

    /** One iteration of the polling loop, the sleep left out. */
    method RunCycle(fetch: Fetch)
      requires Valid()
      modifies this
      ensures Valid()
      ensures Snapshot() == Cycle(old(Snapshot()), fetch)
    {
      match fetch
      case FetchFailed(text) =>
        ReportFailure(text);
      case Fetched(response) =>
        var checked := CheckResponse(response);
        if checked.Failure? {
          ReportFailure(Describe(checked.error));
          return;
        }
        var homeworks := checked.value;
        var i := 0;
        while i < |homeworks|
          invariant 0 <= i <= |homeworks|
          invariant Valid()
          invariant NotifyAll(old(Snapshot()), homeworks) == NotifyAll(Snapshot(), homeworks[i..])
        {
          var homework := homeworks[i];
          assert homeworks[i..][0] == homework && homeworks[i..][1..] == homeworks[i + 1..];
          var message := ParseStatus(homework);
          if message.Failure? {
            ReportFailure(Describe(message.error));
            return;
          }
          var name := homework.fields["homework_name"];
          var key := KeyOf(name);
          if key.None? {
            ReportFailure(Describe(NameUnhashable(TypeName(name))));
            return;
          }
          if !Recorded(lastSend, key.value, message.value) {
            SendMessage(message.value);
            lastSend := lastSend[key.value := Some(message.value)];
          }
          i := i + 1;
        }
        assert homeworks[i..] == [];
        timestamp := response.fields["current_date"];
        lastSend := lastSend[ErrorKey := None];
    }
  }
}
