/** The conversation assembler of `src/open_ai_api.py`: it persists the user's
    turn, reloads that user's history, prepends a fixed system message, asks the
    completion model once and persists every returned choice. The completion
    call itself is a parameter. */
module Assembler {

  import opened Wrappers
  import opened MessageStore

  /** The persona message put in front of every request; it is never stored. */
  const SystemPrompt := Message("system", "Você é um amigo no whatsapp")

  /** One completion choice as the provider returns it. */
  datatype Choice = Choice(message: Message)

  /** The external completion call: the messages sent, then the provider's
      choices or the reason it failed. */
  type Completion = seq<Message> -> Result<seq<Choice>, string>

  /** `_insert_initial_data` calls `insert_user` on the store it was given.
      The store class in `src/database.py` does not define it, so the call
      raises; `InsertUserDefined` stands for a store that defines it as an
      operation that does not touch the message log. */
  datatype UserHook = InsertUserMissing | InsertUserDefined

  /** Which storage calls of one request fail: the user's insert, the history
      read, and the choice inserts at the given indices. */
  datatype Faults = Faults(userWrite: bool, read: bool, choiceWrites: set<nat>)

  const NoFaults := Faults(false, false, {})

  /** What was raised inside `ask_gpt` before it was wrapped. */
  datatype Cause =
    | MissingInsertUser             // AttributeError: the store has no insert_user
    | HistoryUnavailable            // AttributeError: the read returned None
    | CompletionFailed(reason: string)

  /** The only exception `ask_gpt` lets out. */
  datatype ConnectionError = ConnectionError(cause: Cause)

  /** The store after `_insert_initial_data`, and the list it built or what it raised. */
  datatype Prepared = Prepared(store: Database, messages: Result<seq<Message>, Cause>)

  /** The store after `_get_response`, and the texts it returned. */
  datatype Reply = Reply(store: Database, response: seq<string>)

  /** The store after `ask_gpt`, the list handed to the completion call (`None`
      when it was never called), and what `ask_gpt` returned or raised. */
  datatype Asked = Asked(store: Database, sent: Option<seq<Message>>, result: Result<seq<string>, ConnectionError>)

  function UserRecord(userSid: string, userMsg: string): Record {
    Record(userSid, "user", userMsg)
  }

  /** The messages carried by `choices`, in order. */
  function ChoiceMessages(choices: seq<Choice>): (ms: seq<Message>)
    ensures |ms| == |choices|
    ensures forall k :: 0 <= k < |choices| ==> ms[k] == choices[k].message
  {
    seq(|choices|, k requires 0 <= k < |choices| => choices[k].message)
  }

  lemma ChoiceMessagesAppend(init: seq<Choice>, last: Choice)
    ensures ChoiceMessages(init + [last]) == ChoiceMessages(init) + [last.message]
  {
    var lhs := ChoiceMessages(init + [last]);
    var rhs := ChoiceMessages(init) + [last.message];
    assert |lhs| == |rhs|;
    forall k | 0 <= k < |lhs|
      ensures lhs[k] == rhs[k]
    {
      if k < |init| {
        assert (init + [last])[k] == init[k];
      }
    }
  }

  // ---------------------------------------------------------------------------
  // _insert_initial_data
  // ---------------------------------------------------------------------------

  function InsertInitialData(db: Database, hook: UserHook, userSid: string, userMsg: string, faults: Faults): (p: Prepared)
    // a missing insert_user raises before anything is written
    ensures hook.InsertUserMissing? ==> p == Prepared(db, Failure(MissingInsertUser))
    // the user's turn is the only record ever added: the system message is not stored
    ensures p.store == db || (db.Connected? && p.store == Connected(db.records + [UserRecord(userSid, userMsg)]))
    // a read failure makes the prepend raise
    ensures hook.InsertUserDefined? ==>
      (p.messages.Failure? <==> db.Unconnected? || faults.read)
    ensures p.messages.Success? ==>
      && p.store.Connected?
      && 1 <= |p.messages.value|
      && p.messages.value[0] == SystemPrompt
      && p.messages.value[1..] == History(p.store.records, userSid)
  {
    match hook
    case InsertUserMissing => Prepared(db, Failure(MissingInsertUser))
    case InsertUserDefined =>
      var store := InsertMessage(db, userSid, "user", userMsg, faults.userWrite);
      match GetMessagesByUserSid(store, userSid, faults.read)
      case None => Prepared(store, Failure(HistoryUnavailable))
      case Some(history) => Prepared(store, Success([SystemPrompt] + history))
  }

  /** With a working store the list sent to the model is the system message,
      then the user's earlier messages, then the new one: one more entry than
      the user has stored messages. */
  lemma PreparedListEndsWithUserMessage(db: Database, userSid: string, userMsg: string, readFault: bool)
    requires db.Connected?
    ensures InsertInitialData(db, InsertUserDefined, userSid, userMsg, Faults(false, readFault, {})).messages
         == if readFault then Failure(HistoryUnavailable)
            else Success([SystemPrompt] + History(db.records, userSid) + [Message("user", userMsg)])
    ensures !readFault ==>
      |InsertInitialData(db, InsertUserDefined, userSid, userMsg, Faults(false, readFault, {})).messages.value|
        == 1 + Count(db.records, userSid) + 1
  {
    InsertExtendsOwnHistory(db, userSid, "user", userMsg);
    var m := Message("user", userMsg);
    assert [SystemPrompt] + (History(db.records, userSid) + [m]) == [SystemPrompt] + History(db.records, userSid) + [m];
  }

  // ---------------------------------------------------------------------------
  // _get_response
  // ---------------------------------------------------------------------------

  /** `rec` is the record for a choice whose insert did not fail. */
  predicate PersistedChoice(userSid: string, choices: seq<Choice>, failed: set<nat>, rec: Record) {
    exists k :: 0 <= k < |choices| && k !in failed
      && rec == Record(userSid, choices[k].message.role, choices[k].message.content)
  }

  /** Returns the choices' contents in the same order; a failed insert is
      swallowed and does not affect the returned texts. The store only grows,
      by at most one record per choice. */
  function GetResponse(db: Database, userSid: string, choices: seq<Choice>, failed: set<nat>): (r: Reply)
    ensures |r.response| == |choices|
    ensures forall k :: 0 <= k < |choices| ==> r.response[k] == choices[k].message.content
    ensures db.Unconnected? ==> r.store == db
    ensures db.Connected? ==>
      && r.store.Connected?
      && |db.records| <= |r.store.records| <= |db.records| + |choices|
      && r.store.records[..|db.records|] == db.records
    decreases |choices|
  {
    if choices == [] then Reply(db, [])
    else
      var n := |choices| - 1;
      var last := choices[n];
      var prev := GetResponse(db, userSid, choices[..n], failed);
      var store := InsertMessage(prev.store, userSid, last.message.role, last.message.content, n in failed);
      Reply(store, prev.response + [last.message.content])
  }

  /** One unfolding of `GetResponse`: the last choice is inserted after the
      others. */
  lemma GetResponseStep(db: Database, userSid: string, choices: seq<Choice>, failed: set<nat>)
    requires choices != []
    ensures GetResponse(db, userSid, choices, failed).store
         == InsertMessage(GetResponse(db, userSid, choices[..|choices| - 1], failed).store, userSid,
                          choices[|choices| - 1].message.role, choices[|choices| - 1].message.content,
                          |choices| - 1 in failed)
  {
  }

  /** Every record `_get_response` adds is the user's record of a choice whose
      insert did not fail. */
  lemma {:induction false} GetResponseStoresOnlyChoices(db: Database, userSid: string, choices: seq<Choice>,
                                                      failed: set<nat>, j: nat)
    requires db.Connected?
    requires |db.records| <= j < |GetResponse(db, userSid, choices, failed).store.records|
    ensures PersistedChoice(userSid, choices, failed, GetResponse(db, userSid, choices, failed).store.records[j])
    decreases |choices|
  {
    var n := |choices| - 1;
    var last := choices[n];
    var before := GetResponse(db, userSid, choices[..n], failed).store;
    GetResponseStep(db, userSid, choices, failed);
    if j < |before.records| {
      GetResponseStoresOnlyChoices(db, userSid, choices[..n], failed, j);
      var k :| 0 <= k < n && k !in failed
        && before.records[j] == Record(userSid, choices[..n][k].message.role, choices[..n][k].message.content);
      assert choices[..n][k] == choices[k];
    } else {
      assert n !in failed;
    }
  }

  /** Without write failures `_get_response` appends one record per choice. */
  lemma {:induction false} GetResponseStoresOnePerChoice(db: Database, userSid: string, choices: seq<Choice>)
    requires db.Connected?
    ensures |GetResponse(db, userSid, choices, {}).store.records| == |db.records| + |choices|
    decreases |choices|
  {
    if choices != [] {
      GetResponseStep(db, userSid, choices, {});
      GetResponseStoresOnePerChoice(db, userSid, choices[..|choices| - 1]);
    }
  }

  /** Without write failures `_get_response` appends the records in choice
      order, each with the choice's own role and content. */
  lemma {:induction false} GetResponseStoresEveryChoice(db: Database, userSid: string, choices: seq<Choice>, k: nat)
    requires db.Connected? && k < |choices|
    ensures |db.records| + k < |GetResponse(db, userSid, choices, {}).store.records|
    ensures GetResponse(db, userSid, choices, {}).store.records[|db.records| + k]
         == Record(userSid, choices[k].message.role, choices[k].message.content)
    decreases |choices|
  {
    var n := |choices| - 1;
    var last := choices[n];
    var rec := Record(userSid, last.message.role, last.message.content);
    var before := GetResponse(db, userSid, choices[..n], {}).store;
    assert GetResponse(db, userSid, choices, {}).store == Connected(before.records + [rec]) by {
      GetResponseStep(db, userSid, choices, {});
    }
    GetResponseStoresOnePerChoice(db, userSid, choices[..n]);
    if k < n {
      GetResponseStoresEveryChoice(db, userSid, choices[..n], k);
    }
  }

  /** Without write failures, the user's history gains exactly the choices'
      messages, in order. */
  lemma {:induction false} GetResponseExtendsHistory(db: Database, userSid: string, choices: seq<Choice>)
    requires db.Connected?
    ensures GetResponse(db, userSid, choices, {}).store.Connected?
    ensures History(GetResponse(db, userSid, choices, {}).store.records, userSid)
         == History(db.records, userSid) + ChoiceMessages(choices)
    decreases |choices|
  {
    if choices != [] {
      var n := |choices| - 1;
      var last := choices[n];
      var rec := Record(userSid, last.message.role, last.message.content);
      var before := GetResponse(db, userSid, choices[..n], {}).store;
      var after := GetResponse(db, userSid, choices, {}).store;
      assert before.Connected? &&
        History(before.records, userSid) == History(db.records, userSid) + ChoiceMessages(choices[..n]) by {
        GetResponseExtendsHistory(db, userSid, choices[..n]);
      }
      assert after == Connected(before.records + [rec]) by {
        GetResponseStep(db, userSid, choices, {});
      }
      assert History(before.records + [rec], userSid) == History(before.records, userSid) + [last.message] by {
        HistoryOfAppend(before.records, rec, userSid);
      }
      assert ChoiceMessages(choices) == ChoiceMessages(choices[..n]) + [last.message] by {
        assert choices == choices[..n] + [last];
        ChoiceMessagesAppend(choices[..n], last);
      }
    }
  }

  /** Whatever fails, the choices are stored under `userSid` only: every other
      user's reads are unchanged. */
  lemma {:induction false} GetResponseLeavesOtherUsers(db: Database, userSid: string, choices: seq<Choice>,
                                                     failed: set<nat>, other: string, readFault: bool)
    requires other != userSid
    ensures GetMessagesByUserSid(GetResponse(db, userSid, choices, failed).store, other, readFault)
         == GetMessagesByUserSid(db, other, readFault)
    decreases |choices|
  {
    if choices != [] {
      var n := |choices| - 1;
      var prev := GetResponse(db, userSid, choices[..n], failed);
      GetResponseLeavesOtherUsers(db, userSid, choices[..n], failed, other, readFault);
      var last := choices[n];
      InsertLeavesOtherUsers(prev.store, userSid, last.message.role, last.message.content, n in failed, other, readFault);
    }
  }

  // ---------------------------------------------------------------------------
  // ask_gpt
  // ---------------------------------------------------------------------------

  function AskGpt(db: Database, hook: UserHook, userSid: string, userMsg: string,
                  complete: Completion, faults: Faults): (a: Asked)
    ensures a.sent.Some? <==> InsertInitialData(db, hook, userSid, userMsg, faults).messages.Success?
    ensures a.sent.Some? ==> 1 <= |a.sent.value| && a.sent.value[0] == SystemPrompt
    // the list sent is the one `_insert_initial_data` built
    ensures a.sent.Some? ==> a.sent.value == InsertInitialData(db, hook, userSid, userMsg, faults).messages.value
    // the reply is exactly the choices' contents, in the provider's order
    ensures a.result.Success? ==>
      && a.sent.Some?
      && complete(a.sent.value).Success?
      && |a.result.value| == |complete(a.sent.value).value|
      && forall k :: 0 <= k < |a.result.value| ==>
           a.result.value[k] == complete(a.sent.value).value[k].message.content
    // after a success the store is what `_get_response` left
    ensures a.result.Success? ==>
      a.store == GetResponse(InsertInitialData(db, hook, userSid, userMsg, faults).store, userSid,
                             complete(a.sent.value).value, faults.choiceWrites).store
    // every failure is a ConnectionError and nothing written before it is undone
    ensures a.result.Failure? ==> a.store == InsertInitialData(db, hook, userSid, userMsg, faults).store
    ensures a.result.Failure? && a.sent.Some? ==>
      complete(a.sent.value).Failure? &&
      a.result.error == ConnectionError(CompletionFailed(complete(a.sent.value).error))
  {
    var prepared := InsertInitialData(db, hook, userSid, userMsg, faults);
    match prepared.messages
    case Failure(cause) => Asked(prepared.store, None, Failure(ConnectionError(cause)))
    case Success(messages) =>
      match complete(messages)
      case Failure(reason) => Asked(prepared.store, Some(messages), Failure(ConnectionError(CompletionFailed(reason))))
      case Success(choices) =>
        var reply := GetResponse(prepared.store, userSid, choices, faults.choiceWrites);
        Asked(reply.store, Some(messages), Success(reply.response))
  }

  /** With a working store `ask_gpt` sends the system message, the user's
      earlier messages and the new turn, in that order. */
  lemma AskGptSendsPromptHistoryAndTurn(db: Database, userSid: string, userMsg: string, complete: Completion, faults: Faults)
    requires db.Connected? && !faults.userWrite && !faults.read
    ensures AskGpt(db, InsertUserDefined, userSid, userMsg, complete, faults).sent
         == Some([SystemPrompt] + History(db.records, userSid) + [Message("user", userMsg)])
  {
    PreparedListEndsWithUserMessage(db, userSid, userMsg, false);
    assert InsertInitialData(db, InsertUserDefined, userSid, userMsg, faults)
        == InsertInitialData(db, InsertUserDefined, userSid, userMsg, Faults(false, false, {}));
  }

  /** A successful `ask_gpt` with a working store grows the user's history by
      the user turn followed by one message per choice, 1 + |choices| in all. */
  lemma AskGptGrowsHistory(db: Database, userSid: string, userMsg: string, complete: Completion, choices: seq<Choice>)
    requires db.Connected?
    requires complete([SystemPrompt] + History(db.records, userSid) + [Message("user", userMsg)]) == Success(choices)
    ensures
      var asked := AskGpt(db, InsertUserDefined, userSid, userMsg, complete, NoFaults);
      && asked.result.Success?
      && asked.store.Connected?
      && History(asked.store.records, userSid) == History(db.records, userSid) + [Message("user", userMsg)] + ChoiceMessages(choices)
      && |History(asked.store.records, userSid)| == |History(db.records, userSid)| + 1 + |choices|
  {
    PreparedListEndsWithUserMessage(db, userSid, userMsg, false);
    var store := InsertMessage(db, userSid, "user", userMsg, false);
    InsertExtendsOwnHistory(db, userSid, "user", userMsg);
    GetResponseExtendsHistory(store, userSid, choices);
  }

  /** The first exchange of a new conversation with one returned choice
      stores exactly two messages for the user, the question and the answer,
      and returns that one answer. */
  lemma FirstExchangeStoresTwoMessages(db: Database, userSid: string, userMsg: string, complete: Completion, answer: Message)
    requires db.Connected? && Count(db.records, userSid) == 0
    requires complete([SystemPrompt, Message("user", userMsg)]) == Success([Choice(answer)])
    ensures History(AskGpt(db, InsertUserDefined, userSid, userMsg, complete, NoFaults).store.records, userSid)
         == [Message("user", userMsg), answer]
    ensures AskGpt(db, InsertUserDefined, userSid, userMsg, complete, NoFaults).result == Success([answer.content])
  {
    assert History(db.records, userSid) == [];
    assert [SystemPrompt] + History(db.records, userSid) + [Message("user", userMsg)] == [SystemPrompt, Message("user", userMsg)];
    AskGptSendsPromptHistoryAndTurn(db, userSid, userMsg, complete, NoFaults);
    AskGptGrowsHistory(db, userSid, userMsg, complete, [Choice(answer)]);
    var asked := AskGpt(db, InsertUserDefined, userSid, userMsg, complete, NoFaults);
    assert complete(asked.sent.value) == Success([Choice(answer)]);
    assert asked.result.value == [answer.content];
  }

  /** Whatever happens inside `ask_gpt`, other users' reads are unchanged. */
  lemma AskGptLeavesOtherUsers(db: Database, hook: UserHook, userSid: string, userMsg: string,
                               complete: Completion, faults: Faults, other: string, readFault: bool)
    requires other != userSid
    ensures GetMessagesByUserSid(AskGpt(db, hook, userSid, userMsg, complete, faults).store, other, readFault)
         == GetMessagesByUserSid(db, other, readFault)
  {
    if hook.InsertUserDefined? {
      var store := InsertMessage(db, userSid, "user", userMsg, faults.userWrite);
      InsertLeavesOtherUsers(db, userSid, "user", userMsg, faults.userWrite, other, readFault);
      var prepared := InsertInitialData(db, hook, userSid, userMsg, faults);
      if prepared.messages.Success? && complete(prepared.messages.value).Success? {
        GetResponseLeavesOtherUsers(store, userSid, complete(prepared.messages.value).value,
                                    faults.choiceWrites, other, readFault);
      }
    }
  }

  /** A failing completion call surfaces as a ConnectionError, and the user's
      message persisted before the call stays persisted. */
  lemma CompletionFailureKeepsUserMessage(db: Database, userSid: string, userMsg: string, complete: Completion, reason: string)
    requires db.Connected?
    requires complete([SystemPrompt] + History(db.records, userSid) + [Message("user", userMsg)]) == Failure(reason)
    ensures AskGpt(db, InsertUserDefined, userSid, userMsg, complete, NoFaults).result
         == Failure(ConnectionError(CompletionFailed(reason)))
    ensures AskGpt(db, InsertUserDefined, userSid, userMsg, complete, NoFaults).store
         == Connected(db.records + [UserRecord(userSid, userMsg)])
  {
    PreparedListEndsWithUserMessage(db, userSid, userMsg, false);
  }

  /** A failing history read makes `ask_gpt` raise before the model is called;
      the user's message, if its insert succeeded, stays persisted. */
  lemma ReadFailureRaisesBeforeCompletion(db: Database, userSid: string, userMsg: string,
                                          complete: Completion, faults: Faults)
    requires faults.read
    ensures AskGpt(db, InsertUserDefined, userSid, userMsg, complete, faults)
         == Asked(InsertMessage(db, userSid, "user", userMsg, faults.userWrite), None,
                  Failure(ConnectionError(HistoryUnavailable)))
  {
  }

  /** As written, `_insert_initial_data` calls `insert_user`, which the store
      does not define: every `ask_gpt` raises a ConnectionError, the model is
      never called and nothing is stored. */
  lemma MissingInsertUserAlwaysFails(db: Database, userSid: string, userMsg: string,
                                     complete: Completion, faults: Faults)
    ensures AskGpt(db, InsertUserMissing, userSid, userMsg, complete, faults)
         == Asked(db, None, Failure(ConnectionError(MissingInsertUser)))
  {
  }
}
