/** The routing rule of `src/telegram_bot.py`: a message is answered when it
    comes from a private chat or mentions the bot's name in any letter case;
    otherwise it is only handed to the group recorder. Sending the reply is
    outside the model: `reply` is the text that would be sent. */
module TelegramBot {

  import opened Wrappers
  import opened Strings
  import opened MessageStore
  import opened Assembler

  datatype Chat = Chat(id: int, kind: string)

  /** The parts of an incoming Telegram message the handler reads. */
  datatype Update = Update(chat: Chat, text: string)

  /** The name that, once lowered, addresses the bot in a group. */
  const BotName := "gepeto"

  /** `text.lower().find("gepeto") != -1`. */
  predicate Mentions(text: string) {
    Find(Lower(text), BotName) != -1
  }

  /** Which branch of `handle_request` runs, with the conversation identifier
      and text it passes on. */
  datatype Route = Answer(userSid: string, text: string) | RecordOnly(userSid: string, text: string)

  /** Exactly one branch runs; both use `str(chat.id)` and the unmodified text.
      The answer branch is taken iff the chat is private or the lowered text
      contains the bot's name somewhere. */
  function RouteOf(m: Update): (r: Route)
    ensures r.userSid == IntToString(m.chat.id) && r.text == m.text
    ensures r.Answer? <==> m.chat.kind == "private" || exists i :: OccursAt(Lower(m.text), BotName, i)
  {
    if "private" == m.chat.kind || Mentions(m.text) then Answer(IntToString(m.chat.id), m.text)
    else RecordOnly(IntToString(m.chat.id), m.text)
  }

  /** `handle_request` calls `insert_group_message` on the assembler, which
      `src/open_ai_api.py` does not define, so the call raises.
      `GroupRecorder` stands for an assembler that defines it; what it stores
      is left abstract. */
  datatype GroupHook = GroupRecorderMissing | GroupRecorder(record: (Database, string, string) -> Database)

  /** An exception that leaves `handle_request`. */
  datatype Raised = AskFailed(error: ConnectionError) | MissingGroupRecorder

  /** The store afterwards, the list sent to the completion model (`None` when
      no completion was requested), the reply text (`None` when none is sent)
      and the exception that escaped, if any. */
  datatype Handled = Handled(store: Database, sent: Option<seq<Message>>, reply: Option<string>, raised: Option<Raised>)

  /** `h` is the outcome of answering through `asked`: `ask_gpt`'s store and
      sent list, its texts joined as the reply when it returned, and its error
      escaping when it raised. */
  predicate AnswersWith(h: Handled, asked: Asked) {
    && h.store == asked.store
    && h.sent == asked.sent
    && (asked.result.Success? ==> h.reply == Some(Join(asked.result.value)) && h.raised == None)
    && (asked.result.Failure? ==> h.reply == None && h.raised == Some(AskFailed(asked.result.error)))
  }

  function HandleRequest(db: Database, m: Update, userHook: UserHook, groupHook: GroupHook,
                         complete: Completion, faults: Faults): (h: Handled)
    // only the answer branch requests a completion or sends a reply
    ensures h.sent.Some? || h.reply.Some? ==> RouteOf(m).Answer?
    ensures RouteOf(m).RecordOnly? ==> h.sent == None && h.reply == None
    // a reply is sent exactly when ask_gpt returned, and it is the texts joined in order
    ensures h.reply.Some? <==> h.raised.None? && RouteOf(m).Answer?
    ensures h.reply.Some? ==>
      var asked := AskGpt(db, userHook, IntToString(m.chat.id), m.text, complete, faults);
      asked.result.Success? && |h.reply.value| == TotalLength(asked.result.value)
    // the answer branch is exactly ask_gpt with str(chat.id) and the text
    ensures RouteOf(m).Answer? ==>
      AnswersWith(h, AskGpt(db, userHook, IntToString(m.chat.id), m.text, complete, faults))
  {
    match RouteOf(m)
    case Answer(userSid, text) =>
      var asked := AskGpt(db, userHook, userSid, text, complete, faults);
      (match asked.result
       case Success(texts) => Handled(asked.store, asked.sent, Some(Join(texts)), None)
       case Failure(e) => Handled(asked.store, asked.sent, None, Some(AskFailed(e))))
    case RecordOnly(userSid, text) =>
      match groupHook
      case GroupRecorderMissing => Handled(db, None, None, Some(MissingGroupRecorder))
      case GroupRecorder(record) => Handled(record(db, userSid, text), None, None, None)
  }

  // ---------------------------------------------------------------------------
  // Properties
  // ---------------------------------------------------------------------------

  /** A private chat is always answered, with `str(chat.id)` as the user and
      the text as sent, and the request is exactly `ask_gpt`'s. */
  lemma PrivateChatIsAnswered(db: Database, m: Update, userHook: UserHook, groupHook: GroupHook,
                              complete: Completion, faults: Faults)
    requires m.chat.kind == "private"
    ensures RouteOf(m) == Answer(IntToString(m.chat.id), m.text)
    ensures AnswersWith(HandleRequest(db, m, userHook, groupHook, complete, faults),
                        AskGpt(db, userHook, IntToString(m.chat.id), m.text, complete, faults))
  {
  }

  /** In a group, a text that contains the bot's name anywhere, in any letter
      case, is answered exactly as a private message is. */
  lemma GroupMentionIsAnswered(db: Database, m: Update, userHook: UserHook, groupHook: GroupHook,
                               complete: Completion, faults: Faults, i: int)
    requires OccursAt(Lower(m.text), BotName, i)
    ensures RouteOf(m) == Answer(IntToString(m.chat.id), m.text)
    ensures AnswersWith(HandleRequest(db, m, userHook, groupHook, complete, faults),
                        AskGpt(db, userHook, IntToString(m.chat.id), m.text, complete, faults))
  {
  }

  /** The mention test ignores letter case: a text and its lowered form are
      routed alike. */
  lemma MentionIgnoresCase(text: string)
    ensures Mentions(text) <==> Mentions(Lower(text))
  {
    LowerIdempotent(text);
  }

  /** "GEPETO" and "Gepeto" address the bot anywhere in the text; a text
      without the name does not. */
  lemma MentionExamples()
    ensures Mentions("GEPETO")
    ensures Mentions("Oi, Gepeto!")
    ensures !Mentions("bom dia")
  {
    assert Lower("GEPETO") == "gepeto";
    assert OccursAt(Lower("GEPETO"), BotName, 0);
    assert Lower("Oi, Gepeto!") == "oi, gepeto!";
    assert OccursAt(Lower("Oi, Gepeto!"), BotName, 4);
    var plain := Lower("bom dia");
    assert plain == "bom dia";
    forall i | 0 <= i <= |plain|
      ensures !OccursAt(plain, BotName, i)
    {
      if i + |BotName| <= |plain| {
        assert plain[i..i + |BotName|][0] == plain[i] != 'g';
      }
    }
  }

  /** A group message that does not mention the bot only goes to the group
      recorder, with the same identifier and text: no completion is requested
      and no reply is sent. */
  lemma UnaddressedRecordsOnly(db: Database, m: Update, userHook: UserHook,
                               record: (Database, string, string) -> Database,
                               complete: Completion, faults: Faults)
    requires m.chat.kind != "private" && !Mentions(m.text)
    ensures HandleRequest(db, m, userHook, GroupRecorder(record), complete, faults)
         == Handled(record(db, IntToString(m.chat.id), m.text), None, None, None)
  {
  }

  /** As written, the record-only branch calls an undefined method: the
      exception escapes, nothing is stored, and no completion or reply happens. */
  lemma MissingGroupRecorderRaises(db: Database, m: Update, userHook: UserHook,
                                   complete: Completion, faults: Faults)
    requires m.chat.kind != "private" && !Mentions(m.text)
    ensures HandleRequest(db, m, userHook, GroupRecorderMissing, complete, faults)
         == Handled(db, None, None, Some(MissingGroupRecorder))
  {
  }

  /** The reply holds each returned choice's content, in the provider's order,
      back to back. */
  lemma ReplyIsChoicesInOrder(db: Database, m: Update, userHook: UserHook, groupHook: GroupHook,
                              complete: Completion, faults: Faults, k: nat)
    requires HandleRequest(db, m, userHook, groupHook, complete, faults).reply.Some?
    requires k < |AskGpt(db, userHook, IntToString(m.chat.id), m.text, complete, faults).result.value|
    ensures
      var texts := AskGpt(db, userHook, IntToString(m.chat.id), m.text, complete, faults).result.value;
      var reply := HandleRequest(db, m, userHook, groupHook, complete, faults).reply.value;
      reply == Join(texts) &&
      TotalLength(texts[..k]) + |texts[k]| <= |reply| &&
      reply[TotalLength(texts[..k])..TotalLength(texts[..k]) + |texts[k]|] == texts[k]
  {
    var texts := AskGpt(db, userHook, IntToString(m.chat.id), m.text, complete, faults).result.value;
    JoinPlacesEachPart(texts, k);
  }
}
