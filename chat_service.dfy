/** The chat session store (src/services/chatService.ts, class `ChatService`).
    Sessions live in a map keyed by id; the order in which keys were first inserted is kept
    beside it, since that is the order `getAllSessions` returns them in. The provider's
    Responses call is abstract: `ProcessMessage` returns the request it sends and takes the
    provider's reply, and the outcomes of creating the images directory and writing a
    generated image, as inputs. Generated ids and every clock reading are inputs too. */
module Chat {
  import opened Wrappers
  import opened Text
  import ImageUtil

  /** The language model the chat service talks to. */
  const AiModel := "gpt-4.1-mini"

  const ErrorPrefix := "I apologize, but I encountered an error processing your request: "
  const ImageReplyText := "I've generated an image based on your request."
  const FallbackReplyText := "I understand your request. How would you like me to help you with image generation?"

  datatype Role = User | Assistant

  /** The optional fields a message may carry besides its text. */
  datatype Extras = Extras(localImageUrl: Option<string>, filename: Option<string>, responseId: Option<string>)

  const NoExtras := Extras(None, None, None)

  datatype ChatMessage = ChatMessage(id: string, role: Role, content: string, timestamp: string, extras: Extras)

  datatype ChatSession = ChatSession(id: string, messages: seq<ChatMessage>, createdAt: string,
                                     updatedAt: string, lastResponseId: Option<string>)

  /** The size and quality a caller may ask for. */
  datatype ChatOptions = ChatOptions(size: Option<string>, quality: Option<string>)

  /** One item of the provider's `output` list. */
  datatype OutputItem = TextMessage(content: string) | ImageCall(result: Option<string>) | OtherItem

  /** The provider's answer: a thrown error, or a response with an id and a possibly absent output list. */
  datatype ProviderReply = Threw(error: Thrown) | Replied(id: string, output: Option<seq<OutputItem>>)

  /** The body of the `responses.create` call: model, previous response id, input, and the
      quality and size of the image-generation tool (whose other settings are fixed: png
      output, low moderation). */
  datatype ResponsesRequest = ResponsesRequest(model: string, previousResponseId: Option<string>,
                                               input: string, quality: string, size: string)

  /** The ids one call of `processMessage` may draw: one for a new session, one per message. */
  datatype FreshIds = FreshIds(session: string, userMessage: string, reply: string)

  /** The clock readings one call of `processMessage` may take, in the order the code takes
      them: the two of a new session, the stamp and update of the user's message, the update
      once the provider has answered, the instant in a saved image's name, and the stamp and
      update of the assistant's message. */
  datatype Readings = Readings(sessionCreated: string, sessionUpdated: string,
                               userStamped: string, userUpdated: string,
                               replyRecorded: string, imageNamed: string,
                               answerStamped: string, answerUpdated: string)

  /** A new session; `createdAt` and `updatedAt` come from two readings of the clock. */
  function EmptySession(id: string, createdAt: string, updatedAt: string): (s: ChatSession)
    ensures s.id == id && s.messages == [] && s.lastResponseId == None
    ensures s.createdAt == createdAt && s.updatedAt == updatedAt
  {
    ChatSession(id, [], createdAt, updatedAt, None)
  }

  /** The session that answers to `sessionId`: the stored one when the id is non-empty and
      known, otherwise a fresh session under `freshId`. */
  function SessionFor(sessions: map<string, ChatSession>, sessionId: Option<string>, freshId: string,
                      createdAt: string, updatedAt: string): (s: ChatSession)
    ensures Truthy(sessionId) && sessionId.value in sessions ==> s == sessions[sessionId.value]
    ensures !(Truthy(sessionId) && sessionId.value in sessions) ==> s == EmptySession(freshId, createdAt, updatedAt)
  {
    if Truthy(sessionId) && sessionId.value in sessions then sessions[sessionId.value]
    else EmptySession(freshId, createdAt, updatedAt)
  }

  /** The texts of the message items, in order. */
  function TextsOf(items: seq<OutputItem>): (texts: seq<string>)
    ensures |texts| <= |items|
    ensures |texts| == 0 <==> forall i :: 0 <= i < |items| ==> !items[i].TextMessage?
    ensures forall t :: t in texts <==> TextMessage(t) in items
    decreases |items|
  {
    if |items| == 0 then []
    else
      var init, last := items[..|items| - 1], items[|items| - 1];
      var r := TextsOf(init);
      assert items == init + [last];
      if last.TextMessage? then r + [last.content] else r
  }

  /** The payloads of the image-generation items, in order. */
  function ImagesOf(items: seq<OutputItem>): (outputs: seq<ImageUtil.ImageOutput>)
    ensures |outputs| <= |items|
    ensures |outputs| == 0 <==> forall i :: 0 <= i < |items| ==> !items[i].ImageCall?
    ensures forall o :: o in outputs <==> ImageCall(o.result) in items
    decreases |items|
  {
    if |items| == 0 then []
    else
      var init, last := items[..|items| - 1], items[|items| - 1];
      var r := ImagesOf(init);
      assert items == init + [last];
      if last.ImageCall? then r + [ImageUtil.ImageOutput(last.result)] else r
  }

  /** The texts of a concatenation are those of each part, one after the other: the filter
      keeps the order and the number of the message items. */
  lemma {:induction false} TextsOfAppend(a: seq<OutputItem>, b: seq<OutputItem>)
    ensures TextsOf(a + b) == TextsOf(a) + TextsOf(b)
    decreases |b|
  {
    if |b| == 0 {
      assert a + b == a;
    } else {
      var init, last := b[..|b| - 1], b[|b| - 1];
      TextsOfAppend(a, init);
      assert (a + b)[..|a + b| - 1] == a + init;
      assert (a + b)[|a + b| - 1] == last;
    }
  }

  /** Reading the items front to back: a message item puts its text first. */
  lemma TextsOfCons(item: OutputItem, rest: seq<OutputItem>)
    ensures TextsOf([item] + rest) == (if item.TextMessage? then [item.content] else []) + TextsOf(rest)
  {
    TextsOfAppend([item], rest);
    assert [item][..0] == [];
  }

  lemma {:induction false} ImagesOfAppend(a: seq<OutputItem>, b: seq<OutputItem>)
    ensures ImagesOf(a + b) == ImagesOf(a) + ImagesOf(b)
    decreases |b|
  {
    if |b| == 0 {
      assert a + b == a;
    } else {
      var init, last := b[..|b| - 1], b[|b| - 1];
      ImagesOfAppend(a, init);
      assert (a + b)[..|a + b| - 1] == a + init;
      assert (a + b)[|a + b| - 1] == last;
    }
  }

  lemma ImagesOfCons(item: OutputItem, rest: seq<OutputItem>)
    ensures ImagesOf([item] + rest)
            == (if item.ImageCall? then [ImageUtil.ImageOutput(item.result)] else []) + ImagesOf(rest)
  {
    ImagesOfAppend([item], rest);
    assert [item][..0] == [];
  }

  /** The first payload is that of the first image-generation item: the only one
      `processImageOutputs` looks at. */
  lemma {:induction false} FirstImage(items: seq<OutputItem>)
    ensures |ImagesOf(items)| > 0 ==>
      exists i :: 0 <= i < |items| && items[i].ImageCall?
        && (forall j :: 0 <= j < i ==> !items[j].ImageCall?)
        && ImagesOf(items)[0] == ImageUtil.ImageOutput(items[i].result)
    decreases |items|
  {
    if |items| > 0 {
      var rest := items[1..];
      assert items == [items[0]] + rest;
      ImagesOfCons(items[0], rest);
      if items[0].ImageCall? {
        assert ImagesOf(items)[0] == ImageUtil.ImageOutput(items[0].result);
      } else if |ImagesOf(items)| > 0 {
        FirstImage(rest);
        var i :| 0 <= i < |rest| && rest[i].ImageCall?
          && (forall j :: 0 <= j < i ==> !rest[j].ImageCall?)
          && ImagesOf(rest)[0] == ImageUtil.ImageOutput(rest[i].result);
        assert items[i + 1] == rest[i];
        forall j | 0 <= j < i + 1 ensures !items[j].ImageCall? {
          if j > 0 { assert items[j] == rest[j - 1]; }
        }
      }
    }
  }

  /** The options an image found in a reply is saved with: the chat model, the requested size
      and quality or their defaults, and the user's message as the prompt. */
  function SaveOptionsFor(options: ChatOptions, userMessage: string): (o: ImageUtil.SaveOptions)
    ensures o.model == Some(AiModel) && o.prompt == Some(userMessage)
    ensures o.size == Some(Or(options.size, "1024x1024")) && o.quality == Some(Or(options.quality, "low"))
  {
    ImageUtil.SaveOptions(Some(AiModel), Some(Or(options.size, "1024x1024")), Some(Or(options.quality, "low")),
                          Some(userMessage))
  }

  /** The assistant's text after a successful reply: the joined texts when they are not empty,
      else the image line when an image was saved, else the fallback. It is never empty. */
  function ReplyContent(texts: seq<string>, saved: Option<ImageUtil.ImageSaveResult>): (c: string)
    ensures c != ""
    ensures Join(texts, "\n") != "" ==> c == Join(texts, "\n")
    ensures Join(texts, "\n") == "" && saved.Some? ==> c == ImageReplyText
    ensures Join(texts, "\n") == "" && saved.None? ==> c == FallbackReplyText
  {
    var joined := if |texts| > 0 then Join(texts, "\n") else "";
    if joined != "" then joined
    else if saved.Some? then ImageReplyText
    else FallbackReplyText
  }

  /** The request sent for a message in a session whose last response id is `previous`. */
  function RequestFor(previous: Option<string>, userMessage: string, options: ChatOptions): (q: ResponsesRequest)
    ensures q.model == AiModel && q.previousResponseId == previous && q.input == userMessage
    ensures q.quality == Or(options.quality, "low") && q.size == Or(options.size, "1024x1024")
  {
    ResponsesRequest(AiModel, previous, userMessage, Or(options.quality, "low"), Or(options.size, "1024x1024"))
  }

  /** The text and fields of the assistant message that answers `reply`. A thrown reply, or an
      image that cannot be saved, gives the apology followed by the error's message and no
      fields; otherwise the reply content, the saved image's link and name, and the reply's id.
      `iso` is the instant the saved image's name is taken at. */
  function AssistantReply(reply: ProviderReply, options: ChatOptions, userMessage: string, iso: string,
                          imagesDir: string, mkdir: Option<Thrown>, write: Option<Thrown>): (a: (string, Extras))
    ensures a.0 != ""
    ensures reply.Threw? ==> a == (ErrorPrefix + MessageOf(reply.error), NoExtras)
    ensures reply.Replied? ==>
      var saved := ImageUtil.ProcessImageOutputs(ImagesOf(Or0(reply.output)), SaveOptionsFor(options, userMessage),
                                                 iso, imagesDir, mkdir, write);
      && (saved.Err? ==> a == (ErrorPrefix + saved.error, NoExtras))
      && (saved.Ok? ==> a == (ReplyContent(TextsOf(Or0(reply.output)), saved.value), ExtrasFor(saved.value, reply.id)))
  {
    match reply
    case Threw(e) => (ErrorPrefix + MessageOf(e), NoExtras)
    case Replied(rid, output) =>
      var saved := ImageUtil.ProcessImageOutputs(ImagesOf(Or0(output)), SaveOptionsFor(options, userMessage),
                                                 iso, imagesDir, mkdir, write);
      if saved.Err? then (ErrorPrefix + saved.error, NoExtras)
      else (ReplyContent(TextsOf(Or0(output)), saved.value), ExtrasFor(saved.value, rid))
  }

  /** The values stored under `keys`, in the order of the keys. */
  function ValuesAt(m: map<string, ChatSession>, keys: seq<string>): (r: seq<ChatSession>)
    requires forall i :: 0 <= i < |keys| ==> keys[i] in m
    ensures |r| == |keys|
    ensures forall i :: 0 <= i < |keys| ==> r[i] == m[keys[i]]
  {
    if |keys| == 0 then [] else [m[keys[0]]] + ValuesAt(m, keys[1..])
  }

  lemma AppendTwo(xs: seq<ChatMessage>, a: ChatMessage, b: ChatMessage)
    ensures xs + [a] + [b] == xs + [a, b]
  {
  }

  lemma UpdateTwice(m: map<string, ChatSession>, k: string, a: ChatSession, b: ChatSession)
    ensures m[k := a][k := b] == m[k := b]
  {
  }

  /** The ids are pairwise distinct and every session is stored under its own id. */
  ghost predicate WellKeyed(sessions: map<string, ChatSession>, order: seq<string>) {
    && NoDup(order)
    && (forall id :: id in sessions <==> id in order)
    && (forall id :: id in sessions ==> sessions[id].id == id)
  }

  /** A sequence without duplicates has as many distinct elements as it is long. */
  lemma {:induction false} NoDupCardinality(order: seq<string>)
    requires NoDup(order)
    ensures |set id | id in order| == |order|
  {
    if |order| > 0 {
      var init, last := order[..|order| - 1], order[|order| - 1];
      assert order == init + [last];
      assert NoDup(init);
      NoDupCardinality(init);
      assert (set id | id in order) == (set id | id in init) + {last};
      assert last !in init;
    }
  }

  /** The map holds exactly the keys the order lists. */
  lemma WellKeyedCardinality(sessions: map<string, ChatSession>, order: seq<string>)
    requires WellKeyed(sessions, order)
    ensures |sessions| == |order|
  {
    NoDupCardinality(order);
    assert sessions.Keys == set id | id in order;
  }

  class ChatService {
    var sessions: map<string, ChatSession>
    var order: seq<string>

    ghost predicate Valid()
      reads this
    {
      WellKeyed(sessions, order)
    }

    constructor()
      ensures Valid() && sessions == map[] && order == []
    {
      sessions := map[];
      order := [];
    }

    /** `createSession`: stores an empty session under `freshId` and returns it. A new id
        joins the end of the order; an id already present keeps its place and its session is
        replaced, as `Map.set` does. */
    method CreateSession(freshId: string, createdAt: string, updatedAt: string) returns (s: ChatSession)
      requires Valid()
      modifies this
      ensures Valid()
      ensures s == EmptySession(freshId, createdAt, updatedAt)
      ensures sessions == old(sessions)[freshId := s]
      ensures order == if freshId in old(sessions) then old(order) else old(order) + [freshId]
    {
      s := EmptySession(freshId, createdAt, updatedAt);
      if freshId !in sessions {
        order := order + [freshId];
      }
      sessions := sessions[freshId := s];
    }

    /** `getOrCreateSession`: the stored session for a non-empty known id, with nothing
        changed; otherwise a new session. */
    method GetOrCreateSession(sessionId: Option<string>, freshId: string, createdAt: string, updatedAt: string)
      returns (s: ChatSession)
      requires Valid()
      modifies this
      ensures Valid()
      ensures s == SessionFor(old(sessions), sessionId, freshId, createdAt, updatedAt)
      ensures Truthy(sessionId) && sessionId.value in old(sessions) ==>
        sessions == old(sessions) && order == old(order)
      ensures !(Truthy(sessionId) && sessionId.value in old(sessions)) ==>
        sessions == old(sessions)[freshId := s]
        && order == (if freshId in old(sessions) then old(order) else old(order) + [freshId])
    {
      if Truthy(sessionId) && sessionId.value in sessions {
        s := sessions[sessionId.value];
      } else {
        s := CreateSession(freshId, createdAt, updatedAt);
      }
    }

    /** `addMessage`: appends one message, stamped at `stampedAt`, to a known session and sets
        its update time to the later reading `updatedAt`; an unknown id throws
        `Session <id> not found` and changes nothing. */
    method AddMessage(sessionId: string, role: Role, content: string, extras: Extras, messageId: string,
                      stampedAt: string, updatedAt: string)
      returns (r: Result<ChatMessage>)
      requires Valid()
      modifies this
      ensures Valid() && order == old(order)
      ensures sessionId !in old(sessions) ==> r == Err("Session " + sessionId + " not found") && sessions == old(sessions)
      ensures sessionId in old(sessions) ==>
        && r == Ok(ChatMessage(messageId, role, content, stampedAt, extras))
        && sessions == old(sessions)[sessionId := old(sessions)[sessionId].(messages := old(sessions)[sessionId].messages + [r.value], updatedAt := updatedAt)]
    {
      if sessionId !in sessions {
        r := Err("Session " + sessionId + " not found");
        return;
      }
      var message := ChatMessage(messageId, role, content, stampedAt, extras);
      var session := sessions[sessionId];
      sessions := sessions[sessionId := session.(messages := session.messages + [message], updatedAt := updatedAt)];
      r := Ok(message);
    }

    /** `processMessage`: finds or creates the session, records the user's message, sends the
        request and records exactly one assistant message, on success and on failure alike.
        A reply moves the session's last response id to the reply's id before its image is
        saved; a thrown reply leaves it as it was. The `session` returned is the stored one. */
    method ProcessMessage(sessionId: Option<string>, userMessage: string, options: ChatOptions, ids: FreshIds,
                          clock: Readings, reply: ProviderReply, mkdir: Option<Thrown>, write: Option<Thrown>,
                          imagesDir: string)
      returns (request: ResponsesRequest, session: ChatSession, response: ChatMessage)
      requires Valid()
      modifies this
      ensures Valid()
      ensures var prior := SessionFor(old(sessions), sessionId, ids.session, clock.sessionCreated, clock.sessionUpdated);
        && request == RequestFor(prior.lastResponseId, userMessage, options)
        && session == ChatSession(prior.id, prior.messages + [ChatMessage(ids.userMessage, User, userMessage, clock.userStamped, NoExtras), response],
                                  prior.createdAt, clock.answerUpdated, if reply.Threw? then prior.lastResponseId else Some(reply.id))
        && sessions == old(sessions)[prior.id := session]
        && order == if prior.id in old(sessions) then old(order) else old(order) + [prior.id]
      ensures var a := AssistantReply(reply, options, userMessage, clock.imageNamed, imagesDir, mkdir, write);
        response == ChatMessage(ids.reply, Assistant, a.0, clock.answerStamped, a.1)
    {
      session := GetOrCreateSession(sessionId, ids.session, clock.sessionCreated, clock.sessionUpdated);
      ghost var prior := session;
      var id := session.id;
      assert sessions == old(sessions)[id := prior];
      var userMessageRecord := ChatMessage(ids.userMessage, User, userMessage, clock.userStamped, NoExtras);
      var userAdded := AddMessage(id, User, userMessage, NoExtras, ids.userMessage, clock.userStamped, clock.userUpdated);
      ghost var withUser := prior.(messages := prior.messages + [userMessageRecord], updatedAt := clock.userUpdated);
      UpdateTwice(old(sessions), id, prior, withUser);
      request := RequestFor(session.lastResponseId, userMessage, options);
      var content, extras := HandleReply(id, reply, options, userMessage, clock.replyRecorded, clock.imageNamed,
                                         imagesDir, mkdir, write);
      ghost var answered := if reply.Threw? then withUser
                            else withUser.(lastResponseId := Some(reply.id), updatedAt := clock.replyRecorded);
      UpdateTwice(old(sessions), id, withUser, answered);
      var added := AddMessage(id, Assistant, content, extras, ids.reply, clock.answerStamped, clock.answerUpdated);
      response := added.value;
      UpdateTwice(old(sessions), id, answered, answered.(messages := answered.messages + [response], updatedAt := clock.answerUpdated));
      session := sessions[id];
      AppendTwo(prior.messages, userMessageRecord, response);
    }

    /** The `try` block of `processMessage` after the request: a reply is recorded at
        `recordedAt`, its image items are handed to `processImageOutputs`, and the assistant's
        text is chosen; a thrown reply, or a failed image save, ends in the apology instead. */
    method HandleReply(id: string, reply: ProviderReply, options: ChatOptions, userMessage: string,
                       recordedAt: string, iso: string, imagesDir: string, mkdir: Option<Thrown>, write: Option<Thrown>)
      returns (content: string, extras: Extras)
      requires Valid() && id in sessions
      modifies this
      ensures Valid() && order == old(order)
      ensures reply.Threw? ==> sessions == old(sessions)
      ensures reply.Replied? ==>
        sessions == old(sessions)[id := old(sessions)[id].(lastResponseId := Some(reply.id), updatedAt := recordedAt)]
      ensures (content, extras) == AssistantReply(reply, options, userMessage, iso, imagesDir, mkdir, write)
    {
      // The image is processed only when the reply holds image items; with none,
      // `processImageOutputs` on the empty list would give the same null result.
      extras := NoExtras;
      match reply {
        case Threw(e) =>
          content := ErrorPrefix + MessageOf(e);
        case Replied(rid, output) =>
          RecordResponse(id, rid, recordedAt);
          var items := Or0(output);
          var images := ImagesOf(items);
          var saved: Result<Option<ImageUtil.ImageSaveResult>> := Ok(None);
          if |images| > 0 {
            saved := ImageUtil.ProcessImageOutputs(images, SaveOptionsFor(options, userMessage), iso, imagesDir,
                                                   mkdir, write);
          }
          if saved.Err? {
            content := ErrorPrefix + saved.error;
          } else {
            content := ReplyContent(TextsOf(items), saved.value);
            extras := ExtrasFor(saved.value, rid);
          }
      }
    }

    /** The update made once the provider has answered: the session's last response id becomes
        the reply's id and its update time moves to `now`. */
    method RecordResponse(id: string, responseId: string, now: string)
      requires Valid() && id in sessions
      modifies this
      ensures Valid() && order == old(order)
      ensures sessions == old(sessions)[id := old(sessions)[id].(lastResponseId := Some(responseId), updatedAt := now)]
    {
      var current := sessions[id];
      sessions := sessions[id := current.(lastResponseId := Some(responseId), updatedAt := now)];
    }

    /** `getSession`: the stored session, or none for an unknown id. */
    function GetSession(sessionId: string): (r: Option<ChatSession>)
      reads this
      ensures r.Some? <==> sessionId in sessions
      ensures r.Some? ==> r.value == sessions[sessionId]
    {
      if sessionId in sessions then Some(sessions[sessionId]) else None
    }

    /** `getAllSessions`: every stored session once, in the order their ids were first stored. */
    function GetAllSessions(): (r: seq<ChatSession>)
      reads this
      requires Valid()
      ensures |r| == |sessions| && |r| == |order|
      ensures forall i :: 0 <= i < |order| ==> order[i] in sessions && r[i] == sessions[order[i]]
      ensures forall id :: id in sessions ==> sessions[id] in r
    {
      WellKeyedCardinality(sessions, order);
      var r := ValuesAt(sessions, order);
      assert forall id :: id in sessions ==> sessions[id] in r by {
        forall id | id in sessions ensures sessions[id] in r {
          var i :| 0 <= i < |order| && order[i] == id;
          assert r[i] == sessions[id];
        }
      }
      r
    }
  }

  /** `response.output || []`. */
  function Or0(output: Option<seq<OutputItem>>): (items: seq<OutputItem>)
    ensures output.Some? ==> items == output.value
    ensures output.None? ==> items == []
  {
    if output.Some? then output.value else []
  }

  /** The fields of the assistant message after a successful reply: the saved image's link and
      name when there is one, and always the reply's id. */
  function ExtrasFor(saved: Option<ImageUtil.ImageSaveResult>, responseId: string): (e: Extras)
    ensures e.responseId == Some(responseId)
    ensures saved.Some? ==> e.localImageUrl == Some(saved.value.localImageUrl) && e.filename == Some(saved.value.filename)
    ensures saved.None? ==> e.localImageUrl == None && e.filename == None
  {
    if saved.Some? then Extras(Some(saved.value.localImageUrl), Some(saved.value.filename), Some(responseId))
    else Extras(None, None, Some(responseId))
  }
}
