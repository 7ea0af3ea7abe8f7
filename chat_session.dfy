/**
 * The chat window's conversation state (`ChatModal`): the session id drawn
 * from a UUID-shaped template, the welcome message, the user's message and
 * the bot placeholder a send adds, the reducer that folds streamed records
 * into the placeholder, and the completion, error and reset paths.
 *
 * Clock readings (`Date.now()`) and random draws (`Math.random()`) are
 * parameters. A message id is the decimal text of a clock reading, or the
 * literal 'welcome'; `MsgId` keeps the reading itself, which is the same
 * thing since decimal text is injective (`Text.DecimalInjective`).
 */
module ChatSession {
  import opened Wrappers
  import opened Text
  import opened ChatTypes

  datatype Sender = User | Bot

  /** The `type` of a chat message. */
  datatype MessageType = TalkMessage | RecommendMessage | HomeWorkoutMessage

  /** A message id: 'welcome', or the decimal text of a millisecond clock reading. */
  datatype MsgId = Welcome | Clock(ms: nat)

  /** One bubble of the conversation; `None` is an absent optional field. */
  datatype Message = Message(
    id: MsgId,
    sender: Sender,
    kind: MessageType,
    content: string,
    vouchers: Option<seq<Voucher>>,
    videos: Option<seq<Video>>,
    isStreaming: Option<bool>)

  /** What the chat request carries (the optional coordinates are not modelled). */
  datatype ChatRequest = ChatRequest(sessionId: string, userMessage: string, memberId: Option<int>)

  const WelcomeText: string := "안녕하세요! 무엇을 도와드릴까요?"
  const ResetText: string := "대화가 초기화되었습니다. 무엇을 도와드릴까요?"
  const ErrorText: string := "죄송합니다. 오류가 발생했습니다."

  /** The session id template; every 'x' and 'y' is replaced by one hexadecimal digit. */
  const SessionTemplate: string := "xxxxxxxx-xxxx-4xxx-yxxx-xxxxxxxxxxxx"

  function BotTalk(id: MsgId, text: string): Message {
    Message(id, Bot, TalkMessage, text, None, None, None)
  }

  // ---------------------------------------------------------------------------
  // Session id

  predicate IsLowerHex(c: char) {
    '0' <= c <= '9' || 'a' <= c <= 'f'
  }

  /** `v.toString(16)` for one digit. */
  function HexDigit(v: nat): (c: char)
    requires v < 16
    ensures IsLowerHex(c)
  {
    if v < 10 then '0' + v as char else 'a' + (v - 10) as char
  }

  /**
   * The character a template position becomes for the random draw `r` in
   * 0..15 made there: an 'x' becomes `r`, a 'y' becomes `(r & 0x3) | 0x8`,
   * which is `r % 4 + 8`, and any other character stays.
   */
  function FillChar(t: char, r: nat): char
    requires r < 16
  {
    if t == 'x' then HexDigit(r)
    else if t == 'y' then HexDigit(r % 4 + 8)
    else t
  }

  /** What a template position admits: a hex digit at 'x', one of "89ab" at 'y', itself elsewhere. */
  predicate Conforms(t: char, c: char) {
    if t == 'x' then IsLowerHex(c)
    else if t == 'y' then c in "89ab"
    else c == t
  }

  lemma FillCharConforms(t: char, r: nat)
    requires r < 16
    ensures Conforms(t, FillChar(t, r))
  {
    if t == 'y' {
      var v := r % 4 + 8;
      if v == 8 { assert HexDigit(v) == "89ab"[0]; }
      else if v == 9 { assert HexDigit(v) == "89ab"[1]; }
      else if v == 10 { assert HexDigit(v) == "89ab"[2]; }
      else { assert HexDigit(v) == "89ab"[3]; }
    }
  }

  /**
   * `generateSessionId`: the template with every placeholder replaced.
   * `draws[i]` is the value of `Math.random() * 16 | 0` drawn at position
   * `i`; draws at the fixed characters are not used.
   */
  function GenerateSessionId(draws: seq<nat>): (id: string)
    requires |draws| == |SessionTemplate|
    requires forall k :: 0 <= k < |draws| ==> draws[k] < 16
    ensures |id| == |SessionTemplate|
  {
    seq(|SessionTemplate|, i requires 0 <= i < |SessionTemplate| => FillChar(SessionTemplate[i], draws[i]))
  }

  /** A version-4 UUID in lowercase: the template's shape, position by position. */
  predicate IsSessionId(s: string) {
    |s| == |SessionTemplate| && forall i :: 0 <= i < |s| ==> Conforms(SessionTemplate[i], s[i])
  }

  /**
   * Every session id `generateSessionId` can produce is 36 characters with
   * hyphens at 8, 13, 18 and 23, the version digit '4' at 14, one of '8',
   * '9', 'a', 'b' at 19 and a lowercase hex digit everywhere else.
   */
  lemma SessionIdFormat(draws: seq<nat>)
    requires |draws| == |SessionTemplate|
    requires forall k :: 0 <= k < |draws| ==> draws[k] < 16
    ensures var s := GenerateSessionId(draws);
      && IsSessionId(s)
      && |s| == 36
      && s[8] == '-' && s[13] == '-' && s[18] == '-' && s[23] == '-'
      && s[14] == '4' && s[19] in "89ab"
  {
    var s := GenerateSessionId(draws);
    forall i | 0 <= i < |s|
      ensures Conforms(SessionTemplate[i], s[i])
    {
      FillCharConforms(SessionTemplate[i], draws[i]);
    }
    var t := SessionTemplate;
    assert t[8] == '-' && t[13] == '-' && t[18] == '-' && t[23] == '-' && t[14] == '4' && t[19] == 'y';
    assert Conforms(t[19], s[19]);
  }

  // ---------------------------------------------------------------------------
  // The message list reducers

  /**
   * The `onChunk` reducer: a record updates the last message only when that
   * message is the placeholder `botId`. A talk record appends its text and
   * marks the message streaming; a recommendation or home-workout record
   * replaces the text, attaches its list and ends streaming. A record of any
   * other type leaves the list as it is.
   */
  function ApplyChunk(msgs: seq<Message>, botId: MsgId, c: ChatResponse): (r: seq<Message>)
    ensures |r| == |msgs|
    ensures forall i :: 0 <= i < |msgs| - 1 ==> r[i] == msgs[i]
    ensures msgs == [] || msgs[|msgs| - 1].id != botId ==> r == msgs
    ensures r != [] ==> r[|r| - 1].id == msgs[|msgs| - 1].id && r[|r| - 1].sender == msgs[|msgs| - 1].sender
    ensures msgs != [] && msgs[|msgs| - 1].id == botId ==>
      var last := msgs[|msgs| - 1];
      var next := r[|r| - 1];
      match c
      case Talk(chunk) =>
        && next.kind == TalkMessage && next.content == last.content + chunk && next.isStreaming == Some(true)
        && next.vouchers == last.vouchers && next.videos == last.videos
      case Recommend(message, vs) =>
        && next.kind == RecommendMessage && next.content == message && next.isStreaming == Some(false)
        && next.vouchers == Some(vs) && next.videos == last.videos
      case HomeWorkout(message, videos) =>
        && next.kind == HomeWorkoutMessage && next.content == message && next.isStreaming == Some(false)
        && next.videos == Some(videos) && next.vouchers == last.vouchers
      case Unrecognised => r == msgs
  {
    if msgs == [] then msgs
    else
      var last := msgs[|msgs| - 1];
      if last.id != botId then msgs
      else match c
        case Talk(chunk) =>
          msgs[|msgs| - 1 := last.(kind := TalkMessage, content := last.content + chunk, isStreaming := Some(true))]
        case Recommend(message, vouchers) =>
          msgs[|msgs| - 1 := last.(kind := RecommendMessage, content := message, vouchers := Some(vouchers), isStreaming := Some(false))]
        case HomeWorkout(message, videos) =>
          msgs[|msgs| - 1 := last.(kind := HomeWorkoutMessage, content := message, videos := Some(videos), isStreaming := Some(false))]
        case Unrecognised => msgs
  }

  /**
   * The reducer applied to a run of records, first to last: only the last
   * message can change, and it keeps its id.
   */
  function ApplyChunks(msgs: seq<Message>, botId: MsgId, cs: seq<ChatResponse>): (r: seq<Message>)
    ensures |r| == |msgs|
    ensures msgs != [] ==> r[..|r| - 1] == msgs[..|msgs| - 1] && r[|r| - 1].id == msgs[|msgs| - 1].id
    decreases |cs|
  {
    if cs == [] then msgs
    else
      var m := ApplyChunk(msgs, botId, cs[0]);
      assert msgs != [] ==> m[..|m| - 1] == msgs[..|msgs| - 1];
      ApplyChunks(m, botId, cs[1..])
  }

  /** Applying a run and then one more record is applying the longer run. */
  lemma {:induction false} ApplyChunksSnoc(msgs: seq<Message>, botId: MsgId, cs: seq<ChatResponse>, c: ChatResponse)
    ensures ApplyChunks(msgs, botId, cs + [c]) == ApplyChunk(ApplyChunks(msgs, botId, cs), botId, c)
    decreases |cs|
  {
    if cs == [] {
      assert [c][1..] == [];
    } else {
      assert (cs + [c])[0] == cs[0] && (cs + [c])[1..] == cs[1..] + [c];
      ApplyChunksSnoc(ApplyChunk(msgs, botId, cs[0]), botId, cs[1..], c);
    }
  }

  /**
   * A recommendation or home-workout record replaces whatever the records
   * before it streamed into the placeholder: its message becomes the text,
   * its list is attached and streaming ends; earlier messages stay as they were.
   */
  lemma FinalRecordReplaces(msgs: seq<Message>, botId: MsgId, cs: seq<ChatResponse>, c: ChatResponse)
    requires msgs != [] && msgs[|msgs| - 1].id == botId
    requires c.Recommend? || c.HomeWorkout?
    ensures var r := ApplyChunks(msgs, botId, cs + [c]);
      && |r| == |msgs|
      && r[..|r| - 1] == msgs[..|msgs| - 1]
      && r[|r| - 1].id == botId
      && r[|r| - 1].content == c.message
      && r[|r| - 1].isStreaming == Some(false)
      && (c.Recommend? ==> r[|r| - 1].kind == RecommendMessage && r[|r| - 1].vouchers == Some(c.vouchers))
      && (c.HomeWorkout? ==> r[|r| - 1].kind == HomeWorkoutMessage && r[|r| - 1].videos == Some(c.videos))
  {
    ApplyChunksSnoc(msgs, botId, cs, c);
    var before := ApplyChunks(msgs, botId, cs);
    var r := ApplyChunk(before, botId, c);
    assert r[..|r| - 1] == before[..|before| - 1];
  }

  /** The `onComplete` reducer: the placeholder, if still last, stops streaming. */
  function CompleteLast(msgs: seq<Message>, botId: MsgId): (r: seq<Message>)
    requires msgs != []
    ensures |r| == |msgs| && r[..|r| - 1] == msgs[..|msgs| - 1]
    ensures r[|r| - 1].isStreaming == (if msgs[|msgs| - 1].id == botId then Some(false) else msgs[|msgs| - 1].isStreaming)
    ensures r[|r| - 1].(isStreaming := msgs[|msgs| - 1].isStreaming) == msgs[|msgs| - 1]
  {
    var last := msgs[|msgs| - 1];
    if last.id == botId then msgs[|msgs| - 1 := last.(isStreaming := Some(false))] else msgs
  }

  /** The `onError` reducer: an apology from the bot is appended. */
  function AppendError(msgs: seq<Message>, now: nat): (r: seq<Message>)
    ensures |r| == |msgs| + 1 && r[..|msgs|] == msgs
    ensures r[|msgs|].sender == Bot && r[|msgs|].content == ErrorText
  {
    msgs + [BotTalk(Clock(now), ErrorText)]
  }

  /** The text of the talk records of a run, concatenated. */
  function TalkText(cs: seq<ChatResponse>): string {
    if cs == [] then [] else (if cs[0].Talk? then cs[0].chunk else []) + TalkText(cs[1..])
  }

  /**
   * A run of talk records streams into the placeholder: its text becomes
   * the placeholder's text followed by every chunk in order, it stays a
   * talk message still streaming, and every earlier message is untouched.
   */
  lemma {:induction false} TalkStreamConcatenates(msgs: seq<Message>, botId: MsgId, cs: seq<ChatResponse>)
    requires msgs != [] && msgs[|msgs| - 1].id == botId
    requires forall k :: 0 <= k < |cs| ==> cs[k].Talk?
    ensures var r := ApplyChunks(msgs, botId, cs);
      && |r| == |msgs|
      && r[..|r| - 1] == msgs[..|msgs| - 1]
      && r[|r| - 1].id == botId
      && r[|r| - 1].content == msgs[|msgs| - 1].content + TalkText(cs)
      && (cs != [] ==> r[|r| - 1].kind == TalkMessage && r[|r| - 1].isStreaming == Some(true))
    decreases |cs|
  {
    var n := |msgs| - 1;
    if cs == [] {
      assert msgs[n].content + TalkText(cs) == msgs[n].content;
    } else {
      var m := ApplyChunk(msgs, botId, cs[0]);
      assert m[..n] == msgs[..n];
      assert m[n].content == msgs[n].content + cs[0].chunk;
      TalkStreamConcatenates(m, botId, cs[1..]);
      var r := ApplyChunks(m, botId, cs[1..]);
      assert r[n].content == (msgs[n].content + cs[0].chunk) + TalkText(cs[1..]);
      assert TalkText(cs) == cs[0].chunk + TalkText(cs[1..]);
      if cs[1..] == [] {
        assert r == m;
      }
    }
  }

  /** Once the placeholder is no longer the last message, records change nothing. */
  lemma {:induction false} StaleChunksIgnored(msgs: seq<Message>, botId: MsgId, cs: seq<ChatResponse>)
    requires msgs == [] || msgs[|msgs| - 1].id != botId
    ensures ApplyChunks(msgs, botId, cs) == msgs
    decreases |cs|
  {
    if cs != [] {
      StaleChunksIgnored(ApplyChunk(msgs, botId, cs[0]), botId, cs[1..]);
    }
  }

  /**
   * A talk record after a recommendation appends to the recommendation's
   * text, turns the message back into a streaming talk message and keeps
   * the vouchers the recommendation attached.
   */
  lemma TalkAfterRecommend(msgs: seq<Message>, botId: MsgId, message: string, vs: seq<Voucher>, chunk: string)
    requires msgs != [] && msgs[|msgs| - 1].id == botId
    ensures var r := ApplyChunks(msgs, botId, [Recommend(message, vs), Talk(chunk)]);
      && |r| == |msgs|
      && r[|r| - 1].content == message + chunk
      && r[|r| - 1].kind == TalkMessage
      && r[|r| - 1].vouchers == Some(vs)
      && r[|r| - 1].isStreaming == Some(true)
  {
    var m := ApplyChunk(msgs, botId, Recommend(message, vs));
    var cs := [Recommend(message, vs), Talk(chunk)];
    assert cs[1..] == [Talk(chunk)];
    assert [Talk(chunk)][1..] == [];
    assert ApplyChunks(msgs, botId, cs) == ApplyChunks(m, botId, [Talk(chunk)]);
    assert ApplyChunks(m, botId, [Talk(chunk)]) == ApplyChunks(ApplyChunk(m, botId, Talk(chunk)), botId, []);
  }

  // ---------------------------------------------------------------------------
  // The component state

  /** The state `ChatModal` keeps across renders. */
  class ChatModal {
    var messages: seq<Message>
    var sessionId: string
    var isLoading: bool

    /** A send in progress has its placeholder in the list; a set session id has its UUID shape. */
    predicate Valid()
      reads this
    {
      && (isLoading ==> messages != [])
      && (sessionId == [] || IsSessionId(sessionId))
    }

    /** The initial state: no messages, no session id, not loading. */
    constructor ()
      ensures Valid()
      ensures messages == [] && sessionId == [] && !isLoading
    {
      messages := [];
      sessionId := [];
      isLoading := false;
    }

    /** The open effect: an open window without a session id gets one and the welcome message. */
    method OpenEffect(isOpen: bool, draws: seq<nat>)
      requires Valid()
      requires |draws| == |SessionTemplate| && forall k :: 0 <= k < |draws| ==> draws[k] < 16
      modifies this
      ensures Valid()
      ensures isLoading == old(isLoading)
      ensures if isOpen && old(sessionId) == [] then
          sessionId == GenerateSessionId(draws) && messages == [BotTalk(Welcome, WelcomeText)]
        else sessionId == old(sessionId) && messages == old(messages)
    {
      if isOpen && sessionId == [] {
        SessionIdFormat(draws);
        sessionId := GenerateSessionId(draws);
        messages := [BotTalk(Welcome, WelcomeText)];
      }
    }

    /**
     * `handleSend`: blank text or a send in progress is ignored. Otherwise
     * the user's message (id `now`) and an empty streaming placeholder (id
     * `later + 1`, `later` being the second clock reading) are appended and
     * the request to send is returned with the placeholder's id.
     */
    method Send(text: string, memberId: Option<int>, now: nat, later: nat)
      returns (request: Option<(ChatRequest, MsgId)>)
      requires Valid()
      modifies this
      ensures Valid()
      ensures sessionId == old(sessionId)
      ensures request.None? <==> IsBlank(text) || old(isLoading)
      ensures request.None? ==> messages == old(messages) && isLoading == old(isLoading)
      ensures request.Some? ==>
        && request.value == (ChatRequest(sessionId, text, memberId), Clock(later + 1))
        && messages == old(messages) + [
             Message(Clock(now), User, TalkMessage, text, None, None, None),
             Message(Clock(later + 1), Bot, TalkMessage, "", None, None, Some(true))]
        && isLoading
    {
      var blank := TrimsToEmpty(text);
      if blank || isLoading {
        return None;
      }
      var userMsg := Message(Clock(now), User, TalkMessage, text, None, None, None);
      messages := messages + [userMsg];
      isLoading := true;
      var botMsgId := Clock(later + 1);
      messages := messages + [Message(botMsgId, Bot, TalkMessage, "", None, None, Some(true))];
      request := Some((ChatRequest(sessionId, text, memberId), botMsgId));
    }

    /** `onChunk` of the send whose placeholder is `botId`. */
    method OnChunk(botId: MsgId, c: ChatResponse)
      requires Valid()
      modifies this
      ensures Valid()
      ensures messages == ApplyChunk(old(messages), botId, c)
      ensures sessionId == old(sessionId) && isLoading == old(isLoading)
    {
      messages := ApplyChunk(messages, botId, c);
    }

    /**
     * `onComplete`: loading ends and the placeholder, if still last, stops
     * streaming. The list is never empty here: the source reads the last
     * element's id without a guard.
     */
    method OnComplete(botId: MsgId)
      requires Valid() && messages != []
      modifies this
      ensures Valid()
      ensures messages == CompleteLast(old(messages), botId)
      ensures !isLoading && sessionId == old(sessionId)
    {
      messages := CompleteLast(messages, botId);
      isLoading := false;
    }

    /** `onError`: loading ends and the apology is appended with id `now`. */
    method OnError(now: nat)
      requires Valid()
      modifies this
      ensures Valid()
      ensures messages == AppendError(old(messages), now)
      ensures !isLoading && sessionId == old(sessionId)
    {
      isLoading := false;
      messages := AppendError(messages, now);
    }

    /**
     * `handleReset`: the server session is reset first when there is one
     * (its failure is only logged), then the list restarts with the reset
     * greeting and a new session id is drawn. Loading is left as it is.
     */
    method Reset(draws: seq<nat>) returns (resetRequested: Option<string>)
      requires Valid()
      requires |draws| == |SessionTemplate| && forall k :: 0 <= k < |draws| ==> draws[k] < 16
      modifies this
      ensures Valid()
      ensures resetRequested == if old(sessionId) == [] then None else Some(old(sessionId))
      ensures messages == [BotTalk(Welcome, ResetText)]
      ensures sessionId == GenerateSessionId(draws) && isLoading == old(isLoading)
    {
      resetRequested := if sessionId == [] then None else Some(sessionId);
      messages := [BotTalk(Welcome, ResetText)];
      SessionIdFormat(draws);
      sessionId := GenerateSessionId(draws);
    }
  }
}
