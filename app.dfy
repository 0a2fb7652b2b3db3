/**
 * The conversation controller of App.tsx: the message log, the input field,
 * the reply suggestions and the typing indicator, with the steps that change
 * them, and the pure helpers those steps use.
 *
 * `handleSend` is asynchronous: the model splits it into the step before the
 * webhook call (`BeginSend`) and the two ways the call can settle
 * (`CompleteWithReply`, `CompleteWithError`). The `isLast` effect is the
 * separate step `SyncLastFlag`, which React runs after every change of the
 * log's length. Fresh uuid values and the clock are parameters.
 */
module App {
  import opened Wrappers
  import opened Types
  import JsString

  const GreetingId: string := "1"
  const GreetingText: string :=
    "Hello. I am Truvium, your corporate assistant. How may I help you with your tasks today?"
  const ConnectionErrorText: string :=
    "I'm having trouble connecting to the Truvium server. Please try again later."
  /** How many of the latest messages are sent as context for suggestions. */
  const HistoryWindow: nat := 5
  const DefaultRole: string := "Employee"
  const FallbackName: string := "User"
  const AvatarBase: string := "https://ui-avatars.com/api/?name="
  const AvatarStyle: string := "&background=7c3aed&color=fff"

  function Min(a: int, b: int): int { if a < b then a else b }

  // ---------------------------------------------------------------------------
  // Session user to app user (mapSessionToUser)

  /** The identity provider's user: `email` and `user_metadata.full_name` may be missing. */
  datatype SessionUser = SessionUser(id: string, email: Option<string>, fullName: Option<string>)

  /** `user_metadata?.full_name` is truthy. */
  predicate HasFullName(su: SessionUser)
  {
    su.fullName.Some? && su.fullName.value != ""
  }

  /** `full_name || email?.split('@')[0] || 'User'`: the full name when it is
      non-empty, else the non-empty part of the email before its first `@`,
      else "User". */
  function DisplayName(su: SessionUser): (name: string)
    ensures name != ""
    ensures HasFullName(su) ==> name == su.fullName.value
    ensures !HasFullName(su) && su.email.Some? && su.email.value != [] && su.email.value[0] != '@' ==>
              && name <= su.email.value
              && '@' !in name
              && (|name| == |su.email.value| || su.email.value[|name|] == '@')
    ensures !HasFullName(su) && (su.email.None? || su.email.value == [] || su.email.value[0] == '@') ==>
              name == FallbackName
  {
    if HasFullName(su) then su.fullName.value
    else if su.email.Some? && JsString.PrefixBefore(su.email.value, '@') != "" then
      JsString.PrefixBefore(su.email.value, '@')
    else FallbackName
  }

  /** The text `${full_name || email}` interpolates: a missing email prints as "undefined". */
  function AvatarName(su: SessionUser): (seed: string)
    ensures HasFullName(su) ==> seed == DisplayName(su)
    ensures !HasFullName(su) && su.email.Some? ==> seed == su.email.value
    ensures !HasFullName(su) && su.email.None? ==> seed == "undefined"
  {
    if HasFullName(su) then su.fullName.value
    else if su.email.Some? then su.email.value
    else "undefined"
  }

  /** `mapSessionToUser`: the app's user record for a session user. */
  function MapSessionToUser(su: SessionUser): (u: User)
    ensures u.id == su.id
    ensures u.email == (if su.email.Some? then su.email.value else "")
    ensures u.name == DisplayName(su) && u.name != ""
    ensures u.role == DefaultRole && u.status == Online
    ensures u.avatar == AvatarBase + AvatarName(su) + AvatarStyle
  {
    User(su.id, DisplayName(su),
         if su.email.Some? then su.email.value else "",
         AvatarBase + AvatarName(su) + AvatarStyle,
         Online, DefaultRole)
  }

  // ---------------------------------------------------------------------------
  // The log and its isLast flags

  /** The greeting the log starts with and is reset to on logout. */
  function Greeting(now: int): Message
  {
    Message(GreetingId, GreetingText, FromAgent, now, None, true)
  }

  /** A message with its flag ignored. */
  function Unflagged(m: Message): Message
  {
    m.(isLast := false)
  }

  /** Two logs hold the same messages in the same order, flags aside. */
  ghost predicate SameEntries(a: seq<Message>, b: seq<Message>)
  {
    |a| == |b| && forall i :: 0 <= i < |a| ==> Unflagged(a[i]) == Unflagged(b[i])
  }

  /** `prev.map(m => ({ ...m, isLast: false }))`. */
  function ClearFlags(ms: seq<Message>): (r: seq<Message>)
    ensures SameEntries(r, ms)
    ensures forall i :: 0 <= i < |r| ==> !r[i].isLast
  {
    seq(|ms|, i requires 0 <= i < |ms| => ms[i].(isLast := false))
  }

  /** `messages.map((msg, index) => ({ ...msg, isLast: index === messages.length - 1 }))`. */
  function FlagTail(ms: seq<Message>): (r: seq<Message>)
    ensures SameEntries(r, ms)
    ensures forall i :: 0 <= i < |r| ==> (r[i].isLast <==> i == |r| - 1)
  {
    seq(|ms|, i requires 0 <= i < |ms| => ms[i].(isLast := i == |ms| - 1))
  }

  /** No message of the log carries `id`. */
  ghost predicate FreshId(ms: seq<Message>, id: string)
  {
    forall i :: 0 <= i < |ms| ==> ms[i].id != id
  }

  ghost predicate DistinctIds(ms: seq<Message>)
  {
    forall i, j :: 0 <= i < j < |ms| ==> ms[i].id != ms[j].id
  }

  /** No user turn comes after a flagged message: a user turn always clears
      every flag before it. (Several messages may be flagged at once.) */
  ghost predicate NoUserTurnAfterFlag(ms: seq<Message>)
  {
    forall i, j :: 0 <= i < j < |ms| && ms[i].isLast ==> ms[j].sender != FromUser
  }

  /** The controller's invariant on its log: never empty, ids not reused, no
      user turn after a flagged message. */
  ghost predicate WellFormedLog(ms: seq<Message>)
  {
    |ms| > 0 && DistinctIds(ms) && NoUserTurnAfterFlag(ms)
  }

  /** A user turn with a fresh id, appended after clearing the flags, keeps the log well formed. */
  lemma UserTurnKeepsLogWellFormed(ms: seq<Message>, userMsg: Message)
    requires DistinctIds(ms) && FreshId(ms, userMsg.id) && userMsg.sender == FromUser
    ensures WellFormedLog(ClearFlags(ms) + [userMsg])
  {
  }

  /** Flagging the tail keeps the log well formed. */
  lemma FlagTailKeepsLogWellFormed(ms: seq<Message>)
    requires WellFormedLog(ms)
    ensures WellFormedLog(FlagTail(ms))
  {
  }

  /** An agent or system turn with a fresh id keeps the log well formed. */
  lemma ReplyKeepsLogWellFormed(ms: seq<Message>, reply: Message)
    requires WellFormedLog(ms) && FreshId(ms, reply.id) && reply.sender != FromUser
    ensures WellFormedLog(ms + [reply])
  {
  }

  /** Appending a user turn to a log whose flags were all cleared clears every
      earlier flag and keeps the earlier messages in place. */
  lemma UserAppendClearsFlags(ms: seq<Message>, userMsg: Message)
    requires userMsg.sender == FromUser
    ensures var r := ClearFlags(ms) + [userMsg];
            && |r| == |ms| + 1 && r[|ms|] == userMsg
            && (forall i :: 0 <= i < |ms| ==> !r[i].isLast && Unflagged(r[i]) == Unflagged(ms[i]))
            && NoUserTurnAfterFlag(r)
  {
  }

  // ---------------------------------------------------------------------------
  // Suggestion context (generateSuggestions)

  /** `${m.sender}: ${m.text}`. */
  function FormatLine(m: Message): string
  {
    SenderName(m.sender) + ": " + m.text
  }

  /** Renders every message of a log, in order. */
  function FormatAll(ms: seq<Message>): (lines: seq<string>)
    ensures |lines| == |ms|
    ensures forall i :: 0 <= i < |ms| ==> lines[i] == FormatLine(ms[i])
  {
    if ms == [] then [] else [FormatLine(ms[0])] + FormatAll(ms[1..])
  }

  /** `historyMsg.slice(-5)`: the last (at most) five messages, oldest first. */
  function ContextWindow(history: seq<Message>): (w: seq<Message>)
    ensures |w| == Min(HistoryWindow, |history|)
    ensures w == history[|history| - |w|..]
  {
    if |history| > HistoryWindow then history[|history| - HistoryWindow..] else history
  }

  /** `historyMsg.slice(-5).map(m => `${m.sender}: ${m.text}`)`: one line per
      message of the window, in order. */
  function HistoryLines(history: seq<Message>): (lines: seq<string>)
    ensures |lines| == Min(HistoryWindow, |history|)
    ensures forall i :: 0 <= i < |lines| ==> lines[i] == FormatLine(history[|history| - |lines| + i])
  {
    FormatAll(ContextWindow(history))
  }

  /** The window sent after a reply is the latest (at most three) messages of
      the log before the send, then the user's turn, then the agent's reply. */
  lemma SuggestionContext(before: seq<Message>, userMsg: Message, agentMsg: Message)
    ensures ContextWindow(before + [userMsg, agentMsg])
            == before[|before| - Min(HistoryWindow - 2, |before|)..] + [userMsg, agentMsg]
  {
  }

  // ---------------------------------------------------------------------------
  // Voice input (recognition.onresult)

  /** One entry of the recognition event's result list: whether it is final
      and the transcript of its first alternative. */
  datatype SpeechResult = SpeechResult(isFinal: bool, transcript: string)

  /** The transcripts of the final results, concatenated in order. */
  function FinalText(rs: seq<SpeechResult>): (text: string)
    ensures (forall i :: 0 <= i < |rs| ==> !rs[i].isFinal) ==> text == ""
  {
    if rs == [] then ""
    else FinalText(rs[..|rs| - 1]) + (if rs[|rs| - 1].isFinal then rs[|rs| - 1].transcript else "")
  }

  /** Results split anywhere contribute their final text piece by piece. */
  lemma {:induction false} FinalTextConcat(a: seq<SpeechResult>, b: seq<SpeechResult>)
    ensures FinalText(a + b) == FinalText(a) + FinalText(b)
    decreases |b|
  {
    if b == [] {
      assert a + b == a;
    } else {
      var front := b[..|b| - 1];
      assert (a + b)[..|a + b| - 1] == a + front;
      assert (a + b)[|a + b| - 1] == b[|b| - 1];
      FinalTextConcat(a, front);
    }
  }

  /** Interim results never contribute: two result lists that agree on which
      entries are final, and on the transcripts of those, give the same text. */
  lemma {:induction false} FinalTextIgnoresInterim(a: seq<SpeechResult>, b: seq<SpeechResult>)
    requires |a| == |b|
    requires forall i :: 0 <= i < |a| ==> a[i].isFinal == b[i].isFinal
    requires forall i :: 0 <= i < |a| && a[i].isFinal ==> a[i].transcript == b[i].transcript
    ensures FinalText(a) == FinalText(b)
  {
    if a != [] {
      FinalTextIgnoresInterim(a[..|a| - 1], b[..|b| - 1]);
    }
  }

  /** The `for` loop of `onresult`: the final transcripts from `resultIndex` on. */
  method FinalTranscript(results: seq<SpeechResult>, resultIndex: nat) returns (t: string)
    ensures t == FinalText(results[Min(resultIndex, |results|)..])
  {
    var start := Min(resultIndex, |results|);
    t := "";
    var i := resultIndex;
    while i < |results|
      invariant start <= i && (i <= |results| || i == resultIndex)
      invariant t == FinalText(results[start..Min(i, |results|)])
    {
      assert results[start..i + 1][..i - start] == results[start..i];
      if results[i].isFinal {
        t := t + results[i].transcript;
      }
      i := i + 1;
    }
    assert results[start..Min(i, |results|)] == results[start..];
  }

  /** The text put between the current input and a new transcript. */
  function Spacer(prev: string): string
  {
    if |prev| > 0 && !JsString.EndsWith(prev, ' ') then " " else ""
  }

  /** `prev + spacer + finalTranscript`: the input keeps its text, the
      transcript is added at the end, and one space is put between them
      exactly when the input is non-empty and does not already end in one. */
  function AppendTranscript(prev: string, transcript: string): (r: string)
    ensures prev <= r && |r| >= |transcript| && r[|r| - |transcript|..] == transcript
    ensures |r| == |prev| + |transcript| || |r| == |prev| + |transcript| + 1
    ensures |r| == |prev| + |transcript| + 1 <==> prev != [] && prev[|prev| - 1] != ' '
    ensures |r| == |prev| + |transcript| + 1 ==> r[|prev|] == ' '
  {
    prev + Spacer(prev) + transcript
  }

  // ---------------------------------------------------------------------------
  // The controller

  /** The send guard `!inputValue.trim() || !currentUser`, negated. */
  predicate CanSend(input: string, user: Option<User>)
  {
    JsString.Trim(input) != "" && user.Some?
  }

  /** A send goes ahead exactly when a user is signed in and the input holds
      a character other than whitespace. */
  lemma SendGuardIff(input: string, user: Option<User>)
    ensures CanSend(input, user)
            <==> user.Some? && exists i :: 0 <= i < |input| && !JsString.IsTrimmable(input[i])
  {
  }

  /** The arguments `handleSend` passes to `sendMessageToWebhook`. */
  datatype WebhookCall = WebhookCall(message: string, sessionId: string, userEmail: string,
                                     userName: string)

  /** What an accepted send carries to its completion: the user turn, the log
      as the send's closure saw it (before the user turn) and the webhook call. */
  datatype PendingSend = PendingSend(userMsg: Message, snapshot: seq<Message>, call: WebhookCall)

  class ChatController {
    const sessionId: string
    var currentUser: Option<User>
    var messages: seq<Message>
    var inputValue: string
    var isTyping: bool
    var suggestions: seq<string>

    /** The log is never empty, ids are not reused and no user turn follows a flagged message. */
    ghost predicate Valid()
      reads this
    {
      WellFormedLog(messages)
    }

    /** The initial state: nobody signed in, the log holds the flagged greeting. */
    constructor (sessionId: string, now: int)
      ensures Valid()
      ensures this.sessionId == sessionId && currentUser == None
      ensures messages == [Greeting(now)] && messages[0].isLast
      ensures inputValue == "" && !isTyping && suggestions == []
    {
      this.sessionId := sessionId;
      currentUser := None;
      messages := [Greeting(now)];
      inputValue := "";
      isTyping := false;
      suggestions := [];
    }

    /** The body of the auth-state callback: a session maps to its user, no session to none. */
    method OnAuthStateChange(session: Option<SessionUser>)
      requires Valid()
      modifies this`currentUser
      ensures Valid()
      ensures currentUser == if session.Some? then Some(MapSessionToUser(session.value)) else None
    {
      if session.Some? {
        currentUser := Some(MapSessionToUser(session.value));
      } else {
        currentUser := None;
      }
    }

    /** The textarea's `onChange`. */
    method SetInput(text: string)
      modifies this`inputValue
      ensures inputValue == text
    {
      inputValue := text;
    }

    /** Clicking a suggestion copies it into the input. */
    method PickSuggestion(i: nat)
      requires i < |suggestions|
      modifies this`inputValue
      ensures inputValue == suggestions[i]
    {
      inputValue := suggestions[i];
    }

    /** `handleSend` up to the webhook call: the guard, then the user turn. */
    method BeginSend(userMsgId: string, now: int) returns (pending: Option<PendingSend>)
      requires Valid()
      requires FreshId(messages, userMsgId)
      modifies this`messages, this`inputValue, this`suggestions, this`isTyping
      ensures Valid()
      ensures pending.Some? <==> CanSend(old(inputValue), currentUser)
      ensures pending.None? ==>
                && messages == old(messages) && inputValue == old(inputValue)
                && suggestions == old(suggestions) && isTyping == old(isTyping)
      ensures pending.Some? ==>
                && pending.value.userMsg == Message(userMsgId, old(inputValue), FromUser, now, None, false)
                && pending.value.snapshot == old(messages)
                && messages == ClearFlags(old(messages)) + [pending.value.userMsg]
                && pending.value.call
                   == WebhookCall(old(inputValue), sessionId, currentUser.value.email,
                                  currentUser.value.name)
                && inputValue == "" && suggestions == [] && isTyping
    {
      var accepted := CanSend(inputValue, currentUser);
      if !accepted {
        pending := None;
        return;
      }
      var user := currentUser.value;
      var userMsg := Message(userMsgId, inputValue, FromUser, now, None, false);
      pending := Some(PendingSend(userMsg, messages,
                                  WebhookCall(inputValue, sessionId, user.email, user.name)));
      UserTurnKeepsLogWellFormed(messages, userMsg);
      messages := ClearFlags(messages) + [userMsg];
      inputValue := "";
      suggestions := [];
      isTyping := true;
    }

    /** The `isLast` effect: rewrite the flags so that exactly the tail is
      flagged, but only when the tail was not flagged already. */
    method SyncLastFlag()
      requires Valid()
      modifies this`messages
      ensures Valid()
      ensures messages[|messages| - 1].isLast
      ensures old(messages)[|old(messages)| - 1].isLast ==> messages == old(messages)
      ensures !old(messages)[|old(messages)| - 1].isLast ==> messages == FlagTail(old(messages))
    {
      if |messages| > 0 {
        var updated := FlagTail(messages);
        if messages[|messages| - 1].isLast != updated[|updated| - 1].isLast {
          FlagTailKeepsLogWellFormed(messages);
          messages := updated;
        }
      }
    }

    /** The webhook call resolved: the reply is appended as a flagged agent
      turn, typing stops, and the suggestion context is the last five of the
      closure's log, the user turn and the reply. */
    method CompleteWithReply(pending: PendingSend, reply: string, replyId: string, now: int)
      returns (history: seq<string>)
      requires Valid()
      requires FreshId(messages, replyId)
      modifies this`messages, this`isTyping
      ensures Valid()
      ensures messages == old(messages) + [Message(replyId, reply, FromAgent, now, None, true)]
      ensures !isTyping
      ensures history
              == HistoryLines(pending.snapshot
                              + [pending.userMsg, Message(replyId, reply, FromAgent, now, None, true)])
    {
      var agentMsg := Message(replyId, reply, FromAgent, now, None, true);
      ReplyKeepsLogWellFormed(messages, agentMsg);
      messages := messages + [agentMsg];
      history := HistoryLines(pending.snapshot + [pending.userMsg, agentMsg]);
      isTyping := false;
    }

    /** The webhook call threw: the fixed notice is appended as a flagged system turn and typing stops. */
    method CompleteWithError(errorId: string, now: int)
      requires Valid()
      requires FreshId(messages, errorId)
      modifies this`messages, this`isTyping
      ensures Valid()
      ensures messages == old(messages) + [Message(errorId, ConnectionErrorText, FromSystem, now, None, true)]
      ensures !isTyping
    {
      var errorMsg := Message(errorId, ConnectionErrorText, FromSystem, now, None, true);
      ReplyKeepsLogWellFormed(messages, errorMsg);
      messages := messages + [errorMsg];
      isTyping := false;
    }

    /** The suggestion request settled: its replies replace the suggestions;
      a failure changes nothing, and the log is never touched. */
    method ReceiveSuggestions(outcome: Option<seq<string>>)
      modifies this`suggestions
      ensures suggestions == if outcome.Some? then outcome.value else old(suggestions)
      ensures messages == old(messages)
    {
      if outcome.Some? {
        suggestions := outcome.value;
      }
    }

    /** `handleLogout`: the log goes back to the flagged greeting and the
      input is cleared; the suggestions stay. */
    method Logout(now: int)
      modifies this`messages, this`inputValue
      ensures Valid()
      ensures messages == [Greeting(now)] && messages[|messages| - 1].isLast
      ensures inputValue == ""
    {
      messages := [Greeting(now)];
      inputValue := "";
    }

    /** `recognition.onresult`: a non-empty final transcript is appended to the input. */
    method OnSpeechResult(results: seq<SpeechResult>, resultIndex: nat)
      modifies this`inputValue
      ensures var t := FinalText(results[Min(resultIndex, |results|)..]);
              inputValue == if t == "" then old(inputValue) else AppendTranscript(old(inputValue), t)
    {
      var t := FinalTranscript(results, resultIndex);
      if t != "" {
        inputValue := AppendTranscript(inputValue, t);
      }
    }
  }

  /** Rewriting flags never changes an id, so an id new to a log stays new. */
  lemma FreshIdSurvivesFlags(ms: seq<Message>, id: string)
    requires FreshId(ms, id)
    ensures FreshId(ClearFlags(ms), id) && FreshId(FlagTail(ms), id)
  {
  }

  /** The log after a user turn, the effect and a flagged reply: exactly the
      user turn and the reply are flagged, whatever the log was before. */
  lemma ExchangeFlagPattern(ms: seq<Message>, userMsg: Message, agentMsg: Message)
    requires agentMsg.isLast
    ensures var r := FlagTail(ClearFlags(ms) + [userMsg]) + [agentMsg];
            && |r| == |ms| + 2
            && Unflagged(r[|ms|]) == Unflagged(userMsg) && r[|ms| + 1] == agentMsg
            && forall i :: 0 <= i < |r| ==> (r[i].isLast <==> i >= |ms|)
  {
  }

  /** One exchange stepped as React runs it (send, effect, reply, effect):
      afterwards exactly the user's turn and the agent's reply are flagged,
      so `isLast` is not unique. */
  method ExchangeLeavesTwoFlags(c: ChatController, userMsgId: string, replyId: string,
                                reply: string, now: int)
    requires c.Valid() && CanSend(c.inputValue, c.currentUser)
    requires FreshId(c.messages, userMsgId) && FreshId(c.messages, replyId) && userMsgId != replyId
    modifies c
    ensures c.Valid() && |c.messages| == |old(c.messages)| + 2
    ensures c.messages[|c.messages| - 2].sender == FromUser
    ensures c.messages[|c.messages| - 1].sender == FromAgent
    ensures forall i :: 0 <= i < |c.messages| ==> (c.messages[i].isLast <==> i >= |old(c.messages)|)
  {
    ghost var before := c.messages;
    var pending := c.BeginSend(userMsgId, now);
    var userMsg := pending.value.userMsg;
    FreshIdSurvivesFlags(before, replyId);
    FreshIdSurvivesFlags(ClearFlags(before) + [userMsg], replyId);
    c.SyncLastFlag();
    var history := c.CompleteWithReply(pending.value, reply, replyId, now);
    c.SyncLastFlag();
    ExchangeFlagPattern(before, userMsg, Message(replyId, reply, FromAgent, now, None, true));
  }
}
