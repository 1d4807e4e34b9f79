/** What the bot does with an incoming Discord message before and after
    asking the AI (the message handler and `handleAIMessage` in main.go). */
module Inbound {
  import opened Wrappers
  import opened Strings
  import Segmenter

  /** The prefix that addresses the bot in the configured channel. */
  const CommandPrefix: string := "!m "

  /** Reply sent when the AI could not be reached. */
  const ContactError: string := "An error occurred while contacting the AI."

  /** Channels whose name starts with "ai-" are AI channels. */
  predicate IsAIChannel(channelName: string) {
    HasPrefix(channelName, "ai-")
  }

  /** The message handler's guard: messages by bots are ignored; a message is
      handled when it is posted in an AI channel, or in the configured channel
      with the "!m " prefix. */
  function ShouldHandle(fromBot: bool, channelName: string, channelId: nat, configuredId: nat,
                        content: string): (handle: bool)
    ensures handle ==> !fromBot
    ensures handle && !IsAIChannel(channelName) ==> channelId == configuredId && HasPrefix(content, CommandPrefix)
    ensures !fromBot && IsAIChannel(channelName) ==> handle
    ensures !fromBot && channelId == configuredId && HasPrefix(content, CommandPrefix) ==> handle
  {
    !fromBot && (IsAIChannel(channelName) || (channelId == configuredId && HasPrefix(content, CommandPrefix)))
  }

  /** The text addressed to the bot: the whole message in an AI channel,
      otherwise the message without a leading "!m " (when it has one). */
  function Addressed(content: string, isPrivate: bool): string
  {
    if isPrivate then content else TrimPrefix(content, CommandPrefix)
  }

  /** The text left after `handleAIMessage` strips the prefix (outside AI
      channels) and trims white space; `None` when nothing is left, in which
      case the handler returns without answering. */
  function PrepareMessage(content: string, isPrivate: bool): (r: Option<string>)
    ensures r.None? <==> AllSpace(Addressed(content, isPrivate))
    ensures r.Some? ==> r.value != "" && IsTrimmed(r.value)
    ensures r.Some? ==>
      var m := Addressed(content, isPrivate);
      && LeadLen(m) + |r.value| <= |m|
      && r.value == m[LeadLen(m)..LeadLen(m) + |r.value|]
      && AllSpace(m[..LeadLen(m)]) && AllSpace(m[LeadLen(m) + |r.value|..])
  {
    var trimmed := TrimSpace(Addressed(content, isPrivate));
    if trimmed == "" then None else Some(trimmed)
  }

  /** In the configured channel the prefix that let the message through is
      removed exactly once before trimming. */
  lemma {:induction false} HandledCommandLosesPrefix(fromBot: bool, channelName: string, channelId: nat,
                                                     configuredId: nat, content: string)
    requires ShouldHandle(fromBot, channelName, channelId, configuredId, content)
    requires !IsAIChannel(channelName)
    ensures content == CommandPrefix + content[|CommandPrefix|..]
    ensures PrepareMessage(content, false) == PrepareMessage(content[|CommandPrefix|..], true)
  {
    assert HasPrefix(content, CommandPrefix);
    assert TrimPrefix(content, CommandPrefix) == content[|CommandPrefix|..];
  }

  /** The text put in front of the message by the link loop: the content of
      every fetched page, the most recently fetched first, each on its own
      line. A fetch that failed (`None`) adds nothing. */
  function LinkPreamble(fetched: seq<Option<string>>): string
  {
    if fetched == [] then ""
    else
      var earlier := LinkPreamble(fetched[..|fetched| - 1]);
      match fetched[|fetched| - 1]
      case None => earlier
      case Some(page) => page + "\n" + earlier
  }

  /** The link loop of `handleAIMessage`: for each URL found in the message,
      in order, the page content fetched from it (or `None` when the fetch
      failed) is put in front of the message. */
  method PrependLinks(message: string, fetched: seq<Option<string>>) returns (result: string)
    ensures result == LinkPreamble(fetched) + message
  {
    result := message;
    var i := 0;
    while i < |fetched|
      invariant 0 <= i <= |fetched|
      invariant result == LinkPreamble(fetched[..i]) + message
    {
      assert fetched[..i + 1][..i] == fetched[..i];
      match fetched[i] {
        case None =>
        case Some(content) =>
          result := content + "\n" + result;
      }
      i := i + 1;
    }
    assert fetched[..i] == fetched;
  }

  /** When every fetch failed, the message goes on unchanged. */
  lemma {:induction false} FailedFetchesAddNothing(fetched: seq<Option<string>>)
    requires forall i :: 0 <= i < |fetched| ==> fetched[i].None?
    ensures LinkPreamble(fetched) == ""
    decreases |fetched|
  {
    if fetched != [] {
      FailedFetchesAddNothing(fetched[..|fetched| - 1]);
    }
  }

  /** A server member's profile in the guild, when the message carries one. */
  datatype Member = Member(nick: string)

  /** The name the conversation log records: the member's nickname when the
      member is present and the nickname is not empty, else the user name. */
  function DisplayName(username: string, member: Option<Member>): (name: string)
    ensures member.Some? && member.value.nick != "" ==> name == member.value.nick
    ensures member.None? || member.value.nick == "" ==> name == username
  {
    if member.Some? && member.value.nick != "" then member.value.nick else username
  }

  /** The call `handleAIMessage` makes to the conversation service. */
  datatype Request = Request(userId: string, userName: string, message: string)

  /** `handleAIMessage` up to the call to the service: the request it makes,
      or `None` when the trimmed message is empty. `fetched` holds the outcome
      of fetching each URL found in the message. */
  method HandleAIMessage(content: string, isPrivate: bool, fetched: seq<Option<string>>,
                         authorId: string, username: string, member: Option<Member>)
    returns (request: Option<Request>)
    ensures PrepareMessage(content, isPrivate).None? <==> request.None?
    ensures request.Some? ==>
      && request.value.userId == authorId
      && request.value.userName == DisplayName(username, member)
      && request.value.message == LinkPreamble(fetched) + PrepareMessage(content, isPrivate).value
  {
    var message: string;
    if isPrivate {
      message := content;
    } else {
      message := TrimPrefix(content, CommandPrefix);
    }
    message := TrimSpace(message);
    if message == "" {
      return None;
    }
    message := PrependLinks(message, fetched);
    var userName := username;
    if member.Some? && member.value.nick != "" {
      userName := member.value.nick;
    }
    request := Some(Request(authorId, userName, message));
  }

  /** What `handleAIMessage` sends back once the service answered: the error
      notice when the service failed, otherwise the reply through
      `sendLongMessage`, with pieces cut so that every message fits.
      `failing` holds the sends the transport rejects. */
  method DeliverReply<E>(response: Result<string, E>, failing: set<nat>) returns (sent: seq<string>)
    ensures response.Failure? ==> sent == [ContactError]
    ensures response.Success? ==>
      var out := Segmenter.OutgoingFixed(response.value);
      sent == out[..Segmenter.Attempted(failing, |out|)]
    ensures forall i :: 0 <= i < |sent| ==> |sent[i]| <= Segmenter.MaxMessageLength
  {
    if response.Failure? {
      sent := [ContactError];
      return;
    }
    var ok;
    sent, ok := Segmenter.SendLongMessageFixed(response.value, failing);
  }
}
