/** ml_service.go: `MLService`, which stores the user's turn, builds a prompt
    from the stored conversation, calls the Gemini generator with back-off on
    rate limiting, and stores and trims on success. */
module Orchestrator {
  import opened Wrappers
  import opened History
  import opened MessageLog
  import opened Retry
  import ProviderTypes

  /** prompt.go's `SystemPrompt`. */
  const SystemPrompt: string :=
    "You are Kurosawa, a helpful AI assistant. Respond to questions and requests accurately and concisely.\n\n"
    + "GUIDELINES:\n- Provide accurate, factual information\n- Be clear and helpful in your responses\n"
    + "- If you don't know something, say so\n- Keep responses focused and relevant\n"
    + "- Be respectful and professional\n- When appropriate, ask clarifying questions"
  const HistoryHeader: string := "\n\nConversation history:\n"
  const Footer: string := "\nRespond as Kurosawa:"
  /** The name and role under which replies are stored. */
  const AssistantName: string := "Kurosawa"
  /** How many turns `GetResponse` keeps per user. */
  const KeepCount: int := 20
  /** The model the generator is asked for. */
  const Model: string := "gemini-2.5-pro"

  /** What each generator call is given: the model and the prompt. */
  datatype Request = Request(model: string, prompt: string)

  /** One history line; the role plays no part. */
  function Line(m: Message): string {
    m.userName + ": " + m.content + "\n"
  }

  /** The history lines, in order. */
  function Render(ms: seq<Message>): string {
    if ms == [] then "" else Render(ms[..|ms| - 1]) + Line(ms[|ms| - 1])
  }

  /** Rendering distributes over concatenation. */
  lemma {:induction false} RenderAppend(a: seq<Message>, b: seq<Message>)
    ensures Render(a + b) == Render(a) + Render(b)
    decreases |b|
  {
    if b == [] {
      assert a + b == a;
    } else {
      var c := b[..|b| - 1];
      var last := Line(b[|b| - 1]);
      assert (a + b)[..|a + b| - 1] == a + c;
      assert Render(a + b) == Render(a + c) + last;
      RenderAppend(a, c);
      assert Render(b) == Render(c) + last;
    }
  }

  /** Two histories that differ only in their roles render alike. */
  lemma {:induction false} RenderIgnoresRole(ms: seq<Message>, ns: seq<Message>)
    requires |ms| == |ns|
    requires forall i :: 0 <= i < |ms| ==>
      ms[i].userName == ns[i].userName && ms[i].content == ns[i].content
    ensures Render(ms) == Render(ns)
    decreases |ms|
  {
    if ms != [] {
      RenderIgnoresRole(ms[..|ms| - 1], ns[..|ns| - 1]);
    }
  }

  lemma RenderStep(ms: seq<Message>, i: nat)
    requires i < |ms|
    ensures Render(ms[..i + 1]) == Render(ms[..i]) + Line(ms[i])
  {
    assert ms[..i + 1][..i] == ms[..i];
  }

  /** The prompt `buildPrompt` produces for a history. */
  function Prompt(history: seq<Message>): string {
    SystemPrompt + HistoryHeader + Render(history) + Footer
  }

  /** `buildPrompt`: the header, a line per message, the footer. */
  method BuildPrompt(messages: seq<Message>) returns (prompt: string)
    ensures prompt == Prompt(messages)
  {
    var header := SystemPrompt + HistoryHeader;
    prompt := header;
    for i := 0 to |messages|
      invariant prompt == header + Render(messages[..i])
    {
      RenderStep(messages, i);
      prompt := prompt + Line(messages[i]);
    }
    assert messages[..|messages|] == messages;
    prompt := prompt + Footer;
  }

  /** Once the user's turn is stored with a time no earlier than any stored
      row, its line is the last of the history, just before the footer. */
  lemma PromptEndsWithNewTurn(rows: seq<Row>, u: string, userName: string, message: string, now: int)
    requires forall y :: y in rows ==> y.time <= now
    ensures Render(Messages(rows + [Row(u, userName, "user", message, now)], u))
      == Render(Messages(rows, u)) + Line(Message(userName, "user", message, now))
  {
    var x := Row(u, userName, "user", message, now);
    var before := Messages(rows, u);
    MessagesAfterAdd(rows, x, u);
    assert Messages(rows + [x], u) == before + [AsMessage(x)];
    RenderAppend(before, [AsMessage(x)]);
    RenderOne(AsMessage(x));
  }

  lemma RenderOne(m: Message)
    ensures Render([m]) == Line(m)
  {
    assert [m][..0] == [];
  }

  /** Why `GetResponse` failed; the message wording is not modelled. */
  datatype ServiceError =
    | SaveUserFailed(detail: string)
    | LoadHistoryFailed(detail: string)
    | GenerateFailed(detail: string)
    | GenerateExhausted(retries: nat, detail: string)

  /** The driver errors met by each database call of `GetResponse`. */
  datatype Faults = Faults(
    saveUser: Option<string>, loadHistory: Option<string>, saveReply: Option<string>,
    trimQuery: Option<string>, trimDelete: Option<string>)

  /** The outcome of the generator loop for a script: the text of the first
      call not rate limited, its error, or exhaustion after five rate limits. */
  function Generation(script: seq<Outcome>): (r: Result<string, ServiceError>)
    requires MaxRetries <= |script|
    ensures r.Success? <==> Stop(script, 0) < MaxRetries && script[Stop(script, 0)].Generated?
    ensures r.Success? ==> r.value == script[Calls(script) - 1].text
    ensures r.Failure? && !r.error.GenerateExhausted? ==> r.error == GenerateFailed(script[Calls(script) - 1].detail)
    ensures r.Failure? && r.error.GenerateExhausted? ==>
      Calls(script) == MaxRetries && r.error == GenerateExhausted(MaxRetries, script[MaxRetries - 1].detail)
    ensures r.Failure? && r.error.GenerateExhausted? <==> Stop(script, 0) == MaxRetries
    ensures Stop(script, 0) < MaxRetries && !script[Stop(script, 0)].Generated? ==>
      r == Failure(GenerateFailed(script[Stop(script, 0)].detail))
  {
    var k := Stop(script, 0);
    if k == MaxRetries then Failure(GenerateExhausted(MaxRetries, script[MaxRetries - 1].detail))
    else if script[k].Generated? then Success(script[k].text)
    else Failure(GenerateFailed(script[k].detail))
  }

  /** The table after the reply turn is stored (unless that write fails) and
      the user's history is trimmed (unless a trim statement fails). */
  function AfterReply(rows: seq<Row>, u: string, reply: string, replyTime: int, faults: Faults): seq<Row>
  {
    var stored := if faults.saveReply.None? then rows + [Row(u, AssistantName, "assistant", reply, replyTime)] else rows;
    var t := Threshold(stored, u, KeepCount);
    if faults.trimQuery.None? && t.Some? && faults.trimDelete.None? then Trimmed(stored, u, t.value) else stored
  }

  /** The reply just stored survives the trim: its time is no earlier than
      the trim threshold. */
  lemma ReplySurvivesTrim(rows: seq<Row>, u: string, reply: string, replyTime: int, t: int)
    requires forall y :: y in rows ==> y.time <= replyTime
    requires Threshold(rows + [Row(u, AssistantName, "assistant", reply, replyTime)], u, KeepCount) == Some(t)
    ensures Row(u, AssistantName, "assistant", reply, replyTime) in
      Trimmed(rows + [Row(u, AssistantName, "assistant", reply, replyTime)], u, t)
  {
    var stored := rows + [Row(u, AssistantName, "assistant", reply, replyTime)];
    ThresholdCounts(stored, u, KeepCount, t);
    if replyTime < t {
      var s := RowsOf(stored, u);
      forall i | 0 <= i < |s|
        ensures s[i].time < t
      {
        assert s[i] in s;
      }
      CountNone(s, t);
      assert false;
    }
  }

  /** A reply stored without faults leaves the user with at least
      `KeepCount` rows once the history is trimmed, the reply among them. */
  lemma {:induction false} AfterReplyKeepsNewest(rows: seq<Row>, u: string, reply: string, replyTime: int)
    requires forall y :: y in rows ==> y.time <= replyTime
    requires |RowsOf(rows, u)| >= KeepCount - 1
    ensures Row(u, AssistantName, "assistant", reply, replyTime) in AfterReply(rows, u, reply, replyTime, Faults(None, None, None, None, None))
    ensures |RowsOf(AfterReply(rows, u, reply, replyTime, Faults(None, None, None, None, None)), u)| >= KeepCount
  {
    var x := Row(u, AssistantName, "assistant", reply, replyTime);
    var stored := rows + [x];
    RowsOfAppend(rows, x, u);
    var t := Threshold(stored, u, KeepCount);
    assert t.Some?;
    ReplySurvivesTrim(rows, u, reply, replyTime, t.value);
    TrimKeepsNewest(stored, u, KeepCount, t.value);
  }

  /** The generator loop of `GetResponse` (lines 76-103): at most five
      calls, retrying only on 429, and the error for the call that ended it. */
  method CallGenerator(script: seq<Outcome>) returns (g: Result<string, ServiceError>, calls: nat, delays: seq<nat>)
    requires MaxRetries <= |script|
    ensures g == Generation(script)
    ensures calls == Calls(script) && delays == Backoff(Stop(script, 0))
  {
    var last;
    calls, delays, last := GenerateWithRetry(script);
    if IsRateLimited(last) {
      g := Failure(GenerateExhausted(MaxRetries, last.detail));
    } else if last.Generated? {
      g := Success(last.text);
    } else {
      g := Failure(GenerateFailed(last.detail));
    }
  }

  class MLService {
    /** The conversation log the service reads and writes. */
    const db: DBService

    constructor (db: DBService)
      ensures this.db == db
    {
      this.db := db;
    }

    /** The tail of `GetResponse` after a non-empty reply: store it, then
        trim; either failure is only a warning. */
    method StoreReply(userId: string, response: string, replyTime: int, faults: Faults)
      modifies db
      ensures db.open == old(db.open)
      ensures db.rows == AfterReply(old(db.rows), userId, response, replyTime, faults)
    {
      var saveErr := db.AddMessage(userId, AssistantName, "assistant", response, replyTime, faults.saveReply);
      var trimErr := db.TrimHistory(userId, KeepCount, faults.trimQuery, faults.trimDelete);
    }

    /** `GetResponse`: the user's turn is stored at `now` first; the history
        is loaded and turned into the prompt; the generator runs through
        `script` with back-off; empty text is answered with the fallback and
        nothing more is stored; otherwise the reply is stored at `replyTime`
        and the history trimmed to `KeepCount`, whose failures are only
        warnings. `request` is what the generator is called with, if it is
        called. */
    method GetResponse(userId: string, userName: string, message: string, now: int, replyTime: int,
                       faults: Faults, script: seq<Outcome>)
      returns (r: Result<string, ServiceError>, request: Option<Request>, calls: nat, delays: seq<nat>)
      requires MaxRetries <= |script|
      modifies db
      ensures db.open == old(db.open)
      ensures faults.saveUser.Some? ==>
        r == Failure(SaveUserFailed(faults.saveUser.value)) && db.rows == old(db.rows)
        && request.None? && calls == 0 && delays == []
      ensures faults.saveUser.None? && faults.loadHistory.Some? ==>
        r == Failure(LoadHistoryFailed(faults.loadHistory.value))
        && db.rows == old(db.rows) + [Row(userId, userName, "user", message, now)]
        && request.None? && calls == 0 && delays == []
      ensures faults.saveUser.None? && faults.loadHistory.None? ==>
        request == Some(Request(Model, Prompt(Messages(old(db.rows) + [Row(userId, userName, "user", message, now)], userId))))
        && calls == Calls(script) && delays == Backoff(Stop(script, 0))
      ensures faults.saveUser.None? && faults.loadHistory.None? && (Generation(script).Failure? || Generation(script) == Success("")) ==>
        r == (if Generation(script).Failure? then Generation(script) else Success(ProviderTypes.Fallback))
        && db.rows == old(db.rows) + [Row(userId, userName, "user", message, now)]
      ensures faults.saveUser.None? && faults.loadHistory.None? && Generation(script).Success? && Generation(script).value != "" ==>
        r == Generation(script)
        && db.rows == AfterReply(old(db.rows) + [Row(userId, userName, "user", message, now)],
                                 userId, Generation(script).value, replyTime, faults)
    {
      request, calls, delays := None, 0, [];
      var err := db.AddMessage(userId, userName, "user", message, now, faults.saveUser);
      if err.Some? {
        return Failure(SaveUserFailed(err.value)), request, calls, delays;
      }
      var history := db.GetMessages(userId, faults.loadHistory);
      if history.Failure? {
        return Failure(LoadHistoryFailed(history.error)), request, calls, delays;
      }
      var p := BuildPrompt(history.value);
      request := Some(Request(Model, p));
      var generated;
      generated, calls, delays := CallGenerator(script);
      if generated.Failure? {
        return generated, request, calls, delays;
      }
      var response := generated.value;
      if response == "" {
        return Success(ProviderTypes.Fallback), request, calls, delays;
      }
      StoreReply(userId, response, replyTime, faults);
      r := Success(response);
    }
  }
}
