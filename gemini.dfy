/** The chat-history construction and chunk filtering of the two Gemini
    adapters (src/lib/ai/gemini.ts, src/lib/ai/gemini-new.ts). The SDK calls
    themselves are a parameter: `service` stands for what the model streams
    back for a request. */
module Gemini {
  import opened Wrappers
  import opened Seqs

  /** One message as the relay hands it over: `{ role, content }`. */
  datatype HistoryEntry = HistoryEntry(role: string, content: string)

  /** One SDK history turn `{ role, parts: [{ text }] }`, with its single text part. */
  datatype Turn = Turn(role: string, part: Part)

  /** What `startChat` and `sendMessageStream` receive: the earlier turns and the new message. */
  datatype ChatRequest = ChatRequest(history: seq<Turn>, message: string)

  /** How a stream of text fragments ends. */
  datatype StreamEnd = Finished | Failed(message: string)

  /** A finite stream of text fragments, ending in completion or an error. */
  datatype Stream = Stream(fragments: seq<string>, end: StreamEnd)

  /** The one message every adapter failure is rethrown with. */
  const ConnectionError: string := "Sorry, I'm having trouble connecting to my knowledge base. Please try again in a moment."

  /** The text of a turn: what a message said, or one of the two fixed texts
      the adapters put first. The fixed texts are kept symbolic so that the
      proofs never expand their wording; `Wording` gives it. */
  datatype Part = Text(text: string) | Persona | Greeting

  /** The characters a part stands for. */
  function Wording(part: Part): string {
    match part
    case Text(text) => text
    // CAREER_COUNSELOR_PROMPT, the persona instruction of the streaming adapter.
    case Persona => @"You are an experienced and empathetic career counselor with over 15 years of experience helping people navigate their career paths. Your role is to:

1. Provide thoughtful, personalized career guidance
2. Ask insightful questions to understand the person's goals, strengths, and interests
3. Offer practical advice on career transitions, job searching, skill development, and workplace challenges
4. Be supportive and encouraging while being realistic about career prospects
5. Help people identify their strengths and areas for improvement
6. Provide information about different industries, roles, and career paths
7. Assist with interview preparation, resume guidance, and networking strategies
8. Check if the asked question is related to career counseling, and if its not apologize for not answering and tell them that you can help with career couselling only.

Guidelines:
- Always be professional, empathetic, and motivating.
- Add few correct emojis in the Titles or places it feels correct.
- Ask follow-up questions to better understand their situation
- Provide actionable advice and concrete next steps
- Be honest about challenges while maintaining optimism
- Tailor your advice to the individual's specific situation and goals
- Only talk about anything that are related to Career.
- Greet User Properly and if they divert for 

Remember to maintain a warm, friendly tone and focus on empowering the person to make informed career decisions."
    // The greeting both adapters put before the conversation.
    case Greeting => "Hello! I'm here to help you with your career journey. I'm an experienced career counselor, and I'm excited to work with you to explore your goals, identify opportunities, and create a path forward. What would you like to discuss about your career today?"
  }

  const PromptTurn: Turn := Turn("user", Persona)
  const GreetingTurn: Turn := Turn("model", Greeting)

  /** The SDK role for a stored role: `"user"` for `"USER"`, `"model"` for anything else. */
  function SdkRole(role: string): (r: string)
    ensures r == "user" || r == "model"
    ensures r == "user" <==> role == "USER"
  {
    if role == "USER" then "user" else "model"
  }

  /** `messages.map(msg => ({ role: ..., parts: [{ text: msg.content }] }))`. */
  function ToTurns(messages: seq<HistoryEntry>): (turns: seq<Turn>)
    ensures |turns| == |messages|
    ensures forall i :: 0 <= i < |messages| ==>
              && turns[i].role == SdkRole(messages[i].role)
              && (turns[i].role == "user" <==> messages[i].role == "USER")
              && (turns[i].role == "model" <==> messages[i].role != "USER")
              && turns[i].part == Text(messages[i].content)
  {
    if messages == [] then []
    else [Turn(SdkRole(messages[0].role), Text(messages[0].content))] + ToTurns(messages[1..])
  }

  /** The request of `getChatResponseStreamGenerator`: the prompt turn, the
      greeting, every message but the last, and the last message's content
      sent on its own. With no messages there is no last message, and the
      adapter fails with its fixed error. */
  function StartChat(messages: seq<HistoryEntry>): (r: Result<ChatRequest, string>)
    ensures r.Err? <==> messages == []
    ensures r.Err? ==> r.error == ConnectionError
    ensures r.Ok? ==>
              && |r.value.history| == |messages| + 1
              && r.value.history[0] == PromptTurn
              && r.value.history[1] == GreetingTurn
              && r.value.history[2..] == ToTurns(messages[..|messages| - 1])
              && (forall i :: 0 <= i < |messages| - 1 ==>
                    && r.value.history[i + 2].role == SdkRole(messages[i].role)
                    && r.value.history[i + 2].part == Text(messages[i].content))
              && r.value.message == messages[|messages| - 1].content
  {
    if messages == [] then Err(ConnectionError)
    else Ok(ChatRequest([PromptTurn, GreetingTurn] + ToTurns(messages[..|messages| - 1]),
                        messages[|messages| - 1].content))
  }

  /** The `history` of `getChatResponse` (gemini-new.ts): the greeting
      followed by every message, in order. */
  function NewHistory(messages: seq<HistoryEntry>): (history: seq<Turn>)
    ensures |history| == |messages| + 1
    ensures history[0] == GreetingTurn
    ensures history[1..] == ToTurns(messages)
    ensures forall i :: 0 <= i < |messages| ==>
              && history[i + 1].role == SdkRole(messages[i].role)
              && history[i + 1].part == Text(messages[i].content)
  {
    var turns := ToTurns(messages);
    var history := [GreetingTurn] + turns;
    assert |history| == |turns| + 1;
    assert history[1..] == turns;
    assert forall i :: 0 <= i < |turns| ==> history[i + 1] == turns[i] by {
      forall i | 0 <= i < |turns| ensures history[i + 1] == turns[i] {
        assert i + 1 < |history|;
      }
    }
    history
  }

  /** The two adapters agree: past the prompt turn, the streaming request's
      history is the other adapter's history without its final turn, and that
      final turn carries the message sent on its own. */
  lemma {:induction false} AdaptersAgree(messages: seq<HistoryEntry>)
    requires messages != []
    ensures StartChat(messages).value.history[1..] == NewHistory(messages)[..|messages|]
    ensures NewHistory(messages)[|messages|].part == Text(StartChat(messages).value.message)
  {
    var n := |messages|;
    var streamed := StartChat(messages).value.history[1..];
    var whole := NewHistory(messages)[..n];
    assert |streamed| == |whole| == n;
    forall i | 0 <= i < n ensures streamed[i] == whole[i] {
      if i > 0 {
        var a, b := streamed[i], whole[i];
        assert a.role == "user" || a.role == "model";
        assert b.role == "user" || b.role == "model";
        assert a.role == b.role && a.part == b.part;
      }
    }
  }

  predicate NonEmpty(chunk: string) {
    chunk != ""
  }

  /** Dropping empty chunks does not change what they spell. */
  lemma {:induction false} NonEmptyConcat(chunks: seq<string>)
    ensures Concat(Filter(chunks, NonEmpty)) == Concat(chunks)
  {
    if chunks != [] {
      var rest := Filter(chunks[1..], NonEmpty);
      assert Filter(chunks, NonEmpty) == (if NonEmpty(chunks[0]) then [chunks[0]] else []) + rest;
      NonEmptyConcat(chunks[1..]);
      if NonEmpty(chunks[0]) {
        assert ([chunks[0]] + rest)[1..] == rest;
      } else {
        assert chunks[0] == "" && [] + rest == rest;
        assert chunks[0] + Concat(chunks[1..]) == Concat(chunks[1..]);
      }
    }
  }

  /** `getChatResponseStreamGenerator`: yields the non-empty chunk texts of
      the upstream stream in order; any failure, including having no last
      message to send, ends the generator with the fixed error. */
  method GenerateStream(messages: seq<HistoryEntry>, service: ChatRequest -> Stream) returns (out: Stream)
    ensures messages == [] ==> out == Stream([], Failed(ConnectionError))
    ensures messages != [] ==>
              var upstream := service(StartChat(messages).value);
              && out.fragments == Filter(upstream.fragments, NonEmpty)
              && out.end == (if upstream.end.Finished? then Finished else Failed(ConnectionError))
              && Concat(out.fragments) == Concat(upstream.fragments)
    ensures forall chunk :: chunk in out.fragments ==> chunk != ""
  {
    var request := StartChat(messages);
    if request.Err? {
      return Stream([], Failed(request.error));
    }
    var upstream := service(request.value);
    var yielded: seq<string> := [];
    var i := 0;
    while i < |upstream.fragments|
      invariant 0 <= i <= |upstream.fragments|
      invariant yielded == Filter(upstream.fragments[..i], NonEmpty)
    {
      var chunkText := upstream.fragments[i];
      assert upstream.fragments[..i + 1] == upstream.fragments[..i] + [chunkText];
      FilterAppend(upstream.fragments[..i], chunkText, NonEmpty);
      if chunkText != "" {
        yielded := yielded + [chunkText];
      }
      i := i + 1;
    }
    assert upstream.fragments[..i] == upstream.fragments;
    NonEmptyConcat(upstream.fragments);
    out := Stream(yielded, if upstream.end.Finished? then Finished else Failed(ConnectionError));
  }
}
