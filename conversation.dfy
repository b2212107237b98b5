/**
  The server's observable state (whether the model is loaded, and the conversation
  history) and what each request does to it, as functions. Requests are handled one
  after the other.
 */
module Conversation {

  import opened Text
  import opened Prompt
  import opened Stream

  /** The number of entries the user-turn truncation keeps. */
  const MaxHistory: nat := 6

  /** The error body of a chat request made before the model is loaded. */
  const NotLoadedError: string := "Model not loaded"

  function Min(a: int, b: int): int {
    if a <= b then a else b
  }

  /** `a` ends `b`. */
  predicate IsSuffix<T(==)>(a: seq<T>, b: seq<T>) {
    |a| <= |b| && a == b[|b| - |a|..]
  }

  /** The text of the user turn: the body's `message` field, or the empty string when
      the body has none. */
  function MessageOf(body: map<string, string>): (text: string)
    ensures "message" !in body ==> text == ""
    ensures "message" in body ==> text == body["message"]
  {
    if "message" in body then body["message"] else ""
  }

  /** The history after the user turn is appended and the oldest entries beyond
      MaxHistory are evicted. */
  function AfterUserTurn(history: seq<Message>, text: string): (r: seq<Message>)
    ensures |r| == Min(|history| + 1, MaxHistory)
    ensures IsSuffix(r, history + [Message("user", text)])
    ensures r[|r| - 1] == Message("user", text)
  {
    var appended := history + [Message("user", text)];
    if |appended| > MaxHistory then appended[|appended| - MaxHistory..] else appended
  }

  datatype State = State(loaded: bool, history: seq<Message>)

  datatype Request =
    | ChatRequest(body: map<string, string>, production: Production)
    | ClearRequest
    | HistoryRequest
    | StatusRequest

  datatype Reply =
    | ServiceUnavailable(code: int, error: string)
    | EventStream(tokenizerInput: string, events: seq<string>)
    | Cleared(status: string, conversationCleared: bool)
    | HistoryReply(history: seq<Message>)
    | StatusReply(loaded: bool)

  /** The state after one request. */
  function Next(s: State, r: Request): State {
    match r
    case ChatRequest(body, p) =>
      if !s.loaded then s
      else State(true, AfterUserTurn(s.history, MessageOf(body)) + AssistantTurn(p))
    case ClearRequest => State(s.loaded, [])
    case HistoryRequest => s
    case StatusRequest => s
  }

  /** The reply to one request. For a chat, `tokenizerInput` is the prompt handed to
      the tokenizer; it is not sent to the client, whose response is `events` alone. */
  function Answer(s: State, r: Request, tokenJson: string -> string): Reply {
    match r
    case ChatRequest(body, p) =>
      if !s.loaded then ServiceUnavailable(503, NotLoadedError)
      else EventStream(PromptFor(AfterUserTurn(s.history, MessageOf(body))), Events(p, tokenJson))
    case ClearRequest => Cleared("memory cleared", true)
    case HistoryRequest => HistoryReply(s.history)
    case StatusRequest => StatusReply(s.loaded)
  }

  /** The state after a sequence of requests handled in order. */
  function Run(s: State, rs: seq<Request>): State
    decreases |rs|
  {
    if rs == [] then s else Next(Run(s, rs[..|rs| - 1]), rs[|rs| - 1])
  }

  /** Every message added since the history was last cleared (all of `s.history`
      when it never was), whether or not truncation later evicted it. */
  function Log(s: State, rs: seq<Request>): seq<Message>
    decreases |rs|
  {
    if rs == [] then s.history
    else
      var before, r := Run(s, rs[..|rs| - 1]), rs[|rs| - 1];
      var prev := Log(s, rs[..|rs| - 1]);
      match r
      case ChatRequest(body, p) =>
        if before.loaded then prev + [Message("user", MessageOf(body))] + AssistantTurn(p) else prev
      case ClearRequest => []
      case HistoryRequest => prev
      case StatusRequest => prev
  }

  /** A chat made while the model is not loaded is refused with 503 and changes
      nothing; once it is loaded, a chat is streamed, and the history grows by the
      user turn (up to the cap) and then by one assistant turn if the stream was
      drained. */
  lemma ChatEffect(s: State, body: map<string, string>, p: Production, tokenJson: string -> string)
    ensures !s.loaded ==> Next(s, ChatRequest(body, p)) == s
    ensures !s.loaded <==> Answer(s, ChatRequest(body, p), tokenJson) == ServiceUnavailable(503, NotLoadedError)
    ensures |Next(s, ChatRequest(body, p)).history| ==
      if s.loaded then Min(|s.history| + 1, MaxHistory) + |AssistantTurn(p)| else |s.history|
    ensures s.loaded ==> IsSuffix(Next(s, ChatRequest(body, p)).history,
                                  s.history + [Message("user", MessageOf(body))] + AssistantTurn(p))
  {
    if s.loaded {
      var u := Message("user", MessageOf(body));
      var h := AfterUserTurn(s.history, MessageOf(body));
      var all := s.history + [u];
      assert h == all[|all| - |h|..];
      var t := AssistantTurn(p);
      assert all + t == s.history + [u] + t;
      assert (all + t)[|all + t| - |h + t|..] == h + t;
    }
  }

  /** The prompt of every chat begins with the delimited system prompt and goes on
      with the rendering of the truncated history, whose last entry is the new user
      turn. */
  lemma ChatPrompt(s: State, body: map<string, string>, p: Production, tokenJson: string -> string)
    requires s.loaded
    ensures
      var h := AfterUserTurn(s.history, MessageOf(body));
      Answer(s, ChatRequest(body, p), tokenJson).tokenizerInput ==
        SystemOpen + SystemPrompt + SystemClose + Formatted(h[..|h| - 1])
        + InstOpen + MessageOf(body) + InstClose
  {
    var h := AfterUserTurn(s.history, MessageOf(body));
    assert h == h[..|h| - 1] + [Message("user", MessageOf(body))];
    PromptEndsWithUserTurn(h[..|h| - 1], MessageOf(body));
  }

  /** Clearing empties the history whatever it held, and clearing twice is the same as
      clearing once; the history read afterwards is empty. */
  lemma ClearIdempotent(s: State)
    ensures Next(s, ClearRequest).history == []
    ensures Next(Next(s, ClearRequest), ClearRequest) == Next(s, ClearRequest)
    ensures Answer(Next(Next(s, ClearRequest), ClearRequest), HistoryRequest, t => t) == HistoryReply([])
  {
  }

  /** Reading the history returns it as it is and changes nothing. */
  lemma HistoryReadChangesNothing(s: State, tokenJson: string -> string)
    ensures Next(s, HistoryRequest) == s && Answer(s, HistoryRequest, tokenJson) == HistoryReply(s.history)
  {
  }

  /** Asking for the status reports whether the model is loaded and changes nothing. */
  lemma StatusReadChangesNothing(s: State, tokenJson: string -> string)
    ensures Next(s, StatusRequest) == s && Answer(s, StatusRequest, tokenJson) == StatusReply(s.loaded)
  {
  }

  /** The first chat on an empty history: the history becomes the user turn and the
      whole reply, and the stream ends with the terminating event. */
  lemma FirstChat(body: map<string, string>, p: Production, tokenJson: string -> string)
    requires p.drained
    ensures Next(State(true, []), ChatRequest(body, p)).history ==
      [Message("user", MessageOf(body)), Message("assistant", Join(p.fragments))]
    ensures
      var events := Answer(State(true, []), ChatRequest(body, p), tokenJson).events;
      |events| == |p.fragments| + 1 && events[|events| - 1] == DoneEvent
  {
    assert AfterUserTurn([], MessageOf(body)) == [Message("user", MessageOf(body))];
  }

  /** Whether the model is loaded never changes while requests are served. */
  lemma {:induction false} RunKeepsLoaded(s: State, rs: seq<Request>)
    ensures Run(s, rs).loaded == s.loaded
    decreases |rs|
  {
    if rs != [] {
      RunKeepsLoaded(s, rs[..|rs| - 1]);
    }
  }

  /** While the model is not loaded, no sequence of requests other than clears
      changes the history. */
  lemma {:induction false} UnloadedKeepsHistory(s: State, rs: seq<Request>)
    requires !s.loaded
    requires forall i :: 0 <= i < |rs| ==> !rs[i].ClearRequest?
    ensures Run(s, rs) == s
    decreases |rs|
  {
    if rs != [] {
      UnloadedKeepsHistory(s, rs[..|rs| - 1]);
    }
  }

  /** The real bound on the history: a completed chat leaves up to MaxHistory + 1
      entries, because the assistant turn is appended after truncation. */
  lemma {:induction false} HistoryBound(s: State, rs: seq<Request>)
    requires |s.history| <= MaxHistory + 1
    ensures |Run(s, rs).history| <= MaxHistory + 1
    decreases |rs|
  {
    if rs != [] {
      var before := Run(s, rs[..|rs| - 1]);
      HistoryBound(s, rs[..|rs| - 1]);
      match rs[|rs| - 1]
      case ChatRequest(body, p) =>
        ChatEffect(before, body, p, t => t);
      case _ =>
    }
  }

  /** The history always holds the newest messages: it ends the log of everything
      added since the last clear, and it is at least as long as the last MaxHistory
      of them. */
  lemma {:induction false} HistoryKeepsNewest(s: State, rs: seq<Request>)
    ensures IsSuffix(Run(s, rs).history, Log(s, rs))
    ensures |Run(s, rs).history| >= Min(|Log(s, rs)|, MaxHistory)
    decreases |rs|
  {
    if rs != [] {
      var init := rs[..|rs| - 1];
      var before, prev := Run(s, init), Log(s, init);
      HistoryKeepsNewest(s, init);
      match rs[|rs| - 1]
      case ChatRequest(body, p) =>
        if before.loaded {
          var u := Message("user", MessageOf(body));
          var t := AssistantTurn(p);
          var h := Run(s, rs).history;
          ChatEffect(before, body, p, x => x);
          SuffixExtend(before.history, prev, [u] + t);
          assert before.history + [u] + t == before.history + ([u] + t);
          assert prev + [u] + t == prev + ([u] + t);
          SuffixTrans(h, before.history + ([u] + t), prev + ([u] + t));
        }
      case _ =>
    }
  }

  lemma SuffixExtend<T>(a: seq<T>, b: seq<T>, c: seq<T>)
    requires IsSuffix(a, b)
    ensures IsSuffix(a + c, b + c)
  {
    assert (b + c)[|b + c| - |a + c|..] == b[|b| - |a|..] + c;
  }

  lemma SuffixTrans<T>(a: seq<T>, b: seq<T>, c: seq<T>)
    requires IsSuffix(a, b) && IsSuffix(b, c)
    ensures IsSuffix(a, c)
  {
    assert c[|c| - |a|..] == c[|c| - |b|..][|b| - |a|..];
  }

  /** The i-th question and answer of a scenario: "q1", "a1", "q2", "a2", ... */
  function Numbered(prefix: char, i: nat): string
    requires 1 <= i <= 9
  {
    [prefix, ('0' as int + i) as char]
  }

  function Asked(i: nat): Message requires 1 <= i <= 9 { Message("user", Numbered('q', i)) }
  function Answered(i: nat): Message requires 1 <= i <= 9 { Message("assistant", Numbered('a', i)) }

  /** The i-th chat of a scenario, answered by a single fragment and drained. */
  function NumberedChat(i: nat): Request
    requires 1 <= i <= 9
  {
    ChatRequest(map["message" := Numbered('q', i)], Production([Numbered('a', i)], true))
  }

  /** The first `n` chats of a scenario. */
  function Chats(n: nat): (rs: seq<Request>)
    requires n <= 9
    ensures |rs| == n
    ensures forall i :: 0 <= i < n ==> rs[i] == NumberedChat(i + 1)
  {
    seq(n, i requires 0 <= i < n => NumberedChat(i + 1))
  }

  /** A completed chat answered by a single fragment. */
  lemma OneFragmentChat(h: seq<Message>, q: string, a: string)
    ensures Next(State(true, h), ChatRequest(map["message" := q], Production([a], true))) ==
      State(true, AfterUserTurn(h, q) + [Message("assistant", a)])
  {
    JoinSnoc([], a);
    assert [] + [a] == [a];
    assert Join([a]) == a;
    assert MessageOf(map["message" := q]) == q;
  }

  /** Handling one more request after a sequence of them. */
  lemma RunSnoc(s: State, rs: seq<Request>, r: Request)
    ensures Run(s, rs + [r]) == Next(Run(s, rs), r)
  {
    assert (rs + [r])[..|rs|] == rs;
  }

  /** The first `k` questions, each followed by its answer. */
  function Exchanges(k: nat): (r: seq<Message>)
    requires k <= 9
    ensures |r| == 2 * k
  {
    if k == 0 then [] else Exchanges(k - 1) + [Asked(k), Answered(k)]
  }

  /** The first three chats from an empty history evict nothing: each adds its
      question and its answer. */
  lemma {:induction false} EarlyChats(k: nat)
    requires k <= 3
    ensures Run(State(true, []), Chats(k)).loaded
    ensures Run(State(true, []), Chats(k)).history == Exchanges(k)
  {
    if k > 0 {
      EarlyChats(k - 1);
      ChatsSnoc(k);
      RunSnoc(State(true, []), Chats(k - 1), NumberedChat(k));
      ShortHistoryChat(Exchanges(k - 1), k);
    }
  }

  lemma ChatsSnoc(k: nat)
    requires 1 <= k <= 9
    ensures Chats(k) == Chats(k - 1) + [NumberedChat(k)]
  {
  }

  /** The k-th chat on a history too short for truncation to evict anything. */
  lemma ShortHistoryChat(h: seq<Message>, k: nat)
    requires 1 <= k <= 9
    requires |h| < MaxHistory
    ensures Next(State(true, h), NumberedChat(k)) == State(true, h + [Asked(k), Answered(k)])
  {
    OneFragmentChat(h, Numbered('q', k), Numbered('a', k));
    assert AfterUserTurn(h, Numbered('q', k)) == h + [Asked(k)];
  }

  /** Four completed chats from an empty history leave seven entries, not the six the
      truncation comment promises: the oldest question is evicted, its answer stays
      and now opens the history. */
  lemma FourChatsKeepSeven()
    ensures Run(State(true, []), Chats(4)).history ==
      [Answered(1), Asked(2), Answered(2), Asked(3), Answered(3), Asked(4), Answered(4)]
  {
    EarlyChats(3);
    var h3 := Run(State(true, []), Chats(3)).history;
    assert h3 == [Asked(1), Answered(1), Asked(2), Answered(2), Asked(3), Answered(3)] by {
      assert Exchanges(0) == [];
    }
    assert Chats(4) == Chats(3) + [NumberedChat(4)];
    RunSnoc(State(true, []), Chats(3), NumberedChat(4));
    OneFragmentChat(h3, Numbered('q', 4), Numbered('a', 4));
    assert AfterUserTurn(h3, Numbered('q', 4)) == (h3 + [Asked(4)])[1..];
  }
}
