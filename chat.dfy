/** The chat router (src/server/api/routers/chat.ts) over an in-memory
    conversation store: sessions and messages scoped by their owner, keyset
    pagination, and the streaming relay that forwards model fragments and
    persists the finished exchange. */
module Chat {
  import opened Wrappers
  import opened Seqs
  import opened Trpc
  import Title
  import Gemini

  /** Row identifiers, as the database issues them. */
  type Id = nat

  const NewChatTitle: string := "New Chat"
  const DefaultLimit: nat := 20
  const MaxLimit: nat := 100
  /** Longest title `updateSessionTitle` accepts. */
  const MaxRenameLength: nat := 100
  const MaxContentLength: nat := 2000

  const NotFoundError := TrpcError(NotFound, "Session not found")
  /** What a turn ends with when obtaining or subscribing to the stream throws. */
  const ProcessStreamError := TrpcError(InternalServerError, "Failed to process stream")
  /** Input rejected by the procedure's schema; the schema's own message text is not modelled. */
  const BadRequestError := TrpcError(BadRequest, "Invalid input")

  datatype Role = User | Assistant

  /** The stored enum value, which is what the relay hands to the adapter. */
  function RoleName(role: Role): string {
    match role
    case User => "USER"
    case Assistant => "ASSISTANT"
  }

  datatype ChatSession = ChatSession(id: Id, userId: string, title: string, createdAt: nat, updatedAt: nat)

  datatype Message = Message(id: Id, sessionId: Id, role: Role, content: string, createdAt: nat)

  /** `getSession`'s answer: the session with its messages, oldest first. */
  datatype SessionView = SessionView(session: ChatSession, messages: seq<Message>)

  /** `getSessions`'s answer. */
  datatype Page = Page(sessions: seq<ChatSession>, nextCursor: Option<Id>)

  datatype DeleteAck = DeleteAck(success: bool)

  /** How a relayed turn ends for the subscriber. */
  datatype TurnEnd = Completed | Errored(error: TrpcError)

  /** What asking the text-completion service gives: it throws before any
      stream exists, or it hands back the stream it produces. */
  datatype ServiceCall = Threw | Opened(stream: Gemini.Stream)

  /** The caller's user id once the guard has let the call through. */
  function Caller(ctx: Context): (uid: Option<string>)
    ensures uid.Some? <==> Authenticated(ctx)
    ensures uid.Some? ==> ctx.session.value.user.value.id == uid.value
  {
    match EnforceUserIsAuthed(ctx)
    case Ok(authed) => Some(authed.user.id)
    case Err(_) => None
  }

  predicate Newer(a: ChatSession, b: ChatSession) {
    a.updatedAt > b.updatedAt
  }

  predicate DistinctIds(a: ChatSession, b: ChatSession) {
    a.id != b.id
  }

  predicate Earlier(a: Message, b: Message) {
    a.createdAt < b.createdAt
  }

  function OwnedBy(userId: string): ChatSession -> bool {
    (s: ChatSession) => s.userId == userId
  }

  function OtherThan(id: Id): ChatSession -> bool {
    (s: ChatSession) => s.id != id
  }

  function InSession(sessionId: Id): Message -> bool {
    (m: Message) => m.sessionId == sessionId
  }

  /** The sessions of one user, in store order. */
  function Owned(sessions: seq<ChatSession>, userId: string): (r: seq<ChatSession>)
    ensures forall s :: s in r <==> s in sessions && s.userId == userId
  {
    Filter(sessions, OwnedBy(userId))
  }

  /** The messages of one session, in creation order. */
  function MessagesOf(messages: seq<Message>, sessionId: Id): (r: seq<Message>)
    ensures forall m :: m in r <==> m in messages && m.sessionId == sessionId
  {
    Filter(messages, InSession(sessionId))
  }

  lemma MessagesOfAppend(messages: seq<Message>, m: Message, sessionId: Id)
    ensures MessagesOf(messages + [m], sessionId)
            == MessagesOf(messages, sessionId) + (if m.sessionId == sessionId then [m] else [])
  {
    FilterAppend(messages, m, InSession(sessionId));
  }

  /** `findFirst({ where: { id, userId } })`. */
  function FindFirst(sessions: seq<ChatSession>, id: Id, userId: string): (r: Option<ChatSession>)
    ensures r.Some? ==> r.value in sessions && r.value.id == id && r.value.userId == userId
    ensures r.None? <==> forall s :: s in sessions ==> s.id != id || s.userId != userId
  {
    if sessions == [] then None
    else if sessions[0].id == id && sessions[0].userId == userId then Some(sessions[0])
    else FindFirst(sessions[1..], id, userId)
  }

  /** Position of the row with identifier `id`, or `|sessions|` when there is none. */
  function IndexOfId(sessions: seq<ChatSession>, id: Id): (i: nat)
    ensures i <= |sessions|
    ensures i < |sessions| ==> sessions[i].id == id
    ensures forall k :: 0 <= k < i ==> sessions[k].id != id
  {
    if sessions == [] then 0
    else if sessions[0].id == id then 0
    else 1 + IndexOfId(sessions[1..], id)
  }

  /** Rows from the cursor row on, the cursor row included; nothing when the
      cursor names no row of the list. */
  function Window(owned: seq<ChatSession>, cursor: Option<Id>): (r: seq<ChatSession>)
    ensures |r| <= |owned| && r == owned[|owned| - |r|..]
    ensures forall s :: s in r ==> s in owned
    ensures cursor.None? ==> r == owned
    ensures cursor.Some? && r != [] ==> r[0].id == cursor.value
    ensures cursor.Some? ==> (r == [] <==> forall s :: s in owned ==> s.id != cursor.value)
  {
    match cursor
    case None => owned
    case Some(c) => owned[IndexOfId(owned, c)..]
  }

  /** `findMany({ where: { userId }, orderBy: { updatedAt: "desc" }, take, cursor })`. */
  function FindMany(sessions: seq<ChatSession>, userId: string, take: nat, cursor: Option<Id>): (r: seq<ChatSession>)
    ensures |r| <= take && r <= Window(Owned(sessions, userId), cursor)
    ensures |r| < take ==> r == Window(Owned(sessions, userId), cursor)
    ensures forall s :: s in r ==> s in sessions && s.userId == userId
  {
    var rows := Window(Owned(sessions, userId), cursor);
    rows[..Min(take, |rows|)]
  }

  /** The session `id` carries `title`; every other row is as it was. */
  function Retitle(sessions: seq<ChatSession>, id: Id, title: string): (r: seq<ChatSession>)
    ensures |r| == |sessions|
    ensures forall i :: 0 <= i < |r| ==>
              && r[i].id == sessions[i].id && r[i].userId == sessions[i].userId
              && r[i].createdAt == sessions[i].createdAt && r[i].updatedAt == sessions[i].updatedAt
              && r[i].title == (if sessions[i].id == id then title else sessions[i].title)
  {
    seq(|sessions|, i requires 0 <= i < |sessions| =>
      if sessions[i].id == id then sessions[i].(title := title) else sessions[i])
  }

  /** The `{ role, content }` pairs handed to the text-completion service. */
  function ToEntries(messages: seq<Message>): (r: seq<Gemini.HistoryEntry>)
    ensures |r| == |messages|
    ensures forall i :: 0 <= i < |r| ==>
              && (r[i].role == "USER" <==> messages[i].role == User)
              && r[i].content == messages[i].content
  {
    seq(|messages|, i requires 0 <= i < |messages| =>
      Gemini.HistoryEntry(RoleName(messages[i].role), messages[i].content))
  }

  predicate ValidLimit(limit: Option<int>) {
    limit.None? || 1 <= limit.value <= MaxLimit
  }

  function LimitOf(limit: Option<int>): (n: nat)
    requires ValidLimit(limit)
    ensures 1 <= n <= MaxLimit
    ensures limit.None? ==> n == DefaultLimit
    ensures limit.Some? ==> n == limit.value
  {
    if limit.None? then DefaultLimit else limit.value
  }

  /** The row popped off a page is where the next page starts: asking again
      with it as the cursor gives exactly the rows the page left out. */
  lemma NextPageStartsAtCursor(owned: seq<ChatSession>, cursor: Option<Id>, n: nat)
    requires Chain(owned, DistinctIds)
    requires |Window(owned, cursor)| > n
    ensures Window(owned, Some(Window(owned, cursor)[n].id)) == Window(owned, cursor)[n..]
  {
    var start := if cursor.None? then 0 else IndexOfId(owned, cursor.value);
    assert Window(owned, cursor) == owned[start..];
    var target := owned[start + n];
    assert Window(owned, cursor)[n] == target;
    var j := IndexOfId(owned, target.id);
    assert j == start + n;
    assert owned[j..] == owned[start..][n..];
  }

  /** Ownership lookups cannot tell a missing session from someone else's:
      both are the same `None`, and nothing else is. */
  lemma NotFoundIffMissingOrForeign(sessions: seq<ChatSession>, id: Id, userId: string)
    requires Chain(sessions, DistinctIds)
    ensures var i := IndexOfId(sessions, id);
            FindFirst(sessions, id, userId).None? <==> (i == |sessions| || sessions[i].userId != userId)
  {
    var i := IndexOfId(sessions, id);
    if i == |sessions| {
      forall s | s in sessions ensures s.id != id {
        var k :| 0 <= k < |sessions| && sessions[k] == s;
      }
    } else if sessions[i].userId != userId {
      forall s | s in sessions ensures s.id != id || s.userId != userId {
        var k :| 0 <= k < |sessions| && sessions[k] == s;
        if k != i {
          assert if k < i then DistinctIds(sessions[k], sessions[i]) else DistinctIds(sessions[i], sessions[k]);
        }
      }
    } else {
      assert sessions[i] in sessions;
    }
  }

  /** What one relayed turn on `session` does, from the store before it
      (`sessions0`, `messages0`, `clock0`, `nextId0`, `titled0`) to the store
      after it, given what asking the service over `history` gave (`call`). */
  ghost predicate TurnEffect(session: ChatSession, content: string,
                             sessions0: seq<ChatSession>, messages0: seq<Message>, clock0: nat, nextId0: nat, titled0: set<Id>,
                             sessions: seq<ChatSession>, messages: seq<Message>, titled: set<Id>, clock: nat, nextId: nat,
                             history: seq<Gemini.HistoryEntry>, call: ServiceCall,
                             emitted: seq<string>, end: TurnEnd)
    ensures TurnEffect(session, content, sessions0, messages0, clock0, nextId0, titled0,
                       sessions, messages, titled, clock, nextId, history, call, emitted, end) ==>
              && messages0 <= messages
              && |messages| == |messages0| + (if call.Opened? && call.stream.end.Finished? then 2 else 1)
              && |history| == |MessagesOf(messages0, session.id)| + 1
              && titled0 <= titled && titled - titled0 <= {session.id}
              && (call.Threw? ==> emitted == [] && end == Errored(ProcessStreamError))
  {
    var sessionId := session.id;
    var prior := MessagesOf(messages0, sessionId);
    var userMessage := Message(nextId0, sessionId, User, content, clock0 + 1);
    && history == ToEntries(prior) + [Gemini.HistoryEntry("USER", content)]
    && emitted == (if call.Opened? then call.stream.fragments else [])
    && (call.Threw? ==> end == Errored(ProcessStreamError))
    && (call.Opened? && call.stream.end.Failed? ==>
          end == Errored(TrpcError(InternalServerError, call.stream.end.message)))
    && (call.Threw? || call.stream.end.Failed? ==>
          && messages == messages0 + [userMessage]
          && MessagesOf(messages, sessionId) == prior + [userMessage]
          && clock == clock0 + 1 && nextId == nextId0 + 1
          && sessions == sessions0 && titled == titled0)
    && (call.Opened? && call.stream.end.Finished? ==>
          var assistantMessage := Message(nextId0 + 1, sessionId, Assistant, Concat(emitted), clock0 + 2);
          && end == Completed
          && messages == messages0 + [userMessage, assistantMessage]
          && MessagesOf(messages, sessionId) == prior + [userMessage, assistantMessage]
          && clock == clock0 + 3 && nextId == nextId0 + 2
          && sessions == [session.(title := RelayTitle(session, prior, content), updatedAt := clock0 + 3)]
                         + Filter(sessions0, OtherThan(sessionId))
          && (Retitles(session, prior) ==> sessionId !in titled0)
          && titled == (if Retitles(session, prior) then titled0 + {sessionId} else titled0))
  }

  /** When asking the service throws, the turn keeps the user message and
      nothing else, forwards nothing, and ends with "Failed to process stream".
      This is every turn of the router as written: the stream function it
      imports (src/server/api/routers/chat.ts:6) is not one the adapter module defines. */
  lemma ThrowingServiceFailsTurn(session: ChatSession, content: string,
                                 sessions0: seq<ChatSession>, messages0: seq<Message>, clock0: nat, nextId0: nat, titled0: set<Id>,
                                 sessions: seq<ChatSession>, messages: seq<Message>, titled: set<Id>, clock: nat, nextId: nat,
                                 history: seq<Gemini.HistoryEntry>, emitted: seq<string>, end: TurnEnd)
    requires TurnEffect(session, content, sessions0, messages0, clock0, nextId0, titled0,
                        sessions, messages, titled, clock, nextId, history, ServiceCall.Threw, emitted, end)
    ensures end == Errored(ProcessStreamError) && emitted == []
    ensures |messages| == |messages0| + 1 && messages[..|messages0|] == messages0
    ensures messages[|messages0|].role == User && messages[|messages0|].content == content
    ensures sessions == sessions0 && titled == titled0
  {
    assert messages[..|messages0|] == messages0;
  }

  /** With a stream in hand that ends normally, the stored reply is exactly
      the forwarded text: the behaviour the relay is written for. */
  lemma FinishedStreamStoresReply(session: ChatSession, content: string,
                                  sessions0: seq<ChatSession>, messages0: seq<Message>, clock0: nat, nextId0: nat, titled0: set<Id>,
                                  sessions: seq<ChatSession>, messages: seq<Message>, titled: set<Id>, clock: nat, nextId: nat,
                                  history: seq<Gemini.HistoryEntry>, stream: Gemini.Stream, emitted: seq<string>, end: TurnEnd)
    requires stream.end.Finished?
    requires TurnEffect(session, content, sessions0, messages0, clock0, nextId0, titled0,
                        sessions, messages, titled, clock, nextId, history, Opened(stream), emitted, end)
    ensures end == Completed && emitted == stream.fragments
    ensures |messages| == |messages0| + 2 && messages[..|messages0|] == messages0
    ensures messages[|messages0|].role == User && messages[|messages0|].content == content
    ensures messages[|messages0| + 1].role == Assistant && messages[|messages0| + 1].content == Concat(stream.fragments)
  {
    assert messages[..|messages0|] == messages0;
  }

  lemma ToEntriesAppend(messages: seq<Message>, m: Message)
    ensures ToEntries(messages + [m]) == ToEntries(messages) + [Gemini.HistoryEntry(RoleName(m.role), m.content)]
  {
    var l, r := ToEntries(messages + [m]), ToEntries(messages) + [Gemini.HistoryEntry(RoleName(m.role), m.content)];
    assert |l| == |r|;
    forall i | 0 <= i < |l| ensures l[i] == r[i] {
      if i < |messages| {
        assert (messages + [m])[i] == messages[i];
      }
    }
  }

  /** Whether completing a turn replaces the title: the session had no
      messages before it and still carries the placeholder. */
  predicate Retitles(session: ChatSession, prior: seq<Message>) {
    prior == [] && session.title == NewChatTitle
  }

  /** The title a session has after a completed turn. */
  function RelayTitle(session: ChatSession, prior: seq<Message>, content: string): (t: string)
    ensures Retitles(session, prior) ==> t == Title.GenerateSessionTitle(content)
    ensures !Retitles(session, prior) ==> t == session.title
    ensures Retitles(session, prior) ==> !Retitles(session.(title := t), prior)
  {
    if Retitles(session, prior) then Title.GenerateSessionTitle(content) else session.title
  }

  /** Proof step for `RelayTurn`: the failure branch of `TurnEffect`, from its parts. */
  lemma FailedTurnEffect(session: ChatSession, content: string,
                         sessions0: seq<ChatSession>, messages0: seq<Message>, clock0: nat, nextId0: nat, titled0: set<Id>,
                         sessions: seq<ChatSession>, messages: seq<Message>, titled: set<Id>, clock: nat, nextId: nat,
                         history: seq<Gemini.HistoryEntry>, upstream: Gemini.Stream,
                         emitted: seq<string>, end: TurnEnd)
    requires history == ToEntries(MessagesOf(messages0, session.id)) + [Gemini.HistoryEntry("USER", content)]
    requires emitted == upstream.fragments
    requires upstream.end.Failed? && end == Errored(TrpcError(InternalServerError, upstream.end.message))
    requires messages == messages0 + [Message(nextId0, session.id, User, content, clock0 + 1)]
    requires MessagesOf(messages, session.id) == MessagesOf(messages0, session.id) + [Message(nextId0, session.id, User, content, clock0 + 1)]
    requires sessions == sessions0 && titled == titled0
    requires clock == clock0 + 1 && nextId == nextId0 + 1
    ensures TurnEffect(session, content, sessions0, messages0, clock0, nextId0, titled0,
                       sessions, messages, titled, clock, nextId, history, Opened(upstream), emitted, end)
  {
  }

  /** Proof step for `RelayTurn`: the completion branch of `TurnEffect`, from its parts. */
  lemma CompletedTurnEffect(session: ChatSession, content: string,
                            sessions0: seq<ChatSession>, messages0: seq<Message>, clock0: nat, nextId0: nat, titled0: set<Id>,
                            messages1: seq<Message>,
                            sessions: seq<ChatSession>, messages: seq<Message>, titled: set<Id>, clock: nat, nextId: nat,
                            history: seq<Gemini.HistoryEntry>, upstream: Gemini.Stream,
                            emitted: seq<string>, end: TurnEnd)
    requires history == ToEntries(MessagesOf(messages0, session.id)) + [Gemini.HistoryEntry("USER", content)]
    requires emitted == upstream.fragments
    requires upstream.end.Finished? && end == Completed
    requires messages1 == messages0 + [Message(nextId0, session.id, User, content, clock0 + 1)]
    requires MessagesOf(messages1, session.id) == MessagesOf(messages0, session.id) + [Message(nextId0, session.id, User, content, clock0 + 1)]
    requires messages == messages1 + [Message(nextId0 + 1, session.id, Assistant, Concat(emitted), clock0 + 2)]
    requires MessagesOf(messages, session.id) == MessagesOf(messages1, session.id)
               + [Message(nextId0 + 1, session.id, Assistant, Concat(emitted), clock0 + 2)]
    requires sessions == [session.(title := RelayTitle(session, MessagesOf(messages0, session.id), content),
                                   updatedAt := clock0 + 3)]
                         + Filter(sessions0, OtherThan(session.id))
    requires Retitles(session, MessagesOf(messages0, session.id)) ==> session.id !in titled0
    requires titled == (if Retitles(session, MessagesOf(messages0, session.id)) then titled0 + {session.id} else titled0)
    requires clock == clock0 + 3 && nextId == nextId0 + 2
    ensures TurnEffect(session, content, sessions0, messages0, clock0, nextId0, titled0,
                       sessions, messages, titled, clock, nextId, history, Opened(upstream), emitted, end)
  {
    var prior := MessagesOf(messages0, session.id);
    var u := Message(nextId0, session.id, User, content, clock0 + 1);
    var a := Message(nextId0 + 1, session.id, Assistant, Concat(emitted), clock0 + 2);
    assert messages0 + [u] + [a] == messages0 + [u, a];
    assert prior + [u] + [a] == prior + [u, a];
  }

  /** The conversation store, with a monotone clock standing for `new Date()`. */
  class ChatStore {
    /** Session rows, most recently updated first. */
    var sessions: seq<ChatSession>
    /** Message rows in creation order. */
    var messages: seq<Message>
    /** The last timestamp handed out. */
    var clock: nat
    /** The identifier the next created row receives. */
    var nextId: nat
    /** Sessions whose placeholder title the relay has replaced. */
    ghost var autoTitled: set<Id>

    ghost predicate Valid()
      reads this
    {
      && Chain(sessions, Newer)
      && Chain(sessions, DistinctIds)
      && Chain(messages, Earlier)
      && (forall s :: s in sessions ==> s.createdAt <= s.updatedAt <= clock && s.id < nextId)
      && (forall m :: m in messages ==> m.createdAt <= clock && m.id < nextId)
      && (forall id :: id in autoTitled ==> MessagesOf(messages, id) != [])
    }

    constructor ()
      ensures Valid()
      ensures sessions == [] && messages == [] && autoTitled == {}
      ensures clock == 0 && nextId == 0
    {
      sessions, messages, clock, nextId := [], [], 0, 0;
      autoTitled := {};
    }

    /** `createSession`: a session of the caller titled "New Chat"; the
        optional `title` and `firstMessege` inputs are ignored. */
    method CreateSession(ctx: Context, title: Option<string>, firstMessege: Option<string>)
      returns (r: Result<ChatSession, TrpcError>)
      requires Valid()
      modifies this
      ensures Valid()
      ensures !Authenticated(ctx) ==> r == Err(UnauthorizedError) && unchanged(this)
      ensures Authenticated(ctx) ==>
                && r == Ok(ChatSession(old(nextId), Caller(ctx).value, NewChatTitle, old(clock) + 1, old(clock) + 1))
                && (forall s :: s in old(sessions) ==> s.id != r.value.id)
                && sessions == [r.value] + old(sessions)
                && messages == old(messages) && autoTitled == old(autoTitled)
                && clock == old(clock) + 1 && nextId == old(nextId) + 1
    {
      var auth := EnforceUserIsAuthed(ctx);
      if auth.Err? {
        return Err(auth.error);
      }
      clock := clock + 1;
      var session := ChatSession(nextId, auth.value.user.id, NewChatTitle, clock, clock);
      nextId := nextId + 1;
      ChainCons(session, sessions, Newer);
      ChainCons(session, sessions, DistinctIds);
      sessions := [session] + sessions;
      r := Ok(session);
    }

    /** `getSessions`: one page of the caller's sessions, most recently updated
        first, fetched as `limit + 1` rows whose extra row becomes `nextCursor`. */
    method GetSessions(ctx: Context, limit: Option<int>, cursor: Option<Id>) returns (r: Result<Page, TrpcError>)
      requires Valid()
      ensures !Authenticated(ctx) ==> r == Err(UnauthorizedError)
      ensures Authenticated(ctx) && !ValidLimit(limit) ==> r == Err(BadRequestError)
      ensures Authenticated(ctx) && ValidLimit(limit) ==>
                var n := LimitOf(limit);
                var owned := Owned(sessions, Caller(ctx).value);
                var rows := Window(owned, cursor);
                && r.Ok?
                && r.value.sessions == rows[..Min(n, |rows|)]
                && (r.value.nextCursor.Some? <==> |rows| > n)
                && (|rows| > n ==> r.value.nextCursor == Some(rows[n].id)
                                   && Window(owned, r.value.nextCursor) == rows[n..])
      ensures r.Ok? ==>
                && |r.value.sessions| <= LimitOf(limit)
                && (forall s :: s in r.value.sessions ==> s in sessions && s.userId == Caller(ctx).value)
                && Chain(r.value.sessions, Newer)
    {
      var auth := EnforceUserIsAuthed(ctx);
      if auth.Err? {
        return Err(auth.error);
      }
      if !ValidLimit(limit) {
        return Err(BadRequestError);
      }
      var page := Paginate(sessions, auth.value.user.id, LimitOf(limit), cursor);
      r := Ok(page);
    }

    /** `getSession`: the caller's session with all its messages, oldest first. */
    method GetSession(ctx: Context, sessionId: Id) returns (r: Result<SessionView, TrpcError>)
      requires Valid()
      ensures !Authenticated(ctx) ==> r == Err(UnauthorizedError)
      ensures Authenticated(ctx) ==>
                (r.Ok? <==> FindFirst(sessions, sessionId, Caller(ctx).value).Some?)
      ensures Authenticated(ctx) && FindFirst(sessions, sessionId, Caller(ctx).value).None? ==>
                r == Err(NotFoundError)
      ensures r.Ok? ==>
                && r.value.session in sessions
                && r.value.session.id == sessionId
                && r.value.session.userId == Caller(ctx).value
                && (forall m :: m in r.value.messages <==> m in messages && m.sessionId == sessionId)
                && Chain(r.value.messages, Earlier)
    {
      var auth := EnforceUserIsAuthed(ctx);
      if auth.Err? {
        return Err(auth.error);
      }
      var found := FindFirst(sessions, sessionId, auth.value.user.id);
      if found.None? {
        return Err(NotFoundError);
      }
      FilterChain(messages, InSession(sessionId), Earlier);
      r := Ok(SessionView(found.value, MessagesOf(messages, sessionId)));
    }

    /** `updateSessionTitle`: renames one of the caller's sessions and touches nothing else. */
    method UpdateSessionTitle(ctx: Context, sessionId: Id, title: string) returns (r: Result<ChatSession, TrpcError>)
      requires Valid()
      modifies this
      ensures Valid()
      ensures !Authenticated(ctx) ==> r == Err(UnauthorizedError) && unchanged(this)
      ensures Authenticated(ctx) && !(1 <= |title| <= MaxRenameLength) ==>
                r == Err(BadRequestError) && unchanged(this)
      ensures Authenticated(ctx) && 1 <= |title| <= MaxRenameLength
              && FindFirst(old(sessions), sessionId, Caller(ctx).value).None? ==>
                r == Err(NotFoundError) && unchanged(this)
      ensures Authenticated(ctx) && 1 <= |title| <= MaxRenameLength
              && FindFirst(old(sessions), sessionId, Caller(ctx).value).Some? ==>
                && r == Ok(FindFirst(old(sessions), sessionId, Caller(ctx).value).value.(title := title))
                && sessions == Retitle(old(sessions), sessionId, title)
                && FindFirst(sessions, sessionId, Caller(ctx).value) == Some(r.value)
                && (forall s :: s in old(sessions) && s.id != sessionId ==> s in sessions)
                && (forall s :: s in sessions && s.id != sessionId ==> s in old(sessions))
                && messages == old(messages) && clock == old(clock) && nextId == old(nextId)
                && autoTitled == old(autoTitled)
    {
      var auth := EnforceUserIsAuthed(ctx);
      if auth.Err? {
        return Err(auth.error);
      }
      if !(1 <= |title| <= MaxRenameLength) {
        return Err(BadRequestError);
      }
      var found := FindFirst(sessions, sessionId, auth.value.user.id);
      if found.None? {
        return Err(NotFoundError);
      }
      ghost var before := sessions;
      var renamed := Retitle(sessions, sessionId, title);
      RetitleKeepsOrder(before, sessionId, title);
      RetitleFinds(before, sessionId, auth.value.user.id, title);
      sessions := renamed;
      r := Ok(found.value.(title := title));
    }

    /** `deleteSession`: removes one of the caller's sessions, after which it is not found. */
    method DeleteSession(ctx: Context, sessionId: Id) returns (r: Result<DeleteAck, TrpcError>)
      requires Valid()
      modifies this
      ensures Valid()
      ensures !Authenticated(ctx) ==> r == Err(UnauthorizedError) && unchanged(this)
      ensures Authenticated(ctx) && FindFirst(old(sessions), sessionId, Caller(ctx).value).None? ==>
                r == Err(NotFoundError) && unchanged(this)
      ensures Authenticated(ctx) && FindFirst(old(sessions), sessionId, Caller(ctx).value).Some? ==>
                && r == Ok(DeleteAck(true))
                && sessions == Filter(old(sessions), OtherThan(sessionId))
                && (forall s :: s in sessions <==> s in old(sessions) && s.id != sessionId)
                && (forall userId :: FindFirst(sessions, sessionId, userId).None?)
                && messages == old(messages) && clock == old(clock) && nextId == old(nextId)
                && autoTitled == old(autoTitled)
    {
      var auth := EnforceUserIsAuthed(ctx);
      if auth.Err? {
        return Err(auth.error);
      }
      var found := FindFirst(sessions, sessionId, auth.value.user.id);
      if found.None? {
        return Err(NotFoundError);
      }
      FilterChain(sessions, OtherThan(sessionId), Newer);
      FilterChain(sessions, OtherThan(sessionId), DistinctIds);
      sessions := Filter(sessions, OtherThan(sessionId));
      r := Ok(DeleteAck(true));
    }

    /** `message.create`: a new row stamped with the next tick of the clock. */
    method CreateMessage(sessionId: Id, role: Role, content: string) returns (m: Message)
      requires Valid()
      modifies this
      ensures Valid()
      ensures m == Message(old(nextId), sessionId, role, content, old(clock) + 1)
      ensures messages == old(messages) + [m]
      ensures MessagesOf(messages, sessionId) == MessagesOf(old(messages), sessionId) + [m]
      ensures sessions == old(sessions) && autoTitled == old(autoTitled)
      ensures clock == old(clock) + 1 && nextId == old(nextId) + 1
    {
      clock := clock + 1;
      m := Message(nextId, sessionId, role, content, clock);
      nextId := nextId + 1;
      forall id | id in autoTitled ensures MessagesOf(messages + [m], id) != [] {
        MessagesOfAppend(messages, m, id);
      }
      MessagesOfAppend(messages, m, sessionId);
      ChainSnoc(messages, m, Earlier);
      messages := messages + [m];
    }

    /** `chatSession.update` with a title and `updatedAt: new Date()`: the
        session moves to the front of the most-recently-updated order. */
    method TouchSession(s: ChatSession, title: string) returns (updated: ChatSession)
      requires Valid()
      requires s in sessions
      modifies this
      ensures Valid()
      ensures updated == s.(title := title, updatedAt := old(clock) + 1)
      ensures sessions == [updated] + Filter(old(sessions), OtherThan(s.id))
      ensures messages == old(messages) && nextId == old(nextId) && autoTitled == old(autoTitled)
      ensures clock == old(clock) + 1
    {
      clock := clock + 1;
      updated := s.(title := title, updatedAt := clock);
      var others := Filter(sessions, OtherThan(s.id));
      FilterChain(sessions, OtherThan(s.id), Newer);
      FilterChain(sessions, OtherThan(s.id), DistinctIds);
      ChainCons(updated, others, Newer);
      ChainCons(updated, others, DistinctIds);
      sessions := [updated] + others;
    }

    /** The completion step of the relay: store the accumulated text as the
        assistant message, then either give a session that had no messages and
        still carries the placeholder its generated title, or only touch it. */
    method Finish(session: ChatSession, prior: seq<Message>, userContent: string, fullResponse: string)
      returns (assistantMessage: Message)
      requires Valid()
      requires session in sessions
      requires prior == [] ==> session.id !in autoTitled
      modifies this
      ensures Valid()
      ensures assistantMessage == Message(old(nextId), session.id, Assistant, fullResponse, old(clock) + 1)
      ensures messages == old(messages) + [assistantMessage]
      ensures MessagesOf(messages, session.id) == MessagesOf(old(messages), session.id) + [assistantMessage]
      ensures sessions == [session.(title := RelayTitle(session, prior, userContent), updatedAt := old(clock) + 2)]
                          + Filter(old(sessions), OtherThan(session.id))
      ensures autoTitled == (if Retitles(session, prior) then old(autoTitled) + {session.id} else old(autoTitled))
      ensures clock == old(clock) + 2 && nextId == old(nextId) + 1
    {
      assistantMessage := CreateMessage(session.id, Assistant, fullResponse);
      if Retitles(session, prior) {
        var _ := TouchSession(session, Title.GenerateSessionTitle(userContent));
        autoTitled := autoTitled + {session.id};
      } else {
        var _ := TouchSession(session, session.title);
      }
    }

    /** `streamResponse`: one turn of the conversation. After the guard, the
        input check and the ownership lookup, the turn proper runs as in
        `RelayTurn`; each of the three failures before it changes nothing and
        forwards nothing. */
    method StreamResponse(ctx: Context, sessionId: Id, content: string,
                          service: seq<Gemini.HistoryEntry> -> ServiceCall)
      returns (history: seq<Gemini.HistoryEntry>, emitted: seq<string>, end: TurnEnd)
      requires Valid()
      modifies this
      ensures Valid()
      ensures !Authenticated(ctx) ==>
                history == [] && emitted == [] && end == Errored(UnauthorizedError) && unchanged(this)
      ensures Authenticated(ctx) && !(1 <= |content| <= MaxContentLength) ==>
                history == [] && emitted == [] && end == Errored(BadRequestError) && unchanged(this)
      ensures Authenticated(ctx) && 1 <= |content| <= MaxContentLength
              && FindFirst(old(sessions), sessionId, Caller(ctx).value).None? ==>
                history == [] && emitted == [] && end == Errored(NotFoundError) && unchanged(this)
      ensures Authenticated(ctx) && 1 <= |content| <= MaxContentLength
              && FindFirst(old(sessions), sessionId, Caller(ctx).value).Some? ==>
                TurnEffect(FindFirst(old(sessions), sessionId, Caller(ctx).value).value, content,
                           old(sessions), old(messages), old(clock), old(nextId), old(autoTitled),
                           sessions, messages, autoTitled, clock, nextId, history, service(history), emitted, end)
    {
      history, emitted := [], [];
      var auth := EnforceUserIsAuthed(ctx);
      if auth.Err? {
        end := Errored(auth.error);
        return;
      }
      if !(1 <= |content| <= MaxContentLength) {
        end := Errored(BadRequestError);
        return;
      }
      var found := FindFirst(sessions, sessionId, auth.value.user.id);
      if found.None? {
        end := Errored(NotFoundError);
        return;
      }
      history, emitted, end := RelayTurn(found.value, content, service);
    }

    /** The turn proper, on a session the caller owns: the user message is
        stored, the service is asked over the prior messages plus the new one,
        every fragment is forwarded and accumulated, and on completion the
        accumulated text is stored as the assistant message and the session is
        retitled (first exchange of a "New Chat" session) or only touched. */
    method RelayTurn(session: ChatSession, content: string, service: seq<Gemini.HistoryEntry> -> ServiceCall)
      returns (history: seq<Gemini.HistoryEntry>, emitted: seq<string>, end: TurnEnd)
      requires Valid()
      requires session in sessions
      modifies this
      ensures Valid()
      ensures TurnEffect(session, content, old(sessions), old(messages), old(clock), old(nextId), old(autoTitled),
                         sessions, messages, autoTitled, clock, nextId, history, service(history), emitted, end)
    {
      ghost var sessions0, messages0, clock0, nextId0, titled0 := sessions, messages, clock, nextId, autoTitled;
      var prior := MessagesOf(messages, session.id);
      // The user message is durable before the service is asked anything.
      var userMessage := CreateMessage(session.id, User, content);
      history := ToEntries(prior + [userMessage]);
      ToEntriesAppend(prior, userMessage);
      var call := service(history);
      if call.Threw? {
        emitted, end := [], Errored(ProcessStreamError);
        return;
      }
      var upstream := call.stream;
      var fullResponse;
      emitted, fullResponse := Forward(upstream.fragments);
      if upstream.end.Failed? {
        end := Errored(TrpcError(InternalServerError, upstream.end.message));
        FailedTurnEffect(session, content, sessions0, messages0, clock0, nextId0, titled0,
                         sessions, messages, autoTitled, clock, nextId, history, upstream, emitted, end);
        assert Opened(upstream) == call;
      } else {
        end := Complete(session, prior, content, history, upstream, emitted, fullResponse,
                        sessions0, messages0, clock0, nextId0, titled0);
      }
    }

    /** The completion of a relayed turn: the user message is stored (the
        store differs from `sessions0`, `messages0`, `clock0`, `nextId0`,
        `titled0` by that message alone) and the stream `upstream` has ended
        normally after `emitted`; store the accumulated text and touch or
        retitle the session. */
    method Complete(session: ChatSession, prior: seq<Message>, content: string,
                    history: seq<Gemini.HistoryEntry>, upstream: Gemini.Stream,
                    emitted: seq<string>, fullResponse: string,
                    ghost sessions0: seq<ChatSession>, ghost messages0: seq<Message>, ghost clock0: nat,
                    ghost nextId0: nat, ghost titled0: set<Id>)
      returns (end: TurnEnd)
      requires Valid()
      requires session in sessions
      requires prior == MessagesOf(messages0, session.id)
      requires history == ToEntries(prior) + [Gemini.HistoryEntry("USER", content)]
      requires messages == messages0 + [Message(nextId0, session.id, User, content, clock0 + 1)]
      requires MessagesOf(messages, session.id) == prior + [Message(nextId0, session.id, User, content, clock0 + 1)]
      requires clock == clock0 + 1 && nextId == nextId0 + 1
      requires sessions == sessions0 && autoTitled == titled0
      requires prior == [] ==> session.id !in autoTitled
      requires upstream.end.Finished? && emitted == upstream.fragments && fullResponse == Concat(emitted)
      modifies this
      ensures Valid()
      ensures TurnEffect(session, content, sessions0, messages0, clock0, nextId0, titled0,
                         sessions, messages, autoTitled, clock, nextId, history, Opened(upstream), emitted, end)
    {
      ghost var messages1 := messages;
      var assistantMessage := Finish(session, prior, content, fullResponse);
      assert assistantMessage == Message(nextId0 + 1, session.id, Assistant, Concat(emitted), clock0 + 2);
      end := Completed;
      CompletedTurnEffect(session, content, sessions0, messages0, clock0, nextId0, titled0, messages1,
                          sessions, messages, autoTitled, clock, nextId, history, upstream, emitted, end);
    }
  }

  /** One page of `getSessions`: ask for one row more than the limit; when it
      comes back, pop it and return its id as the next cursor. */
  method Paginate(sessions: seq<ChatSession>, userId: string, n: nat, cursor: Option<Id>) returns (page: Page)
    requires Chain(sessions, Newer) && Chain(sessions, DistinctIds)
    ensures var owned := Owned(sessions, userId);
            var rows := Window(owned, cursor);
            && page.sessions == rows[..Min(n, |rows|)]
            && (page.nextCursor.Some? <==> |rows| > n)
            && (|rows| > n ==> page.nextCursor == Some(rows[n].id)
                               && Window(owned, page.nextCursor) == rows[n..])
    ensures |page.sessions| <= n
    ensures forall s :: s in page.sessions ==> s in sessions && s.userId == userId
    ensures Chain(page.sessions, Newer)
  {
    var rows := FindMany(sessions, userId, n + 1, cursor);
    FindManyOrdered(sessions, userId, n + 1, cursor);
    if |rows| > n {
      PopExtraRow(sessions, userId, n, cursor);
      page := Page(rows[..n], Some(rows[n].id));
    } else {
      page := Page(rows, None);
    }
  }

  /** When the lookahead row came back, dropping it leaves the first `n` rows
      of the window, still in order and still the caller's, and the window
      kept by the next page starts at it. */
  lemma PopExtraRow(sessions: seq<ChatSession>, userId: string, n: nat, cursor: Option<Id>)
    requires Chain(sessions, Newer) && Chain(sessions, DistinctIds)
    requires |FindMany(sessions, userId, n + 1, cursor)| > n
    ensures var owned := Owned(sessions, userId);
            var window := Window(owned, cursor);
            var rows := FindMany(sessions, userId, n + 1, cursor);
            && |window| > n && rows[..n] == window[..n] && rows[n] == window[n]
            && Window(owned, Some(window[n].id)) == window[n..]
            && Chain(rows[..n], Newer)
            && (forall s :: s in rows[..n] ==> s in sessions && s.userId == userId)
  {
    var owned := Owned(sessions, userId);
    var window := Window(owned, cursor);
    var rows := FindMany(sessions, userId, n + 1, cursor);
    FindManyOrdered(sessions, userId, n + 1, cursor);
    assert |window| > n && rows == window[..n + 1];
    assert rows[..n] == window[..n];
    ChainSlice(rows, 0, n, Newer);
    assert forall s :: s in rows[..n] ==> s in rows;
    FilterChain(sessions, OwnedBy(userId), DistinctIds);
    NextPageStartsAtCursor(owned, cursor, n);
  }

  /** What `stream.subscribe({ next })` does with each fragment: forward it
      to the subscriber and append it to `fullResponse`. */
  method Forward(fragments: seq<string>) returns (emitted: seq<string>, fullResponse: string)
    ensures emitted == fragments
    ensures fullResponse == Concat(emitted)
  {
    emitted, fullResponse := [], "";
    var i := 0;
    while i < |fragments|
      invariant 0 <= i <= |fragments|
      invariant emitted == fragments[..i]
      invariant fullResponse == Concat(emitted)
    {
      var chunk := fragments[i];
      ConcatAppend(emitted, chunk);
      fullResponse := fullResponse + chunk;
      emitted := emitted + [chunk];
      i := i + 1;
    }
    assert emitted == fragments;
  }

  /** The ORM query keeps the store's most-recently-updated-first order. */
  lemma FindManyOrdered(sessions: seq<ChatSession>, userId: string, take: nat, cursor: Option<Id>)
    requires Chain(sessions, Newer)
    ensures Chain(FindMany(sessions, userId, take, cursor), Newer)
  {
    var owned := Owned(sessions, userId);
    FilterChain(sessions, OwnedBy(userId), Newer);
    var start := if cursor.None? then 0 else IndexOfId(owned, cursor.value);
    var window := owned[start..];
    assert Window(owned, cursor) == window;
    ChainSlice(owned, start, |owned|, Newer);
    var m := Min(take, |window|);
    assert FindMany(sessions, userId, take, cursor) == window[..m];
    ChainSlice(window, 0, m, Newer);
  }

  lemma RetitleKeepsOrder(sessions: seq<ChatSession>, id: Id, title: string)
    requires Chain(sessions, Newer) && Chain(sessions, DistinctIds)
    ensures Chain(Retitle(sessions, id, title), Newer) && Chain(Retitle(sessions, id, title), DistinctIds)
  {
    var r := Retitle(sessions, id, title);
    assert forall i :: 0 <= i < |r| ==> r[i].id == sessions[i].id && r[i].updatedAt == sessions[i].updatedAt;
  }

  lemma RetitleFinds(sessions: seq<ChatSession>, id: Id, userId: string, title: string)
    requires Chain(sessions, DistinctIds)
    requires FindFirst(sessions, id, userId).Some?
    ensures FindFirst(Retitle(sessions, id, title), id, userId) == Some(FindFirst(sessions, id, userId).value.(title := title))
    ensures forall s :: s in sessions && s.id != id ==> s in Retitle(sessions, id, title)
    ensures forall s :: s in Retitle(sessions, id, title) && s.id != id ==> s in sessions
  {
    var r := Retitle(sessions, id, title);
    var found := FindFirst(sessions, id, userId).value;
    var k :| 0 <= k < |sessions| && sessions[k] == found;
    forall j | 0 <= j < |sessions| && j != k ensures sessions[j].id != id {
      assert if j < k then DistinctIds(sessions[j], sessions[k]) else DistinctIds(sessions[k], sessions[j]);
    }
    assert r[k] == found.(title := title);
    FindFirstUnique(r, k, id, userId);
    forall s | s in sessions && s.id != id ensures s in r {
      var j :| 0 <= j < |sessions| && sessions[j] == s;
      assert r[j] == s;
    }
    forall s | s in r && s.id != id ensures s in sessions {
      var j :| 0 <= j < |r| && r[j] == s;
      assert sessions[j] == s;
    }
  }

  lemma FindFirstUnique(sessions: seq<ChatSession>, k: nat, id: Id, userId: string)
    requires k < |sessions| && sessions[k].id == id && sessions[k].userId == userId
    requires forall j :: 0 <= j < |sessions| && j != k ==> sessions[j].id != id
    ensures FindFirst(sessions, id, userId) == Some(sessions[k])
  {
    if k > 0 {
      FindFirstUnique(sessions[1..], k - 1, id, userId);
    }
  }
}
