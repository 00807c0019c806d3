/**
 * The chat relay service: the credential slot, the in-memory session store,
 * and the request handlers that set the key, relay a chat turn, clear a
 * session and list the models.
 */
module Relay {
  import opened Wrappers
  import opened Registry
  import opened Context
  import opened Stream

  /** Session identifier to the session's turns, oldest first. */
  type Sessions = map<string, seq<Turn>>

  /** The fields of a `/api/chat` body; each may be absent. */
  datatype ChatRequest = ChatRequest(message: Option<string>, model: Option<string>, sessionId: Option<string>)

  /**
   * A handler's response: a plain JSON error with its status, a JSON success
   * body with its message, or a 200 event stream with the frames written to it.
   */
  datatype Reply = Rejected(status: int, error: string) | Accepted(message: string) | Streamed(frames: seq<Frame>)

  /** The arguments of the upstream completion request: the messages and the provider model identifier. */
  datatype Completion = Completion(messages: seq<Turn>, model: string)

  /** The outcome of the validation of a chat request. */
  datatype Admission = Admit(sessionId: string, message: string, model: string) | Refuse(status: int, error: string)

  /** Everything one chat request produces: the new session store, the response, and what was sent upstream. */
  datatype Exchange = Exchange(sessions: Sessions, reply: Reply, sent: Option<Completion>)

  const DefaultSession: string := "default"

  const NoKeyError: string := "API key not set. Please set your Groq API key first."
  const MessageRequired: string := "Message is required"
  const InvalidModel: string := "Invalid model selected"
  const KeyRequired: string := "API key is required"
  const InvalidKeyFormat: string := "Invalid API key format"
  const KeySet: string := "API key set successfully"
  const HistoryCleared: string := "Chat history cleared"

  /** A JavaScript string is truthy when it is present and not empty. */
  predicate Truthy(s: Option<string>) {
    s.Some? && s.value != ""
  }

  function SessionKey(sessionId: Option<string>): string {
    sessionId.GetOr(DefaultSession)
  }

  function ModelKey(req: ChatRequest): string {
    req.model.GetOr(DefaultModel)
  }

  /** The turns stored under `id`; an absent session reads as empty. */
  function History(sessions: Sessions, id: string): seq<Turn> {
    if id in sessions then sessions[id] else []
  }

  /**
   * The checks of `/api/chat`, in order: a credential is set, the message is
   * non-empty, the model key is in the registry. The first failing check
   * decides the 400 response; a request that passes all three is admitted
   * with its defaults filled in.
   */
  function Gate(hasKey: bool, req: ChatRequest): (r: Admission)
    ensures !hasKey ==> r == Refuse(400, NoKeyError)
    ensures hasKey && !Truthy(req.message) ==> r == Refuse(400, MessageRequired)
    ensures hasKey && Truthy(req.message) && Lookup(ModelKey(req)).None? ==> r == Refuse(400, InvalidModel)
    ensures r.Admit? <==> hasKey && Truthy(req.message) && Lookup(ModelKey(req)).Some?
    ensures r.Admit? ==> r.message == req.message.value && Lookup(ModelKey(req)) == Some(r.model)
    ensures r.Admit? ==> r.sessionId == (if req.sessionId.Some? then req.sessionId.value else DefaultSession)
  {
    if !hasKey then Refuse(400, NoKeyError)
    else if !Truthy(req.message) then Refuse(400, MessageRequired)
    else match Lookup(ModelKey(req))
      case None => Refuse(400, InvalidModel)
      case Some(model) => Admit(SessionKey(req.sessionId), req.message.value, model)
  }

  /**
   * An admitted request against the session store: the question is recorded
   * (in a new empty session if `id` has none), the window ending in it is sent
   * upstream, the frames are streamed, and the answer is recorded only when
   * the upstream finished.
   */
  function Serve(sessions: Sessions, id: string, message: string, model: string, up: Upstream): (x: Exchange)
    ensures x.sessions.Keys == sessions.Keys + {id}
    ensures forall k :: k in sessions && k != id ==> x.sessions[k] == sessions[k]
    ensures x.reply == Streamed(Frames(up))
  {
    var asked := History(sessions, id) + [Turn(User, message)];
    var after := if up.outcome == Finished then asked + [Turn(Assistant, Answer(up))] else asked;
    Exchange(sessions[id := after], Streamed(Frames(up)), Some(Completion(Window(asked), model)))
  }

  /** The session an admitted request touches gains the question, and the answer when the upstream finished. */
  lemma ServeRecords(sessions: Sessions, id: string, message: string, model: string, up: Upstream)
    ensures var x := Serve(sessions, id, message, model, up);
      History(x.sessions, id) ==
        History(sessions, id) + [Turn(User, message)] + (if up.outcome == Finished then [Turn(Assistant, Answer(up))] else []) &&
      x.sessions - {id} == sessions - {id}
  {
    var x := Serve(sessions, id, message, model, up);
    assert x.sessions - {id} == sessions - {id};
  }

  /** `Serve` unfolded case by case, for the proof of the imperative handler. */
  lemma ServeSpelledOut(sessions: Sessions, id: string, message: string, model: string, up: Upstream)
    ensures var asked := History(sessions, id) + [Turn(User, message)];
      Serve(sessions, id, message, model, up) ==
        if up.outcome == Finished then
          Exchange(sessions[id := asked + [Turn(Assistant, Concat(Forwarded(up.chunks)))]],
                   Streamed(DeltaFrames(Forwarded(up.chunks)) + [Done]), Some(Completion(Window(asked), model)))
        else
          Exchange(sessions[id := asked], Streamed(DeltaFrames(Forwarded(up.chunks)) + [Failed(StreamError)]),
                   Some(Completion(Window(asked), model)))
  {
  }

  /**
   * One chat request, as a value: a refused request changes nothing, opens
   * no stream and sends nothing upstream; an admitted one is served.
   */
  function Handle(sessions: Sessions, hasKey: bool, req: ChatRequest, up: Upstream): (x: Exchange)
    ensures Gate(hasKey, req).Refuse? ==>
              x == Exchange(sessions, Rejected(Gate(hasKey, req).status, Gate(hasKey, req).error), None)
    ensures !hasKey ==> x == Exchange(sessions, Rejected(400, NoKeyError), None)
    ensures Gate(hasKey, req).Admit? ==> x.reply.Streamed? && x.sent.Some?
  {
    match Gate(hasKey, req)
    case Refuse(status, error) => Exchange(sessions, Rejected(status, error), None)
    case Admit(id, message, model) => Serve(sessions, id, message, model, up)
  }

  /** An admitted request is served under the session, message and provider model the checks produced. */
  lemma HandleServes(sessions: Sessions, hasKey: bool, req: ChatRequest, up: Upstream)
    requires Gate(hasKey, req).Admit?
    ensures var g := Gate(hasKey, req);
      Handle(sessions, hasKey, req, up) == Serve(sessions, g.sessionId, req.message.value, g.model, up) &&
      Lookup(ModelKey(req)) == Some(g.model)
  {
  }

  /**
   * The messages sent upstream are the system turn followed by the last
   * turns of the session, and they end with the new user turn.
   */
  lemma ContextEndsWithQuestion(sessions: Sessions, id: string, message: string, model: string, up: Upstream)
    ensures var x := Serve(sessions, id, message, model, up);
      var asked := History(sessions, id) + [Turn(User, message)];
      x.sent.Some? && x.sent.value.model == model &&
      x.sent.value.messages == Window(asked) &&
      |x.sent.value.messages| == 1 + Min(HistoryLimit, |asked|) &&
      x.sent.value.messages[0] == SystemTurn &&
      x.sent.value.messages[|x.sent.value.messages| - 1] == Turn(User, message)
  {
    WindowEndsWithNewest(History(sessions, id), Turn(User, message));
  }

  /**
   * A completed request grows its session by exactly two turns, the question
   * and then the answer, and the answer is what the caller reads from the
   * frames, which end with the one `Done` frame.
   */
  lemma CompletedChat(sessions: Sessions, id: string, message: string, model: string, up: Upstream)
    requires up.outcome == Finished
    ensures var x := Serve(sessions, id, message, model, up);
      x.reply.Streamed? &&
      History(x.sessions, id) == History(sessions, id) + [Turn(User, message), Turn(Assistant, Received(x.reply.frames))] &&
      x.reply.frames[|x.reply.frames| - 1] == Done &&
      forall i :: 0 <= i < |x.reply.frames| - 1 ==> x.reply.frames[i].Delta?
  {
    FramesShape(up);
  }

  /**
   * A request whose upstream fails keeps the question in the session but
   * records no answer; the frames already forwarded are followed by exactly
   * one error frame.
   */
  lemma FailedChat(sessions: Sessions, id: string, message: string, model: string, up: Upstream)
    requires up.outcome == Broke
    ensures var x := Serve(sessions, id, message, model, up);
      History(x.sessions, id) == History(sessions, id) + [Turn(User, message)] &&
      x.reply == Streamed(DeltaFrames(Forwarded(up.chunks)) + [Failed(StreamError)])
  {
  }

  /** The session store after the messages `msgs` are sent in turn to session `id`, each naming the model field `model`. */
  function Converse(sessions: Sessions, id: string, model: Option<string>, msgs: seq<string>, ups: seq<Upstream>): Sessions
    requires |msgs| == |ups|
    decreases |msgs|
  {
    if msgs == [] then sessions
    else
      var x := Handle(sessions, true, ChatRequest(Some(msgs[0]), model, Some(id)), ups[0]);
      Converse(x.sessions, id, model, msgs[1..], ups[1..])
  }

  /** The turns of a conversation: each message followed by its answer. */
  function Transcript(msgs: seq<string>, ups: seq<Upstream>): (r: seq<Turn>)
    requires |msgs| == |ups|
    ensures |r| == 2 * |msgs|
    decreases |msgs|
  {
    if msgs == [] then [] else [Turn(User, msgs[0]), Turn(Assistant, Answer(ups[0]))] + Transcript(msgs[1..], ups[1..])
  }

  /** A transcript alternates: the k-th message at position 2k, its answer right after it. */
  lemma {:induction false} TranscriptAlternates(msgs: seq<string>, ups: seq<Upstream>, k: nat)
    requires |msgs| == |ups| && k < |msgs|
    ensures Transcript(msgs, ups)[2 * k] == Turn(User, msgs[k])
    ensures Transcript(msgs, ups)[2 * k + 1] == Turn(Assistant, Answer(ups[k]))
    decreases |msgs|
  {
    if k > 0 {
      TranscriptAlternates(msgs[1..], ups[1..], k - 1);
    }
  }

  /**
   * N completed requests to one session add exactly 2N turns to it,
   * alternating user and assistant in request order, and leave every other
   * session as it was.
   */
  lemma {:induction false} ConversationAlternates(sessions: Sessions, id: string, model: Option<string>, msgs: seq<string>, ups: seq<Upstream>)
    requires Lookup(model.GetOr(DefaultModel)).Some?
    requires |msgs| == |ups|
    requires forall k :: 0 <= k < |msgs| ==> msgs[k] != ""
    requires forall k :: 0 <= k < |ups| ==> ups[k].outcome == Finished
    ensures History(Converse(sessions, id, model, msgs, ups), id) == History(sessions, id) + Transcript(msgs, ups)
    ensures Converse(sessions, id, model, msgs, ups) - {id} == sessions - {id}
    decreases |msgs|
  {
    if msgs != [] {
      var x := Handle(sessions, true, ChatRequest(Some(msgs[0]), model, Some(id)), ups[0]);
      ConverseStep(sessions, id, model, msgs[0], ups[0]);
      ConversationAlternates(x.sessions, id, model, msgs[1..], ups[1..]);
      var pair := [Turn(User, msgs[0]), Turn(Assistant, Answer(ups[0]))];
      var t := Transcript(msgs[1..], ups[1..]);
      assert Transcript(msgs, ups) == pair + t;
      AppendAssociates(History(sessions, id), pair, t);
    }
  }

  /** Updating one key twice keeps only the second value. */
  lemma UpdateTwice<K, V>(m: map<K, V>, k: K, a: V, b: V)
    ensures m[k := a][k := b] == m[k := b]
  {
  }

  /** Sequence concatenation is associative. */
  lemma AppendAssociates<T>(a: seq<T>, b: seq<T>, c: seq<T>)
    ensures (a + b) + c == a + (b + c)
  {
  }

  /** One completed request with a registry model adds its question and answer to session `id` and nothing else. */
  lemma ConverseStep(sessions: Sessions, id: string, model: Option<string>, message: string, up: Upstream)
    requires Lookup(model.GetOr(DefaultModel)).Some?
    requires message != "" && up.outcome == Finished
    ensures var x := Handle(sessions, true, ChatRequest(Some(message), model, Some(id)), up);
      History(x.sessions, id) == History(sessions, id) + [Turn(User, message), Turn(Assistant, Answer(up))] &&
      x.sessions - {id} == sessions - {id}
  {
    var req := ChatRequest(Some(message), model, Some(id));
    var g := Gate(true, req);
    assert g == Admit(id, message, g.model);
    ServeRecords(sessions, id, message, g.model, up);
  }

  /** A fresh session that receives N completed requests holds exactly 2N alternating turns. */
  lemma FreshConversation(sessions: Sessions, id: string, model: Option<string>, msgs: seq<string>, ups: seq<Upstream>)
    requires Lookup(model.GetOr(DefaultModel)).Some?
    requires id !in sessions && |msgs| == |ups|
    requires forall k :: 0 <= k < |msgs| ==> msgs[k] != ""
    requires forall k :: 0 <= k < |ups| ==> ups[k].outcome == Finished
    ensures var h := History(Converse(sessions, id, model, msgs, ups), id);
      |h| == 2 * |msgs| &&
      forall k :: 0 <= k < |msgs| ==> h[2 * k] == Turn(User, msgs[k]) && h[2 * k + 1].role == Assistant
  {
    ConversationAlternates(sessions, id, model, msgs, ups);
    forall k | 0 <= k < |msgs|
      ensures History(Converse(sessions, id, model, msgs, ups), id)[2 * k] == Turn(User, msgs[k])
      ensures History(Converse(sessions, id, model, msgs, ups), id)[2 * k + 1].role == Assistant
    {
      TranscriptAlternates(msgs, ups, k);
    }
  }

  /** The model check as written: credential, truthy message, and a truthy property of the registry object. */
  function AdmitsAsWritten(hasKey: bool, req: ChatRequest): (r: bool)
    ensures Gate(hasKey, req).Admit? ==> r
  {
    hasKey && Truthy(req.message) && PassesModelCheckAsWritten(ModelKey(req))
  }

  /**
   * A request naming an inherited property of the registry object gets past
   * the checks as written, while the registry check refuses it and leaves the
   * session store untouched.
   */
  lemma InheritedModelAdmittedAsWritten(sessions: Sessions, up: Upstream)
    ensures var req := ChatRequest(Some("hi"), Some("constructor"), None);
      AdmitsAsWritten(true, req) &&
      Gate(true, req) == Refuse(400, InvalidModel) &&
      Handle(sessions, true, req, up).sessions == sessions
  {
    InheritedNamePassesModelCheck();
  }

  /** The relay's process-wide state: the upstream credential and the session store. */
  class RelayService {
    var credential: Option<string>
    var sessions: Sessions

    /** Start-up: no credential and no sessions. */
    constructor ()
      ensures credential == None && sessions == map[]
    {
      credential := None;
      sessions := map[];
    }

    /**
     * `/api/set-key`: an absent or empty key is refused; otherwise the client
     * constructor decides (`accepted`), and an accepted key replaces the
     * previous credential.
     */
    method SetKey(apiKey: Option<string>, accepted: bool) returns (reply: Reply)
      modifies this`credential
      ensures !Truthy(apiKey) ==> reply == Rejected(400, KeyRequired) && credential == old(credential)
      ensures Truthy(apiKey) && !accepted ==> reply == Rejected(400, InvalidKeyFormat) && credential == old(credential)
      ensures Truthy(apiKey) && accepted ==> reply == Accepted(KeySet) && credential == apiKey
    {
      if !Truthy(apiKey) {
        return Rejected(400, KeyRequired);
      }
      if accepted {
        credential := apiKey;
        reply := Accepted(KeySet);
      } else {
        reply := Rejected(400, InvalidKeyFormat);
      }
    }

    /**
     * `/api/chat`: validate, record the question, send the window upstream,
     * relay the fragments, then record the answer or write the error frame.
     */
    method Chat(req: ChatRequest, up: Upstream) returns (reply: Reply, sent: Option<Completion>)
      modifies this`sessions
      ensures Exchange(sessions, reply, sent) == Handle(old(sessions), credential.Some?, req, up)
    {
      if credential.None? {
        return Rejected(400, NoKeyError), None;
      }
      if !Truthy(req.message) {
        return Rejected(400, MessageRequired), None;
      }
      var model := Lookup(ModelKey(req));
      if model.None? {
        return Rejected(400, InvalidModel), None;
      }
      assert Gate(true, req) == Admit(SessionKey(req.sessionId), req.message.value, model.value);
      reply, sent := RecordAndStream(SessionKey(req.sessionId), req.message.value, model.value, up);
    }

    /**
     * The admitted part of `/api/chat`: get or create the session, push the
     * question, send the window upstream, relay the fragments, then push the
     * answer and write `Done`, or write the error frame.
     */
    method RecordAndStream(id: string, message: string, model: string, up: Upstream) returns (reply: Reply, sent: Option<Completion>)
      modifies this`sessions
      ensures Exchange(sessions, reply, sent) == Serve(old(sessions), id, message, model, up)
    {
      ghost var before := sessions;
      if id !in sessions {
        sessions := sessions[id := []];
      }
      assert sessions[id] == History(before, id);
      var history := sessions[id] + [Turn(User, message)];
      UpdateTwice(before, id, [], history);
      sessions := sessions[id := history];
      assert sessions == before[id := history];
      sent := Some(Completion(Window(history), model));
      var answer, frames := Pump(up.chunks);
      if up.outcome == Finished {
        UpdateTwice(before, id, history, history + [Turn(Assistant, answer)]);
        history := history + [Turn(Assistant, answer)];
        sessions := sessions[id := history];
        frames := frames + [Done];
      } else {
        frames := frames + [Failed(StreamError)];
      }
      reply := Streamed(frames);
      ServeSpelledOut(before, id, message, model, up);
    }

    /** `/api/clear`: the named session, `default` when none is named, is removed; every other session stays. */
    method Clear(sessionId: Option<string>) returns (reply: Reply)
      modifies this`sessions
      ensures reply == Accepted(HistoryCleared)
      ensures sessions == old(sessions) - {SessionKey(sessionId)}
      ensures SessionKey(sessionId) !in old(sessions) ==> sessions == old(sessions)
      ensures forall k :: k in old(sessions) && k != SessionKey(sessionId) ==> k in sessions && sessions[k] == old(sessions)[k]
    {
      sessions := sessions - {SessionKey(sessionId)};
      reply := Accepted(HistoryCleared);
    }
  }
}
