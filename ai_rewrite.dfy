/** The AI conversation cog (cogs/ai_rewrite.py): provider choice, the two
    request forms built from a user's history, the history update after an
    answer, splitting long answers into Discord-sized messages, the block
    list and the autocompletes. The HTTP and Gemini calls are oracles: each
    request is answered by a value passed in. */
module AiRewrite {
  import opened PyText

  /** One stored turn, `{"role": ..., "content": ...}`; `NullTurn` is a
      turn whose content is `None`. */
  datatype Turn = Turn(role: string, content: string) | NullTurn(role: string)

  const DefaultPrompt := "Ты полезный AI-ассистент, помогай пользователям ответами на их вопросы."
  const DefaultModel := "llama-3.3-70b-versatile"
  const ChooseProvider := "Пожалуйста, выберите провайдера с помощью команды /ask."
  const BadProvider := "Неверный провайдер API."
  const NoAnswer := "Ошибка обработки ответа."
  const BlockedNotice := "Вы заблокированы от использования AI-команд."

  /** The longest message Discord accepts. */
  const MaxMessage := 2000

  // ------------------------------------------------------------ prompts

  /** A line of `full_prompt`: `"{role}: {content}\n"`, where a `None`
      content is formatted as "None". */
  function TurnLine(t: Turn): string {
    t.role + ": " + (if t.Turn? then t.content else "None") + "\n"
  }

  /** The lines of a history, oldest first. */
  function Transcript(h: seq<Turn>): string {
    if h == [] then "" else Transcript(h[..|h| - 1]) + TurnLine(h[|h| - 1])
  }

  /** `full_prompt`, the text sent to Gemini: the history, then the new
      prompt as a user line without a trailing newline. */
  function FullPrompt(h: seq<Turn>, prompt: string): (r: string)
    ensures EndsWith(r, "user: " + prompt)
    ensures StartsWith(r, Transcript(h))
  {
    Transcript(h) + "user: " + prompt
  }

  /** The transcript of two histories in a row is the two transcripts in a row. */
  lemma {:induction false} TranscriptAppend(a: seq<Turn>, b: seq<Turn>)
    ensures Transcript(a + b) == Transcript(a) + Transcript(b)
    decreases |b|
  {
    if b != [] {
      var b' := b[..|b| - 1];
      assert (a + b)[..|a + b| - 1] == a + b';
      TranscriptAppend(a, b');
    } else {
      assert a + b == a;
    }
  }

  /** After an exchange is stored, the next Gemini prompt carries it: the
      earlier lines, the user line, the assistant line, then the new prompt. */
  lemma NextPromptCarriesExchange(h: seq<Turn>, asked: string, answer: string, prompt: string)
    ensures FullPrompt(h + [Turn("user", asked), Turn("assistant", answer)], prompt)
         == Transcript(h) + TurnLine(Turn("user", asked)) + TurnLine(Turn("assistant", answer)) + "user: " + prompt
  {
    var u, a := Turn("user", asked), Turn("assistant", answer);
    calc {
      FullPrompt(h + [u, a], prompt);
      Transcript(h + [u, a]) + "user: " + prompt;
      { TranscriptAppend(h, [u, a]); }
      Transcript(h) + Transcript([u, a]) + "user: " + prompt;
      { TranscriptPair(u, a); }
      Transcript(h) + (TurnLine(u) + TurnLine(a)) + "user: " + prompt;
    }
  }

  lemma TranscriptPair(u: Turn, a: Turn)
    ensures Transcript([u, a]) == TurnLine(u) + TurnLine(a)
  {
    assert [u, a][..1] == [u];
    assert [u][..0] == [];
    assert Transcript([u]) == Transcript([]) + TurnLine(u);
    assert Transcript([u, a]) == Transcript([u]) + TurnLine(a);
  }

  /** The prompt loop of `fetch_ai_response`. */
  method BuildFullPrompt(h: seq<Turn>, prompt: string) returns (full: string)
    ensures full == FullPrompt(h, prompt)
  {
    full := "";
    var i := 0;
    while i < |h|
      invariant 0 <= i <= |h|
      invariant full == Transcript(h[..i])
    {
      var content := if h[i].Turn? then h[i].content else "None";
      full := full + h[i].role + ": " + content + "\n";
      assert h[..i + 1][..i] == h[..i];
      i := i + 1;
    }
    assert h[..|h|] == h;
    full := full + "user: " + prompt;
  }

  /** The Groq message list: the system prompt, the stored history in
      order, then the new user message. */
  function Messages(system: string, h: seq<Turn>, prompt: string): (m: seq<Turn>)
    ensures |m| == |h| + 2
    ensures m[0] == Turn("system", system) && m[|m| - 1] == Turn("user", prompt)
    ensures m[1..|m| - 1] == h
  {
    [Turn("system", system)] + h + [Turn("user", prompt)]
  }

  // ------------------------------------------------------------ answers

  /** What `result.get("choices", [{}])[0].get("message", {}).get("content", ...)`
      meets in a decoded body: a text; no `choices`, `message` or `content`
      key; a JSON `null`; or an empty `choices` list. */
  datatype GroqContent = Content(text: string) | ContentMissing | ContentNull | NoChoices

  /** What the Groq endpoint did: an HTTP status with its body and what the
      decoded body holds; or an exception while posting or decoding. */
  datatype GroqOutcome = GroqStatus(status: int, body: string, content: GroqContent) | GroqRaised(error: string)

  /** What Gemini did: the texts of the parts of the first candidate, `None`
      for a part without text; or an exception. */
  datatype GoogleOutcome = GoogleParts(parts: seq<Option<string>>) | GoogleRaised(error: string)

  /** An answer to keep, an error message to show instead, or an exception
      that escapes `fetch_ai_response`: either before the history is touched
      or, with `afterStoring`, after a `None` answer has been stored. */
  datatype Answer = Answered(text: string) | Failed(message: string) | Crashed(afterStoring: bool)

  /** The Groq branch: the status check and the decoding sit inside the
      `try`, the lookup of the answer after it. An empty `choices` list
      raises `IndexError` at once; a `null` content is stored, and then
      `len(None)` raises `TypeError`. */
  function GroqAnswer(o: GroqOutcome): (a: Answer)
    ensures a.Failed? <==> o.GroqRaised? || o.status != 200
    ensures a.Crashed? <==> o.GroqStatus? && o.status == 200 && (o.content.NoChoices? || o.content.ContentNull?)
    ensures a.Crashed? ==> (a.afterStoring <==> o.content.ContentNull?)
    ensures o.GroqStatus? && o.status == 200 && o.content.Content? ==> a == Answered(o.content.text)
    ensures o.GroqStatus? && o.status == 200 && o.content.ContentMissing? ==> a == Answered(NoAnswer)
  {
    match o
    case GroqRaised(e) => Failed("Ошибка при запросе к API: " + e)
    case GroqStatus(status, body, content) =>
      if status != 200 then Failed("Ошибка API: " + IntToString(status) + " - " + body)
      else match content
        case Content(text) => Answered(text)
        case ContentMissing => Answered(NoAnswer)
        case ContentNull => Crashed(true)
        case NoChoices => Crashed(false)
  }

  /** The texts of the parts joined, skipping parts without text. */
  function PartsText(parts: seq<Option<string>>): string {
    if parts == [] then ""
    else
      var last := parts[|parts| - 1];
      PartsText(parts[..|parts| - 1]) + (if last.Some? then last.value else "")
  }

  /** The joined text is empty exactly when no part has a non-empty text. */
  lemma {:induction false} PartsTextEmpty(parts: seq<Option<string>>)
    ensures PartsText(parts) == "" <==> forall i :: 0 <= i < |parts| && parts[i].Some? ==> parts[i].value == ""
  {
    if parts != [] {
      var init := parts[..|parts| - 1];
      PartsTextEmpty(init);
      assert forall i :: 0 <= i < |init| ==> init[i] == parts[i];
    }
  }

  /** The parts loop of `fetch_ai_response`. */
  method CollectParts(parts: seq<Option<string>>) returns (text: string)
    ensures text == PartsText(parts)
  {
    text := "";
    var i := 0;
    while i < |parts|
      invariant 0 <= i <= |parts|
      invariant text == PartsText(parts[..i])
    {
      if parts[i].Some? {
        text := text + parts[i].value;
      }
      assert parts[..i + 1][..i] == parts[..i];
      i := i + 1;
    }
    assert parts[..|parts|] == parts;
  }

  function GoogleAnswer(o: GoogleOutcome): (a: Answer)
    ensures a.Failed? <==> o.GoogleRaised?
    ensures !a.Crashed?
    ensures a.Answered? ==> a.text != ""
    ensures a.Answered? && PartsText(o.parts) != "" ==> a.text == PartsText(o.parts)
    ensures o.GoogleParts? && PartsText(o.parts) == "" ==> a == Answered(NoAnswer)
  {
    match o
    case GoogleRaised(e) => Failed("Ошибка при запросе к Google API: " + e)
    case GoogleParts(parts) =>
      var text := PartsText(parts);
      Answered(if text == "" then NoAnswer else text)
  }

  // ------------------------------------------------------------- chunks

  /** `[s[i:i + 2000] for i in range(0, len(s), 2000)]`. */
  function Chunks(s: string): (r: seq<string>)
    ensures Concat(r) == s
    ensures forall i :: 0 <= i < |r| ==> 0 < |r[i]| <= MaxMessage
    ensures forall i :: 0 <= i < |r| - 1 ==> |r[i]| == MaxMessage
    decreases |s|
  {
    if s == [] then []
    else if |s| <= MaxMessage then [s]
    else [s[..MaxMessage]] + Chunks(s[MaxMessage..])
  }

  /** Chunk `k` is the slice from `2000 * k` of at most 2000 characters. */
  lemma ChunkAt(s: string, k: nat)
    requires k < |Chunks(s)|
    ensures MaxMessage * k < |s|
    ensures Chunks(s)[k] == s[MaxMessage * k..if MaxMessage * (k + 1) <= |s| then MaxMessage * (k + 1) else |s|]
  {
    PieceAt(Chunks(s), k);
  }

  /** In pieces that are all full but the last, piece `k` starts at
      `2000 * k` in their concatenation. */
  lemma {:induction false} PieceAt(r: seq<string>, k: nat)
    requires k < |r|
    requires forall i :: 0 <= i < |r| ==> 0 < |r[i]| <= MaxMessage
    requires forall i :: 0 <= i < |r| - 1 ==> |r[i]| == MaxMessage
    ensures var c := Concat(r);
      && MaxMessage * k < |c|
      && r[k] == c[MaxMessage * k..if MaxMessage * (k + 1) <= |c| then MaxMessage * (k + 1) else |c|]
    decreases k
  {
    var c, rest := Concat(r), Concat(r[1..]);
    assert c == r[0] + rest;
    if k == 0 {
      assert |r| > 1 ==> |rest| > 0 by {
        if |r| > 1 {
          assert r[1..][0] == r[1];
          assert Concat(r[1..]) == r[1] + Concat(r[1..][1..]);
        }
      }
      assert c[..|r[0]|] == r[0];
    } else {
      PieceAt(r[1..], k - 1);
      var lo := MaxMessage * (k - 1);
      var hi := if MaxMessage * k <= |rest| then MaxMessage * k else |rest|;
      assert r[k] == rest[lo..hi];
      assert MaxMessage * k == MaxMessage + lo;
      assert MaxMessage * (k + 1) == MaxMessage + MaxMessage * k;
      SliceOfSuffix(c, MaxMessage, lo, hi);
      assert c[MaxMessage..] == rest;
    }
  }

  lemma SliceOfSuffix(s: string, a: nat, i: nat, j: nat)
    requires i <= j && a + j <= |s|
    ensures s[a..][i..j] == s[a + i..a + j]
  {
  }

  /** The messages sent for an answer: the answer itself when it fits, its
      chunks otherwise. */
  function SplitReply(text: string): (r: seq<string>)
    ensures Concat(r) == text
    ensures |text| <= MaxMessage ==> r == [text]
    ensures |text| > MaxMessage ==> |r| >= 2 && forall i :: 0 <= i < |r| ==> 0 < |r[i]| <= MaxMessage
  {
    if |text| > MaxMessage then Chunks(text) else [text]
  }

  // -------------------------------------------------------------- state

  /** The cog's fields: per-user history, the default Groq model, the
      block list, the remembered provider per user and the system prompt. */
  datatype AiState = AiState(
    history: map<int, seq<Turn>>,
    selectedModel: string,
    blockedIds: seq<int>,
    preferences: map<int, string>,
    systemPrompt: string)

  function HistoryOf(history: map<int, seq<Turn>>, uid: int): seq<Turn> {
    if uid in history then history[uid] else []
  }

  /** What is sent to a provider. */
  datatype Request = GroqRequest(model: string, messages: seq<Turn>) | GoogleRequest(contents: string)

  /** The messages to show, the request sent if any, the new history, and
      whether an exception escaped instead of a reply. */
  datatype Fetched = Fetched(replies: seq<string>, sent: Option<Request>, history: map<int, seq<Turn>>, raised: bool)

  /** The provider used: the one given, else the user's remembered one. */
  function ChosenProvider(st: AiState, uid: int, provider: Option<string>): (r: Option<string>)
    ensures provider.Some? ==> r == provider
    ensures provider.None? && uid !in st.preferences ==> r.None?
  {
    if provider.Some? then provider
    else if uid in st.preferences then Some(st.preferences[uid])
    else None
  }

  /** The answer of the provider used; only the Groq branch can raise
      outside its `try`. */
  function AnswerFrom(provider: string, groq: GroqOutcome, google: GoogleOutcome): (a: Answer)
    ensures a.Crashed? ==> provider == "groq"
  {
    if provider == "groq" then GroqAnswer(groq) else GoogleAnswer(google)
  }

  /** `fetch_ai_response` once the request is sent. */
  function Conclude(history: map<int, seq<Turn>>, uid: int, prompt: string, req: Request, a: Answer): (r: Fetched)
    ensures r.sent == Some(req)
    ensures r.raised <==> a.Crashed?
    ensures a.Failed? ==> r.replies == [a.message] && r.history == history
    ensures a.Crashed? ==> r.replies == []
    ensures a.Crashed? && !a.afterStoring ==> r.history == history
    ensures a.Crashed? && a.afterStoring ==> r.history.Keys == history.Keys + {uid}
    ensures a.Crashed? && a.afterStoring ==>
      r.history[uid] == HistoryOf(history, uid) + [Turn("user", prompt), NullTurn("assistant")]
    ensures a.Answered? ==> Concat(r.replies) == a.text
    ensures a.Answered? ==> r.history.Keys == history.Keys + {uid}
    ensures a.Answered? ==> r.history[uid] == HistoryOf(history, uid) + [Turn("user", prompt), Turn("assistant", a.text)]
    ensures forall u :: u in history && u != uid ==> u in r.history && r.history[u] == history[u]
  {
    match a
    case Failed(message) => Fetched([message], Some(req), history, false)
    case Answered(text) =>
      var h := HistoryOf(history, uid) + [Turn("user", prompt), Turn("assistant", text)];
      Fetched(SplitReply(text), Some(req), history[uid := h], false)
    case Crashed(afterStoring) =>
      if afterStoring then
        var h := HistoryOf(history, uid) + [Turn("user", prompt), NullTurn("assistant")];
        Fetched([], Some(req), history[uid := h], true)
      else Fetched([], Some(req), history, true)
  }

  /** The request for a known provider: Groq gets the message list and the
      model asked for, else the cog's model; Gemini gets `full_prompt`. */
  function RequestFor(provider: string, system: string, selectedModel: string, h: seq<Turn>,
                      prompt: string, model: Option<string>): (req: Request)
    ensures provider == "groq" ==> req.GroqRequest? && req.messages == Messages(system, h, prompt)
    ensures provider == "groq" ==> req.model == (if model.Some? && model.value != "" then model.value else selectedModel)
    ensures provider != "groq" ==> req == GoogleRequest(FullPrompt(h, prompt))
  {
    if provider == "groq" then
      GroqRequest(if model.Some? && model.value != "" then model.value else selectedModel, Messages(system, h, prompt))
    else GoogleRequest(FullPrompt(h, prompt))
  }

  /** `fetch_ai_response`: resolve the provider, send the request, keep the
      exchange on success. */
  function FetchStep(st: AiState, uid: int, prompt: string, provider: Option<string>,
                     model: Option<string>, groq: GroqOutcome, google: GoogleOutcome): (r: Fetched)
    ensures ChosenProvider(st, uid, provider).None? ==> r == Fetched([ChooseProvider], None, st.history, false)
    ensures r.sent.Some? <==> ChosenProvider(st, uid, provider) in {Some("groq"), Some("google")}
    ensures r.sent.None? ==> r.history == st.history && |r.replies| == 1 && !r.raised
    ensures ChosenProvider(st, uid, provider).Some? && ChosenProvider(st, uid, provider).value !in {"groq", "google"} ==>
      r.replies == [BadProvider]
    ensures r.raised ==> r.replies == [] && r.sent.Some? && r.sent.value.GroqRequest?
    ensures r.sent.Some? && r.sent.value.GroqRequest? ==>
      r.sent.value.messages == Messages(st.systemPrompt, HistoryOf(st.history, uid), prompt)
    ensures r.sent.Some? && r.sent.value.GoogleRequest? ==>
      r.sent.value.contents == FullPrompt(HistoryOf(st.history, uid), prompt)
  {
    var chosen := ChosenProvider(st, uid, provider);
    if chosen.None? then Fetched([ChooseProvider], None, st.history, false)
    else if chosen.value !in {"groq", "google"} then Fetched([BadProvider], None, st.history, false)
    else
      var h := HistoryOf(st.history, uid);
      var req := RequestFor(chosen.value, st.systemPrompt, st.selectedModel, h, prompt, model);
      Conclude(st.history, uid, prompt, req, AnswerFrom(chosen.value, groq, google))
  }

  /** The history either stays as it was or gains exactly two turns for
      the caller: the user's message and then either the answer the replies
      spell out or, when an exception escapes, a `None` answer. */
  lemma FetchKeepsOrAppendsTwo(st: AiState, uid: int, prompt: string, provider: Option<string>,
                               model: Option<string>, groq: GroqOutcome, google: GoogleOutcome)
    ensures var r := FetchStep(st, uid, prompt, provider, model, groq, google);
      || r.history == st.history
      || (!r.raised && r.history == st.history[uid := HistoryOf(st.history, uid) + [Turn("user", prompt), Turn("assistant", Concat(r.replies))]])
      || (r.raised && r.history == st.history[uid := HistoryOf(st.history, uid) + [Turn("user", prompt), NullTurn("assistant")]])
  {
    var r := FetchStep(st, uid, prompt, provider, model, groq, google);
    var chosen := ChosenProvider(st, uid, provider);
    if chosen.Some? && chosen.value in {"groq", "google"} {
      var a := AnswerFrom(chosen.value, groq, google);
      if a.Answered? {
        var h := HistoryOf(st.history, uid) + [Turn("user", prompt), Turn("assistant", a.text)];
        assert r.history == st.history[uid := h];
      } else if a.Crashed? && a.afterStoring {
        var h := HistoryOf(st.history, uid) + [Turn("user", prompt), NullTurn("assistant")];
        assert r.history == st.history[uid := h];
      }
    }
  }

  /** A 200 response from Groq with an empty `choices` list raises before
      anything is stored; one whose content is `null` stores the exchange
      with a `None` answer and then raises. Neither sends a reply. */
  lemma GroqCrashPaths(st: AiState, uid: int, prompt: string, model: Option<string>,
                       body: string, google: GoogleOutcome)
    ensures var r := FetchStep(st, uid, prompt, Some("groq"), model, GroqStatus(200, body, NoChoices), google);
      r.raised && r.replies == [] && r.history == st.history
    ensures var r := FetchStep(st, uid, prompt, Some("groq"), model, GroqStatus(200, body, ContentNull), google);
      && r.raised && r.replies == []
      && r.history == st.history[uid := HistoryOf(st.history, uid) + [Turn("user", prompt), NullTurn("assistant")]]
  {
    assert ChosenProvider(st, uid, Some("groq")) == Some("groq");
    var h := HistoryOf(st.history, uid) + [Turn("user", prompt), NullTurn("assistant")];
    var r := FetchStep(st, uid, prompt, Some("groq"), model, GroqStatus(200, body, ContentNull), google);
    assert r.history == st.history[uid := h];
  }

  /** A failed call keeps the history. */
  lemma FailureKeepsHistory(st: AiState, uid: int, prompt: string, provider: string,
                            model: Option<string>, groq: GroqOutcome, google: GoogleOutcome)
    requires AnswerFrom(provider, groq, google).Failed?
    ensures FetchStep(st, uid, prompt, Some(provider), model, groq, google).history == st.history
  {
    if provider == "groq" || provider == "google" {
      assert ChosenProvider(st, uid, Some(provider)) == Some(provider);
    }
  }

  /** `ask_command`: a blocked user is refused before anything is stored;
      otherwise the provider is remembered, whatever it is, and the answer
      fetched with it. */
  function AskStep(st: AiState, uid: int, prompt: string, provider: string, model: Option<string>,
                   groq: GroqOutcome, google: GoogleOutcome): (r: (seq<string>, Option<Request>, AiState, bool))
    ensures uid in st.blockedIds ==> r == ([BlockedNotice], None, st, false)
    ensures uid !in st.blockedIds ==> r.2.preferences == st.preferences[uid := provider]
    ensures r.2.blockedIds == st.blockedIds && r.2.selectedModel == st.selectedModel
    ensures uid !in st.blockedIds ==> (r.1.Some? <==> provider in {"groq", "google"})
  {
    if uid in st.blockedIds then ([BlockedNotice], None, st, false)
    else
      var st' := st.(preferences := st.preferences[uid := provider]);
      var f := FetchStep(st', uid, prompt, Some(provider), model, groq, google);
      (f.replies, f.sent, st'.(history := f.history), f.raised)
  }

  /** A provider name other than `groq` or `google` given to `/ask` is
      remembered, so every later mention of the bot by that user is
      answered with the invalid-provider message. */
  lemma BadProviderSticks(st: AiState, uid: int, prompt: string, provider: string, model: Option<string>,
                          groq: GroqOutcome, google: GoogleOutcome, later: string)
    requires uid !in st.blockedIds && provider !in {"groq", "google"}
    ensures var after := AskStep(st, uid, prompt, provider, model, groq, google).2;
      FetchStep(after, uid, later, None, None, groq, google) == Fetched([BadProvider], None, after.history, false)
  {
    var after := AskStep(st, uid, prompt, provider, model, groq, google).2;
    assert ChosenProvider(after, uid, None) == Some(provider);
  }

  // -------------------------------------------------------- autocomplete

  /** The options that contain `current`, ignoring letter case, in order. */
  function Suggest(options: seq<string>, current: string): (r: seq<string>)
    ensures |r| <= |options|
  {
    if options == [] then []
    else
      var rest := Suggest(options[1..], current);
      if Contains(Lower(options[0]), Lower(current)) then [options[0]] + rest else rest
  }

  /** Exactly the options that contain `current`, ignoring case, are
      suggested. */
  lemma {:induction false} SuggestMembers(options: seq<string>, current: string)
    ensures forall o :: o in Suggest(options, current) <==> o in options && Contains(Lower(o), Lower(current))
  {
    if options != [] {
      SuggestMembers(options[1..], current);
      assert options == [options[0]] + options[1..];
    }
  }

  /** Suggesting from two lists in a row gives the two suggestions in a
      row: the order of the options is kept. */
  lemma {:induction false} SuggestAppend(a: seq<string>, b: seq<string>, current: string)
    ensures Suggest(a + b, current) == Suggest(a, current) + Suggest(b, current)
  {
    if a != [] {
      assert (a + b)[1..] == a[1..] + b;
      SuggestAppend(a[1..], b, current);
    } else {
      assert a + b == b;
    }
  }

  /** An empty query lists every option. */
  lemma {:induction false} SuggestEverything(options: seq<string>)
    ensures Suggest(options, "") == options
  {
    if options != [] {
      assert OccursAt(Lower(options[0]), Lower(""), 0);
      ContainsIff(Lower(options[0]), Lower(""));
      SuggestEverything(options[1..]);
    }
  }

  const Providers: seq<string> := ["groq", "google"]

  /** `provider_autocomplete`. */
  function ProviderChoices(current: string): (r: seq<string>)
    ensures forall p :: p in r <==> p in Providers && Contains(Lower(p), Lower(current))
  {
    SuggestMembers(Providers, current);
    Suggest(Providers, current)
  }

  /** `model_autocomplete` over the models of `models.json`. */
  function ModelChoices(models: seq<string>, current: string): (r: seq<string>)
    ensures forall m :: m in r <==> m in models && Contains(Lower(m), Lower(current))
  {
    SuggestMembers(models, current);
    Suggest(models, current)
  }

  // ------------------------------------------------------------ mentions

  /** `s.replace(w, "")`: occurrences are removed left to right, without
      overlapping. */
  function RemoveAll(s: string, w: string): (r: string)
    requires w != []
    ensures |r| <= |s|
    ensures (forall k: nat :: !OccursAt(s, w, k)) ==> r == s
    decreases |s|
  {
    if |s| < |w| then s
    else if s[..|w|] == w then
      assert OccursAt(s, w, 0);
      RemoveAll(s[|w|..], w)
    else
      assert forall k: nat :: OccursAt(s[1..], w, k) ==> OccursAt(s, w, k + 1) by {
        forall k: nat | OccursAt(s[1..], w, k) ensures OccursAt(s, w, k + 1) {
          assert s[k + 1..k + 1 + |w|] == s[1..][k..k + |w|];
        }
      }
      [s[0]] + RemoveAll(s[1..], w)
  }

  /** The text of a mention: the message without `<@bot id>`, stripped. */
  function MentionPrompt(content: string, botId: int): (r: string)
    ensures r != [] ==> !IsSpace(r[0]) && !IsSpace(r[|r| - 1])
  {
    Strip(RemoveAll(content, "<@" + IntToString(botId) + ">"))
  }

  /** The provider branch of `fetch_ai_response`: builds `full_prompt` and
      the message list, sends the request of the provider and reads its
      answer. */
  method CallProvider(provider: string, system: string, selectedModel: string, h: seq<Turn>,
                      prompt: string, model: Option<string>, groq: GroqOutcome, google: GoogleOutcome)
    returns (answer: Answer, req: Request)
    requires provider in {"groq", "google"}
    ensures req == RequestFor(provider, system, selectedModel, h, prompt, model)
    ensures answer == AnswerFrom(provider, groq, google)
  {
    var full := BuildFullPrompt(h, prompt);
    var messages := [Turn("system", system)] + h;
    messages := messages + [Turn("user", prompt)];
    if provider == "groq" {
      var m := if model.Some? && model.value != "" then model.value else selectedModel;
      req := GroqRequest(m, messages);
      match groq {
        case GroqRaised(e) =>
          answer := Failed("Ошибка при запросе к API: " + e);
        case GroqStatus(status, body, content) =>
          if status != 200 {
            answer := Failed("Ошибка API: " + IntToString(status) + " - " + body);
          } else {
            match content {
              case Content(text) => answer := Answered(text);
              case ContentMissing => answer := Answered(NoAnswer);
              case ContentNull => answer := Crashed(true);
              case NoChoices => answer := Crashed(false);
            }
          }
      }
    } else {
      req := GoogleRequest(full);
      match google {
        case GoogleRaised(e) =>
          answer := Failed("Ошибка при запросе к Google API: " + e);
        case GoogleParts(parts) =>
          var text := CollectParts(parts);
          if text == "" {
            text := NoAnswer;
          }
          answer := Answered(text);
      }
    }
  }

  // ----------------------------------------------------------------- cog

  datatype AccessReply = NoAccess | AlreadyInState | Done

  class AiCog {
    var history: map<int, seq<Turn>>
    var selectedModel: string
    var blockedIds: seq<int>
    var preferences: map<int, string>
    /** `SYSTEM_PROMPT`. */
    const systemPrompt: string
    /** `DEBUG_ACCESS_UIDS`, the ids as strings. */
    const debugAccess: seq<string>

    function State(): AiState
      reads this
    {
      AiState(history, selectedModel, blockedIds, preferences, systemPrompt)
    }

    /** `load_prompt` and `load_blocked_ids` read their files, given here
        as their contents when present; `models` is `models.json`'s list. */
    constructor(promptFile: Option<string>, blockedFile: Option<seq<int>>, models: seq<string>, debugAccess: seq<string>)
      ensures history == map[] && preferences == map[]
      ensures selectedModel == (if models != [] then models[0] else DefaultModel)
      ensures blockedIds == (if blockedFile.Some? then blockedFile.value else [])
      ensures systemPrompt == (if promptFile.Some? then Strip(promptFile.value) else DefaultPrompt)
      ensures this.debugAccess == debugAccess
    {
      history := map[];
      selectedModel := if models != [] then models[0] else DefaultModel;
      blockedIds := if blockedFile.Some? then blockedFile.value else [];
      preferences := map[];
      systemPrompt := if promptFile.Some? then Strip(promptFile.value) else DefaultPrompt;
      this.debugAccess := debugAccess;
    }

    method FetchAiResponse(uid: int, prompt: string, provider: Option<string>, model: Option<string>,
                           groq: GroqOutcome, google: GoogleOutcome)
      returns (replies: seq<string>, sent: Option<Request>, raised: bool)
      modifies this
      ensures Fetched(replies, sent, history, raised) == FetchStep(old(State()), uid, prompt, provider, model, groq, google)
      ensures selectedModel == old(selectedModel) && blockedIds == old(blockedIds) && preferences == old(preferences)
    {
      var chosen := provider;
      if chosen.None? {
        if uid !in preferences {
          return [ChooseProvider], None, false;
        }
        chosen := Some(preferences[uid]);
      }
      if chosen.value !in {"groq", "google"} {
        return [BadProvider], None, false;
      }
      var answer, req := CallProvider(chosen.value, systemPrompt, selectedModel, HistoryOf(history, uid),
                                      prompt, model, groq, google);
      sent := Some(req);
      replies, raised := Conclusion(uid, prompt, req, answer);
    }

    /** The end of `fetch_ai_response` once the provider has answered: an
        error message is returned, an answer is stored and returned in
        chunks, and a `None` answer is stored before `len` raises. */
    method Conclusion(uid: int, prompt: string, req: Request, answer: Answer)
      returns (replies: seq<string>, raised: bool)
      modifies this
      ensures Fetched(replies, Some(req), history, raised) == Conclude(old(history), uid, prompt, req, answer)
      ensures selectedModel == old(selectedModel) && blockedIds == old(blockedIds) && preferences == old(preferences)
    {
      raised := false;
      match answer {
        case Failed(message) =>
          replies := [message];
        case Answered(text) =>
          AppendExchange(uid, prompt, Turn("assistant", text));
          replies := SplitReply(text);
        case Crashed(afterStoring) =>
          if afterStoring {
            AppendExchange(uid, prompt, NullTurn("assistant"));
          }
          replies, raised := [], true;
      }
    }

    /** The two appends that store an exchange, creating the history first
        when the user has none. */
    method AppendExchange(uid: int, prompt: string, answer: Turn)
      modifies this
      ensures history == old(history)[uid := HistoryOf(old(history), uid) + [Turn("user", prompt), answer]]
      ensures selectedModel == old(selectedModel) && blockedIds == old(blockedIds) && preferences == old(preferences)
    {
      if uid !in history {
        history := history[uid := []];
      }
      history := history[uid := history[uid] + [Turn("user", prompt)]];
      history := history[uid := history[uid] + [answer]];
      assert history[uid] == HistoryOf(old(history), uid) + [Turn("user", prompt), answer];
    }

    method Ask(uid: int, prompt: string, provider: string, model: Option<string>,
               groq: GroqOutcome, google: GoogleOutcome)
      returns (replies: seq<string>, sent: Option<Request>, raised: bool)
      modifies this
      ensures (replies, sent, State(), raised) == AskStep(old(State()), uid, prompt, provider, model, groq, google)
    {
      if uid in blockedIds {
        return [BlockedNotice], None, false;
      }
      preferences := preferences[uid := provider];
      replies, sent, raised := FetchAiResponse(uid, prompt, Some(provider), model, groq, google);
    }

    /** `on_message`: a message that mentions the bot is answered with the
        remembered provider; the block list is not consulted. Only the
        bot's own messages (`fromSelf`) are skipped; other bots are
        answered. */
    method OnMessage(fromSelf: bool, mentioned: bool, uid: int, content: string, botId: int,
                     groq: GroqOutcome, google: GoogleOutcome)
      returns (replies: seq<string>, sent: Option<Request>, raised: bool)
      modifies this
      ensures fromSelf || !mentioned ==> replies == [] && sent.None? && !raised && State() == old(State())
      ensures !fromSelf && mentioned ==>
        Fetched(replies, sent, history, raised)
        == FetchStep(old(State()), uid, MentionPrompt(content, botId), None, None, groq, google)
      ensures selectedModel == old(selectedModel) && blockedIds == old(blockedIds) && preferences == old(preferences)
    {
      if fromSelf || !mentioned {
        return [], None, false;
      }
      var prompt := Strip(RemoveAll(content, "<@" + IntToString(botId) + ">"));
      replies, sent, raised := FetchAiResponse(uid, prompt, None, None, groq, google);
    }

    /** `block_user_command`. */
    method BlockUser(caller: int, target: int) returns (reply: AccessReply)
      modifies this
      ensures IntToString(caller) !in debugAccess ==> reply == NoAccess && State() == old(State())
      ensures IntToString(caller) in debugAccess ==>
        && blockedIds == AddIfAbsent(old(blockedIds), target)
        && reply == (if target in old(blockedIds) then AlreadyInState else Done)
      ensures history == old(history) && preferences == old(preferences) && selectedModel == old(selectedModel)
    {
      if IntToString(caller) !in debugAccess {
        return NoAccess;
      }
      if target !in blockedIds {
        blockedIds := blockedIds + [target];
        reply := Done;
      } else {
        reply := AlreadyInState;
      }
    }

    /** `unblock_user_command`. */
    method UnblockUser(caller: int, target: int) returns (reply: AccessReply)
      modifies this
      ensures IntToString(caller) !in debugAccess ==> reply == NoAccess && State() == old(State())
      ensures IntToString(caller) in debugAccess ==>
        && blockedIds == RemoveIfPresent(old(blockedIds), target)
        && reply == (if target in old(blockedIds) then Done else AlreadyInState)
      ensures history == old(history) && preferences == old(preferences) && selectedModel == old(selectedModel)
    {
      if IntToString(caller) !in debugAccess {
        return NoAccess;
      }
      if target in blockedIds {
        blockedIds := RemoveFirst(blockedIds, target);
        reply := Done;
      } else {
        reply := AlreadyInState;
      }
    }
  }
}
