/**
 * The OpenAI file-search service (`services/rag/openai_rag.py`). Each bot
 * has its own vector store, named after the bot and remembered per bot; an
 * uploaded file is attached to the bot's store and its indexing is polled
 * for a bounded time; an answer comes from a one-off assistant run, with
 * its annotations rewritten to numbered markers.
 *
 * The provider is not modelled: what each call returns is a parameter, as
 * in the Gemini service. A store listing is the entries read before the
 * listing ended or failed; `created` is the id a store creation returns,
 * `None` when it raises.
 */
module OpenAIRag {
  import opened Wrappers
  import opened Text
  import opened RagFactory

  /** A vector store: its name and its id. */
  datatype VectorStore = VectorStore(name: string, id: string)

  /** Why no store id could be had. */
  datatype StoreFailure =
    | MissingBotId  // `ValueError`: the bot id is missing or 0
    | CreateFailed  // the store creation raised

  // ---------------------------------------------------------------------------
  // Per-bot stores.

  /** Line 38: Python truthiness of the bot id. */
  predicate Truthy(botId: Option<int>) {
    botId.Some? && botId.value != 0
  }

  /** Line 44: the name of a bot's store. */
  function StoreNameFor(baseName: string, botId: int): string {
    baseName + "_bot_" + IntToString(botId)
  }

  /** Two bots never share a store name, so no bot is handed another bot's store by name. */
  lemma StoreNamesDistinct(baseName: string, a: int, b: int)
    requires StoreNameFor(baseName, a) == StoreNameFor(baseName, b)
    ensures a == b
  {
    var n := |baseName + "_bot_"|;
    assert StoreNameFor(baseName, a)[n..] == IntToString(a);
    assert StoreNameFor(baseName, b)[n..] == IntToString(b);
    IntToStringInjective(a, b);
  }

  /** The id of the first store with the given name. */
  function FirstWithName(stores: seq<VectorStore>, name: string): (r: Option<string>)
    ensures r.Some? <==> exists k :: 0 <= k < |stores| && stores[k].name == name
  {
    if stores == [] then None
    else if stores[0].name == name then Some(stores[0].id)
    else FirstWithName(stores[1..], name)
  }

  /**
   * Lines 38-67: a falsy bot id is refused; a remembered store id is
   * returned; otherwise the first listed store with the bot's store name;
   * otherwise a new store.
   */
  function EnsuredFor(ids: map<int, string>, baseName: string, botId: Option<int>,
                      stores: seq<VectorStore>, created: Option<string>): (r: Result<string, StoreFailure>)
    ensures r == Err(MissingBotId) <==> !Truthy(botId)
    ensures Truthy(botId) && botId.value in ids ==> r == Ok(ids[botId.value])
    ensures r == Err(CreateFailed) <==>
      Truthy(botId) && botId.value !in ids && FirstWithName(stores, StoreNameFor(baseName, botId.value)).None? && created.None?
  {
    if !Truthy(botId) then Err(MissingBotId)
    else if botId.value in ids then Ok(ids[botId.value])
    else
      var found := FirstWithName(stores, StoreNameFor(baseName, botId.value));
      if found.Some? then Ok(found.value)
      else if created.Some? then Ok(created.value)
      else Err(CreateFailed)
  }

  /** The remembered ids after the lookup. */
  function IdsAfter(ids: map<int, string>, baseName: string, botId: Option<int>,
                    stores: seq<VectorStore>, created: Option<string>): map<int, string> {
    var r := EnsuredFor(ids, baseName, botId, stores, created);
    if r.Ok? then ids[botId.value := r.value] else ids
  }

  /**
   * A successful lookup leaves the bot's id remembered and every other
   * bot's remembered id as it was; a failed one changes nothing.
   */
  lemma LookupRemembers(ids: map<int, string>, baseName: string, botId: Option<int>,
                        stores: seq<VectorStore>, created: Option<string>)
    ensures var r := EnsuredFor(ids, baseName, botId, stores, created);
      var after := IdsAfter(ids, baseName, botId, stores, created);
      (r.Ok? ==> botId.value in after && after[botId.value] == r.value) &&
      (r.Err? ==> after == ids) &&
      (forall k :: k in ids ==> k in after && after[k] == ids[k])
  {
  }

  /** Once a bot's store is known, later lookups for that bot return it whatever the provider would say. */
  lemma LookupIsStable(ids: map<int, string>, baseName: string, botId: Option<int>,
                       stores: seq<VectorStore>, created: Option<string>,
                       later: seq<VectorStore>, created': Option<string>)
    requires EnsuredFor(ids, baseName, botId, stores, created).Ok?
    ensures EnsuredFor(IdsAfter(ids, baseName, botId, stores, created), baseName, botId, later, created')
      == EnsuredFor(ids, baseName, botId, stores, created)
  {
  }

  lemma {:induction false} FirstWithNameAt(stores: seq<VectorStore>, name: string, k: nat)
    requires k < |stores| && stores[k].name == name
    requires forall j :: 0 <= j < k ==> stores[j].name != name
    ensures FirstWithName(stores, name) == Some(stores[k].id)
  {
    if k > 0 {
      FirstWithNameAt(stores[1..], name, k - 1);
    }
  }

  // ---------------------------------------------------------------------------
  // The indexing poll.

  const InProgress := "in_progress"
  const Queued := "queued"
  const Completed := "completed"
  /** Line 121: the longest wait, in seconds. */
  const MaxWait := 60
  /** Line 124: the pause between two status checks, in seconds. */
  const PollStep := 2

  /** Line 123: statuses that are still worth waiting for. */
  predicate Pending(status: string) {
    status == InProgress || status == Queued
  }

  /**
   * The status known after `n` checks: the status the attachment returned,
   * then the result of each check in turn (`retrieve(k)` is what the
   * `k`-th check returns).
   */
  function StatusAt(attached: string, retrieve: nat -> string, n: nat): string {
    if n == 0 then attached else retrieve(n - 1)
  }

  /**
   * Lines 121-129: the number of checks made, counting from `n` checks
   * already made. A check is made only while the status is pending, and
   * never once 60 seconds have elapsed.
   */
  function Checks(attached: string, retrieve: nat -> string, n: nat): (r: nat)
    requires PollStep * n <= MaxWait
    ensures n <= r && PollStep * r <= MaxWait
    ensures forall k :: n <= k < r ==> Pending(StatusAt(attached, retrieve, k))
    ensures !Pending(StatusAt(attached, retrieve, r)) || PollStep * r == MaxWait
    decreases MaxWait - PollStep * n
  {
    if Pending(StatusAt(attached, retrieve, n)) && PollStep * n < MaxWait then Checks(attached, retrieve, n + 1)
    else n
  }

  /**
   * At most 30 checks are made and at most 60 seconds pass; the poll stops
   * at the first settled status, or with the status still pending when the
   * time is up.
   */
  lemma PollIsBounded(attached: string, retrieve: nat -> string)
    ensures Checks(attached, retrieve, 0) <= 30
    ensures forall k :: 0 <= k < Checks(attached, retrieve, 0) ==> Pending(StatusAt(attached, retrieve, k))
    ensures !Pending(StatusAt(attached, retrieve, Checks(attached, retrieve, 0))) ||
      Checks(attached, retrieve, 0) == 30
  {
  }

  /** A file whose attachment is already settled is never checked again. */
  lemma SettledIsNotPolled(attached: string, retrieve: nat -> string)
    requires !Pending(attached)
    ensures Checks(attached, retrieve, 0) == 0
  {
  }

  /** Why an upload raised. */
  datatype UploadFailure =
    | NoStore(reason: StoreFailure)
    | UploadRaised  // the file creation or its attachment to the store raised

  /** Lines 115-118: what the attachment call hands the provider, the store and the uploaded file. */
  datatype AttachRequest = AttachRequest(vectorStoreId: string, fileId: string)

  // ---------------------------------------------------------------------------
  // Answers.

  /** An annotation of the answer text: the text it marks and the cited file's id, if it cites a file. */
  datatype Annotation = Annotation(text: string, fileCitation: Option<string>)

  datatype TextContent = TextContent(value: string, annotations: seq<Annotation>)

  datatype Message = Message(role: string, content: seq<TextContent>)

  const NoAnswer := "응답을 생성하지 못했습니다."
  const EmptyAnswer := "응답 내용이 없습니다."
  const ReferenceSuffix := " 참고"
  const AssistantRole := "assistant"

  /** Line 235: the marker that replaces the annotation at position `n - 1`. */
  function Marker(n: nat): (r: string)
    ensures |r| >= 3 && r[0] == '[' && r[|r| - 1] == ']'
  {
    "[" + NatToString(n) + "]"
  }

  /** Line 235, from annotation `idx` on: each annotation's text, wherever it occurs, becomes its marker. */
  function Rewritten(text: string, anns: seq<Annotation>, idx: nat): string
    decreases |anns|
  {
    if anns == [] then text
    else Rewritten(ReplaceAll(text, anns[0].text, Marker(idx + 1)), anns[1..], idx + 1)
  }

  /** Lines 242-244: the citation of a file found under `filename`. */
  function CiteFile(filename: string): Citation {
    Citation(Some(filename), Some(filename + ReferenceSuffix))
  }

  /**
   * Lines 236-247: one citation per annotation that cites a file whose
   * lookup succeeds, in order; `lookup` gives a file id's filename, `None`
   * when the lookup raises.
   */
  function FileCitations(anns: seq<Annotation>, lookup: string -> Option<string>): (r: seq<Citation>)
    ensures |r| <= |anns|
  {
    if anns == [] then [] else CitationOf(anns[0], lookup) + FileCitations(anns[1..], lookup)
  }

  /** The citation one annotation contributes, if any. */
  function CitationOf(a: Annotation, lookup: string -> Option<string>): (r: seq<Citation>)
    ensures |r| <= 1
  {
    if a.fileCitation.Some? && lookup(a.fileCitation.value).Some? then [CiteFile(lookup(a.fileCitation.value).value)] else []
  }

  /** Every citation collected names a file and quotes it as the reference to it. */
  lemma {:induction false} CitationsAreFiles(anns: seq<Annotation>, lookup: string -> Option<string>)
    ensures forall c :: c in FileCitations(anns, lookup) ==> c.title.Some? && c == CiteFile(c.title.value)
  {
    if anns != [] {
      CitationsAreFiles(anns[1..], lookup);
    }
  }

  /** An annotation cites a file that can be looked up. */
  predicate Resolves(a: Annotation, lookup: string -> Option<string>) {
    a.fileCitation.Some? && lookup(a.fileCitation.value).Some?
  }

  /** Without a resolvable file citation there are no citations, and with all resolvable there is one each. */
  lemma {:induction false} CitationCount(anns: seq<Annotation>, lookup: string -> Option<string>)
    ensures (forall k :: 0 <= k < |anns| ==> !Resolves(anns[k], lookup)) ==> FileCitations(anns, lookup) == []
    ensures (forall k :: 0 <= k < |anns| ==> Resolves(anns[k], lookup)) ==> |FileCitations(anns, lookup)| == |anns|
  {
    if anns != [] {
      CitationCount(anns[1..], lookup);
      assert forall k :: 1 <= k < |anns| ==> anns[1..][k - 1] == anns[k];
    }
  }

  /** Annotations whose texts occur nowhere in the answer leave it unchanged. */
  lemma {:induction false} AbsentAnnotationsKeepAnswer(text: string, anns: seq<Annotation>, idx: nat)
    requires forall k :: 0 <= k < |anns| ==> anns[k].text != [] && !Contains(text, anns[k].text)
    ensures Rewritten(text, anns, idx) == text
    decreases |anns|
  {
    if anns != [] {
      ReplaceAbsent(text, anns[0].text, Marker(idx + 1));
      assert forall k :: 1 <= k < |anns| ==> anns[1..][k - 1] == anns[k];
      AbsentAnnotationsKeepAnswer(text, anns[1..], idx + 1);
    }
  }

  /** An answer that is exactly its single annotation's text becomes the marker "[1]". */
  lemma WholeAnnotationBecomesMarker(text: string, cite: Option<string>)
    requires text != []
    ensures Rewritten(text, [Annotation(text, cite)], 0) == Marker(1)
  {
    ReplaceWhole(text, Marker(1));
    assert [Annotation(text, cite)][1..] == [];
  }

  /** The first message with the assistant role. */
  function FirstAssistant(messages: seq<Message>): (r: Option<Message>)
    ensures r.Some? ==> r.value in messages && r.value.role == AssistantRole
    ensures r.None? <==> forall k :: 0 <= k < |messages| ==> messages[k].role != AssistantRole
  {
    if messages == [] then None
    else if messages[0].role == AssistantRole then Some(messages[0])
    else FirstAssistant(messages[1..])
  }

  /**
   * Lines 205-253: the response of a run. A run that did not complete and a
   * run without usable assistant text give fixed answers and no citations.
   */
  function Answer(runStatus: string, messages: seq<Message>, lookup: string -> Option<string>): (r: RagResponse)
    ensures runStatus != Completed ==> r == RagResponse(NoAnswer, [])
    ensures runStatus == Completed && (FirstAssistant(messages).None? || FirstAssistant(messages).value.content == [])
      ==> r == RagResponse(EmptyAnswer, [])
  {
    if runStatus != Completed then RagResponse(NoAnswer, [])
    else
      var m := FirstAssistant(messages);
      if m.None? || m.value.content == [] then RagResponse(EmptyAnswer, [])
      else
        var c := m.value.content[0];
        RagResponse(Rewritten(c.value, c.annotations, 0), FileCitations(c.annotations, lookup))
  }

  /**
   * Lines 250-251: the assistant and the thread are deleted only on the path
   * that reaches the end; the two early answers return before it.
   */
  predicate CleansUp(runStatus: string, messages: seq<Message>) {
    runStatus == Completed && FirstAssistant(messages).Some? && FirstAssistant(messages).value.content != []
  }

  /** The two fixed answers are given exactly on the paths that skip the clean-up. */
  lemma FixedAnswersSkipCleanUp(runStatus: string, messages: seq<Message>, lookup: string -> Option<string>)
    ensures !CleansUp(runStatus, messages) ==>
      Answer(runStatus, messages, lookup).answer in [NoAnswer, EmptyAnswer] &&
      Answer(runStatus, messages, lookup).citations == []
  {
  }

  /** Line 160: the model used when none, or "", is requested. */
  const DefaultModel := "gpt-4o"

  /**
   * Lines 165-194: what a run asks the provider for: the thread's one user
   * message, the assistant's instructions, model and vector stores, and the
   * run's sampling temperature and completion-token limit.
   */
  datatype RunRequest = RunRequest(
    prompt: string,
    instructions: string,
    model: string,
    vectorStoreIds: seq<string>,
    temperature: real,
    maxCompletionTokens: int)

  /** Why no answer was returned. */
  datatype GenerateFailure =
    | StoreMissing(reason: StoreFailure)
    | RunRaised       // creating the thread or the assistant, or the run, raised
    | ListRaised      // `messages.list` raised
    | CleanUpRaised   // deleting the assistant or the thread raised

  /**
   * Lines 162-257 after the store lookup. `runStatus` is the status the run
   * ends with (`None` when the thread, the assistant or the run cannot be
   * created), `messages` the thread's messages (`None` when listing them
   * raises), and `cleanUpOk` whether both deletions return without raising.
   */
  function Generated(runStatus: Option<string>, messages: Option<seq<Message>>,
                     lookup: string -> Option<string>, cleanUpOk: bool): (r: Result<RagResponse, GenerateFailure>)
    ensures r.Ok? ==> runStatus.Some? && r.value == Answer(runStatus.value, messages.GetOr([]), lookup)
    ensures r.Err? <==> (runStatus.None? ||
      (runStatus.value == Completed && (messages.None? || (CleansUp(runStatus.value, messages.value) && !cleanUpOk))))
  {
    if runStatus.None? then Err(RunRaised)
    else if runStatus.value != Completed then Ok(RagResponse(NoAnswer, []))
    else if messages.None? then Err(ListRaised)
    else if !CleansUp(runStatus.value, messages.value) then Ok(Answer(runStatus.value, messages.value, lookup))
    else if !cleanUpOk then Err(CleanUpRaised)
    else Ok(Answer(runStatus.value, messages.value, lookup))
  }

  /** Lines 215-219: the search for the first assistant message. */
  method FindAssistant(messages: seq<Message>) returns (message: Option<Message>)
    ensures message == FirstAssistant(messages)
  {
    message := None;
    var i := 0;
    while i < |messages|
      invariant 0 <= i <= |messages|
      invariant FirstAssistant(messages) == FirstAssistant(messages[i..])
    {
      assert messages[i..][1..] == messages[i + 1..];
      if messages[i].role == AssistantRole {
        message := Some(messages[i]);
        break;
      }
      i := i + 1;
    }
  }

  /** One annotation off the front of the citation collection. */
  lemma FileCitationsStep(anns: seq<Annotation>, i: nat, lookup: string -> Option<string>)
    requires i < |anns|
    ensures FileCitations(anns[i..], lookup) == CitationOf(anns[i], lookup) + FileCitations(anns[i + 1..], lookup)
  {
    assert anns[i..][1..] == anns[i + 1..];
  }

  /** One annotation off the front of the rewriting. */
  lemma RewrittenStep(text: string, anns: seq<Annotation>, i: nat)
    requires i < |anns|
    ensures Rewritten(text, anns[i..], i) == Rewritten(ReplaceAll(text, anns[i].text, Marker(i + 1)), anns[i + 1..], i + 1)
  {
    assert anns[i..][1..] == anns[i + 1..];
  }

  lemma Regroup(a: seq<Citation>, b: seq<Citation>, c: seq<Citation>)
    ensures a + (b + c) == (a + b) + c
  {
  }

  /** Lines 236-247: the citation of one annotation, when it cites a file whose lookup succeeds. */
  method CiteAnnotation(a: Annotation, lookup: string -> Option<string>) returns (found: seq<Citation>)
    ensures found == CitationOf(a, lookup)
  {
    found := [];
    if a.fileCitation.Some? {
      var filename := lookup(a.fileCitation.value);
      if filename.Some? {
        found := [CiteFile(filename.value)];
      }
    }
  }

  /** Lines 225-247: the annotation loop, rewriting the text and collecting the citations. */
  method RewriteAnswer(content: TextContent, lookup: string -> Option<string>) returns (r: RagResponse)
    ensures r == RagResponse(Rewritten(content.value, content.annotations, 0), FileCitations(content.annotations, lookup))
  {
    var anns := content.annotations;
    var answer := content.value;
    var citations: seq<Citation> := [];
    var idx := 0;
    while idx < |anns|
      invariant 0 <= idx <= |anns|
      invariant Rewritten(answer, anns[idx..], idx) == Rewritten(content.value, anns, 0)
      invariant citations + FileCitations(anns[idx..], lookup) == FileCitations(anns, lookup)
    {
      FileCitationsStep(anns, idx, lookup);
      RewrittenStep(answer, anns, idx);
      answer := ReplaceAll(answer, anns[idx].text, Marker(idx + 1));
      var found := CiteAnnotation(anns[idx], lookup);
      Regroup(citations, found, FileCitations(anns[idx + 1..], lookup));
      citations := citations + found;
      idx := idx + 1;
    }
    return RagResponse(answer, citations);
  }

  // ---------------------------------------------------------------------------
  // The service.

  class OpenAIRagService {
    /** `FILE_SEARCH_STORE_NAME`: the prefix of every store name. */
    const storeBaseName: string
    /** Bot id to store id. */
    var storeIds: map<int, string>

    /** Lines 24-28. */
    constructor (storeBaseName: string)
      ensures this.storeBaseName == storeBaseName && storeIds == map[]
    {
      this.storeBaseName := storeBaseName;
      storeIds := map[];
    }

    /** Lines 30-67. */
    method EnsureStore(botId: Option<int>, stores: seq<VectorStore>, created: Option<string>)
      returns (r: Result<string, StoreFailure>)
      modifies this
      ensures r == EnsuredFor(old(storeIds), storeBaseName, botId, stores, created)
      ensures storeIds == IdsAfter(old(storeIds), storeBaseName, botId, stores, created)
    {
      if botId.None? || botId.value == 0 {
        return Err(MissingBotId);
      }
      var bot := botId.value;
      if bot in storeIds {
        return Ok(storeIds[bot]);
      }
      var target := StoreNameFor(storeBaseName, bot);
      var i := 0;
      while i < |stores|
        invariant 0 <= i <= |stores|
        invariant FirstWithName(stores, target) == FirstWithName(stores[i..], target)
      {
        assert stores[i..][1..] == stores[i + 1..];
        if stores[i].name == target {
          storeIds := storeIds[bot := stores[i].id];
          return Ok(stores[i].id);
        }
        i := i + 1;
      }
      if created.None? {
        return Err(CreateFailed);
      }
      storeIds := storeIds[bot := created.value];
      return Ok(created.value);
    }

    /**
     * Lines 69-144. `fileId` is the id the file creation returns and
     * `attached` the status the attachment to the store returns (`None` when
     * the call raises); `retrieve(k)` is the status the `k`-th check returns.
     * The pause before each check is modelled by the elapsed-time counter.
     */
    method UploadDocument(botId: int, stores: seq<VectorStore>, created: Option<string>,
                          fileId: Option<string>, attached: Option<string>, retrieve: nat -> string)
      returns (attach: Option<AttachRequest>, r: Result<string, UploadFailure>, checks: nat)
      modifies this
      ensures storeIds == IdsAfter(old(storeIds), storeBaseName, Some(botId), stores, created)
      ensures EnsuredFor(old(storeIds), storeBaseName, Some(botId), stores, created).Err? ==>
        attach == None && r == Err(NoStore(EnsuredFor(old(storeIds), storeBaseName, Some(botId), stores, created).error)) &&
        checks == 0
      ensures EnsuredFor(old(storeIds), storeBaseName, Some(botId), stores, created).Ok? ==>
        attach == (if fileId.None? then None
                   else Some(AttachRequest(EnsuredFor(old(storeIds), storeBaseName, Some(botId), stores, created).value,
                                           fileId.value))) &&
        if fileId.None? || attached.None? then r == Err(UploadRaised) && checks == 0
        else r == Ok(fileId.value) && checks == Checks(attached.value, retrieve, 0)
    {
      var store := EnsureStore(Some(botId), stores, created);
      if store.Err? {
        return None, Err(NoStore(store.error)), 0;
      }
      if fileId.None? {
        return None, Err(UploadRaised), 0;
      }
      attach := Some(AttachRequest(store.value, fileId.value));
      if attached.None? {
        return attach, Err(UploadRaised), 0;
      }
      var status := attached.value;
      var elapsed := 0;
      checks := 0;
      while Pending(status) && elapsed < MaxWait
        invariant elapsed == PollStep * checks <= MaxWait
        invariant status == StatusAt(attached.value, retrieve, checks)
        invariant Checks(attached.value, retrieve, checks) == Checks(attached.value, retrieve, 0)
        decreases MaxWait - elapsed
      {
        elapsed := elapsed + PollStep;
        status := retrieve(checks);
        checks := checks + 1;
      }
      return attach, Ok(fileId.value), checks;
    }

    /**
     * Lines 146-257. The run itself is not modelled: what the provider
     * answers is a parameter, as `Generated` describes. `cleanedUp` tells
     * whether the deletion of the assistant and the thread was attempted.
     * `temperature` and `maxTokens` are the caller's settings (0.7 and 2048
     * when the caller gives none, lines 152-153).
     */
    method GenerateWithRag(botId: int, prompt: string, systemPrompt: string, modelName: Option<string>,
                           temperature: real, maxTokens: int,
                           stores: seq<VectorStore>, created: Option<string>,
                           runStatus: Option<string>, messages: Option<seq<Message>>,
                           lookup: string -> Option<string>, cleanUpOk: bool)
      returns (request: Option<RunRequest>, r: Result<RagResponse, GenerateFailure>, cleanedUp: bool)
      modifies this
      ensures storeIds == IdsAfter(old(storeIds), storeBaseName, Some(botId), stores, created)
      ensures EnsuredFor(old(storeIds), storeBaseName, Some(botId), stores, created).Err? ==>
        request == None &&
        r == Err(StoreMissing(EnsuredFor(old(storeIds), storeBaseName, Some(botId), stores, created).error)) &&
        !cleanedUp
      ensures EnsuredFor(old(storeIds), storeBaseName, Some(botId), stores, created).Ok? ==>
        request == Some(RunRequest(prompt, systemPrompt, OrElse(modelName, DefaultModel),
                                   [EnsuredFor(old(storeIds), storeBaseName, Some(botId), stores, created).value],
                                   temperature, maxTokens)) &&
        r == Generated(runStatus, messages, lookup, cleanUpOk) &&
        cleanedUp == (runStatus.Some? && messages.Some? && CleansUp(runStatus.value, messages.value))
    {
      var store := EnsureStore(Some(botId), stores, created);
      if store.Err? {
        return None, Err(StoreMissing(store.error)), false;
      }
      request := Some(RunRequest(prompt, systemPrompt, OrElse(modelName, DefaultModel), [store.value],
                                 temperature, maxTokens));
      if runStatus.None? {
        return request, Err(RunRaised), false;
      }
      if runStatus.value != Completed {
        return request, Ok(RagResponse(NoAnswer, [])), false;
      }
      if messages.None? {
        return request, Err(ListRaised), false;
      }
      var message := FindAssistant(messages.value);
      if message.None? || message.value.content == [] {
        return request, Ok(RagResponse(EmptyAnswer, [])), false;
      }
      var response := RewriteAnswer(message.value.content[0], lookup);
      if !cleanUpOk {
        return request, Err(CleanUpRaised), true;
      }
      return request, Ok(response), true;
    }
  }
}
