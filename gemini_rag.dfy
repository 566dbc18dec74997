/**
 * The Gemini file-search service (`services/rag/gemini.py`). All bots share
 * one provider store, found by its display name or created on first use and
 * then remembered; each document carries its bot's id as metadata, and
 * listing and deleting go by that metadata.
 *
 * The provider is not modelled: what a call would return is a parameter. A
 * store listing is the entries read before the listing ended or failed (a
 * failure is swallowed, so a listing cut short behaves like a shorter one);
 * `created` is the name a store creation returns, `None` when it raises.
 */
module GeminiRag {
  import opened Wrappers
  import opened Text
  import opened RagFactory

  /** A provider store: its display name and its resource name. */
  datatype StoreEntry = StoreEntry(displayName: string, name: string)

  /** A `custom_metadata` entry: its key and numeric value, if any. */
  datatype Meta = Meta(key: string, numericValue: Option<int>)

  /**
   * A provider document. Missing metadata is the empty list; `createTime`
   * is the creation time as the service renders it (ISO form for a
   * datetime, `str` otherwise), `None` when absent or empty.
   */
  datatype Document = Document(
    name: Option<string>,
    displayName: Option<string>,
    metadata: seq<Meta>,
    createTime: Option<string>,
    sizeBytes: Option<int>)

  /** A context chunk a grounded answer points to. */
  datatype RetrievedContext = RetrievedContext(title: Option<string>, text: Option<string>)

  datatype GroundingChunk = GroundingChunk(retrievedContext: Option<RetrievedContext>)

  /** A candidate answer; missing grounding metadata or chunks are the empty list. */
  datatype Candidate = Candidate(groundingChunks: seq<GroundingChunk>)

  /** The model's reply: its text and its candidate list, either of which the SDK may leave out. */
  datatype ModelResponse = ModelResponse(text: Option<string>, candidates: Option<seq<Candidate>>)

  const BotIdKey := "bot_id"
  const DefaultModel := "gemini-2.5-flash"
  const Completed := "completed"
  const UnknownName := "unknown"

  // ---------------------------------------------------------------------------
  // The shared store.

  /** Python truthiness of the remembered name: present and not empty. */
  predicate Remembered(memo: Option<string>) {
    memo.Some? && memo.value != ""
  }

  /** The resource name of the first store with the given display name. */
  function FirstNamed(stores: seq<StoreEntry>, displayName: string): (r: Option<string>)
    ensures r.Some? <==> exists k :: 0 <= k < |stores| && stores[k].displayName == displayName
  {
    if stores == [] then None
    else if stores[0].displayName == displayName then Some(stores[0].name)
    else FirstNamed(stores[1..], displayName)
  }

  /**
   * Lines 38-58: the remembered name when there is one; otherwise the first
   * listed store with the configured display name; otherwise a new store.
   * `None` when the creation raises.
   */
  function Ensured(memo: Option<string>, displayName: string, stores: seq<StoreEntry>, created: Option<string>): Option<string> {
    if Remembered(memo) then memo
    else if FirstNamed(stores, displayName).Some? then FirstNamed(stores, displayName)
    else created
  }

  /** What the service remembers after the lookup. */
  function MemoAfter(memo: Option<string>, displayName: string, stores: seq<StoreEntry>, created: Option<string>): Option<string> {
    var r := Ensured(memo, displayName, stores, created);
    if r.Some? then r else memo
  }

  /** A remembered name is returned whatever the provider would say, and is kept. */
  lemma RememberedIgnoresProvider(memo: Option<string>, displayName: string,
                                  stores: seq<StoreEntry>, created: Option<string>,
                                  stores': seq<StoreEntry>, created': Option<string>)
    requires Remembered(memo)
    ensures Ensured(memo, displayName, stores, created) == Ensured(memo, displayName, stores', created') == memo
    ensures MemoAfter(memo, displayName, stores, created) == memo
  {
  }

  /**
   * After a lookup that returned a non-empty name, every later lookup returns
   * that same name. (An empty name is falsy and does not stop the next
   * lookup from going to the provider.)
   */
  lemma LookupIsStable(memo: Option<string>, displayName: string,
                       stores: seq<StoreEntry>, created: Option<string>,
                       later: seq<StoreEntry>, created': Option<string>)
    requires Ensured(memo, displayName, stores, created).Some?
    requires Ensured(memo, displayName, stores, created).value != ""
    ensures Ensured(MemoAfter(memo, displayName, stores, created), displayName, later, created')
      == Ensured(memo, displayName, stores, created)
  {
  }

  /** A listing that fails at once leaves creation as the only way to a store. */
  lemma FailedListingCreates(memo: Option<string>, displayName: string, created: Option<string>)
    requires !Remembered(memo)
    ensures Ensured(memo, displayName, [], created) == created
  {
  }

  /** An existing store with the display name is reused, and nothing is created. */
  lemma ExistingStoreIsReused(memo: Option<string>, displayName: string, stores: seq<StoreEntry>,
                              created: Option<string>, k: nat)
    requires !Remembered(memo)
    requires k < |stores| && stores[k].displayName == displayName
    requires forall j :: 0 <= j < k ==> stores[j].displayName != displayName
    ensures Ensured(memo, displayName, stores, created) == Some(stores[k].name)
  {
    FirstNamedAt(stores, displayName, k);
  }

  lemma {:induction false} FirstNamedAt(stores: seq<StoreEntry>, displayName: string, k: nat)
    requires k < |stores| && stores[k].displayName == displayName
    requires forall j :: 0 <= j < k ==> stores[j].displayName != displayName
    ensures FirstNamed(stores, displayName) == Some(stores[k].name)
  {
    if k > 0 {
      FirstNamedAt(stores[1..], displayName, k - 1);
    }
  }

  // ---------------------------------------------------------------------------
  // Documents.

  /** Lines 119-123 and 174-178: some metadata entry is `bot_id` with the bot's id. */
  predicate CarriesBot(metadata: seq<Meta>, botId: int) {
    exists k :: 0 <= k < |metadata| && metadata[k].key == BotIdKey && metadata[k].numericValue == Some(botId)
  }

  /** Lines 136 and 171: the short id, the text after the last "/" of the name ("" when there is none). */
  function ShortId(name: Option<string>): (r: string)
    ensures '/' !in r
    ensures name.None? ==> r == ""
  {
    AfterLast(name.GetOr(""), '/')
  }

  /** A name without "/" is its own short id. */
  lemma ShortIdOfPlainName(name: string)
    requires '/' !in name
    ensures ShortId(Some(name)) == name
  {
    AfterLastAbsent(name, '/');
  }

  /** Line 161: the resource name of a document of the store. */
  function DocumentName(store: string, fileId: string): string {
    store + "/documents/" + fileId
  }

  /** The short id of the resource name built for deletion is the id it was built from. */
  lemma ShortIdOfDocumentName(store: string, fileId: string)
    requires '/' !in fileId
    ensures ShortId(Some(DocumentName(store, fileId))) == fileId
  {
    assert DocumentName(store, fileId) == (store + "/documents") + ['/'] + fileId;
    AfterLastSeparator(store + "/documents", fileId, '/');
  }

  /** Lines 134-142: the entry listed for a document of the bot. */
  function Info(doc: Document): (r: DocumentInfo)
    ensures r.fileId == ShortId(doc.name)
    ensures r.status == Some(Completed)
    ensures doc.displayName.Some? && doc.displayName.value != "" ==> r.displayName == doc.displayName.value
    ensures doc.displayName.None? || doc.displayName.value == "" ==> r.displayName == UnknownName
    ensures r.createdAt == doc.createTime && r.sizeBytes == doc.sizeBytes
  {
    DocumentInfo(
      ShortId(doc.name),
      OrElse(doc.displayName, UnknownName),
      doc.createTime,
      Some(Completed),
      doc.sizeBytes)
  }

  /** Lines 116-142: the listed entries, in provider order. */
  function Listed(docs: seq<Document>, botId: int): seq<DocumentInfo> {
    if docs == [] then []
    else (if CarriesBot(docs[0].metadata, botId) then [Info(docs[0])] else []) + Listed(docs[1..], botId)
  }

  /** The documents of the bot, in provider order. */
  function OfBot(docs: seq<Document>, botId: int): (r: seq<Document>)
    ensures forall k :: 0 <= k < |r| ==> CarriesBot(r[k].metadata, botId)
  {
    if docs == [] then []
    else (if CarriesBot(docs[0].metadata, botId) then [docs[0]] else []) + OfBot(docs[1..], botId)
  }

  /** Each document's entry, in order. */
  function Infos(ds: seq<Document>): (r: seq<DocumentInfo>)
    ensures |r| == |ds|
  {
    if ds == [] then [] else [Info(ds[0])] + Infos(ds[1..])
  }

  /**
   * The listing is exactly the bot's documents, in the provider's order,
   * each turned into its entry: documents of other bots, and documents
   * without the metadata, never show.
   */
  lemma {:induction false} ListedIsOfBot(docs: seq<Document>, botId: int)
    ensures Listed(docs, botId) == Infos(OfBot(docs, botId))
  {
    if docs != [] {
      ListedIsOfBot(docs[1..], botId);
      var restDocs := OfBot(docs[1..], botId);
      if CarriesBot(docs[0].metadata, botId) {
        assert OfBot(docs, botId) == [docs[0]] + restDocs;
        assert ([docs[0]] + restDocs)[1..] == restDocs;
        assert Infos([docs[0]] + restDocs) == [Info(docs[0])] + Infos(restDocs);
      } else {
        assert OfBot(docs, botId) == restDocs;
      }
    }
  }

  /** A document is among the bot's documents exactly when it is listed and carries the bot's id. */
  lemma {:induction false} OfBotExact(docs: seq<Document>, botId: int, d: Document)
    ensures d in OfBot(docs, botId) <==> d in docs && CarriesBot(d.metadata, botId)
  {
    if docs != [] {
      OfBotExact(docs[1..], botId, d);
      assert docs == [docs[0]] + docs[1..];
    }
  }

  /** Lines 120-123 and 175-178: the scan over a document's metadata entries. */
  method ScanMetadata(metadata: seq<Meta>, botId: int) returns (found: bool)
    ensures found == CarriesBot(metadata, botId)
  {
    found := false;
    var i := 0;
    while i < |metadata|
      invariant 0 <= i <= |metadata|
      invariant forall k :: 0 <= k < i ==> !(metadata[k].key == BotIdKey && metadata[k].numericValue == Some(botId))
    {
      if metadata[i].key == BotIdKey && metadata[i].numericValue == Some(botId) {
        found := true;
        break;
      }
      i := i + 1;
    }
  }

  /** Lines 116-142: the loop that keeps the bot's documents and builds their entries. */
  method CollectListed(all: seq<Document>, botId: int) returns (documents: seq<DocumentInfo>)
    ensures documents == Listed(all, botId)
  {
    documents := [];
    var i := 0;
    while i < |all|
      invariant 0 <= i <= |all|
      invariant documents + Listed(all[i..], botId) == Listed(all, botId)
    {
      assert all[i..][1..] == all[i + 1..];
      var isTarget := ScanMetadata(all[i].metadata, botId);
      if isTarget {
        documents := documents + [Info(all[i])];
      }
      i := i + 1;
    }
  }

  /**
   * Lines 169-179: the first document whose short id is `fileId` decides;
   * it must carry the bot's id. Later documents with the same short id are
   * never looked at.
   */
  function OwnsFirstMatch(docs: seq<Document>, fileId: string, botId: int): bool {
    if docs == [] then false
    else if ShortId(docs[0].name) == fileId then CarriesBot(docs[0].metadata, botId)
    else OwnsFirstMatch(docs[1..], fileId, botId)
  }

  /** Deletion is allowed exactly when the first document with that short id belongs to the bot. */
  lemma {:induction false} OwnershipIsFirstMatch(docs: seq<Document>, fileId: string, botId: int)
    ensures OwnsFirstMatch(docs, fileId, botId) <==>
      exists k :: 0 <= k < |docs| && ShortId(docs[k].name) == fileId && CarriesBot(docs[k].metadata, botId) &&
        forall j :: 0 <= j < k ==> ShortId(docs[j].name) != fileId
  {
    if docs != [] {
      OwnershipIsFirstMatch(docs[1..], fileId, botId);
      if ShortId(docs[0].name) != fileId && OwnsFirstMatch(docs, fileId, botId) {
        var k :| 0 <= k < |docs[1..]| && ShortId(docs[1..][k].name) == fileId && CarriesBot(docs[1..][k].metadata, botId) &&
          forall j :: 0 <= j < k ==> ShortId(docs[1..][j].name) != fileId;
        assert forall j :: 0 <= j < k + 1 ==> ShortId(docs[j].name) != fileId by {
          forall j | 0 <= j < k + 1 ensures ShortId(docs[j].name) != fileId {
            if j > 0 {
              assert docs[j] == docs[1..][j - 1];
            }
          }
        }
      }
      if ShortId(docs[0].name) != fileId && !OwnsFirstMatch(docs, fileId, botId) {
        forall k | 0 <= k < |docs| && ShortId(docs[k].name) == fileId && CarriesBot(docs[k].metadata, botId)
          ensures exists j :: 0 <= j < k && ShortId(docs[j].name) == fileId
        {
          assert k > 0;
          assert docs[k] == docs[1..][k - 1];
          var j :| 0 <= j < k - 1 && ShortId(docs[1..][j].name) == fileId;
          assert ShortId(docs[j + 1].name) == fileId;
        }
      }
    }
  }

  /** An id containing "/" never matches a short id, so it is always refused. */
  lemma {:induction false} SlashedIdIsRefused(docs: seq<Document>, fileId: string, botId: int)
    requires '/' in fileId
    ensures !OwnsFirstMatch(docs, fileId, botId)
  {
    if docs != [] {
      SlashedIdIsRefused(docs[1..], fileId, botId);
    }
  }

  /** Why a deletion did not happen. */
  datatype DeleteFailure =
    | StoreUnavailable  // the store could not be found or created
    | ListingFailed     // the document listing raised
    | NotOwned          // `ValueError`: no document of the bot has that id
    | DeleteRaised      // the provider's delete call raised

  // ---------------------------------------------------------------------------
  // Citations.

  /** Lines 252-260: a citation from a retrieved context; its text cut to 300 characters, `None` when empty. */
  function CitationOf(ctx: RetrievedContext): (c: Citation)
    ensures c.title == ctx.title
    ensures c.content.None? <==> ctx.text.None? || ctx.text.value == ""
    ensures c.content.Some? ==> |c.content.value| == (if |ctx.text.value| < 300 then |ctx.text.value| else 300)
    ensures c.content.Some? ==> StartsWith(ctx.text.value, c.content.value)
  {
    Citation(ctx.title, if ctx.text.Some? && ctx.text.value != "" then Some(Take(ctx.text.value, 300)) else None)
  }

  /** Lines 249-261: one citation per chunk with a retrieved context, in order. */
  function Citations(chunks: seq<GroundingChunk>): seq<Citation> {
    if chunks == [] then []
    else
      var head := if chunks[0].retrievedContext.Some? then [CitationOf(chunks[0].retrievedContext.value)] else [];
      head + Citations(chunks[1..])
  }

  /** The chunks that carry a context, in order. */
  function WithContext(chunks: seq<GroundingChunk>): (r: seq<RetrievedContext>) {
    if chunks == [] then []
    else (if chunks[0].retrievedContext.Some? then [chunks[0].retrievedContext.value] else []) + WithContext(chunks[1..])
  }

  /** The citations are the contexts, one each and in order, every one cut to 300 characters. */
  lemma {:induction false} CitationsFollowContexts(chunks: seq<GroundingChunk>)
    ensures |Citations(chunks)| == |WithContext(chunks)|
    ensures forall k :: 0 <= k < |Citations(chunks)| ==> Citations(chunks)[k] == CitationOf(WithContext(chunks)[k])
    ensures forall k :: 0 <= k < |Citations(chunks)| ==>
      Citations(chunks)[k].content.None? || |Citations(chunks)[k].content.value| <= 300
  {
    if chunks != [] {
      CitationsFollowContexts(chunks[1..]);
    }
  }

  /** Line 248 onwards: no candidate raises `IndexError`, which is caught, so there are no citations. */
  function CandidateCitations(candidates: seq<Candidate>): seq<Citation> {
    if candidates == [] then [] else Citations(candidates[0].groundingChunks)
  }

  /** Lines 246-263: the citation loop over the first candidate's chunks. */
  method ExtractCitations(candidates: seq<Candidate>) returns (citations: seq<Citation>)
    ensures citations == CandidateCitations(candidates)
  {
    citations := [];
    if candidates != [] {
      var chunks := candidates[0].groundingChunks;
      var i := 0;
      while i < |chunks|
        invariant 0 <= i <= |chunks|
        invariant citations + Citations(chunks[i..]) == Citations(chunks)
      {
        assert chunks[i..][1..] == chunks[i + 1..];
        if chunks[i].retrievedContext.Some? {
          citations := citations + [CitationOf(chunks[i].retrievedContext.value)];
        }
        i := i + 1;
      }
    }
  }

  /** Line 232: the search is restricted to documents whose `bot_id` is the bot's. */
  function MetadataFilter(botId: int): string {
    BotIdKey + " = " + IntToString(botId)
  }

  /** Two bots never share a filter, so a search never reaches another bot's documents by its filter. */
  lemma MetadataFiltersDistinct(a: int, b: int)
    requires a != b
    ensures MetadataFilter(a) != MetadataFilter(b)
  {
    var head := BotIdKey + " = ";
    if MetadataFilter(a) == MetadataFilter(b) {
      assert MetadataFilter(a)[|head|..] == IntToString(a);
      assert MetadataFilter(b)[|head|..] == IntToString(b);
      IntToStringInjective(a, b);
    }
  }

  // ---------------------------------------------------------------------------
  // Upload.

  /** Line 87: the metadata an upload attaches, the bot's id under `bot_id`. */
  function UploadMetadata(botId: int): (r: seq<Meta>)
    ensures CarriesBot(r, botId)
    ensures forall other :: CarriesBot(r, other) ==> other == botId
  {
    var r := [Meta(BotIdKey, Some(botId))];
    assert r[0].key == BotIdKey && r[0].numericValue == Some(botId);
    r
  }

  /** What the service hands the provider for an upload (lines 81-90). */
  datatype UploadRequest = UploadRequest(file: string, storeName: string, displayName: string, metadata: seq<Meta>)

  /** Why an upload failed: no store could be found or created, or the provider refused the file. */
  datatype UploadFailure = NoStore | UploadRaised

  /**
   * A document stored with the upload's metadata is listed for its bot and
   * for no other bot.
   */
  lemma UploadedIsListedForItsBot(docs: seq<Document>, botId: int, d: Document)
    requires d in docs && d.metadata == UploadMetadata(botId)
    ensures d in OfBot(docs, botId)
    ensures forall other :: other != botId ==> d !in OfBot(docs, other)
  {
    OfBotExact(docs, botId, d);
    forall other | other != botId ensures d !in OfBot(docs, other) {
      OfBotExact(docs, other, d);
    }
  }

  /**
   * What the service asks the model for (lines 224-243): model, store,
   * metadata filter, system instruction, sampling temperature and output
   * token limit.
   */
  datatype GenerateRequest = GenerateRequest(
    model: string,
    storeNames: seq<string>,
    metadataFilter: string,
    systemInstruction: Option<string>,
    prompt: string,
    temperature: real,
    maxOutputTokens: int)

  /** Why no answer was returned. */
  datatype GenerateFailure =
    | StoreFailed        // the store could not be found or created
    | GenerateRaised     // `generate_content` raised (lines 239-243)
    | CandidatesMissing  // `response.candidates` is `None`: indexing it raises `TypeError`, which line 262 does not catch

  // ---------------------------------------------------------------------------
  // The service.

  class GeminiRagService {
    /** `FILE_SEARCH_STORE_NAME`: the display name of the shared store. */
    const storeName: string
    /** The store's resource name once found or created. */
    var storeResourceName: Option<string>

    /** Lines 25-29. */
    constructor (storeName: string)
      ensures this.storeName == storeName && storeResourceName == None
    {
      this.storeName := storeName;
      storeResourceName := None;
    }

    /** Lines 31-58. The bot id is accepted and not used: all bots share the store. */
    method EnsureStore(botId: Option<int>, stores: seq<StoreEntry>, created: Option<string>) returns (r: Option<string>)
      modifies this
      ensures r == Ensured(old(storeResourceName), storeName, stores, created)
      ensures storeResourceName == MemoAfter(old(storeResourceName), storeName, stores, created)
    {
      if storeResourceName.Some? && storeResourceName.value != "" {
        return storeResourceName;
      }
      var i := 0;
      while i < |stores|
        invariant 0 <= i <= |stores|
        invariant FirstNamed(stores, storeName) == FirstNamed(stores[i..], storeName)
      {
        assert stores[i..][1..] == stores[i + 1..];
        if stores[i].displayName == storeName {
          storeResourceName := Some(stores[i].name);
          return storeResourceName;
        }
        i := i + 1;
      }
      if created.Some? {
        storeResourceName := created;
      }
      return created;
    }

    /**
     * Lines 60-100: the upload request the provider receives, and the display
     * name returned as the document's name. `accepted` is whether the
     * provider's upload call returns without raising.
     */
    method UploadDocument(botId: int, filePath: string, displayName: string,
                          stores: seq<StoreEntry>, created: Option<string>, accepted: bool)
      returns (request: Option<UploadRequest>, r: Result<string, UploadFailure>)
      modifies this
      ensures storeResourceName == MemoAfter(old(storeResourceName), storeName, stores, created)
      ensures Ensured(old(storeResourceName), storeName, stores, created).None? ==> request == None && r == Err(NoStore)
      ensures Ensured(old(storeResourceName), storeName, stores, created).Some? ==>
        request == Some(UploadRequest(filePath, Ensured(old(storeResourceName), storeName, stores, created).value,
                                      displayName, UploadMetadata(botId))) &&
        r == (if accepted then Ok(displayName) else Err(UploadRaised))
    {
      var store := EnsureStore(None, stores, created);
      if store.None? {
        return None, Err(NoStore);
      }
      request := Some(UploadRequest(filePath, store.value, displayName, [Meta(BotIdKey, Some(botId))]));
      if !accepted {
        return request, Err(UploadRaised);
      }
      return request, Ok(displayName);
    }

    /**
     * Lines 102-149: the bot's documents. `docs` is what the provider lists
     * under the store, `None` when the listing raises.
     */
    method ListDocuments(botId: int, stores: seq<StoreEntry>, created: Option<string>, docs: Option<seq<Document>>)
      returns (r: Option<seq<DocumentInfo>>)
      modifies this
      ensures storeResourceName == MemoAfter(old(storeResourceName), storeName, stores, created)
      ensures r.Some? <==> Ensured(old(storeResourceName), storeName, stores, created).Some? && docs.Some?
      ensures r.Some? ==> r.value == Listed(docs.value, botId)
    {
      var store := EnsureStore(None, stores, created);
      if store.None? || docs.None? {
        return None;
      }
      var documents := CollectListed(docs.value, botId);
      return Some(documents);
    }

    /**
     * Lines 151-196: the resource name of the deleted document, or why
     * nothing was deleted. `deleted` is whether the provider's delete call
     * (lines 187-190) returns without raising.
     */
    method DeleteDocument(botId: int, fileId: string, stores: seq<StoreEntry>, created: Option<string>,
                          docs: Option<seq<Document>>, deleted: bool)
      returns (r: Result<string, DeleteFailure>)
      modifies this
      ensures storeResourceName == MemoAfter(old(storeResourceName), storeName, stores, created)
      ensures Ensured(old(storeResourceName), storeName, stores, created).None? ==> r == Err(StoreUnavailable)
      ensures Ensured(old(storeResourceName), storeName, stores, created).Some? ==>
        if docs.None? then r == Err(ListingFailed)
        else if !OwnsFirstMatch(docs.value, fileId, botId) then r == Err(NotOwned)
        else if !deleted then r == Err(DeleteRaised)
        else r == Ok(DocumentName(Ensured(old(storeResourceName), storeName, stores, created).value, fileId))
    {
      var store := EnsureStore(None, stores, created);
      if store.None? {
        return Err(StoreUnavailable);
      }
      var fullName := DocumentName(store.value, fileId);
      if docs.None? {
        return Err(ListingFailed);
      }
      var all := docs.value;
      var found := false;
      var i := 0;
      while i < |all|
        invariant 0 <= i <= |all|
        invariant OwnsFirstMatch(all, fileId, botId) == OwnsFirstMatch(all[i..], fileId, botId)
        invariant !found
      {
        assert all[i..][1..] == all[i + 1..];
        if ShortId(all[i].name) == fileId {
          found := ScanMetadata(all[i].metadata, botId);
          break;
        }
        i := i + 1;
      }
      if !found {
        return Err(NotOwned);
      }
      if !deleted {
        return Err(DeleteRaised);
      }
      return Ok(fullName);
    }

    /**
     * Lines 198-268. The model is not modelled: `response` is its reply to
     * the request returned beside the result, `None` when `generate_content`
     * raises. `temperature` and `maxTokens` are the caller's settings (0.7
     * and 2048 when the caller gives none, lines 204-205).
     */
    method GenerateWithRag(botId: int, prompt: string, systemPrompt: string, modelName: Option<string>,
                           temperature: real, maxTokens: int,
                           stores: seq<StoreEntry>, created: Option<string>,
                           response: Option<ModelResponse>)
      returns (request: Option<GenerateRequest>, r: Result<RagResponse, GenerateFailure>)
      modifies this
      ensures storeResourceName == MemoAfter(old(storeResourceName), storeName, stores, created)
      ensures Ensured(old(storeResourceName), storeName, stores, created).None? ==>
        request == None && r == Err(StoreFailed)
      ensures Ensured(old(storeResourceName), storeName, stores, created).Some? ==>
        request == Some(GenerateRequest(
          OrElse(modelName, DefaultModel),
          [Ensured(old(storeResourceName), storeName, stores, created).value],
          MetadataFilter(botId),
          if systemPrompt == "" then None else Some(systemPrompt),
          prompt,
          temperature,
          maxTokens)) &&
        r == (if response.None? then Err(GenerateRaised)
              else if response.value.candidates.None? then Err(CandidatesMissing)
              else Ok(RagResponse(response.value.text.GetOr(""), CandidateCitations(response.value.candidates.value))))
    {
      var store := EnsureStore(None, stores, created);
      if store.None? {
        return None, Err(StoreFailed);
      }
      request := Some(GenerateRequest(
        OrElse(modelName, DefaultModel),
        [store.value],
        MetadataFilter(botId),
        if systemPrompt == "" then None else Some(systemPrompt),
        prompt,
        temperature,
        maxTokens));
      if response.None? {
        return request, Err(GenerateRaised);
      }
      if response.value.candidates.None? {
        return request, Err(CandidatesMissing);
      }
      var citations := ExtractCitations(response.value.candidates.value);
      var text := response.value.text;
      r := Ok(RagResponse(if text.Some? then text.value else "", citations));
    }
  }
}
