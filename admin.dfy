/**
 * The admin endpoints of the back end (`admin.py`): creating a bot, updating
 * the fields a request sets, and deactivating a bot. Each request runs in
 * one database transaction that is committed when the handler returns and
 * rolled back when it raises (`database.py`, lines 39-47).
 */
module Admin {
  import opened Wrappers
  import opened BotRecords
  import opened BotCatalogue

  /** The HTTP errors the handlers end with. */
  datatype Failure = NotFound | ServerError

  // ---------------------------------------------------------------------------
  // Creation.

  /** The response to a creation carries back every public field of the request. */
  lemma CreatedEchoesRequest(req: BotCreate, id: int, now: int)
    ensures ToResponse(NewBot(req, id, now)) ==
      Some(BotResponse(id, req.name, req.description, req.iconUrl, req.tags, req.isVerified, req.isNew, req.planRequired))
    ensures NewBot(req, id, now).isActive
  {
  }

  // ---------------------------------------------------------------------------
  // Partial update.

  /** A field of an update request: left out, sent as null, or sent with a value. */
  datatype Patch<T> = Unset | Null | Value(v: T)

  /** `BotUpdateRequest`; its fields in declaration order. */
  datatype BotUpdate = BotUpdate(
    name: Patch<string>,
    description: Patch<string>,
    iconUrl: Patch<string>,
    tags: Patch<seq<string>>,
    isVerified: Patch<bool>,
    isNew: Patch<bool>,
    planRequired: Patch<PlanType>,
    systemPrompt: Patch<string>,
    llmModel: Patch<string>,
    isActive: Patch<bool>)

  const NoChange := BotUpdate(Unset, Unset, Unset, Unset, Unset, Unset, Unset, Unset, Unset, Unset)

  /** One `setattr(bot, key, value)`; `None` stands for Python's `None`. */
  datatype Assignment =
    | SetName(name: Option<string>)
    | SetDescription(description: Option<string>)
    | SetIconUrl(iconUrl: Option<string>)
    | SetTags(tags: Option<seq<string>>)
    | SetIsVerified(isVerified: Option<bool>)
    | SetIsNew(isNew: Option<bool>)
    | SetPlanRequired(planRequired: Option<PlanType>)
    | SetSystemPrompt(systemPrompt: Option<string>)
    | SetLlmModel(llmModel: Option<string>)
    | SetIsActive(isActive: Option<bool>)

  /** The assignment constructors as functions. */
  const SetNameOf: Option<string> -> Assignment := x => SetName(x)
  const SetDescriptionOf: Option<string> -> Assignment := x => SetDescription(x)
  const SetIconUrlOf: Option<string> -> Assignment := x => SetIconUrl(x)
  const SetTagsOf: Option<seq<string>> -> Assignment := x => SetTags(x)
  const SetIsVerifiedOf: Option<bool> -> Assignment := x => SetIsVerified(x)
  const SetIsNewOf: Option<bool> -> Assignment := x => SetIsNew(x)
  const SetPlanRequiredOf: Option<PlanType> -> Assignment := x => SetPlanRequired(x)
  const SetSystemPromptOf: Option<string> -> Assignment := x => SetSystemPrompt(x)
  const SetLlmModelOf: Option<string> -> Assignment := x => SetLlmModel(x)
  const SetIsActiveOf: Option<bool> -> Assignment := x => SetIsActive(x)

  function Entry<T>(p: Patch<T>, make: Option<T> -> Assignment): seq<Assignment> {
    match p
    case Unset => []
    case Null => [make(None)]
    case Value(v) => [make(Some(v))]
  }

  /** Line 51: `request.model_dump(exclude_unset=True)` — the fields the client sent, in declaration order. */
  function UpdateData(u: BotUpdate): seq<Assignment> {
    Entry(u.name, SetNameOf) + Entry(u.description, SetDescriptionOf) +
    Entry(u.iconUrl, SetIconUrlOf) + Entry(u.tags, SetTagsOf) +
    Entry(u.isVerified, SetIsVerifiedOf) + Entry(u.isNew, SetIsNewOf) +
    Entry(u.planRequired, SetPlanRequiredOf) + Entry(u.systemPrompt, SetSystemPromptOf) +
    Entry(u.llmModel, SetLlmModelOf) + Entry(u.isActive, SetIsActiveOf)
  }

  /**
   * Whether the row can still be written after the assignment: a null is
   * only storable in the two nullable columns.
   */
  predicate Storable(a: Assignment) {
    match a
    case SetIconUrl(_) => true
    case SetTags(_) => true
    case SetName(x) => x.Some?
    case SetDescription(x) => x.Some?
    case SetIsVerified(x) => x.Some?
    case SetIsNew(x) => x.Some?
    case SetPlanRequired(x) => x.Some?
    case SetSystemPrompt(x) => x.Some?
    case SetLlmModel(x) => x.Some?
    case SetIsActive(x) => x.Some?
  }

  /** The effect of one assignment on the row; an unstorable null leaves the field (the write fails later). */
  function Assign(b: Bot, a: Assignment): Bot {
    match a
    case SetName(x) => if x.Some? then b.(name := x.value) else b
    case SetDescription(x) => if x.Some? then b.(description := x.value) else b
    case SetIconUrl(x) => b.(iconUrl := x)
    case SetTags(x) => b.(tags := x)
    case SetIsVerified(x) => if x.Some? then b.(isVerified := x.value) else b
    case SetIsNew(x) => if x.Some? then b.(isNew := x.value) else b
    case SetPlanRequired(x) => if x.Some? then b.(planRequired := x.value) else b
    case SetSystemPrompt(x) => if x.Some? then b.(systemPrompt := x.value) else b
    case SetLlmModel(x) => if x.Some? then b.(llmModel := x.value) else b
    case SetIsActive(x) => if x.Some? then b.(isActive := x.value) else b
  }

  /** The row after the assignments, one after another. */
  function AssignAll(b: Bot, data: seq<Assignment>): Bot {
    if data == [] then b else Assign(AssignAll(b, data[..|data| - 1]), data[|data| - 1])
  }

  function Pick<T>(p: Patch<T>, current: T): T {
    if p.Value? then p.v else current
  }

  function PickNullable<T>(p: Patch<T>, current: Option<T>): Option<T> {
    match p
    case Unset => current
    case Null => None
    case Value(v) => Some(v)
  }

  /** The update field by field: every field the request sets takes its value; every other field keeps its own. */
  function Patched(b: Bot, u: BotUpdate): Bot {
    Bot(b.id,
        Pick(u.name, b.name),
        Pick(u.description, b.description),
        PickNullable(u.iconUrl, b.iconUrl),
        PickNullable(u.tags, b.tags),
        Pick(u.isVerified, b.isVerified),
        Pick(u.isNew, b.isNew),
        Pick(u.planRequired, b.planRequired),
        Pick(u.systemPrompt, b.systemPrompt),
        Pick(u.llmModel, b.llmModel),
        Pick(u.isActive, b.isActive),
        b.createdAt,
        b.updatedAt)
  }

  /** Whether a request can be stored: null only for the icon and the tags. */
  predicate Storables(u: BotUpdate) {
    !u.name.Null? && !u.description.Null? && !u.isVerified.Null? && !u.isNew.Null? &&
    !u.planRequired.Null? && !u.systemPrompt.Null? && !u.llmModel.Null? && !u.isActive.Null?
  }

  lemma {:induction false} AssignAllAppend(b: Bot, data: seq<Assignment>, more: seq<Assignment>)
    ensures AssignAll(b, data + more) == AssignAll(AssignAll(b, data), more)
    decreases |more|
  {
    if more != [] {
      assert (data + more)[..|data + more| - 1] == data + more[..|more| - 1];
      AssignAllAppend(b, data, more[..|more| - 1]);
    } else {
      assert data + more == data;
    }
  }

  lemma EntryEffect<T>(b: Bot, p: Patch<T>, make: Option<T> -> Assignment)
    ensures p.Unset? ==> AssignAll(b, Entry(p, make)) == b
    ensures p.Null? ==> AssignAll(b, Entry(p, make)) == Assign(b, make(None))
    ensures p.Value? ==> AssignAll(b, Entry(p, make)) == Assign(b, make(Some(p.v)))
  {
    match p
    case Unset =>
    case Null =>
      assert Entry(p, make) == [make(None)];
      assert [make(None)][..0] == [];
    case Value(v) =>
      assert Entry(p, make) == [make(Some(v))];
      assert [make(Some(v))][..0] == [];
  }

  /** The assignments of the ten fields, applied field after field. */
  function Fieldwise(b: Bot, u: BotUpdate): Bot {
    var b1 := AssignAll(b, Entry(u.name, SetNameOf));
    var b2 := AssignAll(b1, Entry(u.description, SetDescriptionOf));
    var b3 := AssignAll(b2, Entry(u.iconUrl, SetIconUrlOf));
    var b4 := AssignAll(b3, Entry(u.tags, SetTagsOf));
    var b5 := AssignAll(b4, Entry(u.isVerified, SetIsVerifiedOf));
    var b6 := AssignAll(b5, Entry(u.isNew, SetIsNewOf));
    var b7 := AssignAll(b6, Entry(u.planRequired, SetPlanRequiredOf));
    var b8 := AssignAll(b7, Entry(u.systemPrompt, SetSystemPromptOf));
    var b9 := AssignAll(b8, Entry(u.llmModel, SetLlmModelOf));
    AssignAll(b9, Entry(u.isActive, SetIsActiveOf))
  }

  lemma {:induction false} UpdateDataFieldwise(b: Bot, u: BotUpdate)
    ensures AssignAll(b, UpdateData(u)) == Fieldwise(b, u)
  {
    var e1 := Entry(u.name, SetNameOf);
    var e2 := Entry(u.description, SetDescriptionOf);
    var e3 := Entry(u.iconUrl, SetIconUrlOf);
    var e4 := Entry(u.tags, SetTagsOf);
    var e5 := Entry(u.isVerified, SetIsVerifiedOf);
    var e6 := Entry(u.isNew, SetIsNewOf);
    var e7 := Entry(u.planRequired, SetPlanRequiredOf);
    var e8 := Entry(u.systemPrompt, SetSystemPromptOf);
    var e9 := Entry(u.llmModel, SetLlmModelOf);
    var e10 := Entry(u.isActive, SetIsActiveOf);
    AssignAllAppend(b, e1 + e2 + e3 + e4 + e5 + e6 + e7 + e8 + e9, e10);
    AssignAllAppend(b, e1 + e2 + e3 + e4 + e5 + e6 + e7 + e8, e9);
    AssignAllAppend(b, e1 + e2 + e3 + e4 + e5 + e6 + e7, e8);
    AssignAllAppend(b, e1 + e2 + e3 + e4 + e5 + e6, e7);
    AssignAllAppend(b, e1 + e2 + e3 + e4 + e5, e6);
    AssignAllAppend(b, e1 + e2 + e3 + e4, e5);
    AssignAllAppend(b, e1 + e2 + e3, e4);
    AssignAllAppend(b, e1 + e2, e3);
    AssignAllAppend(b, e1, e2);
  }

  lemma SentName(b: Bot, p: Patch<string>)
    ensures AssignAll(b, Entry(p, SetNameOf)) == b.(name := Pick(p, b.name))
  {
    EntryEffect(b, p, SetNameOf);
  }

  lemma SentDescription(b: Bot, p: Patch<string>)
    ensures AssignAll(b, Entry(p, SetDescriptionOf)) == b.(description := Pick(p, b.description))
  {
    EntryEffect(b, p, SetDescriptionOf);
  }

  lemma SentIconUrl(b: Bot, p: Patch<string>)
    ensures AssignAll(b, Entry(p, SetIconUrlOf)) == b.(iconUrl := PickNullable(p, b.iconUrl))
  {
    EntryEffect(b, p, SetIconUrlOf);
  }

  lemma SentTags(b: Bot, p: Patch<seq<string>>)
    ensures AssignAll(b, Entry(p, SetTagsOf)) == b.(tags := PickNullable(p, b.tags))
  {
    EntryEffect(b, p, SetTagsOf);
  }

  lemma SentIsVerified(b: Bot, p: Patch<bool>)
    ensures AssignAll(b, Entry(p, SetIsVerifiedOf)) == b.(isVerified := Pick(p, b.isVerified))
  {
    EntryEffect(b, p, SetIsVerifiedOf);
  }

  lemma SentIsNew(b: Bot, p: Patch<bool>)
    ensures AssignAll(b, Entry(p, SetIsNewOf)) == b.(isNew := Pick(p, b.isNew))
  {
    EntryEffect(b, p, SetIsNewOf);
  }

  lemma SentPlanRequired(b: Bot, p: Patch<PlanType>)
    ensures AssignAll(b, Entry(p, SetPlanRequiredOf)) == b.(planRequired := Pick(p, b.planRequired))
  {
    EntryEffect(b, p, SetPlanRequiredOf);
  }

  lemma SentSystemPrompt(b: Bot, p: Patch<string>)
    ensures AssignAll(b, Entry(p, SetSystemPromptOf)) == b.(systemPrompt := Pick(p, b.systemPrompt))
  {
    EntryEffect(b, p, SetSystemPromptOf);
  }

  lemma SentLlmModel(b: Bot, p: Patch<string>)
    ensures AssignAll(b, Entry(p, SetLlmModelOf)) == b.(llmModel := Pick(p, b.llmModel))
  {
    EntryEffect(b, p, SetLlmModelOf);
  }

  lemma SentIsActive(b: Bot, p: Patch<bool>)
    ensures AssignAll(b, Entry(p, SetIsActiveOf)) == b.(isActive := Pick(p, b.isActive))
  {
    EntryEffect(b, p, SetIsActiveOf);
  }

  /** Applied field after field, the assignments are the field-wise update. */
  lemma FieldwiseIsPatch(b: Bot, u: BotUpdate)
    ensures Fieldwise(b, u) == Patched(b, u)
  {
    SentName(b, u.name);
    var b1 := AssignAll(b, Entry(u.name, SetNameOf));
    SentDescription(b1, u.description);
    var b2 := AssignAll(b1, Entry(u.description, SetDescriptionOf));
    SentIconUrl(b2, u.iconUrl);
    var b3 := AssignAll(b2, Entry(u.iconUrl, SetIconUrlOf));
    SentTags(b3, u.tags);
    var b4 := AssignAll(b3, Entry(u.tags, SetTagsOf));
    SentIsVerified(b4, u.isVerified);
    var b5 := AssignAll(b4, Entry(u.isVerified, SetIsVerifiedOf));
    SentIsNew(b5, u.isNew);
    var b6 := AssignAll(b5, Entry(u.isNew, SetIsNewOf));
    SentPlanRequired(b6, u.planRequired);
    var b7 := AssignAll(b6, Entry(u.planRequired, SetPlanRequiredOf));
    SentSystemPrompt(b7, u.systemPrompt);
    var b8 := AssignAll(b7, Entry(u.systemPrompt, SetSystemPromptOf));
    SentLlmModel(b8, u.llmModel);
    var b9 := AssignAll(b8, Entry(u.llmModel, SetLlmModelOf));
    SentIsActive(b9, u.isActive);
  }

  /** The `setattr` loop over the sent fields does exactly the field-wise update. */
  lemma UpdateDataIsPatch(b: Bot, u: BotUpdate)
    ensures AssignAll(b, UpdateData(u)) == Patched(b, u)
  {
    UpdateDataFieldwise(b, u);
    FieldwiseIsPatch(b, u);
  }

  /** Lines 51-55: the row after a storable update, the `setattr` loop followed by the new modification time. */
  function Updated(b: Bot, u: BotUpdate, now: int): (r: Bot)
    ensures r == AssignAll(b, UpdateData(u)).(updatedAt := now)
  {
    UpdateDataIsPatch(b, u);
    Patched(b, u).(updatedAt := now)
  }

  /** An update that sets nothing only moves the modification time. */
  lemma EmptyUpdateTouchesOnlyTime(b: Bot, now: int)
    ensures Updated(b, NoChange, now) == b.(updatedAt := now)
  {
  }

  /** The key and the creation time never change, and sending the same update twice changes nothing more. */
  lemma UpdateStable(b: Bot, u: BotUpdate, t1: int, t2: int)
    ensures Updated(b, u, t1).id == b.id && Updated(b, u, t1).createdAt == b.createdAt
    ensures Updated(Updated(b, u, t1), u, t2) == Updated(b, u, t2)
  {
  }

  // ---------------------------------------------------------------------------
  // Soft delete.

  /** Lines 76-77: the row stays; it is only marked inactive and its modification time moves. */
  function Deactivated(b: Bot, now: int): (r: Bot)
    ensures !r.isActive && r.updatedAt == now
    ensures r.(isActive := b.isActive, updatedAt := b.updatedAt) == b
  {
    b.(isActive := false, updatedAt := now)
  }

  /** A deactivated row is no longer listed, whatever the tag. */
  lemma DeactivatedIsNotListed(rows: seq<Bot>, b: Bot, now: int, tag: Option<string>)
    ensures Deactivated(b, now) !in SelectBots(rows, tag)
  {
  }

  /** Deleting twice is deleting once (at the later time); an update that sets `is_active` brings the row back. */
  lemma DeleteThenRestore(b: Bot, t1: int, t2: int)
    ensures Deactivated(Deactivated(b, t1), t2) == Deactivated(b, t2)
    ensures Updated(Deactivated(b, t1), NoChange.(isActive := Value(true)), t2) == b.(updatedAt := t2, isActive := true)
  {
  }

  // ---------------------------------------------------------------------------
  // The endpoints.

  /** Lines 22-34: the new row gets the next key; no existing row is touched. */
  method CreateBot(table: BotTable, req: BotCreate, now: int) returns (r: BotResponse)
    requires table.Valid()
    modifies table
    ensures table.Valid()
    ensures old(table.nextId) !in old(table.rows)
    ensures table.rows == old(table.rows)[old(table.nextId) := NewBot(req, old(table.nextId), now)]
    ensures table.nextId == old(table.nextId) + 1
    ensures ToResponse(NewBot(req, old(table.nextId), now)) == Some(r)
  {
    var bot := NewBot(req, table.nextId, now);
    table.rows := table.rows[table.nextId := bot];
    table.nextId := table.nextId + 1;
    r := ToResponse(bot).value;
  }

  /**
   * Lines 37-61. A null for a NOT NULL column makes the write fail, and null
   * tags make the response fail to validate; either way the transaction is
   * rolled back and the client gets a server error.
   */
  method UpdateBot(table: BotTable, botId: int, u: BotUpdate, now: int) returns (r: Result<BotResponse, Failure>)
    requires table.Valid()
    modifies table
    ensures table.Valid()
    ensures table.nextId == old(table.nextId)
    ensures botId !in old(table.rows) ==> r == Err(NotFound) && table.rows == old(table.rows)
    ensures botId in old(table.rows) && Storables(u) && Updated(old(table.rows)[botId], u, now).tags.Some? ==>
      table.rows == old(table.rows)[botId := Updated(old(table.rows)[botId], u, now)] &&
      r == Ok(ToResponse(Updated(old(table.rows)[botId], u, now)).value)
    ensures botId in old(table.rows) && !(Storables(u) && Updated(old(table.rows)[botId], u, now).tags.Some?) ==>
      r == Err(ServerError) && table.rows == old(table.rows)
  {
    if botId !in table.rows {
      return Err(NotFound);
    }
    var bot := table.rows[botId];
    var data := UpdateData(u);
    var i := 0;
    while i < |data|
      invariant 0 <= i <= |data|
      invariant bot == AssignAll(table.rows[botId], data[..i])
    {
      assert data[..i + 1][..i] == data[..i];
      bot := Assign(bot, data[i]);
      i := i + 1;
    }
    assert data[..|data|] == data;
    UpdateDataIsPatch(table.rows[botId], u);
    bot := bot.(updatedAt := now);
    if !Storables(u) {
      return Err(ServerError);
    }
    var response := ToResponse(bot);
    if response.None? {
      return Err(ServerError);
    }
    table.rows := table.rows[botId := bot];
    return Ok(response.value);
  }

  /** Lines 64-80: a soft delete; a missing key is 404. */
  method DeleteBot(table: BotTable, botId: int, now: int) returns (r: Result<(), Failure>)
    requires table.Valid()
    modifies table
    ensures table.Valid()
    ensures table.nextId == old(table.nextId)
    ensures botId !in old(table.rows) ==> r == Err(NotFound) && table.rows == old(table.rows)
    ensures botId in old(table.rows) ==>
      r == Ok(()) && table.rows == old(table.rows)[botId := Deactivated(old(table.rows)[botId], now)]
  {
    if botId !in table.rows {
      return Err(NotFound);
    }
    var bot := table.rows[botId];
    bot := bot.(isActive := false);
    bot := bot.(updatedAt := now);
    table.rows := table.rows[botId := bot];
    return Ok(());
  }
}
