/**
 * The bot record of the back end (`models/bot.py`) and the view of it the
 * API returns (`schemas/bot.py`), shared by the catalogue, the admin
 * endpoints and the seeding script. Timestamps are clock readings passed in
 * by the caller.
 */
module BotRecords {
  import opened Wrappers

  datatype PlanType = FREE | PRO

  /**
   * A row of the `bots` table. `tags` is a JSON column without a NOT NULL
   * constraint, so it may hold null; `iconUrl` is nullable by declaration;
   * every other column is NOT NULL.
   */
  datatype Bot = Bot(
    id: int,
    name: string,
    description: string,
    iconUrl: Option<string>,
    tags: Option<seq<string>>,
    isVerified: bool,
    isNew: bool,
    planRequired: PlanType,
    systemPrompt: string,
    llmModel: string,
    isActive: bool,
    createdAt: int,
    updatedAt: int)

  /** `BotResponse`: the public fields of a bot. */
  datatype BotResponse = BotResponse(
    id: int,
    name: string,
    description: string,
    iconUrl: Option<string>,
    tags: seq<string>,
    isVerified: bool,
    isNew: bool,
    planRequired: PlanType)

  /**
   * `BotResponse.model_validate(bot)`: the public fields, or `None` when the
   * row's tags are null, which the response's `list[str]` field refuses.
   */
  function ToResponse(b: Bot): (r: Option<BotResponse>)
    ensures r.Some? <==> b.tags.Some?
    ensures r.Some? ==> r.value.id == b.id && r.value.name == b.name && r.value.tags == b.tags.value
  {
    if b.tags.None? then None
    else Some(BotResponse(b.id, b.name, b.description, b.iconUrl, b.tags.value, b.isVerified, b.isNew, b.planRequired))
  }

  /** `BotCreateRequest` after validation, its defaults filled in. */
  datatype BotCreate = BotCreate(
    name: string,
    description: string,
    iconUrl: Option<string>,
    tags: seq<string>,
    isVerified: bool,
    isNew: bool,
    planRequired: PlanType,
    systemPrompt: string,
    llmModel: string)

  /** A creation request that sets only the two required fields (`schemas/bot.py`, lines 31-41). */
  function MinimalCreate(name: string, description: string): BotCreate {
    BotCreate(name, description, None, [], false, false, FREE, "", "gemini-2.0-flash")
  }

  /** `Bot(**request.model_dump())` (`admin.py`, line 28), with the key and the timestamps the database fills in. */
  function NewBot(req: BotCreate, id: int, now: int): Bot {
    Bot(id, req.name, req.description, req.iconUrl, Some(req.tags), req.isVerified, req.isNew,
        req.planRequired, req.systemPrompt, req.llmModel, true, now, now)
  }

  /**
   * The `bots` table as the endpoints and the seeding script see it: rows by
   * primary key and the next key the database will hand out.
   */
  class BotTable {
    var rows: map<int, Bot>
    var nextId: int

    /** Every row is stored under its own id, and every id is below the next one handed out. */
    predicate Valid()
      reads this
    {
      forall id :: id in rows ==> rows[id].id == id && id < nextId
    }

    constructor ()
      ensures rows == map[] && nextId == 1
      ensures Valid()
    {
      rows := map[];
      nextId := 1;
    }
  }

  /** The keys of the rows named `name`: what `select(Bot).where(Bot.name == name)` finds. */
  function IdsNamed(rows: map<int, Bot>, name: string): set<int> {
    set id | id in rows && rows[id].name == name
  }
}
