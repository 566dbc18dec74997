/**
 * The seeding script of the back end (`seed_bots.py`): it adds each seed bot
 * whose name is not in the table yet, in one transaction committed at the
 * end. The duplicate check reads the table together with the rows added
 * earlier in the same run (the session flushes them before each query).
 */
module Seeding {
  import opened Wrappers
  import opened BotRecords

  /** A seed entry: the creation fields plus the activity flag it sets explicitly. */
  datatype SeedBot = SeedBot(fields: BotCreate, isActive: bool)

  /** Lines 23-41. */
  const SeedBots: seq<SeedBot> := [
    SeedBot(
      BotCreate(
        "Blessing Q&A",
        "축복과 관련된 질문에 대해 성경 기반의 따뜻한 상담을 제공하는 AI 어시스턴트입니다.",
        None,
        ["상담", "축복", "Q&A"],
        true,
        true,
        FREE,
        "당신은 축복 상담 전문 AI 어시스턴트 'Blessing Q&A'입니다.\n"
        + "사용자의 질문에 대해 따뜻하고 위로가 되는 답변을 제공하세요.\n"
        + "답변은 한국어로 작성하며, 공감과 격려를 중심으로 대화하세요.\n"
        + "필요한 경우 성경 구절을 인용할 수 있습니다.",
        "gemini-3.0-flash"),
      true)
  ]

  /** Line 64: `Bot(**bot_data)`, with the key and timestamps the database fills in. */
  function SeedRow(seed: SeedBot, id: int, now: int): Bot {
    NewBot(seed.fields, id, now).(isActive := seed.isActive)
  }

  /** The table after a run: the rows and the next key. */
  datatype Table = Table(rows: map<int, Bot>, nextId: int)

  /**
   * Lines 53-66, one seed after another. Two rows with the seed's name make
   * `scalar_one_or_none()` raise, which ends the run before the commit.
   */
  function Seeded(t: Table, seeds: seq<SeedBot>, now: int): Option<Table>
    decreases |seeds|
  {
    if seeds == [] then Some(t)
    else
      var found := IdsNamed(t.rows, seeds[0].fields.name);
      if |found| > 1 then None
      else if |found| == 1 then Seeded(t, seeds[1..], now)
      else Seeded(Inserted(t, seeds[0], now), seeds[1..], now)
  }

  /** Lines 64-65: the seed's row added under the next key. */
  function Inserted(t: Table, seed: SeedBot, now: int): Table {
    Table(t.rows[t.nextId := SeedRow(seed, t.nextId, now)], t.nextId + 1)
  }

  predicate WellKeyed(t: Table) {
    forall id :: id in t.rows ==> t.rows[id].id == id && id < t.nextId
  }

  /** Rows already present stay as they were. */
  predicate Extends(after: Table, before: Table) {
    forall id :: id in before.rows ==> id in after.rows && after.rows[id] == before.rows[id]
  }

  lemma AddNamed(rows: map<int, Bot>, k: int, b: Bot, name: string)
    requires k !in rows
    ensures b.name == name ==> IdsNamed(rows[k := b], name) == IdsNamed(rows, name) + {k}
    ensures b.name != name ==> IdsNamed(rows[k := b], name) == IdsNamed(rows, name)
  {
  }

  /** The keys named `n` once the seed's row is added under the next key. */
  function NamedAfterInsert(t: Table, seed: SeedBot, n: string): set<int> {
    if n == seed.fields.name then IdsNamed(t.rows, n) + {t.nextId} else IdsNamed(t.rows, n)
  }

  /** Adding one seed keeps the table well keyed and gives its name the new key. */
  lemma InsertedShape(t: Table, seed: SeedBot, now: int)
    requires WellKeyed(t)
    ensures WellKeyed(Inserted(t, seed, now)) && Extends(Inserted(t, seed, now), t)
    ensures forall n :: IdsNamed(Inserted(t, seed, now).rows, n) == NamedAfterInsert(t, seed, n)
  {
    assert t.nextId !in t.rows;
    forall n ensures IdsNamed(Inserted(t, seed, now).rows, n) == NamedAfterInsert(t, seed, n) {
      AddNamed(t.rows, t.nextId, SeedRow(seed, t.nextId, now), n);
    }
  }

  /** The table after the first seed of a run. */
  function FirstStep(t: Table, seed: SeedBot, now: int): Table {
    if |IdsNamed(t.rows, seed.fields.name)| == 0 then Inserted(t, seed, now) else t
  }

  /** A run that gets past its first seed goes on from the table after it. */
  lemma SeededFirst(t: Table, seeds: seq<SeedBot>, now: int)
    requires seeds != [] && Seeded(t, seeds, now).Some?
    ensures Seeded(t, seeds, now) == Seeded(FirstStep(t, seeds[0], now), seeds[1..], now)
  {
  }

  /**
   * A successful run keeps every existing row, leaves the table well keyed,
   * and leaves alone the names that had exactly one row.
   */
  lemma {:induction false} SeededKeeps(t: Table, seeds: seq<SeedBot>, now: int)
    requires WellKeyed(t)
    requires Seeded(t, seeds, now).Some?
    ensures WellKeyed(Seeded(t, seeds, now).value)
    ensures Extends(Seeded(t, seeds, now).value, t)
    ensures forall name :: |IdsNamed(t.rows, name)| == 1 ==> IdsNamed(Seeded(t, seeds, now).value.rows, name) == IdsNamed(t.rows, name)
    decreases |seeds|
  {
    if seeds != [] {
      var next := FirstStep(t, seeds[0], now);
      if |IdsNamed(t.rows, seeds[0].fields.name)| == 0 {
        InsertedShape(t, seeds[0], now);
        assert IdsNamed(t.rows, seeds[0].fields.name) == {};
      }
      SeededFirst(t, seeds, now);
      SeededKeeps(next, seeds[1..], now);
    }
  }

  /** A successful run ends with exactly one row for every seed name. */
  lemma {:induction false} SeededCovers(t: Table, seeds: seq<SeedBot>, now: int)
    requires WellKeyed(t)
    requires Seeded(t, seeds, now).Some?
    ensures forall i :: 0 <= i < |seeds| ==> |IdsNamed(Seeded(t, seeds, now).value.rows, seeds[i].fields.name)| == 1
    decreases |seeds|
  {
    if seeds != [] {
      var name := seeds[0].fields.name;
      var next := FirstStep(t, seeds[0], now);
      if |IdsNamed(t.rows, name)| == 0 {
        InsertedShape(t, seeds[0], now);
        assert IdsNamed(t.rows, name) == {};
      }
      assert |IdsNamed(next.rows, name)| == 1;
      SeededFirst(t, seeds, now);
      SeededKeeps(next, seeds[1..], now);
      SeededCovers(next, seeds[1..], now);
      var r := Seeded(t, seeds, now).value;
      assert IdsNamed(r.rows, name) == IdsNamed(next.rows, name);
      forall i | 0 <= i < |seeds| ensures |IdsNamed(r.rows, seeds[i].fields.name)| == 1 {
        if i > 0 {
          assert seeds[i] == seeds[1..][i - 1];
        }
      }
    }
  }

  /**
   * A successful run keeps every existing row, leaves the table well keyed,
   * and ends with exactly one row for every seed name that had at most one.
   */
  lemma SeededShape(t: Table, seeds: seq<SeedBot>, now: int)
    requires WellKeyed(t)
    requires Seeded(t, seeds, now).Some?
    ensures WellKeyed(Seeded(t, seeds, now).value)
    ensures Extends(Seeded(t, seeds, now).value, t)
    ensures forall name :: |IdsNamed(t.rows, name)| == 1 ==> IdsNamed(Seeded(t, seeds, now).value.rows, name) == IdsNamed(t.rows, name)
    ensures forall i :: 0 <= i < |seeds| ==> |IdsNamed(Seeded(t, seeds, now).value.rows, seeds[i].fields.name)| == 1
  {
    SeededKeeps(t, seeds, now);
    SeededCovers(t, seeds, now);
  }

  /** The seeding is idempotent: a second run over its own result adds nothing. */
  lemma {:induction false} SeedingTwiceAddsNothing(t: Table, seeds: seq<SeedBot>, now: int, later: int)
    requires WellKeyed(t)
    requires Seeded(t, seeds, now).Some?
    ensures Seeded(Seeded(t, seeds, now).value, seeds, later) == Seeded(t, seeds, now)
  {
    SeededShape(t, seeds, now);
    AllPresentIsNoOp(Seeded(t, seeds, now).value, seeds, later);
  }

  lemma {:induction false} AllPresentIsNoOp(t: Table, seeds: seq<SeedBot>, now: int)
    requires forall i :: 0 <= i < |seeds| ==> |IdsNamed(t.rows, seeds[i].fields.name)| == 1
    ensures Seeded(t, seeds, now) == Some(t)
    decreases |seeds|
  {
    if seeds != [] {
      assert |IdsNamed(t.rows, seeds[0].fields.name)| == 1;
      forall i | 0 <= i < |seeds[1..]| ensures |IdsNamed(t.rows, seeds[1..][i].fields.name)| == 1 {
        assert seeds[1..][i] == seeds[i + 1];
      }
      AllPresentIsNoOp(t, seeds[1..], now);
    }
  }

  /**
   * Lines 44-68. The rows added are kept in the session until the single
   * commit at the end; a failing duplicate query ends the run with nothing
   * committed.
   */
  method SeedDatabase(table: BotTable, seeds: seq<SeedBot>, now: int) returns (committed: bool)
    requires table.Valid()
    modifies table
    ensures committed <==> Seeded(Table(old(table.rows), old(table.nextId)), seeds, now).Some?
    ensures committed ==> Table(table.rows, table.nextId) == Seeded(Table(old(table.rows), old(table.nextId)), seeds, now).value
    ensures !committed ==> table.rows == old(table.rows) && table.nextId == old(table.nextId)
    ensures table.Valid()
  {
    var pending := Table(table.rows, table.nextId);
    var i := 0;
    while i < |seeds|
      invariant 0 <= i <= |seeds|
      invariant WellKeyed(pending)
      invariant Seeded(Table(table.rows, table.nextId), seeds, now) == Seeded(pending, seeds[i..], now)
    {
      assert seeds[i..][1..] == seeds[i + 1..];
      var found := IdsNamed(pending.rows, seeds[i].fields.name);
      if |found| > 1 {
        return false;
      }
      if |found| == 0 {
        assert pending.nextId !in pending.rows;
        pending := Table(pending.rows[pending.nextId := SeedRow(seeds[i], pending.nextId, now)], pending.nextId + 1);
      }
      i := i + 1;
    }
    table.rows := pending.rows;
    table.nextId := pending.nextId;
    return true;
  }

  /** The shipped seed list adds "Blessing Q&A" to a table that lacks it, active and on the newer model. */
  lemma ShippedSeed(t: Table, now: int)
    requires IdsNamed(t.rows, "Blessing Q&A") == {}
    ensures Seeded(t, SeedBots, now).Some?
    ensures var r := Seeded(t, SeedBots, now).value;
      t.nextId in r.rows && r.rows[t.nextId].name == "Blessing Q&A" &&
      r.rows[t.nextId].isActive && r.rows[t.nextId].llmModel == "gemini-3.0-flash"
  {
    assert SeedBots[1..] == [];
  }
}
