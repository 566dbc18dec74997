/**
 * The public bot listing of the back end (`bots.py`): the active bots in
 * query order, optionally only those carrying a tag, as responses with
 * their count.
 */
module BotCatalogue {
  import opened Wrappers
  import opened Seqs
  import opened BotRecords

  /** `tag in (b.tags or [])`: null tags count as no tags. */
  predicate CarriesTag(b: Bot, tag: string) {
    b.tags.Some? && tag in b.tags.value
  }

  /** `if tag:` — a missing and an empty tag both mean "no tag filter". */
  predicate FiltersByTag(tag: Option<string>) {
    tag.Some? && tag.value != []
  }

  /** Lines 29-36: the test a row passes to be listed. */
  predicate Selected(b: Bot, tag: Option<string>) {
    b.isActive && (FiltersByTag(tag) ==> CarriesTag(b, tag.value))
  }

  /** Lines 29-36: the rows the listing keeps, in query order. */
  function SelectBots(rows: seq<Bot>, tag: Option<string>): (r: seq<Bot>)
    ensures IsSubsequence(r, rows)
    ensures forall b :: b in r <==> b in rows && Selected(b, tag)
    ensures forall b :: multiset(r)[b] == if Selected(b, tag) then multiset(rows)[b] else 0
  {
    var active := Filter(rows, (b: Bot) => b.isActive);
    FilterExact(rows, (b: Bot) => b.isActive);
    if FiltersByTag(tag) then
      var tagged := Filter(active, (b: Bot) => CarriesTag(b, tag.value));
      FilterExact(active, (b: Bot) => CarriesTag(b, tag.value));
      SubsequenceTransitive(tagged, active, rows);
      tagged
    else active
  }

  /** `BotListResponse`. */
  datatype BotList = BotList(bots: seq<BotResponse>, total: int)

  /** The responses for the selected rows; `None` as soon as one row fails validation. */
  function Responses(selected: seq<Bot>): (r: Option<seq<BotResponse>>)
    ensures r.Some? <==> forall i :: 0 <= i < |selected| ==> selected[i].tags.Some?
    ensures r.Some? ==> |r.value| == |selected|
    ensures r.Some? ==> forall i :: 0 <= i < |selected| ==> Some(r.value[i]) == ToResponse(selected[i])
  {
    if selected == [] then Some([])
    else
      match (ToResponse(selected[0]), Responses(selected[1..]))
      case (Some(head), Some(tail)) => Some([head] + tail)
      case _ => None
  }

  /**
   * Lines 20-40. A selected row with null tags makes the validation of the
   * response fail; the endpoint then answers with a server error.
   */
  function ListBots(rows: seq<Bot>, tag: Option<string>): (r: Result<BotList, string>)
    ensures r.Ok? ==> r.value.total == |r.value.bots| == |SelectBots(rows, tag)|
    ensures r.Ok? ==> forall i :: 0 <= i < |r.value.bots| ==>
      Some(r.value.bots[i]) == ToResponse(SelectBots(rows, tag)[i])
    ensures r.Err? <==> exists b :: b in SelectBots(rows, tag) && b.tags.None?
  {
    match Responses(SelectBots(rows, tag))
    case Some(bots) => Ok(BotList(bots, |bots|))
    case None => Err("validation error")
  }

  /** Every listed bot is active. */
  lemma ListedBotsAreActive(rows: seq<Bot>, tag: Option<string>, i: int)
    requires ListBots(rows, tag).Ok? && 0 <= i < |ListBots(rows, tag).value.bots|
    ensures exists b :: b in rows && b.isActive && ToResponse(b) == Some(ListBots(rows, tag).value.bots[i])
  {
    var b := SelectBots(rows, tag)[i];
    assert b in SelectBots(rows, tag);
  }

  /** With a tag filter, a row with null tags is never selected, so the listing always succeeds. */
  lemma TagFilterNeverFails(rows: seq<Bot>, tag: string)
    requires tag != []
    ensures ListBots(rows, Some(tag)).Ok?
  {
  }

  /** Without a tag filter, the listing is every active row. */
  lemma NoTagListsAllActive(rows: seq<Bot>, tag: Option<string>)
    requires !FiltersByTag(tag)
    ensures forall b :: b in SelectBots(rows, tag) <==> b in rows && b.isActive
  {
  }
}
