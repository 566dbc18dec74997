/**
 * The landing page of the front end (`page.tsx`): a fixed list of example
 * bots, a category chosen by the visitor, the bots shown for that category
 * and the title of the grid.
 */
module Landing {
  import opened Wrappers
  import opened Seqs

  /** A bot card's data (`BotData` of the landing components). */
  datatype BotData = BotData(
    id: string,
    name: string,
    creator: string,
    description: string,
    category: string,
    tags: seq<string>,
    rating: real,
    users: nat,
    imageUrl: Option<string>,
    isOfficial: Option<bool>)

  /** Lines 11-73. */
  const MockBots: seq<BotData> := [
    BotData("1", "Nexus Core Assistant", "Nexus Team",
      "넥서스 플랫폼의 공식 어시스턴트입니다. 플랫폼 사용법과 각종 기술 지원을 담당합니다.",
      "범용", ["공식", "가이드", "도우미"], 4.9, 12500, None, Some(true)),
    BotData("2", "Python Code Master", "TechLead",
      "파이썬 알고리즘 풀이, 최적화 팁, 코드 리뷰를 전문으로 하는 최고의 코딩 파트너입니다.",
      "코딩", ["Python", "알고리즘", "리뷰"], 4.8, 8200, None, None),
    BotData("3", "창작의 요정", "StoryTeller",
      "소설, 에세이, 블로그 포스팅 등 글쓰기 아이디어를 제공하고 문맥을 다듬어줍니다.",
      "창작", ["글쓰기", "아이디어", "에세이"], 4.7, 5300, None, None),
    BotData("4", "법률 상담 봇", "Lawyer_AI",
      "일상생활에서 겪는 가벼운 법률적 궁금증에 대한 판례와 기본 해석을 돕습니다.",
      "법률", ["상담", "판례", "생활법률"], 4.5, 3100, None, None),
    BotData("5", "비즈니스 통번역가", "GlobalBiz",
      "비즈니스 이메일, 계약서 등 포멀한 문서 번역과 문화권별 뉘앙스 검수를 지원합니다.",
      "비즈니스", ["번역", "이메일", "영어"], 4.9, 9800, None, None),
    BotData("6", "건강 체크봇", "HealthCoach",
      "간단한 증상 기반 건강 조언과 식단/운동 가이드를 제공합니다. (의료기기 아님)",
      "건강", ["식단", "운동", "상담"], 4.6, 4200, None, None)
  ]

  /** The category that stands for "every category"; also the initial choice (line 76). */
  const AllCategories := "전체"

  /** `bots.filter(bot => bot.category === category)`. */
  function ByCategory(bots: seq<BotData>, category: string): (r: seq<BotData>)
    ensures forall b :: b in r <==> b in bots && b.category == category
    ensures forall b :: multiset(r)[b] == if b.category == category then multiset(bots)[b] else 0
    ensures IsSubsequence(r, bots)
  {
    FilterExact(bots, (b: BotData) => b.category == category);
    Filter(bots, (b: BotData) => b.category == category)
  }

  /** Lines 79-81: the bots the grid shows. */
  function FilteredBots(activeCategory: string): (r: seq<BotData>)
    ensures activeCategory == AllCategories ==> r == MockBots
    ensures activeCategory != AllCategories ==>
      IsSubsequence(r, MockBots) && (forall b :: b in r <==> b in MockBots && b.category == activeCategory) &&
      forall b :: multiset(r)[b] == if b.category == activeCategory then multiset(MockBots)[b] else 0
  {
    if activeCategory == AllCategories then MockBots else ByCategory(MockBots, activeCategory)
  }

  /** Line 98. */
  function Title(activeCategory: string): (r: string)
    ensures activeCategory == AllCategories ==> r == "인기 챗봇"
    ensures activeCategory != AllCategories ==>
      |activeCategory| <= |r| && r[..|activeCategory|] == activeCategory && r[|activeCategory|..] == " 챗봇"
  {
    if activeCategory == AllCategories then "인기 챗봇" else activeCategory + " 챗봇"
  }

  /** Categories that no example bot carries, such as "분석" and "교육", show an empty grid. */
  lemma UncarriedCategoryIsEmpty(category: string)
    requires category != AllCategories
    requires forall i :: 0 <= i < |MockBots| ==> MockBots[i].category != category
    ensures FilteredBots(category) == []
  {
    FilterNone(MockBots, (b: BotData) => b.category == category);
  }

  lemma AnalysisIsEmpty()
    ensures FilteredBots("분석") == []
    ensures Title("분석") == "분석 챗봇"
  {
    FirstLetters();
    assert "분석"[0] == '분';
    UncarriedCategoryIsEmpty("분석");
  }

  /** The first letter of each example bot's category. */
  lemma FirstLetters()
    ensures forall i :: 0 <= i < |MockBots| ==>
      (MockBots[i].category != [] && MockBots[i].category[0] in {'범', '코', '창', '법', '비', '건'})
  {
  }

  /** A category that exactly one example bot carries shows that bot alone. */
  lemma OnlyCarrierShows(category: string, j: nat)
    requires category != AllCategories
    requires j < |MockBots| && MockBots[j].category == category
    requires forall i :: 0 <= i < |MockBots| && i != j ==> MockBots[i].category != category
    ensures FilteredBots(category) == [MockBots[j]]
  {
    FilterSingle(MockBots, (b: BotData) => b.category == category, j);
  }

  /** "코딩" is carried by the second example bot only. */
  lemma CodingShowsOne()
    ensures FilteredBots("코딩") == [MockBots[1]]
  {
    var bs := MockBots;
    forall i | 0 <= i < |bs| && i != 1 ensures bs[i].category != "코딩" {
      assert bs[i].category[0] != "코딩"[0];
    }
    OnlyCarrierShows("코딩", 1);
  }
}
