/** The pure part of `AIService`: the records it exchanges, the extraction of the JSON object
    from a model reply and `parsePlanResponse`, which turns the parsed reply into a draft
    travel plan. `JSON.parse` is a library call: it is supplied as a function value that
    yields the fields `parsePlanResponse` reads, or nothing when the text does not parse or
    lacks them. */
module Planner {
  import opened Wrappers
  import opened Strings

  datatype Provider = OpenAI | DeepSeek | Qwen | Kimi | Other

  /** The provider's name as stored in the service and in the configuration. */
  function ProviderName(p: Provider): string {
    match p
    case OpenAI => "openai"
    case DeepSeek => "deepseek"
    case Qwen => "qwen"
    case Kimi => "kimi"
    case Other => "other"
  }

  datatype Location = Location(name: string, address: string, latitude: real, longitude: real)

  datatype Activity = Activity(id: string, time: string, kind: string, title: string, description: string,
                               location: Location, cost: int, duration: int, images: seq<string>)

  datatype DayItinerary = DayItinerary(day: int, date: string, activities: seq<Activity>, totalCost: int)

  datatype Expense = Expense(id: string, planId: string, category: string, amount: int, description: string,
                             date: string, paymentMethod: Option<string>, createdAt: string)

  datatype PlanStatus = Draft | Confirmed | Completed

  datatype TravelPlan = TravelPlan(
    id: string, userId: string, title: string, destination: string,
    startDate: string, endDate: string, budget: int, travelers: int, preferences: seq<string>,
    itinerary: seq<DayItinerary>, expenses: seq<Expense>, status: PlanStatus,
    createdAt: string, updatedAt: string)

  datatype PlanningRequest = PlanningRequest(
    destination: string, startDate: string, endDate: string, budget: int, travelers: int,
    preferences: seq<string>, additionalNotes: Option<string>)

  datatype PlanningResponse = PlanningResponse(success: bool, plan: Option<TravelPlan>, error: Option<string>)

  /** The fields of the model's JSON reply that `parsePlanResponse` reads. */
  datatype ActivityData = ActivityData(time: string, kind: string, title: string, description: string,
                                       location: Location, cost: int, duration: int, images: Option<seq<string>>)
  datatype DayData = DayData(day: int, date: string, activities: seq<ActivityData>)
  datatype PlanData = PlanData(title: Option<string>, itinerary: seq<DayData>)

  /** The values the source draws from the clock and the random generator while building a
      plan: `crypto.randomUUID()`, the two `new Date().toISOString()` calls and the
      `activity-${Date.now()}-${Math.random()}` identifier of the k-th activity of day d. */
  datatype Stamps = Stamps(planId: string, createdAt: string, updatedAt: string, activityId: (nat, nat) -> string)

  const ParseError: string := "解析旅行计划失败"
  const TitleSuffix: string := "之旅"

  /** JavaScript truthiness of an optional string: present and non-empty. */
  predicate Truthy(s: Option<string>) {
    s.Some? && s.value != ""
  }

  /** `a || fallback` for an optional string. */
  function OrElse(a: Option<string>, fallback: string): (r: string)
    ensures Truthy(a) ==> r == a.value
    ensures !Truthy(a) ==> r == fallback
    ensures fallback != "" ==> r != ""
  {
    if Truthy(a) then a.value else fallback
  }

  /** A `{` at i and a `}` at j after it: what `/\{[\s\S]*\}/` needs in order to match. */
  predicate BraceSpan(s: string, i: nat, j: nat) {
    i < j < |s| && s[i] == '{' && s[j] == '}'
  }

  ghost predicate HasBraceSpan(s: string) {
    exists i: nat, j: nat :: BraceSpan(s, i, j)
  }

  lemma NoSpanBeforeFirstOpen(s: string, i: nat, j: nat)
    requires i < |s| && '{' !in s[..i]
    requires j < |s| && '}' !in s[j + 1..]
    requires j < i
    ensures !HasBraceSpan(s)
  {
  }

  /** `content.match(/\{[\s\S]*\}/)?.[0] ?? content`: the greedy match runs from the first
      `{` to the last `}`; without such a pair the whole content is kept. */
  function ExtractJson(content: string): (r: string)
    ensures !HasBraceSpan(content) ==> r == content
    ensures HasBraceSpan(content) ==>
      exists i: nat, j: nat :: && BraceSpan(content, i, j) && r == content[i..j + 1]
                               && '{' !in content[..i] && '}' !in content[j + 1..]
  {
    match FirstIndexOf(content, '{')
    case None => content
    case Some(i) =>
      match LastIndexOf(content, '}')
      case None => content
      case Some(j) =>
        if j < i then
          NoSpanBeforeFirstOpen(content, i, j);
          content
        else
          assert BraceSpan(content, i, j);
          content[i..j + 1]
  }

  /** `activities.reduce((sum, a) => sum + a.cost, 0)`, as the left fold it is. */
  function FoldCosts(acc: int, activities: seq<ActivityData>): int
    decreases activities
  {
    if |activities| == 0 then acc else FoldCosts(acc + activities[0].cost, activities[1..])
  }

  /** The total cost of a day's activities. */
  function SumCosts(activities: seq<Activity>): int {
    if |activities| == 0 then 0 else activities[0].cost + SumCosts(activities[1..])
  }

  function SumDataCosts(activities: seq<ActivityData>): int {
    if |activities| == 0 then 0 else activities[0].cost + SumDataCosts(activities[1..])
  }

  lemma {:induction false} FoldIsSum(acc: int, activities: seq<ActivityData>)
    ensures FoldCosts(acc, activities) == acc + SumDataCosts(activities)
    decreases activities
  {
    if |activities| > 0 {
      FoldIsSum(acc + activities[0].cost, activities[1..]);
    }
  }

  /** The sum of a day is additive over a split of its activities. */
  lemma {:induction false} SumCostsAppend(a: seq<Activity>, b: seq<Activity>)
    ensures SumCosts(a + b) == SumCosts(a) + SumCosts(b)
  {
    if |a| > 0 {
      assert (a + b)[1..] == a[1..] + b;
      SumCostsAppend(a[1..], b);
    } else {
      assert a + b == b;
    }
  }

  /** The activity keeps every field of the reply; missing images become an empty list. */
  predicate ActivityKept(a: ActivityData, b: Activity) {
    && b.time == a.time && b.kind == a.kind && b.title == a.title && b.description == a.description
    && b.location == a.location && b.cost == a.cost && b.duration == a.duration
    && b.images == a.images.GetOr([])
  }

  /** One activity of the reply as the plan stores it, under a fresh id. */
  function ConvertActivity(a: ActivityData, id: string): (r: Activity)
    ensures ActivityKept(a, r) && r.id == id
  {
    Activity(id, a.time, a.kind, a.title, a.description, a.location, a.cost, a.duration, a.images.GetOr([]))
  }

  /** The activities of day `d` from position `k` on. */
  function ConvertActivities(acts: seq<ActivityData>, d: nat, k: nat, stamps: Stamps): (r: seq<Activity>)
    ensures |r| == |acts|
    ensures forall n :: 0 <= n < |acts| ==> ActivityKept(acts[n], r[n]) && r[n].id == stamps.activityId(d, k + n)
    ensures SumCosts(r) == SumDataCosts(acts)
  {
    if |acts| == 0 then []
    else [ConvertActivity(acts[0], stamps.activityId(d, k))] + ConvertActivities(acts[1..], d, k + 1, stamps)
  }

  /** The day keeps its number, its date and its activities in order. */
  predicate DayKept(src: DayData, day: DayItinerary) {
    && day.day == src.day && day.date == src.date
    && |day.activities| == |src.activities|
    && (forall n :: 0 <= n < |src.activities| ==> ActivityKept(src.activities[n], day.activities[n]))
  }

  function ConvertDay(src: DayData, d: nat, stamps: Stamps): (r: DayItinerary)
    ensures DayKept(src, r)
    ensures r.totalCost == SumCosts(r.activities)
  {
    FoldIsSum(0, src.activities);
    DayItinerary(src.day, src.date, ConvertActivities(src.activities, d, 0, stamps), FoldCosts(0, src.activities))
  }

  /** `data.itinerary.map(...)` from day index `d` on. */
  function ConvertDays(days: seq<DayData>, d: nat, stamps: Stamps): (r: seq<DayItinerary>)
    ensures |r| == |days|
    ensures forall n :: 0 <= n < |days| ==> DayKept(days[n], r[n]) && r[n].totalCost == SumCosts(r[n].activities)
  {
    if |days| == 0 then [] else [ConvertDay(days[0], d, stamps)] + ConvertDays(days[1..], d + 1, stamps)
  }

  /** `parsePlanResponse`: extracts the JSON object, parses it and builds a draft plan from
      it and the request; a reply that does not parse yields the parse error. */
  function ParsePlanResponse(content: string, request: PlanningRequest,
                             parse: string -> Option<PlanData>, stamps: Stamps): (r: Result<TravelPlan, string>)
    ensures parse(ExtractJson(content)).None? <==> r.Failure?
    ensures r.Failure? ==> r.error == ParseError
    ensures r.Success? ==>
      var data := parse(ExtractJson(content)).value;
      var plan := r.value;
      && plan.id == stamps.planId && plan.userId == ""
      && (Truthy(data.title) ==> plan.title == data.title.value)
      && (!Truthy(data.title) ==> plan.title == request.destination + TitleSuffix)
      && plan.destination == request.destination
      && plan.startDate == request.startDate && plan.endDate == request.endDate
      && plan.budget == request.budget && plan.travelers == request.travelers
      && plan.preferences == request.preferences
      && plan.expenses == [] && plan.status == Draft
      && plan.createdAt == stamps.createdAt && plan.updatedAt == stamps.updatedAt
      && |plan.itinerary| == |data.itinerary|
      && (forall n :: 0 <= n < |data.itinerary| ==>
            DayKept(data.itinerary[n], plan.itinerary[n])
            && plan.itinerary[n].totalCost == SumCosts(plan.itinerary[n].activities))
  {
    match parse(ExtractJson(content))
    case None => Failure(ParseError)
    case Some(data) =>
      Success(TravelPlan(
        stamps.planId, "", OrElse(data.title, request.destination + TitleSuffix), request.destination,
        request.startDate, request.endDate, request.budget, request.travelers, request.preferences,
        ConvertDays(data.itinerary, 0, stamps), [], Draft, stamps.createdAt, stamps.updatedAt))
  }
}
