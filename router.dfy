/** The routing service: an offline keyword classifier used whenever the backend cannot answer,
    the sanitiser that fills in whatever the backend's answer leaves out, and the choice between
    the two. The network exchange itself is a parameter (`Reply`). */
module Router {
  import opened DoornaTypes

  /** What the router hands back. The backend may put any JSON value in any field, and the
      sanitiser does not check the type against the frame types, so every field is a `Json`;
      `genre` is `None` when the field is absent. */
  datatype RoutingResult = RoutingResult(
    frameType: Json,
    title: Json,
    summary: Json,
    payload: Json,
    genre: Option<Json>)

  // ---------------------------------------------------------------- strings

  /** ASCII lower-casing of one character. */
  function LowerChar(c: char): (d: char)
    ensures 'A' <= c <= 'Z' ==> d as int == c as int + 32
    ensures !('A' <= c <= 'Z') ==> d == c
    ensures !('A' <= d <= 'Z')
  {
    if 'A' <= c <= 'Z' then (c as int + 32) as char else c
  }

  function Lower(s: string): (r: string)
    ensures |r| == |s|
    ensures forall i :: 0 <= i < |s| ==> r[i] == LowerChar(s[i])
    decreases |s|
  {
    if s == [] then [] else [LowerChar(s[0])] + Lower(s[1..])
  }

  /** Lower-casing twice is lower-casing once. */
  lemma LowerIdempotent(s: string)
    ensures Lower(Lower(s)) == Lower(s)
  {
    var l := Lower(s);
    assert forall i :: 0 <= i < |l| ==> Lower(l)[i] == l[i];
  }

  /** `sub` occurs in `s` starting at index `i`. */
  predicate OccursAt(s: string, sub: string, i: int) {
    0 <= i && i + |sub| <= |s| && s[i..i + |sub|] == sub
  }

  /** `s.includes(sub)`: the empty string occurs everywhere. */
  function Contains(s: string, sub: string): bool
    decreases |s|
  {
    if |sub| > |s| then false
    else if s[..|sub|] == sub then true
    else Contains(s[1..], sub)
  }

  /** `Contains` searches for exactly the occurrences `OccursAt` describes. */
  lemma {:induction false} ContainsIffOccurs(s: string, sub: string)
    ensures Contains(s, sub) <==> exists i :: OccursAt(s, sub, i)
    decreases |s|
  {
    if |sub| > |s| {
    } else if s[..|sub|] == sub {
      assert OccursAt(s, sub, 0);
    } else {
      ContainsIffOccurs(s[1..], sub);
      forall i | OccursAt(s, sub, i) ensures OccursAt(s[1..], sub, i - 1) {
        assert s[0..|sub|] == s[..|sub|];
        assert s[1..][i - 1..i - 1 + |sub|] == s[i..i + |sub|];
      }
      forall j | OccursAt(s[1..], sub, j) ensures OccursAt(s, sub, j + 1) {
        assert s[1..][j..j + |sub|] == s[j + 1..j + 1 + |sub|];
      }
    }
  }

  /** A non-empty `sub` does not occur in `s` when no position it would fit at starts with its
      first character. */
  lemma {:induction false} AbsentWhenFirstCharAbsent(s: string, sub: string)
    requires |sub| > 0
    requires forall i :: 0 <= i && i + |sub| <= |s| ==> s[i] != sub[0]
    ensures !Contains(s, sub)
    decreases |s|
  {
    if |sub| <= |s| {
      assert s[..|sub|][0] == s[0];
      forall i | 0 <= i && i + |sub| <= |s[1..]| ensures s[1..][i] != sub[0] {
        assert s[1..][i] == s[i + 1];
      }
      AbsentWhenFirstCharAbsent(s[1..], sub);
    }
  }

  // ---------------------------------------------------------------- offline classifier

  const CalendarWords: seq<string> := ["meet", "schedule"]
  const FinanceWords: seq<string> := ["buy", "pay", "$"]
  const KeyWords: seq<string> := ["key", "password"]
  const ReminderWords: seq<string> := ["remind"]

  const FoodWords: seq<string> := ["food", "recipe", "cook"]
  const SportWords: seq<string> := ["gym", "run", "workout"]
  const IdeasWords: seq<string> := ["idea", "project"]
  const LinksWords: seq<string> := ["http", "www"]

  /** The text mentions one of the words (an `||` of `includes`). */
  predicate Mentions(lower: string, words: seq<string>) {
    exists i :: 0 <= i < |words| && Contains(lower, words[i])
  }

  /** The genre a NOTE gets, by priority Food, Sport, Ideas, Links, else General. */
  function Genre(lower: string): string {
    if Mentions(lower, FoodWords) then "Food"
    else if Mentions(lower, SportWords) then "Sport"
    else if Mentions(lower, IdeasWords) then "Ideas"
    else if Mentions(lower, LinksWords) then "Links"
    else "General"
  }

  function Obj1(key: string, v: Json): Json {
    JObj(map[key := v])
  }

  /** A fixed mock result of one category, without a genre. */
  function Fixed(t: FrameType, title: string, summary: string, payload: Json): RoutingResult {
    RoutingResult(JStr(FrameTypeName(t)), JStr(title), JStr(summary), payload, None)
  }

  /** Every field the caller reads is present and truthy. */
  predicate Complete(r: RoutingResult) {
    Truthy(r.frameType) && Truthy(r.title) && Truthy(r.summary) && Truthy(r.payload)
  }

  /** mockRoute: the keyword groups are tried in order on the lower-cased text and the first
      group mentioned decides the result; a text that mentions none becomes a NOTE that keeps the
      original text and is the only result carrying a genre. */
  function MockRoute(text: string): (r: RoutingResult)
    ensures Complete(r)
    ensures r.genre.Some? <==> r.frameType == JStr("NOTE")
    ensures r.frameType == JStr("NOTE") <==>
              !Mentions(Lower(text), CalendarWords) && !Mentions(Lower(text), FinanceWords) &&
              !Mentions(Lower(text), KeyWords) && !Mentions(Lower(text), ReminderWords)
    ensures r.frameType == JStr("NOTE") ==>
              r == RoutingResult(JStr("NOTE"), JStr("Note"), JStr("Using Offline Mock"),
                                 Obj1("content", JStr(text)), Some(JStr(Genre(Lower(text)))))
    ensures r.frameType == JStr("CALENDAR") ==>
              r == Fixed(Calendar, "Event", "Added to Calendar", Obj1("date", JStr("Tomorrow 2pm")))
    ensures r.frameType == JStr("FINANCE") ==>
              r == Fixed(Finance, "Transaction", "Logged expense", Obj1("amount", JNum(0.0)))
    ensures r.frameType == JStr("KEY") ==>
              r == Fixed(Key, "Secret", "Locked in Key", Obj1("encrypted", JBool(true)))
    ensures r.frameType == JStr("REMINDER") ==>
              r == Fixed(Reminder, "Task", "Reminder set", Obj1("due", JStr("Next week")))
  {
    var lower := Lower(text);
    if Mentions(lower, CalendarWords) then
      Fixed(Calendar, "Event", "Added to Calendar", Obj1("date", JStr("Tomorrow 2pm")))
    else if Mentions(lower, FinanceWords) then
      Fixed(Finance, "Transaction", "Logged expense", Obj1("amount", JNum(0.0)))
    else if Mentions(lower, KeyWords) then
      Fixed(Key, "Secret", "Locked in Key", Obj1("encrypted", JBool(true)))
    else if Mentions(lower, ReminderWords) then
      Fixed(Reminder, "Task", "Reminder set", Obj1("due", JStr("Next week")))
    else
      RoutingResult(JStr("NOTE"), JStr("Note"), JStr("Using Offline Mock"),
                    Obj1("content", JStr(text)), Some(JStr(Genre(lower))))
  }

  /** A reference reading of an ordered keyword table: the value of the first row whose words
      are mentioned, or the default. */
  function FirstMatch<T>(lower: string, table: seq<(seq<string>, T)>, default: T): T
    decreases |table|
  {
    if table == [] then default
    else if Mentions(lower, table[0].0) then table[0].1
    else FirstMatch(lower, table[1..], default)
  }

  /** `FirstMatch` picks the row `k` when it is the earliest row mentioned. */
  lemma {:induction false} FirstMatchIsEarliest<T>(lower: string, table: seq<(seq<string>, T)>, default: T, k: nat)
    requires k < |table| && Mentions(lower, table[k].0)
    requires forall j :: 0 <= j < k ==> !Mentions(lower, table[j].0)
    ensures FirstMatch(lower, table, default) == table[k].1
    decreases k
  {
    if k > 0 {
      assert !Mentions(lower, table[0].0);
      assert table[1..][k - 1] == table[k];
      forall j | 0 <= j < k - 1 ensures !Mentions(lower, table[1..][j].0) {
        assert table[1..][j] == table[j + 1];
      }
      FirstMatchIsEarliest(lower, table[1..], default, k - 1);
    }
  }

  /** `FirstMatch` gives the default exactly when no row is mentioned. */
  lemma {:induction false} FirstMatchDefault<T>(lower: string, table: seq<(seq<string>, T)>, default: T)
    requires forall k :: 0 <= k < |table| ==> !Mentions(lower, table[k].0)
    ensures FirstMatch(lower, table, default) == default
    decreases |table|
  {
    if table != [] {
      forall k | 0 <= k < |table| - 1 ensures !Mentions(lower, table[1..][k].0) {
        assert table[1..][k] == table[k + 1];
      }
      FirstMatchDefault(lower, table[1..], default);
    }
  }

  const CategoryTable: seq<(seq<string>, FrameType)> :=
    [(CalendarWords, Calendar), (FinanceWords, Finance), (KeyWords, Key), (ReminderWords, Reminder)]

  const GenreTable: seq<(seq<string>, string)> :=
    [(FoodWords, "Food"), (SportWords, "Sport"), (IdeasWords, "Ideas"), (LinksWords, "Links")]

  /** The classifier's if-chain agrees with the ordered category table: the frame type is the
      first category mentioned, NOTE when none is. */
  lemma MockRouteTypeFollowsTable(text: string)
    ensures MockRoute(text).frameType == JStr(FrameTypeName(FirstMatch(Lower(text), CategoryTable, Note)))
  {
    var lower := Lower(text);
    var c1 := CategoryTable[1..];
    var c2 := c1[1..];
    var c3 := c2[1..];
    assert c1 == [(FinanceWords, Finance), (KeyWords, Key), (ReminderWords, Reminder)];
    assert c2 == [(KeyWords, Key), (ReminderWords, Reminder)];
    assert c3 == [(ReminderWords, Reminder)];
    assert c3[1..] == [];
    assert FirstMatch(lower, c3, Note) == (if Mentions(lower, ReminderWords) then Reminder else Note);
    assert FirstMatch(lower, c2, Note) == (if Mentions(lower, KeyWords) then Key else FirstMatch(lower, c3, Note));
  }

  /** The NOTE genre's if-chain agrees with the ordered genre table: the first genre mentioned,
      General when none is. */
  lemma GenreFollowsTable(lower: string)
    ensures Genre(lower) == FirstMatch(lower, GenreTable, "General")
  {
    var g1 := GenreTable[1..];
    var g2 := g1[1..];
    var g3 := g2[1..];
    assert g1 == [(SportWords, "Sport"), (IdeasWords, "Ideas"), (LinksWords, "Links")];
    assert g2 == [(IdeasWords, "Ideas"), (LinksWords, "Links")];
    assert g3 == [(LinksWords, "Links")];
    assert g3[1..] == [];
    assert FirstMatch(lower, g3, "General") == (if Mentions(lower, LinksWords) then "Links" else "General");
    assert FirstMatch(lower, g2, "General") == (if Mentions(lower, IdeasWords) then "Ideas" else FirstMatch(lower, g3, "General"));
  }

  /** Classification reads only the lower-cased text: two texts that lower-case alike get the
      same type, title, summary and genre, and the same payload unless they become NOTEs (whose
      payload is the original text). */
  lemma MockRouteCaseInsensitive(a: string, b: string)
    requires Lower(a) == Lower(b)
    ensures MockRoute(a).frameType == MockRoute(b).frameType
    ensures MockRoute(a).title == MockRoute(b).title
    ensures MockRoute(a).summary == MockRoute(b).summary
    ensures MockRoute(a).genre == MockRoute(b).genre
    ensures MockRoute(a).frameType != JStr("NOTE") ==> MockRoute(a).payload == MockRoute(b).payload
  {
  }

  lemma BuyKeyLowerCased()
    ensures Lower("Buy key") == "buy key"
  {
    var l := Lower("Buy key");
    assert l[0] == 'b' && l[1] == 'u' && l[2] == 'y' && l[3] == ' ';
    assert l[4] == 'k' && l[5] == 'e' && l[6] == 'y';
  }

  lemma BuyKeyMentionsFinanceFirst()
    ensures !Mentions("buy key", CalendarWords) && Mentions("buy key", FinanceWords)
  {
    var l := "buy key";
    AbsentWhenFirstCharAbsent(l, "meet");
    AbsentWhenFirstCharAbsent(l, "schedule");
    assert l[..3] == "buy";
    assert Contains(l, FinanceWords[0]);
  }

  /** The first group mentioned wins: "Buy key" is a transaction, not a secret. */
  lemma FirstGroupWinsExample()
    ensures MockRoute("Buy key").frameType == JStr("FINANCE")
  {
    BuyKeyLowerCased();
    BuyKeyMentionsFinanceFirst();
  }

  lemma FoodLowerCased()
    ensures Lower("Food") == "food"
  {
    var l := Lower("Food");
    assert l[0] == 'f' && l[1] == 'o' && l[2] == 'o' && l[3] == 'd';
  }

  lemma FoodMentionsNoCategory()
    ensures !Mentions("food", CalendarWords) && !Mentions("food", FinanceWords)
    ensures !Mentions("food", KeyWords) && !Mentions("food", ReminderWords)
  {
    var l := "food";
    AbsentWhenFirstCharAbsent(l, "meet");
    AbsentWhenFirstCharAbsent(l, "schedule");
    AbsentWhenFirstCharAbsent(l, "buy");
    AbsentWhenFirstCharAbsent(l, "pay");
    AbsentWhenFirstCharAbsent(l, "$");
    AbsentWhenFirstCharAbsent(l, "key");
    AbsentWhenFirstCharAbsent(l, "password");
    AbsentWhenFirstCharAbsent(l, "remind");
  }

  /** A text that mentions no group is a NOTE that keeps the original text and whose genre
      follows the words it mentions: "Food" is a Food note. */
  lemma NoteGenreExample()
    ensures MockRoute("Food") ==
              RoutingResult(JStr("NOTE"), JStr("Note"), JStr("Using Offline Mock"),
                            Obj1("content", JStr("Food")), Some(JStr("Food")))
  {
    FoodLowerCased();
    FoodMentionsNoCategory();
    var l := "food";
    assert l[..4] == "food";
    assert Contains(l, FoodWords[0]);
    assert Genre(l) == "Food";
  }

  // ---------------------------------------------------------------- sanitiser

  /** `v || default`: a missing or falsy value gives the default. The result never invents a
      value: it is the default or the truthy value given, and it is truthy whenever the default
      is, which is what makes every sanitised field usable. */
  function OrDefault(v: Option<Json>, default: Json): (r: Json)
    ensures v.Some? && Truthy(v.value) ==> r == v.value
    ensures Truthy(default) ==> Truthy(r)
    ensures r == default || (v == Some(r) && Truthy(r))
  {
    if v.Some? && Truthy(v.value) then v.value else default
  }

  /** Re-applying a truthy default to its own result changes nothing. */
  lemma OrDefaultIdempotent(v: Option<Json>, default: Json)
    requires Truthy(default)
    ensures OrDefault(Some(OrDefault(v, default)), default) == OrDefault(v, default)
  {
  }

  /** `result.key` is a truthy value, so `result.key || default` keeps it. */
  predicate Present(result: Json, key: string) {
    result.JObj? && key in result.fields && Truthy(result.fields[key])
  }

  /** The object routeInput builds from the backend's parsed answer. */
  function Sanitise(result: Json): (r: RoutingResult)
    ensures Complete(r) && r.genre.Some? && Truthy(r.genre.value)
    ensures Present(result, "type") ==> r.frameType == result.fields["type"]
    ensures Present(result, "title") ==> r.title == result.fields["title"]
    ensures Present(result, "summary") ==> r.summary == result.fields["summary"]
    ensures Present(result, "payload") ==> r.payload == result.fields["payload"]
    ensures Present(result, "genre") ==> r.genre == Some(result.fields["genre"])
    ensures !Present(result, "type") ==> r.frameType == JStr("NOTE")
    ensures !Present(result, "title") ==> r.title == JStr("Untitled")
    ensures !Present(result, "summary") ==> r.summary == JStr("Processed")
    ensures !Present(result, "payload") ==> r.payload == JObj(map[])
    ensures !Present(result, "genre") ==> r.genre == Some(JStr("General"))
  {
    RoutingResult(
      OrDefault(Field(result, "type"), JStr(FrameTypeName(Note))),
      OrDefault(Field(result, "title"), JStr("Untitled")),
      OrDefault(Field(result, "summary"), JStr("Processed")),
      OrDefault(Field(result, "payload"), JObj(map[])),
      Some(OrDefault(Field(result, "genre"), JStr("General"))))
  }

  /** A result as the JSON object it stands for (an absent genre is an absent key). */
  function ToJson(r: RoutingResult): (v: Json)
    ensures v.JObj? && "genre" in v.fields <==> r.genre.Some?
  {
    var base := map["type" := r.frameType, "title" := r.title, "summary" := r.summary, "payload" := r.payload];
    if r.genre.Some? then JObj(base["genre" := r.genre.value]) else JObj(base)
  }

  /** Sanitising a result that is already complete and has a truthy genre gives it back
      unchanged, so sanitising twice is sanitising once. */
  lemma SanitiseCompleteRoundTrip(r: RoutingResult)
    requires Complete(r) && r.genre.Some? && Truthy(r.genre.value)
    ensures Sanitise(ToJson(r)) == r
  {
  }

  lemma SanitiseIdempotent(result: Json)
    ensures Sanitise(ToJson(Sanitise(result))) == Sanitise(result)
  {
    SanitiseCompleteRoundTrip(Sanitise(result));
  }

  /** The frame type is not checked: an unknown type string passes straight through, and a
      falsy one (an empty string, zero, false) falls back to NOTE. */
  lemma SanitiseKeepsUnknownType()
    ensures Sanitise(Obj1("type", JStr("BOGUS"))).frameType == JStr("BOGUS")
    ensures Sanitise(Obj1("type", JStr(""))).frameType == JStr("NOTE")
    ensures Sanitise(Obj1("type", JNum(0.0))) == Sanitise(JObj(map[]))
  {
  }

  // ---------------------------------------------------------------- routeInput

  /** The outcome of the request to the backend: the request failed outright, or a response
      arrived with a status and a body that parsed as JSON (`None`: it did not). */
  datatype Reply = FetchFailed | Response(status: int, body: Option<Json>)

  /** `response.ok`. */
  predicate Ok(status: int) { 200 <= status <= 299 }

  /** The backend's answer is used: an endpoint is configured, the response is ok, and its body
      parsed to a value other than null (reading a field of null throws). */
  predicate BackendAnswered(endpoint: string, reply: Reply) {
    endpoint != "" && reply.Response? && Ok(reply.status) && reply.body.Some? && reply.body.value != JNull
  }

  /** routeInput's choice: the sanitised backend answer when there is one, the offline
      classifier otherwise. Either way every field the caller reads is present and truthy. */
  function Route(endpoint: string, text: string, reply: Reply): (r: RoutingResult)
    ensures BackendAnswered(endpoint, reply) ==> r == Sanitise(reply.body.value)
    ensures !BackendAnswered(endpoint, reply) ==> r == MockRoute(text)
    ensures Complete(r)
  {
    if endpoint == "" then MockRoute(text)
    else match reply
      case FetchFailed => MockRoute(text)
      case Response(status, body) =>
        if !Ok(status) then MockRoute(text)
        else if body.None? || body.value == JNull then MockRoute(text)
        else Sanitise(body.value)
  }

  /** Without an endpoint the reply is never looked at. */
  lemma NoEndpointIgnoresReply(text: string, a: Reply, b: Reply)
    ensures Route("", text, a) == Route("", text, b) == MockRoute(text)
  {
  }

  /** The service object: the endpoint is read once, from the environment, when it is built. */
  class GeminiService {
    const endpoint: string

    /** `env?.VITE_AI_ENDPOINT || ''`: an unset variable and an empty one both leave no endpoint. */
    constructor (env: Option<string>)
      ensures endpoint == (if env.Some? then env.value else "")
    {
      endpoint := if env.Some? && env.value != "" then env.value else "";
    }

    /** routeInput, with the request's outcome given as `reply`. */
    method RouteInput(text: string, reply: Reply) returns (r: RoutingResult)
      ensures r == Route(endpoint, text, reply)
    {
      if endpoint == "" {
        return MockRoute(text);
      }
      if reply.FetchFailed? {
        return MockRoute(text);
      }
      if !Ok(reply.status) {
        return MockRoute(text);
      }
      if reply.body.None? || reply.body.value == JNull {
        return MockRoute(text);
      }
      r := Sanitise(reply.body.value);
    }
  }
}
