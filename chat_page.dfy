/** The chat page's session controller: the message log, the busy flag, the attached chart
    context and the side-panel chart, and the handlers that change them. Each request is split
    into the step that starts it and the step that runs once the server has answered, so the
    awaited network call becomes an outcome passed to the second step. Message ids come from a
    counter. */
module ChatPage {
  import opened Wrappers
  import opened JsValue
  import ApiConfig
  import DynamicChart

  // --------------------------------------------------------------- messages

  datatype Role = User | Assistant

  /** A reply of the chat endpoint: its `data` object and its `message`. */
  datatype Response = Response(data: Props, message: Value)

  /** A `ChatMessage`. `content` is whatever text or value the reply's `answer` held;
      `chartData` is the reply an assistant message was built from. */
  datatype Message = Message(
    id: nat, role: Role, content: Value, isLoading: bool, hasChart: bool, chartData: Option<Response>)

  const WELCOME: string := "Welcome to Saudi StockBot! How can I help you with the Saudi stock market today?"
  const PLACEHOLDER: string := "Analyzing your request..."
  const FALLBACK_ANSWER: string :=
    "I'm sorry, I'm having trouble connecting to the server right now. Please try again later."
  const ATTACH_PROMPT: string := "What would you like to know about this chart?"
  const DETAILED_ANSWER: string := "Here's the detailed price history for the selected company."
  const DETAILED_ERROR: string := "Sorry, I couldn't load the detailed chart data. Please try again later."

  function Welcome(): Message
  {
    Message(1, Assistant, Str(WELCOME), false, false, None)
  }

  function UserMessage(id: nat, input: string): Message
  {
    Message(id, User, Str(input), false, false, None)
  }

  function Placeholder(id: nat): Message
  {
    Message(id, Assistant, Str(PLACEHOLDER), true, false, None)
  }

  /** A plain assistant message without a chart. */
  function Notice(id: nat, text: string): Message
  {
    Message(id, Assistant, Str(text), false, false, None)
  }

  function Answer(r: Response): Value { Lookup(r.data, "answer") }
  function Chart(r: Response): Value { Lookup(r.data, "chart") }

  /** The assistant message that replaces the placeholders once the chat reply is in. */
  function BotMessage(id: nat, r: Response): Message
  {
    Message(id, Assistant, Answer(r), false, Truthy(Chart(r)), Some(r))
  }

  /** The reply `sendChatMessage` returns when posting fails. */
  function Fallback(): Response
  {
    Response([Prop("answer", Str(FALLBACK_ANSWER)), Prop("chart", Null)], Str("Error occurred"))
  }

  /** The side panel opens on a reply that has both a chart tag and stocks. */
  predicate ShowsChart(r: Response)
  {
    Truthy(Chart(r)) && Truthy(Lookup(r.data, "stocks"))
  }

  /** The fallback reply carries the fixed answer, flags no chart and opens no panel. */
  lemma FallbackHasNoChart(id: nat)
    ensures BotMessage(id, Fallback()).content == Str(FALLBACK_ANSWER)
    ensures !BotMessage(id, Fallback()).hasChart
    ensures !ShowsChart(Fallback())
  {
    LookupAt(Fallback().data, 1);
  }

  // ------------------------------------------------------------ blank input

  /** The characters `String.prototype.trim` removes: white space and line terminators. */
  predicate IsWhitespace(c: char)
  {
    c == '\t' || c == '\n' || c == '\U{B}' || c == '\U{C}' || c == '\r' || c == ' '
    || c == '\U{A0}' || c == '\U{1680}' || ('\U{2000}' <= c <= '\U{200A}')
    || c == '\U{2028}' || c == '\U{2029}' || c == '\U{202F}' || c == '\U{205F}'
    || c == '\U{3000}' || c == '\U{FEFF}'
  }

  /** `trim` at the start: a suffix of `s` that starts with no white space. */
  function TrimStart(s: string): (r: string)
    ensures |r| <= |s|
    ensures r == [] || !IsWhitespace(r[0])
  {
    if s == [] || !IsWhitespace(s[0]) then s else TrimStart(s[1..])
  }

  /** `trim` at the end: a prefix of `s` that ends with no white space. */
  function TrimEnd(s: string): (r: string)
    ensures |r| <= |s|
    ensures r == [] || !IsWhitespace(r[|r| - 1])
  {
    if s == [] || !IsWhitespace(s[|s| - 1]) then s else TrimEnd(s[..|s| - 1])
  }

  function Trim(s: string): string
  {
    TrimEnd(TrimStart(s))
  }

  /** `!inputValue.trim()`. */
  predicate IsBlank(s: string)
  {
    Trim(s) == ""
  }

  /** Trimming the start removes exactly the leading white space: what is left is a suffix
      and everything before it is white space. */
  lemma {:induction false} TrimStartShape(s: string)
    ensures var r := TrimStart(s);
      && r == s[|s| - |r|..]
      && forall i :: 0 <= i < |s| - |r| ==> IsWhitespace(s[i])
  {
    if s != [] && IsWhitespace(s[0]) {
      TrimStartShape(s[1..]);
    }
  }

  /** Trimming the end removes exactly the trailing white space: what is left is a prefix
      and everything after it is white space. */
  lemma {:induction false} TrimEndShape(s: string)
    ensures var r := TrimEnd(s);
      && r == s[..|r|]
      && forall i :: |r| <= i < |s| ==> IsWhitespace(s[i])
  {
    if s != [] && IsWhitespace(s[|s| - 1]) {
      var t := s[..|s| - 1];
      TrimEndShape(t);
      var r := TrimEnd(t);
      assert r == s[..|r|] by {
        assert t[..|r|] == s[..|r|];
      }
    }
  }

  /** Input is blank exactly when every character of it is white space. */
  lemma BlankIffAllWhitespace(s: string)
    ensures IsBlank(s) <==> forall i :: 0 <= i < |s| ==> IsWhitespace(s[i])
  {
    TrimStartShape(s);
    TrimEndShape(TrimStart(s));
  }

  // ---------------------------------------------------------------- history

  /** The log without its loading placeholders, in order. */
  function WithoutLoading(ms: seq<Message>): (r: seq<Message>)
    ensures |r| <= |ms|
    ensures ms != [] && !ms[0].isLoading ==> r != [] && r[0] == ms[0]
  {
    if ms == [] then []
    else (if ms[0].isLoading then [] else [ms[0]]) + WithoutLoading(ms[1..])
  }

  lemma {:induction false} WithoutLoadingAppend(a: seq<Message>, b: seq<Message>)
    ensures WithoutLoading(a + b) == WithoutLoading(a) + WithoutLoading(b)
  {
    if a != [] {
      assert (a + b)[1..] == a[1..] + b;
      WithoutLoadingAppend(a[1..], b);
    } else {
      assert a + b == b;
    }
  }

  predicate NoLoading(ms: seq<Message>)
  {
    forall i :: 0 <= i < |ms| ==> !ms[i].isLoading
  }

  /** Exactly the messages that are not placeholders stay. */
  lemma {:induction false} WithoutLoadingMembers(ms: seq<Message>)
    ensures NoLoading(WithoutLoading(ms))
    ensures forall m :: m in WithoutLoading(ms) <==> m in ms && !m.isLoading
  {
    if ms != [] {
      WithoutLoadingMembers(ms[1..]);
      assert ms == [ms[0]] + ms[1..];
    }
  }

  lemma {:induction false} WithoutLoadingNoop(ms: seq<Message>)
    requires NoLoading(ms)
    ensures WithoutLoading(ms) == ms
  {
    if ms != [] {
      WithoutLoadingNoop(ms[1..]);
    }
  }

  /** One `{role, content}` entry of the request. */
  datatype ApiMessage = ApiMessage(role: Role, content: Value)

  function AsApi(ms: seq<Message>): seq<ApiMessage>
  {
    seq(|ms|, i requires 0 <= i < |ms| => ApiMessage(ms[i].role, ms[i].content))
  }

  /** `conversationHistory.filter(msg => !msg.isLoading).map(...)`. */
  function History(ms: seq<Message>): seq<ApiMessage>
  {
    AsApi(WithoutLoading(ms))
  }

  /** The history of a log after a send: the earlier history followed by the user's text; the
      new placeholder is left out. */
  lemma HistoryOfSend(log: seq<Message>, id: nat, input: string)
    ensures History(log + [UserMessage(id, input), Placeholder(id + 1)])
         == History(log) + [ApiMessage(User, Str(input))]
  {
    var tail := [UserMessage(id, input), Placeholder(id + 1)];
    WithoutLoadingAppend(log, tail);
    assert WithoutLoading(tail) == [UserMessage(id, input)] by {
      assert tail[1..] == [Placeholder(id + 1)];
      assert tail[1..][1..] == [];
    }
    assert AsApi(WithoutLoading(log) + [UserMessage(id, input)])
        == AsApi(WithoutLoading(log)) + [ApiMessage(User, Str(input))];
  }

  /** The placeholders of a send are replaced by exactly one reply: when the log had no
      placeholder before, the user's message and the reply are all that is left appended. */
  lemma SendLeavesOneReply(log: seq<Message>, id: nat, input: string, r: Response)
    requires NoLoading(log)
    ensures WithoutLoading(log + [UserMessage(id, input), Placeholder(id + 1)]) + [BotMessage(id + 2, r)]
         == log + [UserMessage(id, input), BotMessage(id + 2, r)]
  {
    var tail := [UserMessage(id, input), Placeholder(id + 1)];
    WithoutLoadingAppend(log, tail);
    WithoutLoadingNoop(log);
    assert tail[1..] == [Placeholder(id + 1)];
    assert tail[1..][1..] == [];
  }

  function CountLoading(ms: seq<Message>): nat
  {
    if ms == [] then 0 else (if ms[0].isLoading then 1 else 0) + CountLoading(ms[1..])
  }

  lemma {:induction false} CountLoadingAppend(a: seq<Message>, b: seq<Message>)
    ensures CountLoading(a + b) == CountLoading(a) + CountLoading(b)
  {
    if a != [] {
      assert (a + b)[1..] == a[1..] + b;
      CountLoadingAppend(a[1..], b);
    } else {
      assert a + b == b;
    }
  }

  lemma {:induction false} CountLoadingZero(ms: seq<Message>)
    ensures CountLoading(ms) == 0 <==> NoLoading(ms)
  {
    if ms != [] {
      CountLoadingZero(ms[1..]);
      assert NoLoading(ms) <==> !ms[0].isLoading && NoLoading(ms[1..]);
    }
  }

  // ------------------------------------------------------- symbol resolution

  /** The symbol table in the order `Object.entries` yields it: keys that are array indices
      ("1120", "2010", "2222", "2280", "7010") come first, in ascending numeric order, then
      the other keys in the order they were written. */
  const SYMBOL_TABLE: seq<(string, string)> := [
    ("1120", "RAJHI"), ("2010", "SABIC"), ("2222", "ARAMCO"), ("2280", "ALMARAI"), ("7010", "STC"),
    ("aramco", "ARAMCO"), ("sabic", "SABIC"), ("stc", "STC"), ("rajhi", "RAJHI"), ("almarai", "ALMARAI")]

  const COMPANY_NAMES: map<string, string> := map[
    "ARAMCO" := "Saudi Aramco",
    "SABIC" := "Saudi Basic Industries Corp",
    "STC" := "Saudi Telecom Company",
    "RAJHI" := "Al Rajhi Bank",
    "ALMARAI" := "Almarai Company"]

  /** `companyNames[symbol] || symbol`. */
  function CompanyName(symbol: string): (name: string)
    ensures symbol !in COMPANY_NAMES ==> name == symbol
  {
    if symbol in COMPANY_NAMES && COMPANY_NAMES[symbol] != "" then COMPANY_NAMES[symbol] else symbol
  }

  /** Every ticker of the symbol table has a company name, so the fallback to the ticker
      never applies. */
  lemma EveryTickerNamed(i: nat)
    requires i < |SYMBOL_TABLE|
    ensures SYMBOL_TABLE[i].1 in COMPANY_NAMES
    ensures CompanyName(SYMBOL_TABLE[i].1) == COMPANY_NAMES[SYMBOL_TABLE[i].1] != ""
  {
  }

  /** `toLowerCase` on a character whose lower-case form is one character: an ASCII capital
      becomes its small letter and the Kelvin sign (U+212A) an ASCII `k`. Every other
      character is kept (see `Lower` for the dotted capital I). */
  function LowerChar(c: char): (l: char)
    ensures 'A' <= c <= 'Z' ==> l as int == c as int + 32
    ensures c == '\U{212A}' ==> l == 'k'
    ensures !('A' <= c <= 'Z') && c != '\U{212A}' ==> l == c
  {
    if 'A' <= c <= 'Z' then (c as int + 32) as char
    else if c == '\U{212A}' then 'k'
    else c
  }

  /** `toLowerCase` on a string. The capital I with dot above (U+0130) is the one character
      whose lower-case form is two: `i` followed by a combining dot above (U+0307). */
  function Lower(s: string): (l: string)
    ensures |l| >= |s|
  {
    if s == [] then []
    else (if s[0] == '\U{130}' then ['i', '\U{307}'] else [LowerChar(s[0])]) + Lower(s[1..])
  }

  /** Lower-casing works character by character, so it distributes over concatenation. */
  lemma {:induction false} LowerAppend(s: string, t: string)
    ensures Lower(s + t) == Lower(s) + Lower(t)
  {
    if s == [] {
      assert s + t == t;
    } else {
      assert (s + t)[0] == s[0] && (s + t)[1..] == s[1..] + t;
      LowerAppend(s[1..], t);
    }
  }

  /** Without a dotted capital I, lower-casing keeps the length and maps each character on
      its own. */
  lemma {:induction false} LowerPointwise(s: string)
    requires forall i :: 0 <= i < |s| ==> s[i] != '\U{130}'
    ensures |Lower(s)| == |s|
    ensures forall i :: 0 <= i < |s| ==> Lower(s)[i] == LowerChar(s[i])
  {
    if s != [] {
      LowerPointwise(s[1..]);
    }
  }

  /** `needle` occurs in `hay` starting at position `i`. */
  predicate OccursAt(hay: string, needle: string, i: nat)
  {
    i + |needle| <= |hay| && hay[i..i + |needle|] == needle
  }

  /** `hay.includes(needle)`. */
  predicate Includes(hay: string, needle: string)
    decreases |hay|
  {
    needle <= hay || (hay != [] && Includes(hay[1..], needle))
  }

  lemma {:induction false} IncludesAt(hay: string, needle: string, i: nat)
    requires OccursAt(hay, needle, i)
    ensures Includes(hay, needle)
  {
    if i > 0 {
      assert hay[1..][i - 1..i - 1 + |needle|] == hay[i..i + |needle|];
      IncludesAt(hay[1..], needle, i - 1);
    } else {
      assert needle <= hay;
    }
  }

  lemma {:induction false} IncludesWitness(hay: string, needle: string)
    requires Includes(hay, needle)
    ensures exists i: nat :: OccursAt(hay, needle, i)
  {
    if needle <= hay {
      assert OccursAt(hay, needle, 0);
    } else {
      IncludesWitness(hay[1..], needle);
      var i: nat :| OccursAt(hay[1..], needle, i);
      assert hay[1..][i..i + |needle|] == hay[i + 1..i + 1 + |needle|];
      assert OccursAt(hay, needle, i + 1);
    }
  }

  /** A needle whose first character is at no position where it would still fit does not
      occur. */
  lemma {:induction false} NotIncludedIn(hay: string, needle: string)
    requires needle != []
    requires forall i :: 0 <= i && i + |needle| <= |hay| ==> hay[i] != needle[0]
    ensures !Includes(hay, needle)
    decreases |hay|
  {
    if hay != [] {
      if |needle| <= |hay| {
        assert hay[0] != needle[0];
      }
      assert forall i :: 0 <= i && i + |needle| <= |hay[1..]| ==> hay[1..][i] == hay[i + 1];
      NotIncludedIn(hay[1..], needle);
    }
  }

  /** `includes` finds the needle exactly when it occurs at some position. */
  lemma IncludesIff(hay: string, needle: string)
    ensures Includes(hay, needle) <==> exists i: nat :: OccursAt(hay, needle, i)
  {
    if Includes(hay, needle) {
      IncludesWitness(hay, needle);
    }
    if exists i: nat :: OccursAt(hay, needle, i) {
      var i: nat :| OccursAt(hay, needle, i);
      IncludesAt(hay, needle, i);
    }
  }

  /** The first table entry at or after `from` whose key occurs in `lower`. */
  function FirstMatch(lower: string, from: nat): (r: Option<nat>)
    requires from <= |SYMBOL_TABLE|
    ensures r.Some? ==> from <= r.value < |SYMBOL_TABLE|
    decreases |SYMBOL_TABLE| - from
  {
    if from == |SYMBOL_TABLE| then None
    else if Includes(lower, SYMBOL_TABLE[from].0) then Some(from)
    else FirstMatch(lower, from + 1)
  }

  /** The match found is the first key from `from` on that occurs; there is none exactly when
      no key from `from` on occurs. */
  lemma {:induction false} FirstMatchIsFirst(lower: string, from: nat)
    requires from <= |SYMBOL_TABLE|
    ensures var r := FirstMatch(lower, from);
      && (r.Some? ==> Includes(lower, SYMBOL_TABLE[r.value].0))
      && (r.Some? ==> forall j :: from <= j < r.value ==> !Includes(lower, SYMBOL_TABLE[j].0))
      && (r.None? <==> forall j :: from <= j < |SYMBOL_TABLE| ==> !Includes(lower, SYMBOL_TABLE[j].0))
    decreases |SYMBOL_TABLE| - from
  {
    if from < |SYMBOL_TABLE| && !Includes(lower, SYMBOL_TABLE[from].0) {
      FirstMatchIsFirst(lower, from + 1);
    }
  }

  /** The `{symbol, companyName}` the page resolves a message to. */
  function ResolveSymbol(message: string): (r: (string, string))
    ensures r.0 == "" ==> r.1 == ""
    ensures r.0 != "" ==> r.0 in COMPANY_NAMES && r.1 == COMPANY_NAMES[r.0]
  {
    match FirstMatch(Lower(message), 0)
    case Some(i) => EveryTickerNamed(i); (SYMBOL_TABLE[i].1, CompanyName(SYMBOL_TABLE[i].1))
    case None => ("", "")
  }

  /** The resolved ticker is that of the first table key occurring in the lower-cased
      message, with that ticker's company name; no occurring key resolves to two empty
      strings. */
  lemma ResolveSymbolFirstHit(message: string)
    ensures var (symbol, name) := ResolveSymbol(message);
      && (symbol == "" <==> forall j :: 0 <= j < |SYMBOL_TABLE| ==> !Includes(Lower(message), SYMBOL_TABLE[j].0))
      && (symbol == "" ==> name == "")
      && (symbol != "" ==> exists i :: (
            && 0 <= i < |SYMBOL_TABLE|
            && Includes(Lower(message), SYMBOL_TABLE[i].0)
            && (forall j :: 0 <= j < i ==> !Includes(Lower(message), SYMBOL_TABLE[j].0))
            && symbol == SYMBOL_TABLE[i].1 && name == COMPANY_NAMES[symbol]))
  {
    FirstMatchIsFirst(Lower(message), 0);
    var m := FirstMatch(Lower(message), 0);
    if m.Some? {
      EveryTickerNamed(m.value);
    }
  }

  /** Conversely, the first key that occurs is the match found. */
  lemma {:induction false} FirstMatchAt(lower: string, from: nat, i: nat)
    requires from <= i < |SYMBOL_TABLE| && Includes(lower, SYMBOL_TABLE[i].0)
    requires forall j :: from <= j < i ==> !Includes(lower, SYMBOL_TABLE[j].0)
    ensures FirstMatch(lower, from) == Some(i)
    decreases i - from
  {
    if from < i {
      assert !Includes(lower, SYMBOL_TABLE[from].0);
      FirstMatchAt(lower, from + 1, i);
    }
  }

  /** A message in which the first key that occurs is entry `i`'s resolves to that entry's
      ticker and company name. */
  lemma ResolvesToFirstHit(message: string, i: nat)
    requires i < |SYMBOL_TABLE| && Includes(Lower(message), SYMBOL_TABLE[i].0)
    requires forall j :: 0 <= j < i ==> !Includes(Lower(message), SYMBOL_TABLE[j].0)
    ensures ResolveSymbol(message) == (SYMBOL_TABLE[i].1, COMPANY_NAMES[SYMBOL_TABLE[i].1])
  {
    FirstMatchAt(Lower(message), 0, i);
    EveryTickerNamed(i);
  }

  /** The Tadawul codes are enumerated before the names, and "1120" first of all: a message
      containing it resolves to Al Rajhi Bank whatever company it names ("sabic 1120" too). */
  lemma CodeBeforeName(message: string)
    requires Includes(Lower(message), "1120")
    ensures ResolveSymbol(message) == ("RAJHI", "Al Rajhi Bank")
  {
    ResolvesToFirstHit(message, 0);
  }

  /** A dotted capital I lower-cases to `i` and a combining dot: "RAJH\u0130" contains `rajhi`
      once lower-cased and resolves to Al Rajhi Bank. */
  lemma DottedCapitalIResolves()
    ensures ResolveSymbol("RAJH" + ['\U{130}']) == ("RAJHI", "Al Rajhi Bank")
  {
    var lower := Lower("RAJH" + ['\U{130}']);
    assert lower == "rajhi" + ['\U{307}'] by {
      LowerAppend("RAJH", ['\U{130}']);
      assert Lower(['\U{130}']) == ['i', '\U{307}'];
      assert Lower("RAJH") == "rajh";
    }
    assert OccursAt(lower, "rajhi", 0);
    IncludesAt(lower, "rajhi", 0);
    forall j | 0 <= j < 8
      ensures !Includes(lower, SYMBOL_TABLE[j].0)
    {
      NotIncludedIn(lower, SYMBOL_TABLE[j].0);
    }
    ResolvesToFirstHit("RAJH" + ['\U{130}'], 8);
  }

  /** `extractSymbolFromMessage`. */
  method ExtractSymbolFromMessage(message: string) returns (symbol: string, companyName: string)
    ensures (symbol, companyName) == ResolveSymbol(message)
  {
    var lower := Lower(message);
    var i := 0;
    while i < |SYMBOL_TABLE|
      invariant 0 <= i <= |SYMBOL_TABLE|
      invariant FirstMatch(lower, i) == FirstMatch(lower, 0)
    {
      var (key, ticker) := SYMBOL_TABLE[i];
      if Includes(lower, key) {
        return ticker, CompanyName(ticker);
      }
      i := i + 1;
    }
    return "", "";
  }

  // -------------------------------------------------------------- dashboard

  /** A `DashboardStock` as far as the page uses it. */
  datatype DashboardStock = DashboardStock(
    companyId: int, companyName: string, acrynomNameAr: string, price: real, percentageGained: real)

  datatype Direction = Up | Down

  predicate Moved(s: DashboardStock, d: Direction)
  {
    if d == Up then s.percentageGained > 0.0 else s.percentageGained < 0.0
  }

  /** The stocks that moved in direction `d`, in dashboard order. */
  function Movers(ss: seq<DashboardStock>, d: Direction): (r: seq<DashboardStock>)
    ensures |r| <= |ss|
    ensures forall s :: s in r <==> s in ss && Moved(s, d)
  {
    if ss == [] then []
    else (if Moved(ss[0], d) then [ss[0]] else []) + Movers(ss[1..], d)
  }

  lemma {:induction false} MoversAppend(a: seq<DashboardStock>, b: seq<DashboardStock>, d: Direction)
    ensures Movers(a + b, d) == Movers(a, d) + Movers(b, d)
  {
    if a != [] {
      assert (a + b)[1..] == a[1..] + b;
      MoversAppend(a[1..], b, d);
    } else {
      assert a + b == b;
    }
  }

  function Take<T>(s: seq<T>, n: nat): (r: seq<T>)
    ensures |r| == if |s| < n then |s| else n
    ensures r == s[..|r|]
  {
    if |s| <= n then s else s[..n]
  }

  lemma TakeWithin<T>(s: seq<T>, n: nat)
    ensures forall x :: x in Take(s, n) ==> x in s
  {
    forall x | x in Take(s, n) ensures x in s {
      var i :| 0 <= i < |Take(s, n)| && Take(s, n)[i] == x;
      assert s[i] == x;
    }
  }

  /** `gainers` and `losers`: the first five movers each way; none when the dashboard data is
      not an array (`None`). */
  function Gainers(d: Option<seq<DashboardStock>>): (r: seq<DashboardStock>)
    ensures |r| <= 5
    ensures forall s :: s in r ==> d.Some? && s in d.value && s.percentageGained > 0.0
    ensures d.None? ==> r == []
    ensures d.Some? ==>
      && |r| == (if |Movers(d.value, Up)| < 5 then |Movers(d.value, Up)| else 5)
      && r == Movers(d.value, Up)[..|r|]
  {
    if d.None? then [] else TakeWithin(Movers(d.value, Up), 5); Take(Movers(d.value, Up), 5)
  }

  function Losers(d: Option<seq<DashboardStock>>): (r: seq<DashboardStock>)
    ensures |r| <= 5
    ensures forall s :: s in r ==> d.Some? && s in d.value && s.percentageGained < 0.0
    ensures d.None? ==> r == []
    ensures d.Some? ==>
      && |r| == (if |Movers(d.value, Down)| < 5 then |Movers(d.value, Down)| else 5)
      && r == Movers(d.value, Down)[..|r|]
  {
    if d.None? then [] else TakeWithin(Movers(d.value, Down), 5); Take(Movers(d.value, Down), 5)
  }

  /** `topMovers`: up to three gainers followed by up to two losers. */
  function TopMovers(d: Option<seq<DashboardStock>>): (r: seq<DashboardStock>)
    ensures |r| <= 5
    ensures d.None? ==> r == []
    ensures forall s :: s in r ==> d.Some? && s in d.value && s.percentageGained != 0.0
  {
    TakeWithin(Gainers(d), 3);
    TakeWithin(Losers(d), 2);
    Take(Gainers(d), 3) + Take(Losers(d), 2)
  }

  /** The top movers are the first (up to) three gainers in dashboard order followed by the
      first (up to) two losers, so at most five; none when the data is not an array. */
  lemma TopMoversShape(d: Option<seq<DashboardStock>>)
    ensures var top, k := TopMovers(d), |Take(Gainers(d), 3)|;
      && |top| <= 5 && k <= 3 && |top| - k <= 2
      && (d.Some? ==> top[..k] == Take(Movers(d.value, Up), 3) && top[k..] == Take(Movers(d.value, Down), 2))
      && (d.None? ==> top == [])
  {
    var top, g, l := TopMovers(d), Take(Gainers(d), 3), Take(Losers(d), 2);
    assert top[..|g|] == g && top[|g|..] == l;
  }

  /** The first part of the top movers gained, the rest lost; a stock that did not move is
      never among them. */
  lemma TopMoversSigns(d: Option<seq<DashboardStock>>)
    ensures var top, k := TopMovers(d), |Take(Gainers(d), 3)|;
      && (forall i :: 0 <= i < k ==> Moved(top[i], Up))
      && (forall i :: k <= i < |top| ==> Moved(top[i], Down))
      && (forall i :: 0 <= i < |top| ==> top[i].percentageGained != 0.0)
  {
    var g, l := Take(Gainers(d), 3), Take(Losers(d), 2);
    TakeMoved(Gainers(d), d, Up, 3);
    TakeMoved(Losers(d), d, Down, 2);
    MovedConcat(g, l);
  }

  lemma TakeMoved(ms: seq<DashboardStock>, d: Option<seq<DashboardStock>>, dir: Direction, n: nat)
    requires ms == (if dir == Up then Gainers(d) else Losers(d))
    ensures forall i :: 0 <= i < |Take(ms, n)| ==> Moved(Take(ms, n)[i], dir)
  {
    var t := Take(ms, n);
    forall i | 0 <= i < |t| ensures Moved(t[i], dir) {
      assert t[i] == ms[i];
      assert ms[i] in ms;
      if d.Some? {
        assert ms[i] in Movers(d.value, dir);
      }
    }
  }

  lemma MovedConcat(g: seq<DashboardStock>, l: seq<DashboardStock>)
    requires forall i :: 0 <= i < |g| ==> Moved(g[i], Up)
    requires forall i :: 0 <= i < |l| ==> Moved(l[i], Down)
    ensures var top := g + l;
      && (forall i :: 0 <= i < |g| ==> Moved(top[i], Up))
      && (forall i :: |g| <= i < |top| ==> Moved(top[i], Down))
      && (forall i :: 0 <= i < |top| ==> top[i].percentageGained != 0.0)
  {
    var top := g + l;
    forall i | |g| <= i < |top| ensures Moved(top[i], Down) {
      assert top[i] == l[i - |g|];
    }
  }

  // -------------------------------------------------------------- attachment

  /** What the attachment bar shows for the attached context: a company's name (falling back
      to "Company Data"), acronym and sector; a price history's point count; or a generic
      label. */
  datatype Attachment =
    | CompanyAttachment(title: Value, acronym: Value, sector: Value)
    | PriceHistoryAttachment(points: nat)
    | GenericAttachment

  function AttachmentType(a: Attachment): string
  {
    match a
    case CompanyAttachment(_, _, _) => "Company Info"
    case PriceHistoryAttachment(_) => "Price History"
    case GenericAttachment => "Chart Data"
  }

  /** `getChartAttachmentInfo`. */
  function AttachmentInfo(ctx: Value): (a: Option<Attachment>)
    ensures a.None? <==> !Truthy(ctx)
  {
    if !Truthy(ctx) then None
    else
      var chart, stocks := Get(ctx, "chart"), Get(ctx, "stocks");
      if chart == Str(DynamicChart.SEARCH_COMPANY) then
        Some(CompanyAttachment(
          Or(Get(stocks, "companyName"), Str("Company Data")),
          Or(Get(stocks, "acrynomName"), Str("")),
          Or(Get(stocks, "sector"), Str(""))))
      else if chart == Str(DynamicChart.DETAILED_PRICES) then
        Some(PriceHistoryAttachment(if stocks.Arr? then |stocks.elems| else 0))
      else Some(GenericAttachment)
  }

  /** The attachment bar shows the context the chart attaches for a company search
      (`DynamicChart.SnapshotContext`) as company info under the company's name (or
      "Company Data"), with its acronym and sector. */
  lemma AttachmentOfSnapshotContext(info: Props)
    ensures AttachmentInfo(DynamicChart.SnapshotContext(info))
         == Some(CompanyAttachment(
              Or(Lookup(info, "companyName"), Str("Company Data")),
              Or(Lookup(info, "acrynomName"), Str("")),
              Or(Lookup(info, "sector"), Str(""))))
  {
    var stocks := DynamicChart.Project(info, DynamicChart.SNAPSHOT_FIELDS);
    AttachmentOfCompany(stocks);
    SnapshotFieldsShown(info);
  }

  lemma AttachmentOfCompany(stocks: Props)
    ensures AttachmentInfo(Obj([Prop("chart", Str(DynamicChart.SEARCH_COMPANY)), Prop("stocks", Obj(stocks))]))
         == Some(CompanyAttachment(
              Or(Lookup(stocks, "companyName"), Str("Company Data")),
              Or(Lookup(stocks, "acrynomName"), Str("")),
              Or(Lookup(stocks, "sector"), Str(""))))
  {
    LookupAt([Prop("chart", Str(DynamicChart.SEARCH_COMPANY)), Prop("stocks", Obj(stocks))], 1);
  }

  lemma SnapshotFieldsShown(info: Props)
    ensures var stocks := DynamicChart.Project(info, DynamicChart.SNAPSHOT_FIELDS);
      && Lookup(stocks, "companyName") == Lookup(info, "companyName")
      && Lookup(stocks, "acrynomName") == Lookup(info, "acrynomName")
      && Lookup(stocks, "sector") == Lookup(info, "sector")
  {
    DynamicChart.ProjectLookup(info, DynamicChart.SNAPSHOT_FIELDS, "companyName");
    DynamicChart.ProjectLookup(info, DynamicChart.SNAPSHOT_FIELDS, "acrynomName");
    DynamicChart.ProjectLookup(info, DynamicChart.SNAPSHOT_FIELDS, "sector");
  }

  /** The attachment bar shows the context the chart attaches for a detailed price chart
      (`DynamicChart.SeriesContext`) as a price history with one point per point of the
      series. */
  lemma AttachmentOfSeriesContext(ps: seq<Props>)
    ensures AttachmentInfo(DynamicChart.SeriesContext(ps)) == Some(PriceHistoryAttachment(|ps|))
  {
    var ctx := DynamicChart.SeriesContext(ps);
    LookupAt(ctx.props, 1);
  }

  // ---------------------------------------------------------- chart fetches

  /** `let chartData = response; if (response.data) chartData = response.data`, then the
      array check; `None` is the path that ends in the error message (a non-array, or a
      `null` body whose `.data` throws). */
  function ChartPoints(body: Value): (r: Option<seq<Value>>)
    ensures body.Arr? ==> r == Some(body.elems)
    ensures body.Obj? && Lookup(body.props, "data").Arr? ==> r == Some(Lookup(body.props, "data").elems)
    ensures r.Some? ==> body.Arr? || (body.Obj? && Lookup(body.props, "data").Arr?)
  {
    var chartData := if Truthy(Get(body, "data")) then Get(body, "data") else body;
    if chartData.Arr? then Some(chartData.elems) else None
  }

  /** An `apiClient.get(endpoint, params)` call: the endpoint and the parameters object as
      its entry list; `ApiConfig.BuildApiUrl` turns it into the URL fetched. */
  datatype GetRequest = GetRequest(endpoint: ApiConfig.Endpoint, params: seq<(string, ApiConfig.ParamValue)>)

  /** What an awaited GET of the chart endpoint produced: the parsed body, or a rejection. */
  datatype FetchOutcome = Fetched(body: Value) | FetchFailed

  /** What an awaited chat POST produced. */
  datatype PostOutcome = Delivered(response: Response) | PostFailed

  /** `sendChatMessage`'s result: the server's reply, or the fallback on any failure. */
  function ReplyOf(outcome: PostOutcome): (r: Response)
    ensures outcome.Delivered? ==> r == outcome.response
    ensures outcome.PostFailed? ==> Answer(r) == Str(FALLBACK_ANSWER) && !Truthy(Chart(r)) && !ShowsChart(r)
  {
    if outcome.Delivered? then outcome.response else FallbackHasNoChart(0); Fallback()
  }

  /** How the page prints numbers: `String(n)` and `n.toFixed(2)`. */
  datatype NumberFormat = NumberFormat(show: real -> string, fixed2: real -> string)

  function StockAnswer(s: DashboardStock, fmt: NumberFormat): string
  {
    "Here's the price history for " + s.companyName + " (" + s.acrynomNameAr + "). Current price: "
    + fmt.show(s.price) + " SAR with " + (if s.percentageGained >= 0.0 then "+" else "")
    + fmt.fixed2(s.percentageGained) + "% change."
  }

  function StockError(s: DashboardStock): string
  {
    "Sorry, I couldn't load the chart data for " + s.companyName + ". Please try again later."
  }

  /** The reply the page makes up for a loaded series. */
  function ChartReply(answer: string, points: seq<Value>, message: string): Response
  {
    Response([Prop("answer", Str(answer)), Prop("stocks", Arr(points)),
              Prop("chart", Str(DynamicChart.DETAILED_PRICES))], Str(message))
  }

  /** A made-up chart reply opens the panel on a detailed price chart of exactly the loaded
      points, whatever their number. */
  lemma ChartReplyShows(answer: string, points: seq<Value>, message: string, dateLabel: Value -> string)
    ensures var r := ChartReply(answer, points, message);
      && ShowsChart(r) && Answer(r) == Str(answer)
      && Chart(r) == Str(DynamicChart.DETAILED_PRICES)
      && DynamicChart.Payload(r.data) == Arr(points)
  {
    var r := ChartReply(answer, points, message);
    LookupAt(r.data, 0);
    LookupAt(r.data, 1);
    LookupAt(r.data, 2);
  }

  // ------------------------------------------------------------- the session

  /** The part of a send the awaited call hands to the completion: the request that was
      posted and the ticker resolved from the input. */
  datatype ChatRequest = ChatRequest(messages: seq<ApiMessage>, context: Value)
  datatype PendingSend = PendingSend(request: ChatRequest, symbol: string, companyName: string)

  predicate IdsIncreasing(ms: seq<Message>)
  {
    forall i, j :: 0 <= i < j < |ms| ==> ms[i].id < ms[j].id
  }

  predicate IdsBelow(ms: seq<Message>, n: nat)
  {
    forall i :: 0 <= i < |ms| ==> ms[i].id < n
  }

  predicate IdsAbove(ms: seq<Message>, lo: int)
  {
    forall i :: 0 <= i < |ms| ==> lo < ms[i].id
  }

  /** Dropping the placeholders keeps the ids in increasing order and within their bounds. */
  lemma {:induction false} WithoutLoadingKeepsIds(ms: seq<Message>, lo: int, n: nat)
    requires IdsIncreasing(ms) && IdsAbove(ms, lo) && IdsBelow(ms, n)
    ensures IdsIncreasing(WithoutLoading(ms)) && IdsAbove(WithoutLoading(ms), lo)
    ensures IdsBelow(WithoutLoading(ms), n)
  {
    if ms != [] {
      var tail := ms[1..];
      assert IdsAbove(tail, ms[0].id) by {
        forall i | 0 <= i < |tail| ensures ms[0].id < tail[i].id {
          assert tail[i] == ms[i + 1];
        }
      }
      WithoutLoadingKeepsIds(tail, ms[0].id, n);
      var rest := WithoutLoading(tail);
      if !ms[0].isLoading {
        var r := [ms[0]] + rest;
        assert WithoutLoading(ms) == r;
        forall i, j | 0 <= i < j < |r| ensures r[i].id < r[j].id {
          assert r[j] == rest[j - 1];
          if i > 0 { assert r[i] == rest[i - 1]; }
        }
      }
    }
  }

  /** Replacing the placeholders by a reply with the next id keeps the ids increasing and
      leaves no placeholder. */
  lemma ReplyKeepsLog(ms: seq<Message>, n: nat, m: Message)
    requires IdsIncreasing(ms) && IdsBelow(ms, n) && m.id == n && !m.isLoading
    ensures var r := WithoutLoading(ms) + [m];
      IdsIncreasing(r) && IdsBelow(r, n + 1) && NoLoading(r)
  {
    WithoutLoadingKeepsIds(ms, -1, n);
    WithoutLoadingMembers(ms);
    var w := WithoutLoading(ms);
    var r := w + [m];
    forall i, j | 0 <= i < j < |r| ensures r[i].id < r[j].id {
      if j < |w| { assert r[i] == w[i] && r[j] == w[j]; } else { assert r[i] == w[i]; }
    }
  }

  /** Appending the user's message and a placeholder with the next two ids keeps the ids
      increasing. */
  lemma SendKeepsLog(ms: seq<Message>, n: nat, input: string)
    requires IdsIncreasing(ms) && IdsBelow(ms, n)
    ensures var r := ms + [UserMessage(n, input), Placeholder(n + 1)];
      IdsIncreasing(r) && IdsBelow(r, n + 2)
  {
    var r := ms + [UserMessage(n, input), Placeholder(n + 1)];
    forall i, j | 0 <= i < j < |r| ensures r[i].id < r[j].id {
      if j < |ms| { assert r[i] == ms[i] && r[j] == ms[j]; } else if i < |ms| { assert r[i] == ms[i]; }
    }
  }

  /** A send adds exactly one placeholder; a plain message adds none. */
  lemma CountAfterSend(ms: seq<Message>, id: nat, input: string)
    ensures CountLoading(ms + [UserMessage(id, input), Placeholder(id + 1)]) == CountLoading(ms) + 1
  {
    var tail := [UserMessage(id, input), Placeholder(id + 1)];
    CountLoadingAppend(ms, tail);
    assert tail[1..] == [Placeholder(id + 1)];
    assert tail[1..][1..] == [];
    assert CountLoading(tail[1..]) == 1;
  }

  lemma CountAfterNotice(ms: seq<Message>, m: Message)
    requires !m.isLoading
    ensures CountLoading(ms + [m]) == CountLoading(ms)
  {
    CountLoadingAppend(ms, [m]);
    assert [m][1..] == [];
    assert CountLoading([m]) == 0;
  }

  /** A chat send followed by a stock click whose fetch fails before the chat reply arrives:
      the page is no longer busy, yet the send's placeholder is still in the log. */
  method SendThenStockClick(input: string, stock: DashboardStock, fmt: NumberFormat) returns (page: ChatSession)
    requires !IsBlank(input)
    ensures fresh(page) && page.Valid() && !page.isLoading && !page.Settled()
    ensures CountLoading(page.messages) == 1
  {
    page := new ChatSession();
    page.SetInput(input);
    var m0 := page.messages;
    var first := page.BeginSend();
    CountAfterSend(m0, 2, input);
    var fetch := page.BeginStockClick(stock);
    var m1 := page.messages;
    assert CountLoading(m1) == 1 && page.nextId == 4;
    page.CompleteStockClick(stock, FetchFailed, fmt);
    assert page.messages == m1 + [Notice(4, StockError(stock))];
    CountAfterNotice(m1, Notice(4, StockError(stock)));
    CountLoadingZero(page.messages);
  }

  /** A second send made in that state is accepted, and the log then holds two placeholders
      at once. */
  method StockClickDuringSend(first: string, second: string, stock: DashboardStock, fmt: NumberFormat)
    returns (accepted: bool, placeholders: nat)
    requires !IsBlank(first) && !IsBlank(second)
    ensures accepted && placeholders == 2
  {
    var page := SendThenStockClick(first, stock, fmt);
    page.SetInput(second);
    var m2 := page.messages;
    var id := page.nextId;
    var pending := page.BeginSend();
    CountAfterSend(m2, id, second);
    accepted := pending.Some?;
    placeholders := CountLoading(page.messages);
  }

  class ChatSession {
    var messages: seq<Message>
    var inputValue: string
    var isLoading: bool
    /** The attached chart context; `Null` when nothing is attached. */
    var chartContext: Value
    var currentChartData: Option<Response>
    var currentSymbol: string
    var currentCompanyName: string
    var showChart: bool
    /** The id the next message gets. */
    var nextId: nat

    /** Message ids are distinct and appear in increasing order, all below the counter. */
    predicate Valid()
      reads this
    {
      nextId >= 2 && IdsIncreasing(messages) && IdsBelow(messages, nextId)
    }

    /** When no request is in flight, no placeholder is in the log. The chat handlers keep
        this; a chart fetch that finishes during a chat send breaks it. */
    predicate Settled()
      reads this
    {
      !isLoading ==> NoLoading(messages)
    }

    constructor()
      ensures Valid() && Settled()
      ensures messages == [Welcome()] && inputValue == "" && !isLoading
      ensures chartContext == Null && currentChartData.None? && !showChart
      ensures currentSymbol == "" && currentCompanyName == "" && nextId == 2
    {
      messages := [Welcome()];
      inputValue := "";
      isLoading := false;
      chartContext := Null;
      currentChartData := None;
      currentSymbol := "";
      currentCompanyName := "";
      showChart := false;
      nextId := 2;
    }

    /** Typing into the input. */
    method SetInput(s: string)
      requires Valid()
      modifies this
      ensures Valid() && (old(Settled()) ==> Settled())
      ensures inputValue == s
      ensures messages == old(messages) && isLoading == old(isLoading) && chartContext == old(chartContext)
      ensures currentChartData == old(currentChartData) && showChart == old(showChart)
      ensures currentSymbol == old(currentSymbol) && currentCompanyName == old(currentCompanyName)
      ensures nextId == old(nextId)
    {
      inputValue := s;
    }

    method AppendMessage(m: Message)
      requires Valid() && m.id == nextId
      modifies this
      ensures Valid()
      ensures messages == old(messages) + [m] && nextId == old(nextId) + 1
      ensures inputValue == old(inputValue) && isLoading == old(isLoading) && chartContext == old(chartContext)
      ensures currentChartData == old(currentChartData) && showChart == old(showChart)
      ensures currentSymbol == old(currentSymbol) && currentCompanyName == old(currentCompanyName)
    {
      messages := messages + [m];
      nextId := nextId + 1;
    }

    /** The first half of `handleSendMessage` (Enter or the send button): nothing happens for
        blank input or while a request is in flight; otherwise the user's message and one
        placeholder are appended, the input is cleared, the page is busy, and the request
        carries the history without placeholders and the attached context. */
    method BeginSend() returns (pending: Option<PendingSend>)
      requires Valid()
      modifies this
      ensures Valid() && (old(Settled()) ==> Settled())
      ensures pending.None? <==> old(IsBlank(inputValue)) || old(isLoading)
      ensures pending.None? ==>
        && messages == old(messages) && inputValue == old(inputValue) && isLoading == old(isLoading)
        && nextId == old(nextId)
      ensures pending.Some? ==>
        && messages == old(messages) + [UserMessage(old(nextId), old(inputValue)), Placeholder(old(nextId) + 1)]
        && isLoading && inputValue == "" && nextId == old(nextId) + 2
        && pending.value.request == ChatRequest(History(messages), old(chartContext))
        && (pending.value.symbol, pending.value.companyName) == ResolveSymbol(old(inputValue))
      ensures chartContext == old(chartContext) && currentChartData == old(currentChartData)
      ensures showChart == old(showChart)
      ensures currentSymbol == old(currentSymbol) && currentCompanyName == old(currentCompanyName)
    {
      if IsBlank(inputValue) || isLoading {
        return None;
      }
      var input := inputValue;
      SendKeepsLog(messages, nextId, input);
      messages := messages + [UserMessage(nextId, input), Placeholder(nextId + 1)];
      nextId := nextId + 2;
      isLoading := true;
      inputValue := "";
      var symbol, companyName := ExtractSymbolFromMessage(input);
      pending := Some(PendingSend(ChatRequest(History(messages), chartContext), symbol, companyName));
    }

    /** The second half of `handleSendMessage`, with `sendChatMessage`'s handling of the post:
        a delivered reply detaches the context, a failure keeps it and answers with the
        fallback. Every placeholder then in the log is removed and one assistant message with
        the answer is appended; a reply with a chart tag and stocks opens the panel on it
        under the ticker resolved when the send began; the page is no longer busy. */
    method CompleteSend(pending: PendingSend, outcome: PostOutcome)
      requires Valid()
      modifies this
      ensures Valid() && Settled()
      ensures messages == WithoutLoading(old(messages)) + [BotMessage(old(nextId), ReplyOf(outcome))]
      ensures nextId == old(nextId) + 1 && !isLoading
      ensures chartContext == if outcome.Delivered? then Null else old(chartContext)
      ensures ShowsChart(ReplyOf(outcome)) ==>
        && currentChartData == Some(ReplyOf(outcome)) && showChart
        && currentSymbol == pending.symbol && currentCompanyName == pending.companyName
      ensures !ShowsChart(ReplyOf(outcome)) ==>
        && currentChartData == old(currentChartData) && showChart == old(showChart)
        && currentSymbol == old(currentSymbol) && currentCompanyName == old(currentCompanyName)
      ensures inputValue == old(inputValue)
    {
      var response := ReplyOf(outcome);
      if outcome.Delivered? {
        chartContext := Null;
      }
      ReplyKeepsLog(messages, nextId, BotMessage(nextId, response));
      messages := WithoutLoading(messages) + [BotMessage(nextId, response)];
      nextId := nextId + 1;
      if ShowsChart(response) {
        currentChartData := Some(response);
        currentSymbol := pending.symbol;
        currentCompanyName := pending.companyName;
        showChart := true;
      }
      isLoading := false;
    }

    /** `handleAskAboutChart` on the page: the context replaces whatever was attached, the
        panel closes and the attach prompt is appended. */
    method AttachContext(ctx: Value)
      requires Valid()
      modifies this
      ensures Valid() && (old(Settled()) ==> Settled())
      ensures chartContext == ctx && !showChart
      ensures messages == old(messages) + [Notice(old(nextId), ATTACH_PROMPT)] && nextId == old(nextId) + 1
      ensures isLoading == old(isLoading) && inputValue == old(inputValue)
      ensures currentChartData == old(currentChartData)
      ensures currentSymbol == old(currentSymbol) && currentCompanyName == old(currentCompanyName)
    {
      chartContext := ctx;
      showChart := false;
      AppendMessage(Notice(nextId, ATTACH_PROMPT));
    }

    /** `handleCancelChartAttachment`: detaches the context and nothing else. */
    method CancelAttachment()
      requires Valid()
      modifies this
      ensures Valid() && (old(Settled()) ==> Settled())
      ensures chartContext == Null
      ensures messages == old(messages) && nextId == old(nextId) && isLoading == old(isLoading)
      ensures inputValue == old(inputValue) && showChart == old(showChart)
      ensures currentChartData == old(currentChartData)
      ensures currentSymbol == old(currentSymbol) && currentCompanyName == old(currentCompanyName)
    {
      chartContext := Null;
    }

    /** `clearConversation`: back to the welcome message, with no chart and no context. The
        busy flag, the input and the resolved ticker are left as they were. */
    method ClearConversation()
      requires Valid()
      modifies this
      ensures Valid() && (old(Settled()) ==> Settled())
      ensures messages == [Welcome()] && !showChart && currentChartData.None? && chartContext == Null
      ensures nextId == old(nextId) && isLoading == old(isLoading) && inputValue == old(inputValue)
      ensures currentSymbol == old(currentSymbol) && currentCompanyName == old(currentCompanyName)
    {
      messages := [Welcome()];
      showChart := false;
      currentChartData := None;
      chartContext := Null;
    }

    /** The panel's close button and backdrop. */
    method CloseChart()
      requires Valid()
      modifies this
      ensures Valid() && (old(Settled()) ==> Settled())
      ensures !showChart
      ensures messages == old(messages) && nextId == old(nextId) && isLoading == old(isLoading)
      ensures inputValue == old(inputValue) && chartContext == old(chartContext)
      ensures currentChartData == old(currentChartData)
      ensures currentSymbol == old(currentSymbol) && currentCompanyName == old(currentCompanyName)
    {
      showChart := false;
    }

    /** The first half of `handleStockClick` on a top mover: the page is busy and the chart
        endpoint is asked for the company's id. Nothing checks whether a request is already in
        flight. */
    method BeginStockClick(stock: DashboardStock) returns (request: GetRequest)
      requires Valid()
      modifies this
      ensures Valid() && Settled()
      ensures isLoading
      ensures request == GetRequest(ApiConfig.DashboardChart, [("companyId", ApiConfig.Int(stock.companyId))])
      ensures messages == old(messages) && nextId == old(nextId) && inputValue == old(inputValue)
      ensures chartContext == old(chartContext) && currentChartData == old(currentChartData)
      ensures showChart == old(showChart)
      ensures currentSymbol == old(currentSymbol) && currentCompanyName == old(currentCompanyName)
    {
      isLoading := true;
      request := GetRequest(ApiConfig.DashboardChart, [("companyId", ApiConfig.Int(stock.companyId))]);
    }

    /** The second half of `handleStockClick`: an array of points (the body's truthy `data`,
        else the body) opens the panel on them under the stock's acronym and name with an
        answer naming price and gain; anything else appends the error message. Either way the
        page is no longer busy, even if a chat send is still in flight. */
    method CompleteStockClick(stock: DashboardStock, outcome: FetchOutcome, fmt: NumberFormat)
      requires Valid()
      modifies this
      ensures Valid()
      ensures !isLoading && nextId == old(nextId) + 1
      ensures var points := if outcome.Fetched? then ChartPoints(outcome.body) else None;
        && (points.Some? ==>
              var r := ChartReply(StockAnswer(stock, fmt), points.value, "Chart data loaded successfully");
              && messages == old(messages) + [Message(old(nextId), Assistant, Str(StockAnswer(stock, fmt)), false, true, Some(r))]
              && currentChartData == Some(r) && showChart
              && currentSymbol == stock.acrynomNameAr && currentCompanyName == stock.companyName)
        && (points.None? ==>
              && messages == old(messages) + [Notice(old(nextId), StockError(stock))]
              && currentChartData == old(currentChartData) && showChart == old(showChart)
              && currentSymbol == old(currentSymbol) && currentCompanyName == old(currentCompanyName))
      ensures chartContext == old(chartContext) && inputValue == old(inputValue)
    {
      var points := if outcome.Fetched? then ChartPoints(outcome.body) else None;
      if points.Some? {
        var answer := StockAnswer(stock, fmt);
        var r := ChartReply(answer, points.value, "Chart data loaded successfully");
        currentChartData := Some(r);
        currentSymbol := stock.acrynomNameAr;
        currentCompanyName := stock.companyName;
        showChart := true;
        AppendMessage(Message(nextId, Assistant, Str(answer), false, true, Some(r)));
      } else {
        AppendMessage(Notice(nextId, StockError(stock)));
      }
      isLoading := false;
    }

    /** The first half of `handleLoadDetailedChart`, from the company card's button: the page
        is busy and the chart endpoint is asked for the Tadawul id. */
    method BeginDetailedChart(companyId: int, tadawulId: string) returns (request: GetRequest)
      requires Valid()
      modifies this
      ensures Valid() && Settled()
      ensures isLoading
      ensures request == GetRequest(ApiConfig.DashboardChart, [("tadawulId", ApiConfig.Text(tadawulId))])
      ensures messages == old(messages) && nextId == old(nextId) && inputValue == old(inputValue)
      ensures chartContext == old(chartContext) && currentChartData == old(currentChartData)
      ensures showChart == old(showChart)
      ensures currentSymbol == old(currentSymbol) && currentCompanyName == old(currentCompanyName)
    {
      isLoading := true;
      request := GetRequest(ApiConfig.DashboardChart, [("tadawulId", ApiConfig.Text(tadawulId))]);
    }

    /** The second half of `handleLoadDetailedChart`: like a stock click, but with a fixed
        answer, and the ticker and company name shown stay what they were. */
    method CompleteDetailedChart(outcome: FetchOutcome)
      requires Valid()
      modifies this
      ensures Valid()
      ensures !isLoading && nextId == old(nextId) + 1
      ensures var points := if outcome.Fetched? then ChartPoints(outcome.body) else None;
        && (points.Some? ==>
              var r := ChartReply(DETAILED_ANSWER, points.value, "Detailed chart data loaded successfully");
              && messages == old(messages) + [Message(old(nextId), Assistant, Str(DETAILED_ANSWER), false, true, Some(r))]
              && currentChartData == Some(r) && showChart)
        && (points.None? ==>
              && messages == old(messages) + [Notice(old(nextId), DETAILED_ERROR)]
              && currentChartData == old(currentChartData) && showChart == old(showChart))
      ensures chartContext == old(chartContext) && inputValue == old(inputValue)
      ensures currentSymbol == old(currentSymbol) && currentCompanyName == old(currentCompanyName)
    {
      var points := if outcome.Fetched? then ChartPoints(outcome.body) else None;
      if points.Some? {
        var r := ChartReply(DETAILED_ANSWER, points.value, "Detailed chart data loaded successfully");
        currentChartData := Some(r);
        showChart := true;
        AppendMessage(Message(nextId, Assistant, Str(DETAILED_ANSWER), false, true, Some(r)));
      } else {
        AppendMessage(Notice(nextId, DETAILED_ERROR));
      }
      isLoading := false;
    }
  }
}
