/** The top-level application component: the session store with its five
    state cells and their transitions, and the category statistics derived
    from the history. */
module App {
  import opened Types
  import opened JsString
  import opened GeminiService

  /** The shown error when the thrown error carries no usable message. */
  const DefaultFailureMessage: string := "Failed to analyze text. Please try again."

  /** The three views the navigation switches between. */
  datatype Tab = Analyze | History | Stats

  /** The categories published as statistics, in the order they are listed. */
  const Published: seq<Category> := [HateSpeech, Offensive, Safe]

  /** `err.message || default`: an absent or empty message is falsy. */
  function FailureText(message: Option<string>): (shown: string)
    ensures shown != ""
    ensures message.Some? && message.value != "" ==> shown == message.value
    ensures message.None? || message.value == "" ==> shown == DefaultFailureMessage
  {
    match message
    case Some(m) => if m != "" then m else DefaultFailureMessage
    case None => DefaultFailureMessage
  }

  // ---------------------------------------------------------------------------
  // Category statistics

  /** Reference definition: how many entries of `history` carry `category`. */
  function Count(history: seq<AnalysisResult>, category: string): nat
  {
    if history == [] then 0
    else (if history[0].category == category then 1 else 0) + Count(history[1..], category)
  }

  /** `acc[key] || 0`: a key the accumulator has not seen reads as 0. */
  function Lookup(acc: map<string, nat>, key: string): (v: nat)
    ensures key !in acc ==> v == 0
    ensures key in acc ==> v == acc[key]
  {
    if key in acc then acc[key] else 0
  }

  /** The `reduce` over the history: from accumulator `acc`, bump the entry of
      each remaining result's category by one, front to back. */
  function Tally(acc: map<string, nat>, rest: seq<AnalysisResult>): (counts: map<string, nat>)
    ensures forall k :: k in counts <==> k in acc || Count(rest, k) > 0
    decreases |rest|
  {
    if rest == [] then acc
    else
      var key := rest[0].category;
      Tally(acc[key := Lookup(acc, key) + 1], rest[1..])
  }

  /** The fold adds to every key exactly the number of entries with that
      category. */
  lemma {:induction false} TallyCounts(acc: map<string, nat>, rest: seq<AnalysisResult>, key: string)
    ensures Lookup(Tally(acc, rest), key) == Lookup(acc, key) + Count(rest, key)
    decreases |rest|
  {
    if rest != [] {
      var k := rest[0].category;
      var bumped := acc[k := Lookup(acc, k) + 1];
      assert Lookup(bumped, key) == Lookup(acc, key) + (if k == key then 1 else 0);
      TallyCounts(bumped, rest[1..], key);
    }
  }

  /** Counting distributes over concatenation. */
  lemma {:induction false} CountAppend(a: seq<AnalysisResult>, b: seq<AnalysisResult>, category: string)
    ensures Count(a + b, category) == Count(a, category) + Count(b, category)
    decreases |a|
  {
    if a == [] {
      assert a + b == b;
    } else {
      assert (a + b)[1..] == a[1..] + b;
      CountAppend(a[1..], b, category);
    }
  }

  /** One result counts once towards its own category and nowhere else. */
  lemma CountSingle(x: AnalysisResult, category: string)
    ensures Count([x], category) == if x.category == category then 1 else 0
  {
  }

  /** The derived statistics: exactly three buckets, hate speech, offensive
      language and safe, each the number of history entries of its category. */
  function StatsOf(history: seq<AnalysisResult>): (stats: seq<StatsData>)
    ensures |stats| == |Published|
    ensures forall i :: 0 <= i < |stats| ==>
      stats[i].name == Value(Published[i]) && stats[i].value == Count(history, Value(Published[i]))
  {
    var counts := Tally(map[], history);
    TallyCounts(map[], history, Value(HateSpeech));
    TallyCounts(map[], history, Value(Offensive));
    TallyCounts(map[], history, Value(Safe));
    [ StatsData(Value(HateSpeech), Lookup(counts, Value(HateSpeech))),
      StatsData(Value(Offensive), Lookup(counts, Value(Offensive))),
      StatsData(Value(Safe), Lookup(counts, Value(Safe))) ]
  }

  /** The entries of `history` whose category is one of the published three. */
  ghost predicate AllPublished(history: seq<AnalysisResult>)
  {
    forall i :: 0 <= i < |history| ==> history[i].category in SchemaCategories()
  }

  /** Entries of any other category (`Uncertain`, or a label outside the
      schema) fall into no bucket: the buckets add up to at most the history
      length, and to exactly it iff every entry is of a published category. */
  lemma {:induction false} BucketsBounded(history: seq<AnalysisResult>)
    ensures Count(history, Value(HateSpeech)) + Count(history, Value(Offensive))
            + Count(history, Value(Safe)) <= |history|
    ensures (Count(history, Value(HateSpeech)) + Count(history, Value(Offensive))
             + Count(history, Value(Safe)) == |history|) <==> AllPublished(history)
  {
    if history != [] {
      BucketsBounded(history[1..]);
      if AllPublished(history[1..]) && history[0].category in SchemaCategories() {
        forall i | 0 <= i < |history| ensures history[i].category in SchemaCategories() {
          if i > 0 { assert history[i] == history[1..][i - 1]; }
        }
      }
      if AllPublished(history) {
        forall i | 0 <= i < |history| - 1 ensures history[1..][i].category in SchemaCategories() {
          assert history[1..][i] == history[i + 1];
        }
      }
    }
  }

  /** The statistics' values add up to at most the number of results. */
  lemma StatsBounded(history: seq<AnalysisResult>)
    ensures var stats := StatsOf(history);
            stats[0].value + stats[1].value + stats[2].value <= |history|
  {
    BucketsBounded(history);
  }

  /** `v` is what a search for the first bucket named `name` reads: that
      bucket's value, or 0 when no bucket has the name. */
  ghost predicate FirstWith(stats: seq<StatsData>, name: string, v: nat)
  {
    && ((forall i :: 0 <= i < |stats| ==> stats[i].name != name) ==> v == 0)
    && (forall i :: (0 <= i < |stats| && stats[i].name == name
                     && forall j :: 0 <= j < i ==> stats[j].name != name) ==> v == stats[i].value)
  }

  /** `stats.find(s => s.name === name)?.value || 0`. */
  function FindValue(stats: seq<StatsData>, name: string): (v: nat)
    ensures FirstWith(stats, name, v)
  {
    if stats == [] then 0
    else if stats[0].name == name then stats[0].value
    else FindValue(stats[1..], name)
  }

  /** The three quick-stat figures of the side panel. */
  datatype QuickStats = QuickStats(clean: nat, offensive: nat, hate: nat)

  /** The side panel reads each figure from the bucket of its category. */
  function QuickStatsOf(stats: seq<StatsData>): (q: QuickStats)
    ensures FirstWith(stats, Value(Safe), q.clean)
    ensures FirstWith(stats, Value(Offensive), q.offensive)
    ensures FirstWith(stats, Value(HateSpeech), q.hate)
  {
    QuickStats(FindValue(stats, Value(Safe)), FindValue(stats, Value(Offensive)),
               FindValue(stats, Value(HateSpeech)))
  }

  /** Read from the derived statistics, the quick-stat figures are the
      category counts of the history. */
  lemma QuickStatsMatchBuckets(history: seq<AnalysisResult>)
    ensures QuickStatsOf(StatsOf(history)) ==
      QuickStats(Count(history, Value(Safe)), Count(history, Value(Offensive)),
                 Count(history, Value(HateSpeech)))
  {
    var stats := StatsOf(history);
    assert stats[0].name == "Hate Speech" && stats[1].name == "Offensive Language"
        && stats[2].name == "Safe / Neutral";
    assert Value(HateSpeech)[0] != Value(Offensive)[0] && Value(HateSpeech)[0] != Value(Safe)[0];
    assert Value(Offensive)[0] != Value(Safe)[0];
    assert FindValue(stats, Value(Offensive)) == FindValue(stats[1..], Value(Offensive));
    assert FindValue(stats, Value(Safe)) == FindValue(stats[1..][1..], Value(Safe));
  }

  /** A new result prepended to the history adds one to the bucket of its
      own category and leaves the other buckets as they were. */
  lemma StatsAfterPrepend(result: AnalysisResult, history: seq<AnalysisResult>)
    ensures forall i :: 0 <= i < |Published| ==>
      StatsOf([result] + history)[i].value ==
        StatsOf(history)[i].value + (if result.category == Value(Published[i]) then 1 else 0)
  {
  }

  /** A history holding one result of each published category. */
  lemma StatsOfOneEach(offensive: AnalysisResult, safe: AnalysisResult, hate: AnalysisResult)
    requires hate.category == Value(HateSpeech)
    requires offensive.category == Value(Offensive)
    requires safe.category == Value(Safe)
    ensures StatsOf([offensive, safe, hate]) ==
      [StatsData(Value(HateSpeech), 1), StatsData(Value(Offensive), 1), StatsData(Value(Safe), 1)]
  {
    assert [offensive, safe, hate] == [offensive] + ([safe] + [hate]);
    assert Value(HateSpeech)[0] != Value(Offensive)[0] && Value(HateSpeech)[0] != Value(Safe)[0];
    assert Value(Offensive)[0] != Value(Safe)[0];
    forall category
      ensures Count([offensive] + ([safe] + [hate]), category)
              == (if offensive.category == category then 1 else 0)
                 + (if safe.category == category then 1 else 0)
                 + (if hate.category == category then 1 else 0)
    {
      CountAppend([offensive], [safe] + [hate], category);
      CountAppend([safe], [hate], category);
      CountSingle(offensive, category);
      CountSingle(safe, category);
      CountSingle(hate, category);
    }
  }

  // ---------------------------------------------------------------------------
  // The session store

  /** The state cells of the application component and the transitions that
      update them. */
  class Session {
    var history: seq<AnalysisResult>
    var currentAnalysis: Option<AnalysisResult>
    var isLoading: bool
    var error: Option<string>
    var activeTab: Tab

    /** What every transition keeps: a shown error is never empty, and the
        displayed result is one of the history's. */
    ghost predicate Valid()
      reads this
    {
      && (error.Some? ==> error.value != "")
      && (currentAnalysis.Some? ==> currentAnalysis.value in history)
    }

    /** The initial values of the five cells. */
    constructor ()
      ensures Valid()
      ensures history == [] && currentAnalysis == None
      ensures !isLoading && error == None && activeTab == Analyze
    {
      history := [];
      currentAnalysis := None;
      isLoading := false;
      error := None;
      activeTab := Analyze;
    }

    /** The statistics memoised on `history`: recomputed from the current
        history, one bucket per published category. */
    function Stats(): (stats: seq<StatsData>)
      reads this
      ensures |stats| == |Published|
      ensures forall i :: 0 <= i < |stats| ==>
        stats[i].name == Value(Published[i]) && stats[i].value == Count(history, Value(Published[i]))
    {
      StatsOf(history)
    }

    /** The start of `handleAnalyze`: loading, and the previous error cleared. */
    method Begin()
      requires Valid()
      modifies this
      ensures Valid()
      ensures isLoading && error == None
      ensures history == old(history) && currentAnalysis == old(currentAnalysis)
      ensures activeTab == old(activeTab)
    {
      isLoading := true;
      error := None;
    }

    /** The analysis resolved with `result`: it is displayed and becomes the
        newest history entry. */
    method Succeed(result: AnalysisResult)
      requires Valid()
      modifies this
      ensures Valid()
      ensures currentAnalysis == Some(result)
      ensures history == [result] + old(history)
      ensures |history| == |old(history)| + 1 && history[0] == result
      ensures isLoading == old(isLoading) && error == old(error)
      ensures activeTab == old(activeTab)
    {
      currentAnalysis := Some(result);
      history := [result] + history;
    }

    /** The analysis threw an error carrying `message`. */
    method Fail(message: Option<string>)
      requires Valid()
      modifies this
      ensures Valid()
      ensures error == Some(FailureText(message))
      ensures history == old(history) && currentAnalysis == old(currentAnalysis)
      ensures isLoading == old(isLoading) && activeTab == old(activeTab)
    {
      error := Some(FailureText(message));
    }

    /** The `finally` block: loading is over whatever the outcome. */
    method Finish()
      requires Valid()
      modifies this
      ensures Valid()
      ensures !isLoading
      ensures history == old(history) && currentAnalysis == old(currentAnalysis)
      ensures error == old(error) && activeTab == old(activeTab)
    {
      isLoading := false;
    }

    /** One complete `handleAnalyze(text)` run, the remote call settling as
        `call` says, with identifier `id` and clock reading `now`. */
    method HandleAnalyze(text: string, call: Call, id: string, now: int)
      requires Valid()
      modifies this
      ensures Valid()
      ensures !isLoading && activeTab == old(activeTab)
      ensures match AnalyzeText(text, call, id, now)
        case Resolved(result) =>
          && history == [result] + old(history)
          && currentAnalysis == Some(result)
          && error == None
        case Rejected(message) =>
          && history == old(history)
          && currentAnalysis == old(currentAnalysis)
          && error == Some(FailureText(message))
      // blank input never reaches the service and surfaces the guard's message
      ensures IsBlank(text) ==>
        && history == old(history)
        && currentAnalysis == old(currentAnalysis)
        && error == Some(EmptyInputMessage)
    {
      Begin();
      var outcome := AnalyzeText(text, call, id, now);
      match outcome {
        case Resolved(result) => Succeed(result);
        case Rejected(message) => Fail(message);
      }
      Finish();
    }

    /** The history list's select callback: display `item` in the scanner. */
    method SelectFromHistory(item: AnalysisResult)
      requires Valid()
      requires item in history
      modifies this
      ensures Valid()
      ensures currentAnalysis == Some(item) && activeTab == Analyze
      ensures history == old(history) && isLoading == old(isLoading) && error == old(error)
      ensures Stats() == old(Stats())
    {
      currentAnalysis := Some(item);
      activeTab := Analyze;
    }

    /** A navigation button: switch to `tab`. */
    method SetActiveTab(tab: Tab)
      requires Valid()
      modifies this
      ensures Valid()
      ensures activeTab == tab
      ensures history == old(history) && currentAnalysis == old(currentAnalysis)
      ensures isLoading == old(isLoading) && error == old(error)
      ensures Stats() == old(Stats())
    {
      activeTab := tab;
    }
  }
}
