/** The shared record types of the dashboard: the detection categories, one
    classification result and one entry of the category statistics. */
module Types {

  datatype Option<+T> = None | Some(value: T)

  /** The four members of the category enumeration. */
  datatype Category = HateSpeech | Offensive | Safe | Uncertain

  /** The string each enumeration member stands for at run time. */
  function Value(c: Category): (s: string)
    ensures s != ""
  {
    match c
    case HateSpeech => "Hate Speech"
    case Offensive => "Offensive Language"
    case Safe => "Safe / Neutral"
    case Uncertain => "Uncertain"
  }

  /** The enumeration member a label string stands for, if any. */
  function Parse(s: string): (r: Option<Category>)
    ensures r.Some? ==> Value(r.value) == s
    ensures r.None? ==> forall c :: Value(c) != s
  {
    if s == Value(HateSpeech) then Some(HateSpeech)
    else if s == Value(Offensive) then Some(Offensive)
    else if s == Value(Safe) then Some(Safe)
    else if s == Value(Uncertain) then Some(Uncertain)
    else None
  }

  /** One classification result. `category` holds the label string exactly as
      the classification service returned it: the assembly casts it to the
      enumeration without checking, so at run time it may be any string. */
  datatype AnalysisResult = AnalysisResult(
    id: string,
    text: string,
    category: string,
    confidence: real,
    explanation: string,
    timestamp: int,
    flaggedKeywords: seq<string>)

  /** One bucket of the category statistics; the chart colour is left out. */
  datatype StatsData = StatsData(name: string, value: nat)
}
